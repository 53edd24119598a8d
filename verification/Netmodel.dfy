/** Subscriptions to netmodel and their handlers: dslite_netmodel.c. */
module Netmodel {
  import opened Basics
  import opened Model
  import opened Tunnel
  import opened Resolver

  /** `netmodel_closeQuery`. */
  function CloseQuery(n: Node, q: nat): Node {
    if q == NULL then n
    else if q !in n.pv.queries then Fault(n)
    else n.(pv := n.pv.(queries := n.pv.queries - {q}, queriesClosed := n.pv.queriesClosed + 1))
  }

  /** A query that netmodel accepts; the result is the new node and n.pv.next is its pointer. */
  function AddQuery(n: Node, kind: QueryKind): Node {
    n.(pv := n.pv.(queries := n.pv.queries[n.pv.next := Query(kind, n.pv.priv)], next := n.pv.next + 1,
                   queriesOpened := n.pv.queriesOpened + 1))
  }

  /** `nm_local_addr_cb`; an absent address or device name is empty. */
  function AddressCallback(n: Node, p: nat, report: AddressReport): Node {
    if p == NULL then n
    else if p !in n.pv.heap then Fault(n)
    else if report.address == "" || report.netdev == "" then Disable(n, Error)
    else
      var r := n.pv.heap[p].(local := Trunc(report.address, ADDRLEN), netdev := Some(report.netdev));
      var n1 := SetRec(n, p, r);
      if n1.dm.status == Disabled then n1
      else if r.remote != "" then Setup(n1)
      else n1
  }

  /** `nm_dhcp_cb`; a name that is too long is refused by the parameter's validator. */
  function DhcpCallback(n: Node, p: nat, name: string): Node {
    if name == "" || p == NULL then n
    else if p !in n.pv.heap then Fault(n)
    else if name == n.dm.endpointName then
      var r := Resolve(n, name);
      if r.rv != 0 then Disable(r.n, Error) else r.n
    else if |name| > NAMELEN then n
    else n.(dm := n.dm.(endpointName := name), pv := n.pv.(queued := Some(name)))
  }

  /** An address query that netmodel accepts; its handler may run before the call returns. */
  function SubscribeAddresses(n: Node, now: Option<AddressReport>): Node {
    var n1 := AddQuery(n, Addresses);
    if now.Some? then AddressCallback(n1, n1.pv.priv, now.value) else n1
  }

  /** The same for a DHCP option query. */
  function SubscribeAftr(n: Node, now: Option<string>): Node {
    var n1 := AddQuery(n, AftrName);
    if now.Some? then DhcpCallback(n1, n1.pv.priv, now.value) else n1
  }

  /** The outcome of an open call goes into the record. */
  function StoreAddressQuery(n: Node, q: nat, rv: int): Res {
    if !Live(n) then Res(Fault(n), -1) else Res(SetRec(n, n.pv.priv, Rec(n).(addrQuery := q)), rv)
  }

  function StoreDhcpQuery(n: Node, q: nat, rv: int): Res {
    if !Live(n) then Res(Fault(n), -1) else Res(SetRec(n, n.pv.priv, Rec(n).(dhcpQuery := q)), rv)
  }

  /** `nm_open_local_addr_query`. */
  function OpenAddressQuery(n: Node): Res {
    if n.pv.priv == NULL then Res(n, -1)
    else if !Live(n) then Res(Fault(n), -1)
    else if n.dm.wan == "" then Res(n, -1)
    else
      var n1 := NextCall(CloseQuery(n, Rec(n).addrQuery));
      match n.env.o.addresses(n.env.calls)
      case Refused => StoreAddressQuery(n1, NULL, -1)
      case Opened(now) => StoreAddressQuery(SubscribeAddresses(n1, now), n1.pv.next, 0)
  }

  /** `nm_open_dhcpv6_query`. */
  function OpenDhcpQuery(n: Node): Res {
    if n.pv.priv == NULL then Res(n, -1)
    else if !Live(n) then Res(Fault(n), -1)
    else if n.dm.wan == "" then Res(n, -1)
    else
      var n1 := NextCall(CloseQuery(n, Rec(n).dhcpQuery));
      match n.env.o.dhcp(n.env.calls)
      case Refused => StoreDhcpQuery(n1, NULL, -1)
      case Opened(now) => StoreDhcpQuery(SubscribeAftr(n1, now), n1.pv.next, 0)
  }
}
