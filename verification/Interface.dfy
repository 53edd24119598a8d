/** Life and death of the private record: the rest of dslite_interface.c. */
module Interface {
  import opened Basics
  import opened Model
  import opened Tunnel
  import opened Resolver
  import opened Netmodel

  datatype Parameters = Missing | Ready | Waiting

  datatype ParamRes = ParamRes(n: Node, st: Parameters)

  /** `dslite_intf_priv_t_ctor`: a zeroed record; whatever priv pointed to is not freed. */
  function Create(n: Node): Node {
    var r := Record("", "", None, NULL, NULL, NULL, NULL, MethodOf(n.dm), false, false);
    n.(pv := n.pv.(priv := n.pv.next, heap := n.pv.heap[n.pv.next := r], next := n.pv.next + 1))
  }

  /** `cleanup_private_data`; the pointer in the interface object keeps its value. */
  function Cleanup(n: Node): Node {
    if n.pv.priv == NULL then n
    else if !Live(n) then Fault(n)
    else
      var r := Rec(n);
      var n1 := DeleteAresTimers(CloseQuery(CloseQuery(n, r.dhcpQuery), r.addrQuery), r.dns);
      var n2 := DropRetry(CloseLookup(n1, r.dns), n.pv.priv);
      n2.(pv := n2.pv.(heap := n2.pv.heap - {n.pv.priv}))
  }

  /** The record without a remote address. */
  function Blank(n: Node): Node
    requires Live(n)
  {
    SetRec(n, n.pv.priv, Rec(n).(remote := "", asked := false, answered := false))
  }

  /** Closes whatever produced the remote address. */
  function DropSources(n: Node): Node
    requires Live(n)
  {
    var r := Rec(n);
    var n1 := CloseQuery(n, r.dhcpQuery);
    var n2 := SetRec(n1, n.pv.priv, Rec(n1).(dhcpQuery := NULL));
    var n3 := CloseLookup(DeleteAresTimers(n2, r.dns), r.dns);
    if !Live(n3) then Fault(n3)
    else DropRetry(SetRec(n3, n.pv.priv, Rec(n3).(dns := NULL)), n.pv.priv)
  }

  /** `clear_remote_endpoint_properties`. */
  function ClearRemote(n: Node): Node {
    if n.pv.priv == NULL then n
    else if !Live(n) then Fault(n)
    else DropSources(Blank(n))
  }

  /** `set_static_remote_addr`. */
  function SetStaticRemote(n: Node): ParamRes
    requires Live(n)
  {
    if n.dm.endpointAddress == "" then ParamRes(n, Missing)
    else ParamRes(SetRec(n, n.pv.priv, Rec(n).(remote := Trunc(n.dm.endpointAddress, ADDRLEN), via := MethodOf(n.dm))), Ready)
  }

  /** `get_remote_endp_addr`; a static address follows the record pointer without a NULL check. */
  function GetRemote(n: Node): ParamRes {
    match MethodOf(n.dm)
    case StaticIPv6 =>
      if !Live(n) then ParamRes(Fault(n), Missing)
      else
        var h := Rec(n).dns;
        var n1 := if h != NULL && h !in n.pv.lookups then Fault(n)
                  else if IsWaiting(n, h) then CloseLookup(n, h) else n;
        if !Live(n1) then ParamRes(Fault(n1), Missing) else SetStaticRemote(n1)
    case StaticFqdn =>
      var r := Resolve(n, n.dm.endpointName);
      ParamRes(r.n, if r.rv == 0 then Waiting else Missing)
    case FromDhcp =>
      var r := OpenDhcpQuery(n);
      ParamRes(r.n, if r.rv == 0 then Waiting else Missing)
  }

  /** `get_tunnel_parameters`. */
  function GetParameters(n: Node): ParamRes {
    var a := OpenAddressQuery(n);
    if a.rv != 0 then ParamRes(a.n, Missing) else GetRemote(a.n)
  }

  /** What every caller does with the outcome: set up, wait, or go to Error. */
  function Proceed(p: ParamRes): Node {
    match p.st
    case Ready => Setup(p.n)
    case Waiting => p.n
    case Missing => Disable(p.n, Error)
  }

  /** `enable_interface`. */
  function EnableInterface(n: Node): Node {
    Proceed(GetParameters(Create(n)))
  }

  /** What both toggle handlers do to switch an interface off. */
  function DisableInterface(n: Node): Node {
    Cleanup(Disable(n, Disabled))
  }
}
