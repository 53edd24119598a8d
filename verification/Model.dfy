/**
 The state of the DS-Lite plugin: data model parameters, the private record that hangs off an
 interface object, and the world outside (kernel, firewall, IP manager, netmodel, c-ares).
 Pointers are positive numbers and NULL is 0, so that a pointer may outlive what it points to.
 */
module Model {
  import opened Basics
  import Ioctl

  const NULL: nat := 0
  const ADDRLEN: nat := 45         // INET6_ADDRSTRLEN - 1
  const NAMELEN: nat := 256        // check_maximum on EndpointName
  const TUNNEL_DEVICE := "dslite0" // DSLITE_NETDEV
  const SERVICE := "dslite"        // FW_ALIAS

  datatype Status = Error | Disabled | Enabled
  datatype Precedence = DHCPv6 | Static
  datatype AddressType = FQDN | IPv6Address
  datatype Method = StaticIPv6 | StaticFqdn | FromDhcp

  /** The parameters of one DSLite.InterfaceSetting instance. */
  datatype Settings = Settings(
    path: string, enable: bool, status: Status,
    precedence: Precedence, addressType: AddressType,
    endpointName: string, endpointAddress: string,
    wan: string, tunnelIf: string, tunneledIf: string,
    inUse: string, localAddress: string, origin: Precedence,
    usedVia: Method) // history: the method that produced inUse

  /** `dslite_intf_priv_t`. */
  datatype Record = Record(
    local: string, remote: string, netdev: Option<string>,
    addrQuery: nat, dhcpQuery: nat, dns: nat, retry: nat,
    via: Method,     // history: the method under which remote was obtained
    asked: bool,     // history: a name was submitted since remote was last cleared
    answered: bool)  // history: the last lookup that completed since then succeeded

  datatype QueryKind = Addresses | AftrName

  /** A netmodel subscription; `rec` is the userdata pointer given to the handler. */
  datatype Query = Query(kind: QueryKind, rec: nat)

  /** A `dns_query_t`, as far as it matters to the rest of the plugin. */
  datatype Lookup = Lookup(
    rec: nat, pending: bool, channel: bool,
    armed: bool,     // the destroy timer runs
    ticking: bool,   // the DNS timer runs
    timed: bool,     // the destroy timer exists
    socks: set<int>, // its sockets in the event loop
    via: Method,     // history: the method in force when the lookup was submitted
    name: string)    // history: the name that was submitted

  /** A timer that still runs on the freed DNS query `h`, and whether the query's channel was left behind as well. */
  datatype Leftover = Leftover(h: nat, channel: bool)

  /** An interface object's private side: what it points to, and what exists on its behalf. */
  datatype Private = Private(
    priv: nat,
    heap: map<nat, Record>,     // private records that are allocated
    queries: map<nat, Query>,   // netmodel queries that are open
    lookups: map<nat, Lookup>,  // DNS queries that are allocated
    timers: map<nat, bool>,     // retry timers that exist, true when running
    next: nat,                  // the next pointer value
    queued: Option<string>,     // an EndpointName change event that is still to be handled
    fault: bool,                // a pointer that points to nothing was followed
    stale: set<Leftover>,       // timers that run on DNS queries that were freed
    wild: bool,                 // the timer of a freed DNS query has called back
    queriesOpened: nat, queriesClosed: nat,
    attempts: seq<string>)      // history: the names handed to resolve_endpoint_name

  datatype AddressReport = AddressReport(address: string, netdev: string)

  /** One node of a `struct ares_addrinfo`; every family other than AF_INET counts as IPv6. */
  datatype AddrNode = AddrNode(inet4: bool, addr: int)
  datatype Answer = Failure | Nodes(nodes: seq<AddrNode>)

  /** The outcome of an open call, with what its handler was told before the call returned. */
  datatype Opening<T> = Refused | Opened(now: Option<T>)

  /**
   What lies outside the plugin: the controller module that was loaded, the address conversions,
   and the outcome of every other call that leaves the plugin, by call number.
   */
  datatype Oracle = Oracle(
    add: (Ioctl.Kernel, Ioctl.Args) -> Ioctl.Ret,
    delete: (Ioctl.Kernel, Ioctl.Args) -> Ioctl.Ret,
    pf: Ioctl.Platform,
    ntop: int -> string,
    firewall: nat -> bool,
    ip: nat -> int,
    addresses: nat -> Opening<AddressReport>,
    dhcp: nat -> Opening<string>,
    dns: nat -> Opening<Answer>)

  datatype IpRow = IpRow(enable: bool, lowerLayers: string)

  datatype Env = Env(o: Oracle, calls: nat, kernel: Ioctl.Kernel,
                     services: map<string, string>, ip: map<string, IpRow>)

  /** One interface object together with DSLite.Enable and the shared world. */
  datatype Node = Node(on: bool, dm: Settings, pv: Private, env: Env)

  datatype Res = Res(n: Node, rv: int)

  /** What a controller promises: it reports success only with the tunnel as requested. */
  ghost predicate Trusted(o: Oracle) {
    forall k, a :: o.add(k, a).rv == 0 ==>
      && Ioctl.NonEmpty(a)
      && Ioctl.Carries(o.pf, o.add(k, a).k, Ioctl.IfName(a.tunnelIf.value), a.local.value, a.remote.value)
  }

  /** `get_endp_assignment_method`; the enumeration validators leave no invalid case. */
  function MethodOf(dm: Settings): Method {
    match dm.precedence
    case Static => if dm.addressType == IPv6Address then StaticIPv6 else StaticFqdn
    case DHCPv6 => FromDhcp
  }

  function PrecedenceOf(m: Method): Precedence {
    if m == FromDhcp then DHCPv6 else Static
  }

  predicate Active(n: Node) {
    n.on && n.dm.enable
  }

  predicate Live(n: Node) {
    n.pv.priv in n.pv.heap
  }

  function Rec(n: Node): Record
    requires Live(n)
  {
    n.pv.heap[n.pv.priv]
  }

  function SetRec(n: Node, p: nat, r: Record): Node {
    n.(pv := n.pv.(heap := n.pv.heap[p := r]))
  }

  function SetLookup(n: Node, h: nat, l: Lookup): Node {
    n.(pv := n.pv.(lookups := n.pv.lookups[h := l]))
  }

  function Fault(n: Node): Node {
    n.(pv := n.pv.(fault := true))
  }

  function NextCall(n: Node): Node {
    n.(env := n.env.(calls := n.env.calls + 1))
  }
}
