/**
 The data model event handlers (dm_dslite_events.c) and the callbacks of the outside world as
 transitions. A parameter write and the handlers it triggers are one transition.
 */
module Events {
  import opened Basics
  import opened Model
  import opened Tunnel
  import opened Resolver
  import opened Netmodel
  import opened Interface

  /** Something that happens to one interface. */
  datatype Event =
    | SetEnable(enable: bool)
    | SetAddress(address: string)
    | SetPrecedence(precedence: Precedence)
    | SetAddressType(addressType: AddressType)
    | SetName(name: string)
    | SetWan(wan: string)
    | ReportAddress(q: nat, report: AddressReport)
    | ReportName(q: nat, aftr: string)
    | LookupDone(h: nat, answer: Answer)
    | LookupSocket(h: nat, fd: int, used: bool)
    | DnsTimer(h: nat)
    | DestroyTimer(h: nat)
    | StaleTimer(left: Leftover)
    | RetryTimer(t: nat)

  /** `_toggle_interface`. */
  function ToggleInterface(n: Node, enable: bool): Node {
    if !n.on then n
    else if enable then EnableInterface(n)
    else DisableInterface(n)
  }

  /** `_endpoint_address_changed`. */
  function AddressChanged(n: Node): Node {
    if !Active(n) || MethodOf(n.dm) != StaticIPv6 then n
    else
      var p := GetRemote(n);
      if p.st == Ready then Setup(p.n) else Disable(p.n, Error)
  }

  /** `_endpoint_assignment_precedence_changed`, without the attributes of EndpointName. */
  function PrecedenceChanged(n: Node): Node {
    if !Active(n) then n else Proceed(GetRemote(ClearRemote(n)))
  }

  /** `_endpoint_name_changed`. */
  function NameChanged(n: Node, name: string): Node {
    if !Active(n) || name == "" || MethodOf(n.dm) == StaticIPv6 then n
    else
      var r := Resolve(n, name);
      if r.rv != 0 then Disable(r.n, Error) else r.n
  }

  /** `_endpoint_address_type_precedence_changed`. */
  function AddressTypeChanged(n: Node): Node {
    if !Active(n) || MethodOf(n.dm) == FromDhcp then n else Proceed(GetRemote(ClearRemote(n)))
  }

  /** `_wan_interface_changed`. */
  function WanChanged(n: Node): Node {
    if !Active(n) then n
    else
      var r := OpenAddressQuery(n);
      if r.rv != 0 then Disable(r.n, Error) else Setup(r.n)
  }

  /** The event queue: a name that a DHCP report wrote is handled after the current handler. */
  function Drain(n: Node): Node {
    match n.pv.queued
    case None => n
    case Some(name) => NameChanged(n.(pv := n.pv.(queued := None)), name)
  }

  /** The handler of an event; writing the value a parameter has already triggers nothing. */
  function Handle(n: Node, e: Event): Node {
    match e
    case SetEnable(b) =>
      if b == n.dm.enable then n else ToggleInterface(n.(dm := n.dm.(enable := b)), b)
    case SetAddress(a) =>
      if a == n.dm.endpointAddress || |a| > ADDRLEN then n else AddressChanged(n.(dm := n.dm.(endpointAddress := a)))
    case SetPrecedence(p) =>
      if p == n.dm.precedence then n else PrecedenceChanged(n.(dm := n.dm.(precedence := p)))
    case SetAddressType(t) =>
      if t == n.dm.addressType then n else AddressTypeChanged(n.(dm := n.dm.(addressType := t)))
    case SetName(s) =>
      if s == n.dm.endpointName || |s| > NAMELEN then n else NameChanged(n.(dm := n.dm.(endpointName := s)), s)
    case SetWan(w) =>
      if w == n.dm.wan then n else WanChanged(n.(dm := n.dm.(wan := w)))
    case ReportAddress(q, report) =>
      if q !in n.pv.queries || n.pv.queries[q].kind != Addresses then n
      else AddressCallback(n, n.pv.queries[q].rec, report)
    case ReportName(q, name) =>
      if q !in n.pv.queries || n.pv.queries[q].kind != AftrName then n
      else DhcpCallback(n, n.pv.queries[q].rec, name)
    case LookupDone(h, answer) =>
      if h !in n.pv.lookups || !n.pv.lookups[h].pending then n else Complete(n, h, answer)
    case LookupSocket(h, fd, used) =>
      if h !in n.pv.lookups || !n.pv.lookups[h].channel then n
      else SetLookup(n, h, SocketChanged(n.pv.lookups[h], fd, used))
    case DnsTimer(h) =>
      if h !in n.pv.lookups || !n.pv.lookups[h].ticking then n
      else SetLookup(n, h, n.pv.lookups[h].(ticking := false))
    case DestroyTimer(h) =>
      if h !in n.pv.lookups || !n.pv.lookups[h].armed then n else DestroyExpired(n, h)
    case StaleTimer(left) =>
      if left !in n.pv.stale then n
      else n.(pv := n.pv.(stale := n.pv.stale - {left}, wild := true))
    case RetryTimer(t) =>
      if t !in n.pv.timers || !n.pv.timers[t] then n else RetryExpired(n, t)
  }

  function Step(n: Node, e: Event): Node {
    Drain(Handle(n, e))
  }
}
