/** Name resolution and its retry timer: dslite_utils.c on top of dslite_cares.c. */
module Resolver {
  import opened Basics
  import opened Model
  import opened Tunnel

  // ---- retry timers -------------------------------------------------------------------

  /** `amxp_timer_start`; starting NULL does nothing. */
  function StartTimer(n: Node, t: nat): Node {
    if t == NULL then n
    else if t !in n.pv.timers then Fault(n)
    else n.(pv := n.pv.(timers := n.pv.timers[t := true]))
  }

  /** `amxp_timer_delete(&record->dns_timer)`, which leaves NULL behind. */
  function DropRetry(n: Node, p: nat): Node {
    if p !in n.pv.heap then Fault(n)
    else
      var r := n.pv.heap[p];
      var n1 := n.(pv := n.pv.(heap := n.pv.heap[p := r.(retry := NULL)], timers := n.pv.timers - {r.retry}));
      if r.retry != NULL && r.retry !in n.pv.timers then Fault(n1) else n1
  }

  /** Makes sure that a timer exists and is not running. */
  function ReadyTimer(n: Node): Node
    requires Live(n)
  {
    var r := Rec(n);
    if r.retry == NULL then
      var n1 := SetRec(n, n.pv.priv, r.(retry := n.pv.next));
      n1.(pv := n1.pv.(timers := n.pv.timers[n.pv.next := false], next := n.pv.next + 1))
    else if r.retry !in n.pv.timers then Fault(n)
    else n.(pv := n.pv.(timers := n.pv.timers[r.retry := false]))
  }

  // ---- lookups ------------------------------------------------------------------------

  /** The first node that is not an IPv4 address. */
  function FirstV6(nodes: seq<AddrNode>): (k: Option<nat>)
    ensures k.Some? <==> exists i :: 0 <= i < |nodes| && !nodes[i].inet4
    ensures k.Some? ==> k.value < |nodes| && !nodes[k.value].inet4 && forall i :: 0 <= i < k.value ==> nodes[i].inet4
  {
    if nodes == [] then None
    else if !nodes[0].inet4 then Some(0)
    else match FirstV6(nodes[1..]) case None => None case Some(k) => Some(k + 1)
  }

  /** What `dslite_ares_addrinfo_cb` reports: the text of that node's address, or failure. */
  function ResultOf(o: Oracle, a: Answer): Option<string> {
    match a
    case Failure => None
    case Nodes(nodes) => match FirstV6(nodes) case None => None case Some(k) => Some(o.ntop(nodes[k].addr))
  }

  /** `remote_endpoint_addr_query_cb`, for a lookup that was submitted under the method `via`. */
  function DnsCallback(n: Node, p: nat, via: Method, result: Option<string>): Node {
    if p == NULL then n
    else if p !in n.pv.heap then Fault(n)
    else
      var r := n.pv.heap[p];
      match result
      case Some(ip) =>
        var n1 := SetRec(n, p, r.(remote := Trunc(ip, ADDRLEN), via := via, answered := true));
        DropRetry(Setup(n1), p)
      case None =>
        StartTimer(Disable(SetRec(n, p, r.(answered := false)), Error), r.retry)
  }

  /** The completion stops the DNS timer. */
  function Completed(l: Lookup): Lookup {
    l.(pending := false, ticking := false)
  }

  /** A lookup that is outstanding completes. */
  function Complete(n: Node, h: nat, a: Answer): Node
    requires h in n.pv.lookups
  {
    var l := n.pv.lookups[h];
    DnsCallback(SetLookup(n, h, Completed(l)), l.rec, l.via, ResultOf(n.env.o, a))
  }

  /** A fresh `dns_query_t` whose lookup is outstanding; its pointer is n.pv.next. */
  function AddLookup(n: Node, host: string, p: nat): Node {
    var l := Lookup(p, true, true, false, false, true, {}, MethodOf(n.dm), host);
    n.(pv := n.pv.(lookups := n.pv.lookups[n.pv.next := l], next := n.pv.next + 1))
  }

  /** `dslite_open_dns_query`; the result is the pointer, NULL on failure. */
  function OpenLookup(n: Node, host: string, p: nat): (r: Res)
    ensures r.rv == NULL || r.rv == n.pv.next
  {
    if host == "" then Res(n, NULL)
    else
      match n.env.o.dns(n.env.calls)
      case Refused => Res(NextCall(n), NULL)
      case Opened(now) =>
        var n1 := AddLookup(NextCall(n), host, p);
        Res(if now.Some? then Complete(n1, n.pv.next, now.value) else n1, n.pv.next)
  }

  /** `delete_ares_timers`. */
  function DeleteAresTimers(n: Node, h: nat): Node {
    if h == NULL then n
    else if h !in n.pv.lookups then Fault(n)
    else SetLookup(n, h, n.pv.lookups[h].(armed := false, ticking := false, timed := false))
  }

  /** `dslite_ares_sock_cb`: a new socket starts the DNS timer, the last one to go the destroy timer. */
  function SocketChanged(l: Lookup, fd: int, used: bool): Lookup {
    if used then (if fd in l.socks then l else l.(socks := l.socks + {fd}, ticking := true))
    else
      var socks := l.socks - {fd};
      l.(socks := socks, armed := if socks == {} then l.timed else l.armed)
  }

  /** `ares_destroy`: an outstanding lookup completes with a failure from inside the call. */
  function DestroyChannel(n: Node, h: nat): Node
    requires h in n.pv.lookups
  {
    if n.pv.lookups[h].pending then Complete(n, h, Failure) else n
  }

  /**
   Closing this query frees it while a timer runs: its destroy timer, which a socket that c-ares
   closes on the way starts, or a DNS timer that no completion stops any more.
   */
  predicate LeavesTimer(l: Lookup) {
    l.armed || (l.channel && l.timed && l.socks != {}) || (l.ticking && !(l.channel && l.pending))
  }

  function LeftOf(h: nat, l: Lookup): Leftover {
    Leftover(h, l.channel && l.armed)
  }

  /** `dslite_close_dns_query`; with the destroy timer running, the channel stays behind. */
  function CloseLookup(n: Node, h: nat): Node {
    if h == NULL then n
    else if h !in n.pv.lookups then Fault(n)
    else
      var l := n.pv.lookups[h];
      var n1 := if l.channel && !l.armed then DestroyChannel(n, h) else n;
      n1.(pv := n1.pv.(lookups := n1.pv.lookups - {h},
                       stale := n1.pv.stale + if LeavesTimer(l) then {LeftOf(h, l)} else {}))
  }

  /** `dslite_is_waiting_for_getaddrinfo`, for a pointer that is NULL or valid. */
  predicate IsWaiting(n: Node, h: nat) {
    h in n.pv.lookups && n.pv.lookups[h].channel
  }

  /** The first half of `resolve_endpoint_name`: the attempt is on record and a timer is ready. */
  function Submitted(n: Node, host: string): Node
    requires Live(n)
  {
    ReadyTimer(n.(pv := n.pv.(attempts := n.pv.attempts + [host],
                              heap := n.pv.heap[n.pv.priv := Rec(n).(asked := true)])))
  }

  /** The second half: the old query is closed and a new one is stored in the record. */
  function Reopen(n: Node, host: string): Res
    requires Live(n)
  {
    var o := OpenLookup(CloseLookup(n, Rec(n).dns), host, n.pv.priv);
    if !Live(o.n) then Res(Fault(o.n), -1)
    else Res(SetRec(o.n, o.n.pv.priv, Rec(o.n).(dns := o.rv)), if o.rv == NULL then -1 else 0)
  }

  /** `resolve_endpoint_name`. */
  function Resolve(n: Node, host: string): Res {
    if host == "" || n.pv.priv == NULL then Res(n, -1)
    else if !Live(n) then Res(Fault(n), -1)
    else
      var n1 := Submitted(n, host);
      if Rec(n1).local == "" then Res(StartTimer(n1, Rec(n1).retry), -1)
      else Reopen(n1, host)
  }

  /** `dns_timer_cb`: a retry timer that ran has expired. */
  function RetryExpired(n: Node, t: nat): Node
    requires t in n.pv.timers
  {
    Resolve(n.(pv := n.pv.(timers := n.pv.timers[t := false])), n.dm.endpointName).n
  }

  /** The channel has closed its sockets, and the destroy timer is deleted. */
  function Destroyed(l: Lookup): Lookup {
    l.(channel := false, armed := false, timed := false, socks := {})
  }

  function ChannelGone(n: Node, h: nat): Node
    requires h in n.pv.lookups
  {
    var n1 := DestroyChannel(n, h);
    if h !in n1.pv.lookups then n1 else SetLookup(n1, h, Destroyed(n1.pv.lookups[h]))
  }

  /** `dslite_ares_destroy_channel_cb`: the destroy timer of a lookup has expired. */
  function DestroyExpired(n: Node, h: nat): Node
    requires h in n.pv.lookups
  {
    var n0 := SetLookup(n, h, n.pv.lookups[h].(armed := false));
    if !n.pv.lookups[h].channel then n0 else ChannelGone(n0, h)
  }
}
