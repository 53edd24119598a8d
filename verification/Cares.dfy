/**
 The c-ares adapter (dslite_cares.c) for one `dns_query_t`: its socket list, the event loop, two
 timers, and the channel. What c-ares itself does arrives as events.
 */
module Cares {
  import opened Basics
  import Model
  import Resolver

  datatype Timer = NoTimer | Stopped | Running

  datatype Query = Query(
    channel: bool,            // ares_channel is not NULL
    fds: Option<seq<int>>,    // ares_fds, a list once a socket has been opened
    dnsTimer: Timer,
    destroyTimer: Timer,
    conns: multiset<int>,     // sockets registered in the event loop on behalf of the query
    pending: bool,            // c-ares still owes the completion of the lookup
    completions: nat,         // completions passed on to the user's callback
    destroyed: nat)           // channels given to ares_destroy

  /** `amxp_timer_start` and `amxp_timer_stop`; NULL stays NULL. */
  function Start(t: Timer): Timer {
    if t == NoTimer then NoTimer else Running
  }

  function Stop(t: Timer): Timer {
    if t == NoTimer then NoTimer else Stopped
  }

  /** `list_get`: the position of the first entry with this value. */
  function ListGet(fds: seq<int>, fd: int): (k: Option<nat>)
    ensures k.None? <==> fd !in fds
    ensures k.Some? ==> k.value < |fds| && fds[k.value] == fd && fd !in fds[..k.value]
  {
    if fds == [] then None
    else if fds[0] == fd then Some(0)
    else match ListGet(fds[1..], fd) case None => None case Some(k) => Some(k + 1)
  }

  function List(q: Query): seq<int> {
    if q.fds.None? then [] else q.fds.value
  }

  /** The list after the first entry with this value is deleted. */
  function Without(fds: seq<int>, fd: int): seq<int> {
    match ListGet(fds, fd) case None => fds case Some(k) => fds[..k] + fds[k + 1..]
  }

  /** `dslite_ares_sock_cb`. */
  function SockState(q: Query, fd: int, readable: int, writable: int): Query {
    if readable + writable > 0 then
      if fd in List(q) then q.(fds := Some(List(q)))
      else q.(fds := Some(List(q) + [fd]), conns := q.conns + multiset{fd}, dnsTimer := Running)
    else
      var q1 := if fd in List(q) then q.(fds := Some(Without(List(q), fd)), conns := q.conns - multiset{fd}) else q;
      if List(q1) == [] then q1.(destroyTimer := Start(q1.destroyTimer)) else q1
  }

  /** `dslite_ares_addrinfo_cb`, as far as the adapter itself is concerned. */
  function AddrInfo(q: Query): Query {
    q.(pending := false, dnsTimer := Stop(q.dnsTimer), completions := q.completions + 1)
  }

  function CloseSockets(q: Query, socks: seq<int>): Query
    decreases |socks|
  {
    if socks == [] then q else CloseSockets(SockState(q, socks[0], 0, 0), socks[1..])
  }

  /** `ares_destroy`: an outstanding lookup fails, then c-ares closes the sockets it has open. */
  function AresDestroy(q: Query, socks: seq<int>): Query {
    var q1 := CloseSockets(if q.pending then AddrInfo(q) else q, socks);
    q1.(destroyed := q1.destroyed + 1)
  }

  /** `dslite_ares_destroy_channel_cb`: the destroy timer has expired. */
  function DestroyExpired(q: Query, socks: seq<int>): Query {
    var q0 := q.(destroyTimer := Stop(q.destroyTimer));
    if !q0.channel then q0
    else AresDestroy(q0, socks).(channel := false, destroyTimer := NoTimer)
  }

  /** `delete_ares_timers`. */
  function DeleteTimers(q: Query): Query {
    q.(dnsTimer := NoTimer, destroyTimer := NoTimer)
  }

  /** `dslite_close_dns_query`, up to the point where the query is freed. */
  function Close(q: Query, socks: seq<int>): Query {
    var q1 := q.(fds := None, conns := q.conns - multiset(List(q)));
    if q1.channel && q1.destroyTimer != Running then AresDestroy(q1, socks).(channel := false) else q1
  }

  /** `dslite_open_dns_query` just after the channel was created and the lookup submitted. */
  function Opened(): Query {
    Query(true, None, NoTimer, Stopped, multiset{}, true, 0, 0)
  }

  datatype Happening =
    | Socket(fd: int, readable: int, writable: int)
    | Done
    | DnsTimer
    | DestroyTimer(socks: seq<int>)

  /** c-ares speaks only while its channel lives; on destruction it closes all it had open. */
  predicate Possible(q: Query, h: Happening) {
    match h
    case Socket(_, _, _) => q.channel
    case Done => q.pending
    case DnsTimer => q.dnsTimer == Running
    case DestroyTimer(socks) => q.destroyTimer == Running && forall fd :: fd in List(q) ==> fd in socks
  }

  /** What cannot happen changes nothing; an expired DNS timer only prods c-ares. */
  function Happen(q: Query, h: Happening): Query {
    if !Possible(q, h) then q
    else
      match h
      case Socket(fd, r, w) => SockState(q, fd, r, w)
      case Done => AddrInfo(q)
      case DnsTimer => q.(dnsTimer := Stop(q.dnsTimer))
      case DestroyTimer(socks) => DestroyExpired(q, socks)
  }

  function HappenAll(q: Query, hs: seq<Happening>): Query {
    if hs == [] then q else Happen(HappenAll(q, hs[..|hs| - 1]), hs[|hs| - 1])
  }

  // ---- what every history keeps -------------------------------------------------------

  ghost predicate Distinct(s: seq<int>) {
    forall i, j :: 0 <= i < j < |s| ==> s[i] != s[j]
  }

  /** The event loop watches exactly the sockets in the list, each once. */
  ghost predicate Mirrored(q: Query) {
    q.conns == multiset(List(q)) && Distinct(List(q))
  }

  /**
   One completion and one destruction per query, the first no later than the second; a channel whose
   sockets are all closed is about to be destroyed.
   */
  ghost predicate Accounted(q: Query) {
    && q.completions + (if q.pending then 1 else 0) == 1
    && q.destroyed + (if q.channel then 1 else 0) == 1
    && (q.pending ==> q.channel)
    && (!q.channel ==> List(q) == [] && q.destroyTimer == NoTimer)
    && (q.channel ==> q.destroyTimer != NoTimer && (q.fds == Some([]) ==> q.destroyTimer == Running))
    && (q.fds.Some? ==> q.dnsTimer != NoTimer)
  }

  lemma RemoveAt(s: seq<int>, k: nat)
    requires k < |s| && Distinct(s)
    ensures var t := s[..k] + s[k + 1..];
            && Distinct(t) && multiset(t) == multiset(s) - multiset{s[k]}
            && forall x :: x in t <==> x in s && x != s[k]
  {
    RemoveOne(s, k);
    StillDistinct(s, k);
    var t := s[..k] + s[k + 1..];
    OneEach(s);
    forall x ensures x in t <==> x in s && x != s[k] {
      assert multiset(t)[x] == multiset(s)[x] - if x == s[k] then 1 else 0;
    }
  }

  lemma RemoveOne(s: seq<int>, k: nat)
    requires k < |s|
    ensures var t := s[..k] + s[k + 1..];
            multiset(t) == multiset(s) - multiset{s[k]} && multiset(s)[s[k]] >= 1
  {
    assert s == s[..k] + [s[k]] + s[k + 1..];
  }

  lemma StillDistinct(s: seq<int>, k: nat)
    requires k < |s| && Distinct(s)
    ensures Distinct(s[..k] + s[k + 1..])
  {
  }

  lemma {:induction false} OneEach(s: seq<int>)
    requires Distinct(s)
    ensures forall x :: multiset(s)[x] <= 1
    decreases |s|
  {
    if s != [] {
      OneEach(s[1..]);
      assert s == [s[0]] + s[1..];
      assert s[0] !in s[1..];
    }
  }

  lemma WithoutRemoves(s: seq<int>, fd: int)
    requires Distinct(s) && fd in s
    ensures var t := Without(s, fd);
            && Distinct(t) && multiset(t) == multiset(s) - multiset{fd}
            && forall x :: x in t <==> x in s && x != fd
  {
    hide Distinct;
    RemoveAt(s, ListGet(s, fd).value);
  }

  lemma HeadIsMember(s: seq<int>)
    ensures s != [] ==> s[0] in s
  {
  }

  lemma SocketOpens(q: Query, fd: int, r: int, w: int)
    requires Mirrored(q) && r + w > 0
    ensures var q1 := SockState(q, fd, r, w);
            && Mirrored(q1) && q1 == q.(fds := q1.fds, conns := q1.conns, dnsTimer := q1.dnsTimer)
            && List(q1) != [] && q1.fds.Some? && (q1.dnsTimer == Running || (q1.dnsTimer == q.dnsTimer && q.fds.Some?))
  {
    assert multiset(List(q) + [fd]) == multiset(List(q)) + multiset{fd};
  }

  lemma SocketCloses(q: Query, fd: int, r: int, w: int)
    requires Mirrored(q) && r + w <= 0
    ensures var q1 := SockState(q, fd, r, w);
            && Mirrored(q1)
            && q1 == q.(fds := q1.fds, conns := q1.conns, destroyTimer := q1.destroyTimer)
            && q1.destroyTimer == (if List(q1) == [] then Start(q.destroyTimer) else q.destroyTimer)
            && (q1.fds.Some? ==> q.fds.Some?) && (forall x :: x in List(q1) <==> x in List(q) && x != fd)
  {
    hide Without, Distinct;
    if fd in List(q) { WithoutRemoves(List(q), fd); }
  }

  lemma SockStateKeeps(q: Query, fd: int, r: int, w: int)
    requires Mirrored(q)
    ensures var q1 := SockState(q, fd, r, w);
            && Mirrored(q1)
            && q1 == q.(fds := q1.fds, conns := q1.conns, dnsTimer := q1.dnsTimer, destroyTimer := q1.destroyTimer)
            && (if q.destroyTimer == NoTimer then q1.destroyTimer == NoTimer
                else q1.destroyTimer != NoTimer && (q1.fds == Some([]) ==> q1.destroyTimer == Running))
            && (q1.fds.Some? ==> q1.dnsTimer != NoTimer || (q1.dnsTimer == q.dnsTimer && q.fds.Some?))
            && (r + w <= 0 ==> q1.dnsTimer == q.dnsTimer && (q1.fds.Some? ==> q.fds.Some?) && forall x :: x in List(q1) <==> x in List(q) && x != fd)
  {
    hide SockState, Mirrored;
    if r + w > 0 { SocketOpens(q, fd, r, w); } else { SocketCloses(q, fd, r, w); }
  }

  /**
   A socket callback: a socket that is new starts the DNS timer, the last one to go the destroy timer,
   if there is one, and nothing else does.
   */
  lemma SocketOutcome(q: Query, fd: int, r: int, w: int)
    requires Mirrored(q)
    ensures var q1 := SockState(q, fd, r, w);
            && Mirrored(q1)
            && q1 == q.(fds := q1.fds, conns := q1.conns, dnsTimer := q1.dnsTimer, destroyTimer := q1.destroyTimer)
            && if r + w > 0 then
                 && (forall x :: x in List(q1) <==> x in List(q) || x == fd)
                 && q1.dnsTimer == (if fd in List(q) then q.dnsTimer else Running) && q1.destroyTimer == q.destroyTimer
               else
                 && (forall x :: x in List(q1) <==> x in List(q) && x != fd)
                 && q1.dnsTimer == q.dnsTimer
                 && q1.destroyTimer == (if (forall x :: x in List(q) ==> x == fd) && q.destroyTimer != NoTimer then Running else q.destroyTimer)
  {
    hide Without, Distinct;
    if r + w > 0 {
      SocketOpens(q, fd, r, w);
      SocketJoins(q, fd, r, w);
    } else {
      SocketCloses(q, fd, r, w);
      HeadIsMember(List(SockState(q, fd, r, w)));
    }
  }

  lemma {:induction false} CloseSocketsKeeps(q: Query, socks: seq<int>)
    requires Mirrored(q)
    ensures var q1 := CloseSockets(q, socks);
            && Mirrored(q1)
            && q1 == q.(fds := q1.fds, conns := q1.conns, destroyTimer := q1.destroyTimer)
            && (q.destroyTimer == NoTimer ==> q1.destroyTimer == NoTimer) && (q1.fds.Some? ==> q.fds.Some?)
            && (forall x :: x in List(q1) <==> x in List(q) && x !in socks)
    decreases |socks|
  {
    hide SockState;
    if socks != [] {
      SockStateKeeps(q, socks[0], 0, 0);
      CloseSocketsKeeps(SockState(q, socks[0], 0, 0), socks[1..]);
      assert forall x :: x in socks <==> x == socks[0] || x in socks[1..];
    }
  }

  lemma HappenKeeps(q: Query, h: Happening)
    requires Mirrored(q) && Accounted(q)
    ensures Mirrored(Happen(q, h)) && Accounted(Happen(q, h))
  {
    hide SockState, CloseSockets;
    if Possible(q, h) {
      match h
      case Socket(fd, r, w) => SockStateKeeps(q, fd, r, w);
      case Done =>
      case DnsTimer =>
      case DestroyTimer(socks) =>
        var q0 := q.(destroyTimer := Stop(q.destroyTimer));
        var q1 := if q.pending then AddrInfo(q0) else q0;
        CloseSocketsKeeps(q1, socks);
        var q2 := CloseSockets(q1, socks);
        HeadIsMember(List(q2));
    }
  }

  /** Main result: after every history of a query, list and event loop agree and nothing is lost. */
  lemma {:induction false} EveryHistoryMirrors(hs: seq<Happening>)
    ensures var q := HappenAll(Opened(), hs); Mirrored(q) && Accounted(q)
    decreases |hs|
  {
    hide Happen;
    if hs != [] {
      EveryHistoryMirrors(hs[..|hs| - 1]);
      HappenKeeps(HappenAll(Opened(), hs[..|hs| - 1]), hs[|hs| - 1]);
    }
  }

  lemma {:induction false} ClosingWithoutList(q: Query, socks: seq<int>)
    requires q.fds == None
    ensures CloseSockets(q, socks) == if socks == [] then q else q.(destroyTimer := Start(q.destroyTimer))
    decreases |socks|
  {
    if socks != [] {
      ClosingWithoutList(q.(destroyTimer := Start(q.destroyTimer)), socks[1..]);
    }
  }

  /**
   Main result: deleting the timers and then closing leaves no socket in the event loop and no
   timer, after any history; by then the channel has been destroyed once and the lookup completed
   once, whether or not the destroy timer expired before.
   */
  lemma DeleteThenClose(hs: seq<Happening>, socks: seq<int>)
    ensures var q := Close(DeleteTimers(HappenAll(Opened(), hs)), socks);
            && q.fds == None && q.conns == multiset{} && q.dnsTimer == NoTimer && q.destroyTimer == NoTimer
            && !q.channel && !q.pending && q.destroyed == 1 && q.completions == 1
  {
    hide HappenAll, CloseSockets;
    EveryHistoryMirrors(hs);
    var q := DeleteTimers(HappenAll(Opened(), hs));
    var q1 := q.(fds := None, conns := q.conns - multiset(List(q)));
    ClosingWithoutList(if q1.pending then AddrInfo(q1) else q1, socks);
  }

  /**
   Closing alone, as `resolve_endpoint_name` does, leaves no running timer behind exactly when the
   destroy timer was not running, a channel that gets destroyed has no open sockets, and the DNS
   timer was not running or is stopped by the completion that destroying causes.
   */
  lemma CloseAlone(q: Query, socks: seq<int>)
    ensures var c := Close(q, socks);
            (c.dnsTimer != Running && c.destroyTimer != Running) <==>
              && q.destroyTimer != Running
              && (q.channel && q.destroyTimer == Stopped ==> socks == [])
              && (q.dnsTimer == Running ==> q.channel && q.pending)
    ensures Close(q, socks).channel <==> q.channel && q.destroyTimer == Running
  {
    hide CloseSockets;
    var q1 := q.(fds := None, conns := q.conns - multiset(List(q)));
    ClosingWithoutList(if q1.pending then AddrInfo(q1) else q1, socks);
  }

  /** It does happen: one socket is open when the query is closed, and its going starts the destroy timer. */
  lemma CloseWithSocket()
    ensures Close(HappenAll(Opened(), [Socket(5, 1, 0)]), [5]).destroyTimer == Running
  {
    var q := Opened();
    assert [Socket(5, 1, 0)][..0] == [];
    assert HappenAll(q, [Socket(5, 1, 0)]) == Happen(q, Socket(5, 1, 0));
    CloseAlone(Happen(q, Socket(5, 1, 0)), [5]);
  }

  // ---- the view that the rest of the plugin has ---------------------------------------

  function Members(s: seq<int>): (m: set<int>)
    ensures forall x :: x in m <==> x in s
  {
    set x | x in s
  }

  function AsLookup(q: Query, l: Model.Lookup): Model.Lookup {
    l.(pending := q.pending, channel := q.channel, armed := q.destroyTimer == Running, ticking := q.dnsTimer == Running,
       timed := q.destroyTimer != NoTimer, socks := Members(List(q)))
  }

  lemma NoMembers(s: seq<int>)
    ensures s == [] <==> Members(s) == {}
  {
    if s == [] { assert forall x :: x !in Members(s); } else { assert s[0] in Members(s); }
  }

  /** `Resolver` sees a query as a `Lookup`: a socket callback acts on that view as it does there, ... */
  lemma SocketView(q: Query, l: Model.Lookup, fd: int, r: int, w: int)
    requires Mirrored(q) && Accounted(q) && q.channel && l == AsLookup(q, l)
    ensures AsLookup(SockState(q, fd, r, w), l) == Resolver.SocketChanged(l, fd, r + w > 0)
  {
    hide Without, Accounted;
    SockStateKeeps(q, fd, r, w);
    var q1 := SockState(q, fd, r, w);
    SocketSet(q, fd, r, w);
    NoMembers(List(q1));
    assert q.destroyTimer != NoTimer by { TimedWhileOpen(q); }
  }

  lemma TimedWhileOpen(q: Query)
    requires Accounted(q) && q.channel
    ensures q.destroyTimer != NoTimer
  {
  }

  lemma SocketSet(q: Query, fd: int, r: int, w: int)
    requires Mirrored(q)
    ensures Members(List(SockState(q, fd, r, w))) == if r + w > 0 then Members(List(q)) + {fd} else Members(List(q)) - {fd}
  {
    hide Without, Distinct, SockState, Mirrored;
    var s, s1 := List(q), List(SockState(q, fd, r, w));
    if r + w <= 0 {
      SocketCloses(q, fd, r, w);
      forall x ensures x in Members(s1) <==> x in Members(s) - {fd} {}
    } else {
      SocketJoins(q, fd, r, w);
      forall x ensures x in Members(s1) <==> x in Members(s) + {fd} {}
    }
  }

  lemma SocketJoins(q: Query, fd: int, r: int, w: int)
    requires r + w > 0
    ensures forall x :: x in List(SockState(q, fd, r, w)) <==> x in List(q) || x == fd
  {
    assert List(SockState(q, fd, r, w)) == if fd in List(q) then List(q) else List(q) + [fd];
  }

  /**
   ... so do completion, deletion of the timers, and both expiries; on destruction c-ares closes the
   sockets it has open, which are those in the list; ...
   */
  lemma LookupView(q: Query, l: Model.Lookup, socks: seq<int>)
    requires Mirrored(q) && Accounted(q) && l == AsLookup(q, l)
    requires Members(socks) == l.socks
    ensures AsLookup(DeleteTimers(q), l) == l.(armed := false, ticking := false, timed := false)
    ensures q.pending ==> AsLookup(AddrInfo(q), l) == Resolver.Completed(l)
    ensures AsLookup(q.(dnsTimer := Stop(q.dnsTimer)), l) == l.(ticking := false)
    ensures var l0 := l.(armed := false);
            l.channel ==> AsLookup(DestroyExpired(q, socks), l) == Resolver.Destroyed(if l.pending then Resolver.Completed(l0) else l0)
    ensures DestroyExpired(q, socks).completions - q.completions == (if l.channel && l.pending then 1 else 0)
  {
    hide CloseSockets, Mirrored;
    if q.channel { ExpiryCloses(q, socks); }
  }

  /** ... and closing reports a failure, and leaves a running timer, exactly when `Resolver.CloseLookup` says so. */
  lemma CloseView(q: Query, l: Model.Lookup, socks: seq<int>)
    requires Mirrored(q) && Accounted(q) && l == AsLookup(q, l)
    requires Members(socks) == l.socks
    ensures var c := Close(q, socks);
            && c.completions - q.completions == (if l.channel && !l.armed && l.pending then 1 else 0)
            && (c.channel <==> l.channel && l.armed)
            && (c.dnsTimer == Running || c.destroyTimer == Running <==> Resolver.LeavesTimer(l))
    ensures var d := DeleteTimers(q);
            Close(d, socks).dnsTimer != Running && Close(d, socks).destroyTimer != Running && !Resolver.LeavesTimer(AsLookup(d, l))
  {
    hide CloseSockets, Mirrored, List, Members;
    var q1 := q.(fds := None, conns := q.conns - multiset(List(q)));
    ClosingWithoutList(if q1.pending then AddrInfo(q1) else q1, socks);
    var d := DeleteTimers(q).(fds := None, conns := q.conns - multiset(List(q)));
    ClosingWithoutList(if d.pending then AddrInfo(d) else d, socks);
    NoMembers(socks);
    NoMembers(List(q));
    SameList(q);
  }

  lemma SameList(q: Query)
    ensures List(DeleteTimers(q)) == List(q)
  {
  }

  lemma ExpiryCloses(q: Query, socks: seq<int>)
    requires Mirrored(q) && q.channel && forall fd :: fd in List(q) ==> fd in socks
    ensures var q1 := DestroyExpired(q, socks);
            && List(q1) == [] && !q1.channel && !q1.pending && q1.destroyTimer == NoTimer
            && q1.dnsTimer == (if q.pending then Stop(q.dnsTimer) else q.dnsTimer)
            && q1.completions == q.completions + if q.pending then 1 else 0
  {
    hide CloseSockets, Distinct;
    var q2 := q.(destroyTimer := Stop(q.destroyTimer));
    var q3 := if q2.pending then AddrInfo(q2) else q2;
    CloseSocketsKeeps(q3, socks);
    var q4 := CloseSockets(q3, socks);
    assert forall fd :: fd !in List(q4);
    HeadIsMember(List(q4));
  }
}
