/** Each function of the resolver and of netmodel keeps the invariant of a live record. */
module Keeps {
  import opened Basics
  import opened Model
  import opened Tunnel
  import opened Resolver
  import opened Netmodel
  import opened Invariant

  ghost predicate NonePending(n: Node) {
    forall h :: h in n.pv.lookups ==> !n.pv.lookups[h].pending
  }

  /** Resolution is still going to happen, or its last attempt succeeded. */
  ghost predicate AwakeIn(r: Record, lookups: map<nat, Lookup>, timers: map<nat, bool>) {
    r.asked ==>
      || r.answered
      || (exists h :: h in lookups && lookups[h].pending)
      || (r.retry in timers && timers[r.retry])
  }

  ghost predicate Awake(n: Node)
    requires Live(n)
  {
    AwakeIn(Rec(n), n.pv.lookups, n.pv.timers)
  }

  /** What a completed lookup may change. */
  ghost predicate CallbackFrame(n: Node, m: Node)
    requires Live(n)
  {
    && m.on == n.on && m.env.o == n.env.o
    && m.pv == n.pv.(heap := m.pv.heap, timers := m.pv.timers, lookups := m.pv.lookups, stale := m.pv.stale)
    && Live(m)
    && Rec(m) == Rec(n).(remote := Rec(m).remote, via := Rec(m).via, answered := Rec(m).answered, retry := Rec(m).retry)
    && m.dm == n.dm.(status := m.dm.status, inUse := m.dm.inUse, localAddress := m.dm.localAddress,
                     origin := m.dm.origin, usedVia := m.dm.usedVia)
  }

  /** The record and its timer may change while nothing that refers to the record does. */
  lemma PatchShape(pv: Private, r: Record, timers: map<nat, bool>, next: nat)
    requires Shape(pv) && pv.next <= next
    requires pv.heap[pv.priv].local != "" ==> r.local != ""
    requires r.retry < next && timers.Keys == Keys(r.retry)
    requires r.retry == NULL ==> pv.heap[pv.priv].retry == NULL || forall h :: h in pv.lookups ==> !pv.lookups[h].pending
    ensures Shape(pv.(heap := pv.heap[pv.priv := r], timers := timers, next := next))
  {
  }

  lemma OwnTimer(pv: Private)
    requires Shape(pv)
    ensures pv.timers.Keys == Keys(pv.heap[pv.priv].retry) && pv.heap[pv.priv].retry < pv.next && pv.next != NULL
  {
    hide LookupsOk, QueriesOk;
  }

  lemma AddressKept(r: Record, m: Method, ip: string)
    requires exists m' :: RecordOk(r, m')
    ensures var r1 := r.(remote := Trunc(ip, ADDRLEN), via := m, answered := true);
            RecordOk(r1, m) && RecordOk(r1.(retry := NULL), m)
  {
  }

  lemma DnsSuccess(n: Node, via: Method, ip: string)
    requires Core(n) && NonePending(n) && via == MethodOf(n.dm)
    ensures var m := DnsCallback(n, n.pv.priv, via, Some(ip));
            && m.pv == n.pv.(heap := m.pv.heap, timers := map[])
            && m.pv.heap == n.pv.heap[n.pv.priv := Rec(n).(remote := Trunc(ip, ADDRLEN), via := via, answered := true, retry := NULL)]
            && StatusOnly(n, m.(pv := n.pv)) && Core(m) && Serves(n, m) && m.dm.status != Disabled
            && (m.dm.status == Enabled ==> m.dm.inUse == Rec(m).remote)
  {
    hide DnsCallback, Setup, ServedBy, StatusOk, Trusted, RecordOk, Shape;
    var r1 := Rec(n).(remote := Trunc(ip, ADDRLEN), via := via, answered := true);
    AddressKept(Rec(n), via, ip);
    OwnTimer(n.pv);
    SetupKeeps(SetRec(n, n.pv.priv, r1));
    SuccessIs(n, via, ip);
    PatchShape(n.pv, r1.(retry := NULL), map[], n.pv.next);
  }

  /** The new address in the record, the tunnel set up, the timer gone. */
  lemma SuccessIs(n: Node, via: Method, ip: string)
    requires Live(n) && n.pv.priv != NULL && n.pv.timers.Keys == Keys(Rec(n).retry)
    requires var r1 := Rec(n).(remote := Trunc(ip, ADDRLEN), via := via, answered := true);
             Setup(SetRec(n, n.pv.priv, r1)).pv == SetRec(n, n.pv.priv, r1).pv
    ensures var r1 := Rec(n).(remote := Trunc(ip, ADDRLEN), via := via, answered := true);
            DnsCallback(n, n.pv.priv, via, Some(ip)) ==
              Setup(SetRec(n, n.pv.priv, r1)).(pv := n.pv.(heap := n.pv.heap[n.pv.priv := r1.(retry := NULL)], timers := map[]))
  {
    hide Setup, DropRetry;
    var r1 := Rec(n).(remote := Trunc(ip, ADDRLEN), via := via, answered := true);
    var n1 := SetRec(n, n.pv.priv, r1);
    Dropped(Setup(n1), r1, n.pv.timers);
    assert n1.pv.heap[n.pv.priv := r1.(retry := NULL)] == n.pv.heap[n.pv.priv := r1.(retry := NULL)];
  }

  lemma Dropped(n: Node, r: Record, timers: map<nat, bool>)
    requires Live(n) && Rec(n) == r && n.pv.timers == timers && timers.Keys == Keys(r.retry)
    ensures DropRetry(n, n.pv.priv) == n.(pv := n.pv.(heap := n.pv.heap[n.pv.priv := r.(retry := NULL)], timers := map[]))
  {
    assert timers - {r.retry} == map[];
  }

  lemma DnsFailure(n: Node, via: Method)
    requires Core(n)
    ensures var m := DnsCallback(n, n.pv.priv, via, None);
            && m.pv == n.pv.(heap := n.pv.heap[n.pv.priv := Rec(n).(answered := false)],
                             timers := if Rec(n).retry == NULL then n.pv.timers else n.pv.timers[Rec(n).retry := true])
            && StatusOnly(n, m.(pv := n.pv)) && Core(m) && Serves(n, m) && m.dm.status == Error
  {
    hide Disable, ServedBy, StatusOk, Trusted, Shape;
    var r := Rec(n).(answered := false);
    OwnTimer(n.pv);
    PatchShape(n.pv, r, if r.retry == NULL then n.pv.timers else n.pv.timers[r.retry := true], n.pv.next);
    DisableKeeps(SetRec(n, n.pv.priv, r), Error);
  }

  lemma DnsCallbackKeeps(n: Node, via: Method, result: Option<string>)
    requires Core(n) && NonePending(n) && (result.Some? ==> via == MethodOf(n.dm))
    ensures var m := DnsCallback(n, n.pv.priv, via, result);
            && Core(m) && Serves(n, m) && CallbackFrame(n, m) && m.pv.lookups == n.pv.lookups && m.pv.stale == n.pv.stale
            && m.dm.status != Disabled
            && (Rec(n).retry != NULL ==> Awake(m))
            && (result.None? ==> m.dm.status == Error && Rec(m) == Rec(n).(answered := false))
  {
    hide DnsCallback, ServedBy, StatusOk, Trusted, RecordOk;
    match result {
      case Some(ip) => DnsSuccess(n, via, ip);
      case None => DnsFailure(n, via);
    }
  }

  lemma CompleteKeeps(n: Node, h: nat, a: Answer)
    requires Core(n) && n.pv.lookups.Keys == {h} && n.pv.lookups[h].pending
    requires a.Nodes? ==> n.pv.lookups[h].via == MethodOf(n.dm)
    ensures var m := Complete(n, h, a);
            && Core(m) && Serves(n, m) && CallbackFrame(n, m) && m.pv.stale == n.pv.stale
            && m.pv.lookups == n.pv.lookups[h := Completed(n.pv.lookups[h])]
            && m.dm.status != Disabled && Awake(m)
            && (a.Failure? ==> m.dm.status == Error && Rec(m) == Rec(n).(answered := false))
  {
    hide DnsCallback, ServedBy, StatusOk, Trusted;
    DnsCallbackKeeps(SetLookup(n, h, Completed(n.pv.lookups[h])), n.pv.lookups[h].via, ResultOf(n.env.o, a));
  }

  /** Replacing the lookups. */
  lemma LookupsShape(pv: Private, ls: map<nat, Lookup>, next: nat, stale: set<Leftover>)
    requires Shape(pv) && pv.next <= next
    requires LookupsOk(ls, pv.priv, next, pv.heap[pv.priv].local != "", pv.heap[pv.priv].retry != NULL)
    ensures Shape(pv.(lookups := ls, next := next, stale := stale))
  {
    hide LookupsOk;
  }

  /** What closing `h` leaves. */
  function LeftBy(ls: map<nat, Lookup>, h: nat): set<Leftover> {
    if h in ls && LeavesTimer(ls[h]) then {LeftOf(h, ls[h])} else {}
  }

  lemma CloseAfter(n: Node, h: nat, stale: set<Leftover>)
    requires Core(n) && n.pv.lookups.Keys == {h}
    ensures n.pv.lookups - {h} == map[] && Core(n.(pv := n.pv.(lookups := map[], stale := stale)))
  {
    hide StatusOk, Trusted, RecordOk, Shape;
    LookupsShape(n.pv, map[], n.pv.next, stale);
  }

  lemma PendingHasChannel(n: Node, h: nat)
    requires Core(n) && h in n.pv.lookups && n.pv.lookups[h].pending
    ensures n.pv.lookups[h].channel
  {
    hide StatusOk, Trusted, RecordOk, QueriesOk;
  }

  /** Nothing is reported when the lookup has completed, or its channel stays behind. */
  lemma CloseQuietly(n: Node, h: nat)
    requires Core(n) && n.pv.lookups.Keys == {h} && !(n.pv.lookups[h].pending && !n.pv.lookups[h].armed)
    ensures CloseLookup(n, h) == n.(pv := n.pv.(lookups := map[], stale := n.pv.stale + LeftBy(n.pv.lookups, h)))
    ensures h != NULL && Core(CloseLookup(n, h))
  {
    hide StatusOk, Trusted, RecordOk, LeavesTimer, QueriesOk;
    CloseAfter(n, h, n.pv.stale + LeftBy(n.pv.lookups, h));
  }

  /** Otherwise `ares_destroy` reports a failure from inside the close. */
  lemma CloseOutstanding(n: Node, h: nat)
    requires Core(n) && n.pv.lookups.Keys == {h} && n.pv.lookups[h].pending && !n.pv.lookups[h].armed
    ensures var m := CloseLookup(n, h);
            && h != NULL && Core(m) && Serves(n, m) && CallbackFrame(n, m) && m.pv.lookups == map[]
            && m.pv.stale == n.pv.stale + LeftBy(n.pv.lookups, h)
            && Rec(m) == Rec(n).(answered := false) && m.dm.status == Error
  {
    hide Complete, ServedBy, StatusOk, Trusted, RecordOk, Shape, AwakeIn, LeavesTimer;
    PendingHasChannel(n, h);
    NotNull(n, h);
    CompleteKeeps(n, h, Failure);
    CloseAfter(Complete(n, h, Failure), h, n.pv.stale + LeftBy(n.pv.lookups, h));
  }

  lemma NotNull(n: Node, h: nat)
    requires Core(n) && h in n.pv.lookups
    ensures h != NULL
  {
    hide StatusOk, Trusted, RecordOk, QueriesOk;
  }

  /** Closing a lookup: the failure that `ares_destroy` reports is the only thing that shows. */
  lemma CloseLookupKeeps(n: Node, h: nat)
    requires Core(n) && n.pv.lookups.Keys == Keys(h)
    ensures var m := CloseLookup(n, h);
            && Core(m) && Serves(n, m) && CallbackFrame(n, m) && m.pv.lookups == map[]
            && Rec(m) == Rec(n).(answered := Rec(m).answered)
            && (if h != NULL && n.pv.lookups[h].pending && !n.pv.lookups[h].armed
                then m.dm.status == Error
                else m == n.(pv := m.pv) && Rec(m) == Rec(n) && m.pv.timers == n.pv.timers)
            && m.pv.stale == n.pv.stale + LeftBy(n.pv.lookups, h)
  {
    hide CloseLookup, ServedBy, StatusOk, Trusted, RecordOk, Shape, LeavesTimer;
    if h == NULL {
      NothingToClose(n);
    } else if n.pv.lookups[h].pending && !n.pv.lookups[h].armed {
      CloseOutstanding(n, h);
    } else {
      CloseQuietly(n, h);
    }
  }

  lemma NothingToClose(n: Node)
    ensures CloseLookup(n, NULL) == n
  {
  }

  lemma AddLookupKeeps(n: Node, host: string)
    requires Core(n) && n.pv.lookups == map[] && Rec(n).local != "" && Rec(n).retry != NULL
    ensures var m := AddLookup(n, host, n.pv.priv);
            && Core(m) && n.pv.next != NULL && m == n.(pv := m.pv)
            && m.pv.lookups == map[n.pv.next := Lookup(n.pv.priv, true, true, false, false, true, {}, MethodOf(n.dm), host)]
  {
    hide StatusOk, Trusted, RecordOk;
    LookupsShape(n.pv, AddLookup(n, host, n.pv.priv).pv.lookups, n.pv.next + 1, n.pv.stale);
  }

  /** A lookup that was just started, whether or not it completed inside the call. */
  ghost predicate Started(n: Node, m: Node, h: nat)
    requires Live(n) && h in n.pv.lookups
  {
    && Core(m) && Serves(n, m) && CallbackFrame(n, m) && m.pv.stale == n.pv.stale && Awake(m)
    && m.pv.lookups.Keys == {h} && m.pv.lookups[h].via == n.pv.lookups[h].via && m.pv.lookups[h].name == n.pv.lookups[h].name
    && (m.dm.status == n.dm.status || m.dm.status != Disabled)
    && (Rec(m).remote == Rec(n).remote || m.dm.status != Disabled)
  }

  lemma StartedKeeps(n: Node, h: nat, now: Option<Answer>)
    requires Core(n) && n.pv.lookups.Keys == {h} && n.pv.lookups[h].pending && n.pv.lookups[h].via == MethodOf(n.dm)
    ensures Started(n, if now.Some? then Complete(n, h, now.value) else n, h)
  {
    hide Complete, ServedBy, StatusOk, Trusted, RecordOk, Shape;
    if now.Some? { CompleteKeeps(n, h, now.value); } else { assert h in n.pv.lookups; }
  }

  /** What opening a lookup keeps, and what it leaves when it succeeds. */
  ghost predicate LookedUp(n: Node, m: Node, h: nat, host: string)
    requires Live(n)
  {
    && Core(m) && Serves(n, m) && m.on == n.on && m.env.o == n.env.o
    && m.pv == n.pv.(heap := m.pv.heap, timers := m.pv.timers, lookups := m.pv.lookups, next := m.pv.next) && n.pv.next <= m.pv.next
    && Rec(m) == Rec(n).(remote := Rec(m).remote, via := Rec(m).via, answered := Rec(m).answered, retry := Rec(m).retry)
    && m.dm == n.dm.(status := m.dm.status, inUse := m.dm.inUse, localAddress := m.dm.localAddress,
                     origin := m.dm.origin, usedVia := m.dm.usedVia)
    && (m.dm.status == n.dm.status || m.dm.status != Disabled)
    && (Rec(m).remote == Rec(n).remote || m.dm.status != Disabled)
    && m.pv.lookups.Keys == Keys(h)
    && (h != NULL ==> Awake(m) && m.pv.lookups[h].via == MethodOf(n.dm) && m.pv.lookups[h].name == host)
  }

  lemma OpenLookupKeeps(n: Node, host: string)
    requires Core(n) && n.pv.lookups == map[] && Rec(n).local != "" && Rec(n).retry != NULL && host != ""
    ensures var r := OpenLookup(n, host, n.pv.priv);
            LookedUp(n, r.n, r.rv, host) && (r.rv == NULL <==> n.env.o.dns(n.env.calls).Refused?)
  {
    hide Complete, AddLookup, Started, ServedBy, StatusOk, Trusted, RecordOk, Shape, AwakeIn;
    var n1 := NextCall(n);
    AddLookupKeeps(n1, host);
    match n.env.o.dns(n.env.calls)
    case Refused =>
    case Opened(now) =>
      var n2 := AddLookup(n1, host, n.pv.priv);
      StartedKeeps(n2, n.pv.next, now);
      StartedLooksUp(n, host, if now.Some? then Complete(n2, n.pv.next, now.value) else n2);
  }

  lemma StartedLooksUp(n: Node, host: string, m: Node)
    requires Live(n) && Live(AddLookup(NextCall(n), host, n.pv.priv)) && n.pv.next != NULL
    requires var n2 := AddLookup(NextCall(n), host, n.pv.priv); n.pv.next in n2.pv.lookups && Started(n2, m, n.pv.next)
    ensures LookedUp(n, m, n.pv.next, host)
  {
    hide ServedBy, StatusOk, Trusted, RecordOk, Shape, AwakeIn;
  }

  /** The record's lookup pointer is exact: NULL, or the one lookup that exists. */
  ghost predicate LookupLinked(pv: Private)
    requires pv.priv in pv.heap
  {
    pv.lookups.Keys == Keys(pv.heap[pv.priv].dns)
  }

  /** The name that was submitted last. */
  function Latest(names: seq<string>): Option<string> {
    if names == [] then None else Some(names[|names| - 1])
  }

  /** A lookup in flight was submitted under the current method, for the name submitted last. */
  ghost predicate CurrentIn(lookups: map<nat, Lookup>, m: Method, names: seq<string>) {
    forall h :: h in lookups ==> lookups[h].via == m && Latest(names) == Some(lookups[h].name)
  }

  ghost predicate Current(n: Node) {
    CurrentIn(n.pv.lookups, MethodOf(n.dm), n.pv.attempts)
  }

  /** What is left when a name is resolved now. */
  function Abandoned(pv: Private): set<Leftover> {
    if pv.priv in pv.heap then LeftBy(pv.lookups, pv.heap[pv.priv].dns) else {}
  }

  /** What resolving a name may change: it stays away from netmodel and from local addresses. */
  ghost predicate ResolveFrame(n: Node, m: Node)
    requires Live(n)
  {
    && m.on == n.on && m.env.o == n.env.o && Live(m) && m.pv.priv == n.pv.priv
    && m.pv.queries == n.pv.queries && m.pv.queued == n.pv.queued && n.pv.next <= m.pv.next && m.pv.wild == n.pv.wild
    && Rec(m).local == Rec(n).local && Rec(m).netdev == Rec(n).netdev
    && Rec(m).addrQuery == Rec(n).addrQuery && Rec(m).dhcpQuery == Rec(n).dhcpQuery
    && m.dm == n.dm.(status := m.dm.status, inUse := m.dm.inUse, localAddress := m.dm.localAddress,
                     origin := m.dm.origin, usedVia := m.dm.usedVia)
    && (m.dm.status == n.dm.status || m.dm.status != Disabled)
    && (Rec(m).remote == Rec(n).remote || m.dm.status != Disabled)
  }

  lemma ReadyTimerKeeps(n: Node)
    requires Core(n)
    ensures var m := ReadyTimer(n);
            && Core(m)
            && m == n.(pv := n.pv.(heap := m.pv.heap, timers := m.pv.timers, next := m.pv.next))
            && Rec(m) == Rec(n).(retry := Rec(m).retry)
            && Rec(m).retry != NULL && n.pv.next <= m.pv.next && m.pv.timers == map[Rec(m).retry := false]
  {
    hide StatusOk, Trusted, Shape;
    var m := ReadyTimer(n);
    OwnTimer(n.pv);
    assert m.pv.timers == map[Rec(m).retry := false];
    assert m.pv.heap == n.pv.heap[n.pv.priv := Rec(m)];
    PatchShape(n.pv, Rec(m), m.pv.timers, m.pv.next);
  }

  lemma MarkAsked(n: Node, attempts: seq<string>)
    requires Core(n)
    ensures Core(n.(pv := n.pv.(attempts := attempts, heap := n.pv.heap[n.pv.priv := Rec(n).(asked := true)])))
  {
    hide StatusOk, Trusted, LookupsOk, QueriesOk;
  }

  lemma SubmittedKeeps(n: Node, host: string)
    requires Core(n)
    ensures var m := Submitted(n, host);
            && Core(m)
            && m == n.(pv := n.pv.(heap := m.pv.heap, timers := m.pv.timers, next := m.pv.next, attempts := n.pv.attempts + [host]))
            && Rec(m) == Rec(n).(asked := true, retry := Rec(m).retry)
            && Rec(m).retry != NULL && n.pv.next <= m.pv.next && m.pv.timers == map[Rec(m).retry := false]
  {
    hide ReadyTimer, StatusOk, Trusted, RecordOk, Shape;
    MarkAsked(n, n.pv.attempts + [host]);
    ReadyTimerKeeps(n.(pv := n.pv.(attempts := n.pv.attempts + [host], heap := n.pv.heap[n.pv.priv := Rec(n).(asked := true)])));
  }

  /** Out with the old lookup, in with the new one: what holds before its pointer is stored. */
  lemma ClosedAndOpened(n: Node, host: string)
    requires Core(n) && LookupLinked(n.pv) && Rec(n).local != "" && Rec(n).retry != NULL && host != ""
    requires Latest(n.pv.attempts) == Some(host)
    ensures var o := OpenLookup(CloseLookup(n, Rec(n).dns), host, n.pv.priv);
            && Core(o.n) && Serves(n, o.n) && ResolveFrame(n, o.n) && o.n.pv.lookups.Keys == Keys(o.rv)
            && o.n.pv.attempts == n.pv.attempts && Current(o.n) && o.n.pv.stale == n.pv.stale + Abandoned(n.pv)
            && ((forall c :: n.env.o.dns(c).Opened?) ==> Awake(o.n))
  {
    hide CloseLookup, OpenLookup, ServedBy, StatusOk, Trusted, RecordOk, Shape, LeavesTimer, AwakeIn;
    CloseLookupKeeps(n, Rec(n).dns);
    OpenLookupKeeps(CloseLookup(n, Rec(n).dns), host);
  }

  lemma ReopenKeeps(n: Node, host: string)
    requires Core(n) && LookupLinked(n.pv) && Rec(n).local != "" && Rec(n).retry != NULL && host != ""
    requires Latest(n.pv.attempts) == Some(host)
    ensures var r := Reopen(n, host);
            && Core(r.n) && Serves(n, r.n) && LookupLinked(r.n.pv) && ResolveFrame(n, r.n) && r.n.pv.attempts == n.pv.attempts
            && Current(r.n) && r.n.pv.stale == n.pv.stale + Abandoned(n.pv)
            && (r.rv == 0 || r.rv == -1)
            && ((forall c :: n.env.o.dns(c).Opened?) ==> Awake(r.n))
  {
    hide CloseLookup, OpenLookup, ServedBy, StatusOk, Trusted, RecordOk, Shape, Abandoned, LookupLinked, CurrentIn, AwakeIn;
    ClosedAndOpened(n, host);
    var o := OpenLookup(CloseLookup(n, Rec(n).dns), host, n.pv.priv);
    StoreLookup(o.n, o.rv);
  }

  lemma StoreLookup(n: Node, h: nat)
    requires Core(n) && n.pv.lookups.Keys == Keys(h)
    ensures var m := SetRec(n, n.pv.priv, Rec(n).(dns := h));
            && Core(m) && Serves(n, m) && LookupLinked(m.pv) && Rec(m) == Rec(n).(dns := h)
            && (Awake(n) ==> Awake(m)) && (Current(n) ==> Current(m))
  {
    hide ServedBy, StatusOk, Trusted;
  }

  lemma ResolveKeeps(n: Node, host: string)
    requires Core(n) && LookupLinked(n.pv)
    ensures var r := Resolve(n, host);
            && Core(r.n) && Serves(n, r.n) && LookupLinked(r.n.pv) && ResolveFrame(n, r.n)
            && r.n.pv.attempts == (if host == "" then n.pv.attempts else n.pv.attempts + [host])
            && (r.rv == 0 || r.rv == -1)
            && ((host != "" && forall c :: n.env.o.dns(c).Opened?) ==> Awake(r.n))
            && (host == "" ==> r.n == n)
            && (r.rv == 0 ==> Rec(n).local != "")
            && (host != "" || Current(n) ==> Current(r.n))
            && r.n.pv.stale == n.pv.stale + (if host == "" then {} else Abandoned(n.pv))
  {
    hide Submitted, Reopen, ServedBy, StatusOk, Trusted, RecordOk, Shape, LeavesTimer;
    if host != "" {
      SubmittedKeeps(n, host);
      var n1 := Submitted(n, host);
      if Rec(n1).local != "" { ReopenKeeps(n1, host); } else { NoLookups(n1); StartTimerKeeps(n1); }
    }
  }

  lemma NoLookups(n: Node)
    requires Core(n) && Rec(n).local == ""
    ensures n.pv.lookups == map[]
  {
    hide StatusOk, Trusted, RecordOk, QueriesOk;
  }

  lemma StartTimerKeeps(n: Node)
    requires Core(n) && Rec(n).retry != NULL
    ensures var m := StartTimer(n, Rec(n).retry);
            Core(m) && m == n.(pv := n.pv.(timers := m.pv.timers)) && Awake(m)
  {
    hide StatusOk, Trusted, RecordOk;
  }

  // ---- netmodel -----------------------------------------------------------------------

  /** The record's query pointers are exact, and of the right kind. */
  ghost predicate QueriesAre(qs: map<nat, Query>, a: nat, d: nat) {
    && qs.Keys == Keys(a) + Keys(d)
    && (a != NULL ==> qs[a].kind == Addresses)
    && (d != NULL ==> qs[d].kind == AftrName)
  }

  ghost predicate QueriesLinked(pv: Private)
    requires pv.priv in pv.heap
  {
    QueriesAre(pv.queries, pv.heap[pv.priv].addrQuery, pv.heap[pv.priv].dhcpQuery)
  }

  /** A known remote address has been acted upon. */
  ghost predicate Known(n: Node)
    requires Live(n)
  {
    Rec(n).remote != "" ==> n.dm.status != Disabled
  }

  /** An Enabled interface shows the remote address of its record. */
  ghost predicate Shown(n: Node)
    requires Live(n)
  {
    n.dm.status == Enabled ==> n.dm.inUse == Rec(n).remote
  }

  lemma PatchAddress(n: Node, report: AddressReport)
    requires Core(n) && report.address != "" && report.netdev != ""
    ensures Core(SetRec(n, n.pv.priv, Rec(n).(local := Trunc(report.address, ADDRLEN), netdev := Some(report.netdev))))
  {
    hide StatusOk, Trusted, Shape;
    OwnTimer(n.pv);
    PatchShape(n.pv, Rec(n).(local := Trunc(report.address, ADDRLEN), netdev := Some(report.netdev)), n.pv.timers, n.pv.next);
  }

  lemma AddressCallbackKeeps(n: Node, report: AddressReport)
    requires Core(n) && Known(n)
    ensures var m := AddressCallback(n, n.pv.priv, report);
            && Core(m) && Serves(n, m) && Known(m) && (Shown(n) ==> Shown(m))
            && m.on == n.on && m.env.o == n.env.o
            && m.pv == n.pv.(heap := m.pv.heap)
            && Rec(m) == Rec(n).(local := Rec(m).local, netdev := Rec(m).netdev)
            && (Rec(n).local != "" ==> Rec(m).local != "")
            && m.dm == n.dm.(status := m.dm.status, inUse := m.dm.inUse, localAddress := m.dm.localAddress,
                             origin := m.dm.origin, usedVia := m.dm.usedVia)
            && (m.dm.status == n.dm.status || m.dm.status != Disabled)
  {
    hide Setup, Disable, ServedBy, StatusOk, Trusted, RecordOk;
    if report.address == "" || report.netdev == "" {
      DisableKeeps(n, Error);
    } else {
      PatchAddress(n, report);
      SetupKeeps(SetRec(n, n.pv.priv, Rec(n).(local := Trunc(report.address, ADDRLEN), netdev := Some(report.netdev))));
    }
  }

  /** Replacing the queries. */
  lemma QueriesShape(pv: Private, qs: map<nat, Query>, next: nat, o: nat, c: nat)
    requires Shape(pv) && pv.next <= next && QueriesOk(qs, pv.priv, next) && o - c == |qs|
    ensures Shape(pv.(queries := qs, next := next, queriesOpened := o, queriesClosed := c))
  {
    hide QueriesOk;
  }

  lemma CloseQueryKeeps(n: Node, q: nat)
    requires Core(n) && q in n.pv.queries.Keys + {NULL}
    ensures var m := CloseQuery(n, q);
            && Core(m) && m.pv.queries == n.pv.queries - {q}
            && m == n.(pv := n.pv.(queries := n.pv.queries - {q}, queriesClosed := m.pv.queriesClosed))
  {
    hide StatusOk, Trusted, RecordOk, LookupsOk, QueriesOk;
    OneLess(n.pv.queries, n.pv.priv, n.pv.next, q);
    if q != NULL { QueriesShape(n.pv, n.pv.queries - {q}, n.pv.next, n.pv.queriesOpened, n.pv.queriesClosed + 1); }
  }

  lemma OneLess(qs: map<nat, Query>, p: nat, next: nat, q: nat)
    requires QueriesOk(qs, p, next)
    ensures QueriesOk(qs - {q}, p, next)
    ensures if q in qs then |qs - {q}| == |qs| - 1 else qs - {q} == qs
    ensures q in qs ==> q != NULL
  {
    assert (qs - {q}).Keys == qs.Keys - {q};
    if q !in qs { assert qs - {q} == qs; }
  }

  lemma OneMore(qs: map<nat, Query>, p: nat, next: nat, kind: QueryKind)
    requires QueriesOk(qs, p, next) && next != NULL
    ensures QueriesOk(qs[next := Query(kind, p)], p, next + 1) && |qs[next := Query(kind, p)]| == |qs| + 1
  {
    assert next !in qs;
    assert qs[next := Query(kind, p)].Keys == qs.Keys + {next};
  }

  lemma AddQueryKeeps(n: Node, kind: QueryKind)
    requires Core(n)
    ensures Core(AddQuery(n, kind))
  {
    hide StatusOk, Trusted, RecordOk, LookupsOk, QueriesOk;
    OneMore(n.pv.queries, n.pv.priv, n.pv.next, kind);
    QueriesShape(n.pv, AddQuery(n, kind).pv.queries, n.pv.next + 1, n.pv.queriesOpened + 1, n.pv.queriesClosed);
  }

  ghost predicate Linked(pv: Private)
    requires pv.priv in pv.heap
  {
    LookupLinked(pv) && QueriesLinked(pv)
  }

  /** Replacing the query pointers of the record. */
  lemma StoreQuery(n: Node, a: nat, d: nat)
    requires Core(n)
    ensures Core(SetRec(n, n.pv.priv, Rec(n).(addrQuery := a, dhcpQuery := d)))
  {
    hide StatusOk, Trusted;
  }

  /** Closing one of the two queries, and opening another one in its place. */
  lemma Relink(qs: map<nat, Query>, a: nat, d: nat, q: nat, rec: nat)
    requires QueriesAre(qs, a, d) && q != NULL && q !in qs
    ensures a in qs.Keys + {NULL} && d in qs.Keys + {NULL}
    ensures QueriesAre(qs - {a}, NULL, d) && QueriesAre(qs - {d}, a, NULL)
    ensures QueriesAre((qs - {a})[q := Query(Addresses, rec)], q, d)
    ensures QueriesAre((qs - {d})[q := Query(AftrName, rec)], a, q)
  {
    assert a != NULL && d != NULL ==> a != d;
    assert (qs - {a}).Keys == qs.Keys - {a} == Keys(d);
    assert (qs - {d}).Keys == qs.Keys - {d} == Keys(a);
    assert (qs - {a})[q := Query(Addresses, rec)].Keys == Keys(d) + {q};
    assert (qs - {d})[q := Query(AftrName, rec)].Keys == Keys(a) + {q};
  }

  /** Only netmodel bookkeeping and the local address differ. */
  ghost predicate AddressFrame(n: Node, m: Node)
    requires Live(n)
  {
    && m.on == n.on && m.env.o == n.env.o
    && m.pv == n.pv.(heap := m.pv.heap, queries := m.pv.queries, next := m.pv.next,
                     queriesOpened := m.pv.queriesOpened, queriesClosed := m.pv.queriesClosed)
    && Live(m)
    && Rec(m) == Rec(n).(local := Rec(m).local, netdev := Rec(m).netdev, addrQuery := Rec(m).addrQuery)
    && m.dm == n.dm.(status := m.dm.status, inUse := m.dm.inUse, localAddress := m.dm.localAddress,
                     origin := m.dm.origin, usedVia := m.dm.usedVia)
    && (m.dm.status == n.dm.status || m.dm.status != Disabled)
  }

  lemma SubscribeAddressesKeeps(n: Node, now: Option<AddressReport>)
    requires Core(n) && Known(n)
    ensures var m := SubscribeAddresses(n, now);
            && Core(m) && Serves(n, m) && Known(m) && (Shown(n) ==> Shown(m))
            && AddressFrame(n, m) && Rec(m).addrQuery == Rec(n).addrQuery
            && m.pv.queries == n.pv.queries[n.pv.next := Query(Addresses, n.pv.priv)] && m.pv.next == n.pv.next + 1
  {
    hide AddressCallback, ServedBy, StatusOk, Trusted, RecordOk;
    AddQueryKeeps(n, Addresses);
    if now.Some? { AddressCallbackKeeps(AddQuery(n, Addresses), now.value); }
  }

  lemma NextIsNew(n: Node)
    requires Core(n)
    ensures n.pv.next != NULL && n.pv.next !in n.pv.queries && NULL !in n.pv.queries
  {
    hide StatusOk, Trusted, RecordOk;
  }

  /** What became of the query `was` of this kind when another one, `q`, was asked for. */
  ghost predicate Replaced(n: Node, m: Node, rv: int, was: nat, q: nat, kind: QueryKind) {
    if rv == 0 then
      && q == n.pv.next != NULL && q != was
      && m.pv.queries == (n.pv.queries - {was})[q := Query(kind, n.pv.priv)]
    else
      rv == -1 && (if n.dm.wan == "" then m == n else q == NULL && m.pv.queries == n.pv.queries - {was})
  }

  lemma OpenAddressKeeps(n: Node)
    requires Core(n) && Linked(n.pv) && Known(n)
    ensures var r := OpenAddressQuery(n); var m := r.n;
            && Core(m) && Serves(n, m) && Linked(m.pv) && Known(m) && AddressFrame(n, m) && (Shown(n) ==> Shown(m))
            && Replaced(n, m, r.rv, Rec(n).addrQuery, Rec(m).addrQuery, Addresses)
  {
    hide QueriesAre, CloseQuery, SubscribeAddresses, ServedBy, StatusOk, Trusted, RecordOk, Shape;
    if n.dm.wan != "" {
      NextIsNew(n);
      Relink(n.pv.queries, Rec(n).addrQuery, Rec(n).dhcpQuery, n.pv.next, n.pv.priv);
      CloseQueryKeeps(n, Rec(n).addrQuery);
      var n1 := NextCall(CloseQuery(n, Rec(n).addrQuery));
      match n.env.o.addresses(n.env.calls)
      case Refused =>
        StoreQuery(n1, NULL, Rec(n1).dhcpQuery);
      case Opened(now) =>
        SubscribeAddressesKeeps(n1, now);
        var n2 := SubscribeAddresses(n1, now);
        StoreQuery(n2, n1.pv.next, Rec(n2).dhcpQuery);
    }
  }

  /** As ResolveFrame, for a handler that may also write EndpointName. */
  ghost predicate DhcpFrame(n: Node, m: Node)
    requires Live(n)
  {
    && m.on == n.on && m.env.o == n.env.o && Live(m) && m.pv.priv == n.pv.priv && n.pv.next <= m.pv.next && m.pv.wild == n.pv.wild
    && Rec(m).local == Rec(n).local && Rec(m).netdev == Rec(n).netdev
    && Rec(m).addrQuery == Rec(n).addrQuery
    && m.dm == n.dm.(status := m.dm.status, inUse := m.dm.inUse, localAddress := m.dm.localAddress,
                     origin := m.dm.origin, usedVia := m.dm.usedVia, endpointName := m.dm.endpointName)
    && (m.dm.status == n.dm.status || m.dm.status != Disabled)
  }

  /** A report of this name counts: it is not empty, and either EndpointName already or short enough to be. */
  predicate Counts(name: string, current: string) {
    name != "" && (|name| <= NAMELEN || name == current)
  }

  /** Every name report is resolved once: now, or by the change event that it queues. */
  ghost predicate Reported(n: Node, m: Node, name: string) {
    if name == n.dm.endpointName && name != "" then
      m.pv.queued == n.pv.queued && m.pv.attempts == n.pv.attempts + [name] && m.dm.endpointName == name
    else if 0 < |name| <= NAMELEN then
      m.pv.queued == Some(name) && m.pv.attempts == n.pv.attempts && m.dm.endpointName == name
    else
      m.pv.queued == n.pv.queued && m.pv.attempts == n.pv.attempts && m.dm.endpointName == n.dm.endpointName
  }

  /** A report whose name is resolved at once abandons the lookup in flight; any other report leaves it alone. */
  ghost predicate Abandons(n: Node, m: Node, now: Option<string>)
    requires Live(n) && Live(m)
  {
    if now.Some? && now.value != "" && now.value == n.dm.endpointName then m.pv.stale == n.pv.stale + Abandoned(n.pv)
    else m.pv.stale == n.pv.stale && m.pv.lookups == n.pv.lookups && Rec(m).dns == Rec(n).dns
  }

  /** The outcome of an open call: what its handler was told, if anything. */
  ghost predicate Told(n: Node, m: Node, now: Option<string>) {
    if now.Some? then Reported(n, m, now.value)
    else m.pv.queued == n.pv.queued && m.pv.attempts == n.pv.attempts && m.dm.endpointName == n.dm.endpointName
  }

  lemma QueueKeeps(n: Node, name: string)
    requires Core(n)
    ensures var m := n.(dm := n.dm.(endpointName := name), pv := n.pv.(queued := Some(name)));
            Core(m) && Serves(n, m)
  {
    hide Trusted, RecordOk;
  }

  lemma DhcpCallbackKeeps(n: Node, name: string)
    requires Core(n) && LookupLinked(n.pv) && Known(n)
    ensures var m := DhcpCallback(n, n.pv.priv, name);
            && Core(m) && Serves(n, m) && LookupLinked(m.pv) && Known(m)
            && DhcpFrame(n, m) && Rec(m).dhcpQuery == Rec(n).dhcpQuery && m.pv.queries == n.pv.queries
            && Reported(n, m, name) && (Current(n) ==> Current(m)) && Abandons(n, m, Some(name))
            && ((Awake(n) && forall c :: n.env.o.dns(c).Opened?) ==> Awake(m))
  {
    hide Resolve, Disable, ServedBy, Trusted, RecordOk, Shape, LeavesTimer;
    if name != "" && name == n.dm.endpointName {
      ResolveKeeps(n, name);
      var r := Resolve(n, name);
      if r.rv != 0 { DisableKeeps(r.n, Error); }
    } else {
      QueueKeeps(n, name);
    }
  }

  lemma SubscribeAftrKeeps(n: Node, now: Option<string>)
    requires Core(n) && LookupLinked(n.pv) && Known(n)
    ensures var m := SubscribeAftr(n, now);
            && Core(m) && Serves(n, m) && LookupLinked(m.pv) && Known(m)
            && DhcpFrame(n, m) && Rec(m).dhcpQuery == Rec(n).dhcpQuery
            && m.pv.queries == n.pv.queries[n.pv.next := Query(AftrName, n.pv.priv)]
            && Told(n, m, now) && (Current(n) ==> Current(m)) && Abandons(n, m, now)
            && ((Awake(n) && forall c :: n.env.o.dns(c).Opened?) ==> Awake(m))
  {
    hide DhcpCallback, ServedBy, Trusted, RecordOk, Shape, StatusOk, LeavesTimer, QueriesLinked;
    AddQueryKeeps(n, AftrName);
    if now.Some? { DhcpCallbackKeeps(AddQuery(n, AftrName), now.value); }
  }

  /** The name that netmodel reports from inside the call that opens a DHCP query now, if it does. */
  function Prompt(n: Node): Option<string> {
    match n.env.o.dhcp(n.env.calls)
    case Refused => None
    case Opened(now) => if n.dm.wan == "" then None else now
  }

  /** Neither closing the previous query before the call nor storing the new one after it shows. */
  lemma AroundTheCall(n: Node, n1: Node, n2: Node, d: nat, now: Option<string>)
    requires Live(n) && Live(n2) && n2.pv.priv == n.pv.priv
    requires n1 == n.(env := n1.env, pv := n.pv.(queries := n1.pv.queries, queriesClosed := n1.pv.queriesClosed))
    requires Told(n1, n2, now) && Abandons(n1, n2, now) && (Current(n1) ==> Current(n2))
    ensures var m := SetRec(n2, n2.pv.priv, Rec(n2).(dhcpQuery := d));
            Told(n, m, now) && Abandons(n, m, now) && (Current(n) ==> Current(m)) && (Awake(n2) ==> Awake(m))
  {
    hide LeavesTimer;
  }

  lemma OpenDhcpKeeps(n: Node)
    requires Core(n) && Linked(n.pv) && Known(n)
    ensures var r := OpenDhcpQuery(n); var m := r.n;
            && Core(m) && Serves(n, m) && Linked(m.pv) && Known(m) && DhcpFrame(n, m)
            && Replaced(n, m, r.rv, Rec(n).dhcpQuery, Rec(m).dhcpQuery, AftrName)
            && Told(n, m, Prompt(n)) && (Current(n) ==> Current(m)) && Abandons(n, m, Prompt(n))
            && ((Awake(n) && forall c :: n.env.o.dns(c).Opened?) ==> Awake(m))
  {
    hide QueriesAre, CloseQuery, SubscribeAftr, ServedBy, StatusOk, Trusted, RecordOk, Shape, Told, Abandons, CurrentIn, AwakeIn;
    if n.dm.wan != "" {
      NextIsNew(n);
      Relink(n.pv.queries, Rec(n).addrQuery, Rec(n).dhcpQuery, n.pv.next, n.pv.priv);
      CloseQueryKeeps(n, Rec(n).dhcpQuery);
      var n1 := NextCall(CloseQuery(n, Rec(n).dhcpQuery));
      match n.env.o.dhcp(n.env.calls)
      case Refused =>
        StoreQuery(n1, Rec(n1).addrQuery, NULL);
        NothingTold(n1);
        AroundTheCall(n, n1, n1, NULL, None);
        SameAwake(n, n1);
      case Opened(now) =>
        SubscribeAftrKeeps(n1, now);
        var n2 := SubscribeAftr(n1, now);
        StoreQuery(n2, Rec(n2).addrQuery, n1.pv.next);
        AroundTheCall(n, n1, n2, n1.pv.next, now);
        SameAwake(n, n1);
    } else {
      NothingTold(n);
    }
  }

  lemma NothingTold(n: Node)
    requires Live(n)
    ensures Told(n, n, None) && Abandons(n, n, None)
  {
  }

  lemma SameAwake(n: Node, n1: Node)
    requires Live(n) && n1 == n.(env := n1.env, pv := n.pv.(queries := n1.pv.queries, queriesClosed := n1.pv.queriesClosed))
    ensures Awake(n) <==> Awake(n1)
  {
  }
}
