/** EndpointAddress and what a static interface remembers of it. */
module StaticAddress {
  import opened Basics
  import opened Model
  import opened Tunnel
  import opened Resolver
  import opened Netmodel
  import opened Interface
  import opened Events
  import opened Invariant
  import opened Keeps
  import opened Lifecycle
  import opened World
  import opened Ownership

  predicate IsStatic(n: Node) {
    Active(n) && MethodOf(n.dm) == StaticIPv6
  }

  /** The record of a static interface holds EndpointAddress, or no address. */
  ghost predicate Matches(n: Node) {
    IsStatic(n) ==> Live(n) && (Rec(n).remote == "" || Rec(n).remote == Trunc(n.dm.endpointAddress, ADDRLEN))
  }

  /** EndpointAddress is emptied while the record holds an address. */
  predicate Clears(n: Node, e: Event) {
    IsStatic(n) && e == SetAddress("") && Live(n) && Rec(n).remote != ""
  }

  /** Events that decide neither method, nor activity, nor EndpointAddress. */
  predicate LeavesAddress(e: Event) {
    !e.SetEnable? && !e.SetAddress? && !e.SetPrecedence? && !e.SetAddressType?
  }

  /** What such events leave alone. */
  ghost predicate AddressKeptBy(n: Node, m: Node) {
    && m.on == n.on && m.dm.enable == n.dm.enable && MethodOf(m.dm) == MethodOf(n.dm)
    && m.dm.endpointAddress == n.dm.endpointAddress
    && (IsStatic(n) ==> Live(n) && Live(m) && Rec(m).remote == Rec(n).remote && m.pv.queued == n.pv.queued)
  }

  /** A static interface has no lookup and no retry timer, so nothing of theirs happens to it. */
  lemma StaticIsQuiet(n: Node, e: Event)
    requires Sound(n) && IsStatic(n)
    requires e.LookupDone? || e.LookupSocket? || e.DnsTimer? || e.DestroyTimer? || e.RetryTimer? || e.SetName?
    ensures AddressKeptBy(n, Handle(n, e))
  {
    hide Complete, DestroyExpired, RetryExpired, Resolve, Trusted, StatusOk, RecordOk, Shape, QueriesAre, CurrentIn;
    NoLookup(n);
    OwnTimer(n.pv);
  }

  lemma QuietWan(n: Node, w: string)
    requires Sound(n) && Active(n)
    ensures AddressKeptBy(n, Handle(n, SetWan(w)))
  {
    hide OpenAddressQuery, Setup, Disable, Trusted, StatusOk, RecordOk, Shape, QueriesAre, CurrentIn, AwakeIn, ServedBy;
    var n1 := n.(dm := n.dm.(wan := w));
    WriteKeeps(n, n1);
    OpenAddressKeeps(n1);
    var r := OpenAddressQuery(n1);
    if r.rv != 0 { DisableKeeps(r.n, Error); } else { SetupKeeps(r.n); }
  }

  lemma QuietReport(n: Node, e: Event)
    requires Sound(n) && Active(n) && (e.ReportAddress? || e.ReportName?)
    ensures AddressKeptBy(n, Handle(n, e))
  {
    hide AddressCallback, DhcpCallback, Trusted, StatusOk, RecordOk, Shape, QueriesAre, CurrentIn, AwakeIn, ServedBy, LeavesTimer;
    match e
    case ReportAddress(q, report) =>
      if q in n.pv.queries { QueryOwner(n, q); AddressCallbackKeeps(n, report); }
    case ReportName(q, name) =>
      if q in n.pv.queries && n.pv.queries[q].kind == AftrName { QueryOwner(n, q); DhcpCallbackKeeps(n, name); }
  }

  lemma QuietResolver(n: Node, e: Event)
    requires Sound(n) && Active(n) && MethodOf(n.dm) != StaticIPv6 && (e.SetName? || e.RetryTimer?)
    ensures AddressKeptBy(n, Handle(n, e))
  {
    hide NameChanged, Resolve, Trusted, StatusOk, RecordOk, Shape, QueriesAre, LookupLinked, CurrentIn, AwakeIn, ServedBy, LeavesTimer;
    match e
    case SetName(s) =>
      var n1 := n.(dm := n.dm.(endpointName := s));
      WriteKeeps(n, n1);
      NameChangedKeeps(n1, s);
    case RetryTimer(t) =>
      if t in n.pv.timers { TimerOwner(n, t); ResolveKeeps(n.(pv := n.pv.(timers := n.pv.timers[t := false])), n.dm.endpointName); }
  }

  lemma QuietLookups(n: Node, e: Event)
    requires Sound(n) && Active(n) && MethodOf(n.dm) != StaticIPv6
    requires e.LookupDone? || e.LookupSocket? || e.DnsTimer? || e.DestroyTimer?
    ensures AddressKeptBy(n, Handle(n, e))
  {
    hide Complete, DestroyExpired, Trusted, StatusOk, RecordOk, Shape, QueriesAre, LookupLinked, CurrentIn, AwakeIn, ServedBy;
    match e
    case LookupDone(h, a) =>
      if h in n.pv.lookups && n.pv.lookups[h].pending { LookupHasChannel(n, h); CompleteKeeps(n, h, a); }
    case LookupSocket(_, _, _) =>
    case DnsTimer(_) =>
    case DestroyTimer(h) =>
      if h in n.pv.lookups { LookupHasChannel(n, h); DestroyExpiredKeeps(n, h); }
  }

  /** An inactive interface has no record, so its callbacks do not happen and its handlers do nothing. */
  lemma QuietWhenIdle(n: Node, e: Event)
    requires Sound(n) && !Active(n) && LeavesAddress(e)
    ensures AddressKeptBy(n, Handle(n, e))
  {
    hide Resolve, DhcpCallback, AddressCallback, Complete, Trusted;
  }

  lemma AddressLeft(n: Node, e: Event)
    requires Sound(n) && LeavesAddress(e)
    ensures AddressKeptBy(n, Handle(n, e))
  {
    hide Handle, Sound, AddressKeptBy;
    if e.StaleTimer? { StaleIsQuiet(n, e.left); }
    else if !Active(n) { QuietWhenIdle(n, e); }
    else if e.SetWan? { QuietWan(n, e.wan); }
    else if e.ReportAddress? || e.ReportName? { QuietReport(n, e); }
    else if MethodOf(n.dm) == StaticIPv6 { StaticIsQuiet(n, e); }
    else if e.SetName? || e.RetryTimer? { QuietResolver(n, e); }
    else { QuietLookups(n, e); }
  }

  lemma StaleIsQuiet(n: Node, left: Leftover)
    requires Sound(n)
    ensures AddressKeptBy(n, Handle(n, StaleTimer(left)))
  {
    hide Trusted, StatusOk, RecordOk, Shape;
  }

  /** Handling the queued name touches neither. */
  lemma DrainLeaves(n: Node)
    requires Handled(n)
    ensures var m := Drain(n);
            && m.on == n.on && m.dm.enable == n.dm.enable && MethodOf(m.dm) == MethodOf(n.dm)
            && m.dm.endpointAddress == n.dm.endpointAddress
            && (IsStatic(n) ==> m == n)
  {
    hide NameChanged, Trusted, StatusOk;
    DrainKeeps(n);
  }

  /** A static interface that was enabled or switched to just now remembers no other address. */
  lemma FreshMatches(n: Node, e: Event)
    requires Sound(n) && Matches(n) && (e.SetEnable? || e.SetPrecedence? || e.SetAddressType?)
    ensures Matches(Handle(n, e))
  {
    hide EnableInterface, DisableInterface, Proceed, GetRemote, ClearRemote, Trusted, RecordOk, Shape, QueriesAre, CurrentIn;
    match e
    case SetEnable(b) =>
      var n1 := n.(dm := n.dm.(enable := b));
      if b != n.dm.enable && n.on {
        if b { EnableKeeps(n1); EnableMatches(n1); } else { WriteKeeps(n, n1); DisableInterfaceKeeps(n1); }
      }
    case SetPrecedence(p) =>
      if Active(n) { SwitchMatches(n, n.(dm := n.dm.(precedence := p))); }
    case SetAddressType(t) =>
      if Active(n) { SwitchMatches(n, n.(dm := n.dm.(addressType := t))); }
  }

  lemma EnableMatches(n: Node)
    requires Trusted(n.env.o) && !n.pv.fault && StatusOk(n.dm) && n.pv.next != NULL && Nothing(n.pv) && n.pv.queued.None?
    ensures Matches(EnableInterface(n))
  {
    hide Create, OpenAddressQuery, Proceed, GetRemote, Disable, Trusted, StatusOk, RecordOk, Shape, Linked, CurrentIn;
    CreateKeeps(n);
    OpenAddressKeeps(Create(n));
    var a := OpenAddressQuery(Create(n));
    assert Mid(a.n) && Rec(a.n).remote == "";
    if a.rv != 0 {
      DisableKeeps(a.n, Error);
      EnableFails(n);
    } else {
      EnableProceeds(n);
      if MethodOf(n.dm) == StaticIPv6 { ProceedStatic(a.n); } else { ProceedKeeps(a.n); }
    }
  }

  lemma SwitchMatches(n: Node, m: Node)
    requires Sound(n) && Active(n) && m == n.(dm := n.dm.(precedence := m.dm.precedence, addressType := m.dm.addressType))
    ensures Matches(Proceed(GetRemote(ClearRemote(m))))
  {
    hide Proceed, GetRemote, ClearRemote, Trusted, StatusOk, RecordOk, Shape, Linked, CurrentIn;
    SwitchKeeps(n, m);
    var c := ClearRemote(m);
    if MethodOf(m.dm) == StaticIPv6 { ProceedStatic(c); } else { ProceedKeeps(c); }
  }

  lemma WrittenMatches(n: Node, a: string)
    requires Sound(n) && Matches(n)
    ensures Matches(Handle(n, SetAddress(a))) <==> !Clears(n, SetAddress(a))
  {
    hide Proceed, GetRemote, Trusted, StatusOk, RecordOk, Shape, Linked, CurrentIn;
    if IsStatic(n) && a != n.dm.endpointAddress && |a| <= ADDRLEN {
      var n1 := n.(dm := n.dm.(endpointAddress := a));
      WriteKeeps(n, n1);
      ProceedStatic(n1);
      SetAddressIsProceed(n1);
    }
  }

  /** One event parts the record from EndpointAddress exactly when it clears. */
  lemma StepMatches(n: Node, e: Event)
    requires Sound(n) && Matches(n)
    ensures Matches(Step(n, e)) <==> !Clears(n, e)
  {
    hide Handle, Drain, Sound, Handled;
    HandleKeeps(n, e);
    DrainLeaves(Handle(n, e));
    if e.SetAddress? { WrittenMatches(n, e.address); }
    else if LeavesAddress(e) { AddressLeft(n, e); }
    else { FreshMatches(n, e); }
  }

  // ---- runs ---------------------------------------------------------------------------

  ghost predicate AllMatch(w: World) {
    forall k: nat :: k < |w.ifs| ==> Matches(At(w, k))
  }

  predicate ClearsWorld(w: World, e: WorldEvent) {
    e.On? && e.k < |w.ifs| && Clears(At(w, e.k), e.e)
  }

  lemma PassedMatches(n: Node, b: bool, e1: Env, e2: Env, env: Env)
    requires Sound(n) && b != n.on && e1.o == e2.o == n.env.o
    ensures var i := Passed(n, b, e1, e2); Matches(Node(b, i.dm, i.pv, env))
  {
    hide EnableInterface, DisableInterface, Drain, Sound, Handled, Trusted, StatusOk;
    PassedKeeps(n, b, e1, e2);
    var n1 := n.(on := b, env := e1);
    DrainLeaves(Toggled(n1).(env := e2));
    if n.dm.enable && b { IdleEnables(n); EnableMatches(n1); }
  }

  lemma IdleEnables(n: Node)
    requires Sound(n) && !n.on
    ensures Trusted(n.env.o) && !n.pv.fault && StatusOk(n.dm) && n.pv.next != NULL && Nothing(n.pv) && n.pv.queued.None?
  {
    hide Trusted, StatusOk;
  }

  lemma WorldStepMatches(w: World, e: WorldEvent)
    requires AllSound(w) && Guard(w, e) && AllMatch(w)
    ensures AllMatch(WorldStep(w, e)) <==> !ClearsWorld(w, e)
  {
    hide Sound, Step, Passed, ToggleDslite, Clears;
    var w1 := WorldStep(w, e);
    match e
    case SetDslite(b) =>
      if b != w.on {
        var e1, e2 := LoopEach(w, b);
        forall j: nat | j < |w1.ifs| ensures Matches(At(w1, j)) { PassedMatches(At(w, j), b, e1[j], e2[j], w1.env); }
      }
    case Add(dm) =>
      forall k: nat | k < |w1.ifs| ensures Matches(At(w1, k)) {
        if k < |w.ifs| { assert Matches(At(w, k)) && At(w1, k) == At(w, k); }
      }
    case On(k, ev) =>
      if k < |w.ifs| {
        StepMatches(At(w, k), ev);
        StepKeeps(At(w, k), ev);
        assert At(w1, k) == Step(At(w, k), ev);
        forall j: nat | j < |w.ifs| && j != k ensures Matches(At(w1, j)) { assert Matches(At(w, j)); }
      }
  }

  ghost predicate NeverClears(w: World, es: seq<WorldEvent>) {
    forall i :: 0 <= i < |es| ==> !ClearsWorld(Run(w, es[..i]), es[i])
  }

  lemma {:induction false} RunMatches(w: World, es: seq<WorldEvent>)
    requires AllSound(w) && Guarded(w, es) && AllMatch(w) && NeverClears(w, es)
    ensures AllMatch(Run(w, es))
    decreases |es|
  {
    hide WorldStep, AllSound, AllMatch, Guard, ClearsWorld;
    if es != [] {
      var p := es[..|es| - 1];
      assert forall i {:trigger es[..i]} :: 0 <= i < |p| ==> p[..i] == es[..i];
      RunKeeps(w, p);
      RunMatches(w, p);
      WorldStepMatches(Run(w, p), es[|es| - 1]);
    }
  }

  /**
   Main result. In every state of a guarded run the record of every static interface holds its
   EndpointAddress or no address, if and only if no event empties EndpointAddress while the record
   holds an address.
   */
  lemma RecordMatchesExactly(env: Env, es: seq<WorldEvent>)
    requires Trusted(env.o) && Guarded(Start(env), es)
    ensures (forall i :: 0 <= i <= |es| ==> AllMatch(Run(Start(env), es[..i]))) <==> NeverClears(Start(env), es)
  {
    hide Run, WorldStep, AllMatch, Trusted, ClearsWorld, AllSound, Guard;
    var w := Start(env);
    if NeverClears(w, es) {
      forall i | 0 <= i <= |es| ensures AllMatch(Run(w, es[..i])) {
        assert forall j {:trigger es[..j]} :: 0 <= j < i ==> es[..i][..j] == es[..j];
        StartMatches(env);
        RunMatches(w, es[..i]);
      }
    } else {
      var i :| 0 <= i < |es| && ClearsWorld(Run(w, es[..i]), es[i]);
      RunTo(w, es, i);
      if AllMatch(Run(w, es[..i])) {
        assert forall j {:trigger es[..j]} :: 0 <= j < i ==> es[..i][..j] == es[..j];
        StartMatches(env);
        RunKeeps(w, es[..i]);
        WorldStepMatches(Run(w, es[..i]), es[i]);
      }
    }
  }

  lemma StartMatches(env: Env)
    requires Trusted(env.o)
    ensures AllSound(Start(env)) && AllMatch(Start(env))
  {
  }

  /**
   What that means for the address shown: in every state of every guarded run, an Enabled static
   interface shows its EndpointAddress if and only if EndpointAddress is not empty.
   */
  lemma EnabledShowsExactly(env: Env, es: seq<WorldEvent>, k: nat)
    requires Trusted(env.o) && Guarded(Start(env), es) && k < |Run(Start(env), es).ifs|
    requires var n := At(Run(Start(env), es), k); IsStatic(n) && n.dm.status == Enabled
    ensures var dm := At(Run(Start(env), es), k).dm;
            dm.inUse == Trunc(dm.endpointAddress, ADDRLEN) <==> dm.endpointAddress != ""
  {
    hide Run, Sound, Trusted, Guarded;
    RunKeeps(Start(env), es);
    ShowsExactly(At(Run(Start(env), es), k));
  }

  lemma ShowsExactly(n: Node)
    requires Sound(n) && IsStatic(n) && n.dm.status == Enabled
    ensures n.dm.inUse == Trunc(n.dm.endpointAddress, ADDRLEN) <==> n.dm.endpointAddress != ""
  {
    hide Trusted, RecordOk, Shape;
  }
}
