/** Timers of DNS queries that were freed: when one is left running, over whole runs. */
module StaleTimers {
  import opened Basics
  import opened Model
  import opened Tunnel
  import opened Resolver
  import opened Netmodel
  import opened Interface
  import opened Events
  import opened Invariant
  import opened Keeps
  import opened Lifecycle
  import opened World
  import opened Ownership

  /**
   The name is submitted while the record's lookup has its destroy timer running, sockets open, or
   its DNS timer running with no completion to come.
   */
  predicate Overtakes(n: Node, e: Event) {
    && Submits(n, e) && Live(n)
    && Rec(n).dns in n.pv.lookups && LeavesTimer(n.pv.lookups[Rec(n).dns])
  }

  /** The freed queries on which a timer runs, and whether one has called back. */
  ghost predicate StaleAfter(n: Node, m: Node, more: set<Leftover>) {
    m.pv.stale == n.pv.stale + more && m.pv.wild == n.pv.wild
  }

  lemma DrainStale(n: Node)
    requires Handled(n)
    ensures StaleAfter(n, Drain(n), if n.pv.queued.Some? then Abandoned(n.pv) else {})
  {
    hide NameChanged, Trusted, StatusOk, RecordOk, Shape, Linked, CurrentIn, AwakeIn, LeavesTimer;
    if n.pv.queued.Some? {
      Dequeued(n);
      NameChangedKeeps(n.(pv := n.pv.(queued := None)), n.pv.queued.value);
    }
  }

  /** With no lookup yet, asking for the remote address abandons none, and neither does the name it queues. */
  lemma FreshProceed(n: Node)
    requires Mid(n) && n.pv.lookups == map[] && n.pv.queued.None?
    ensures var m := Proceed(GetRemote(n)); StaleAfter(n, m, {}) && (m.pv.queued.Some? ==> Abandoned(m.pv) == {})
  {
    hide Proceed, GetRemote, Mid, Proceeded;
    assert Abandoned(n.pv) == {};
    match MethodOf(n.dm)
    case StaticIPv6 => ProceedStatic(n);
    case StaticFqdn => ProceedFqdn(n); ProceededWild(n, Proceed(GetRemote(n)));
    case FromDhcp => ProceedDhcp(n); ProceededWild(n, Proceed(GetRemote(n)));
  }

  lemma ProceededWild(n: Node, m: Node)
    requires Proceeded(n, m)
    ensures m.pv.wild == n.pv.wild && Live(m) && Live(n)
  {
    hide Trusted, StatusOk, RecordOk, Shape, Linked, CurrentIn, AwakeIn, Serves;
  }

  lemma EnableStale(n: Node)
    requires Trusted(n.env.o) && !n.pv.fault && StatusOk(n.dm) && n.pv.next != NULL && Nothing(n.pv) && n.pv.queued.None?
    ensures var m := EnableInterface(n); StaleAfter(n, m, {}) && (m.pv.queued.Some? ==> Abandoned(m.pv) == {})
  {
    hide Create, OpenAddressQuery, Proceed, GetRemote, Disable, Trusted, StatusOk, RecordOk, Shape, Linked, CurrentIn;
    CreateKeeps(n);
    OpenAddressKeeps(Create(n));
    var a := OpenAddressQuery(Create(n));
    assert Mid(a.n);
    if a.rv != 0 {
      DisableKeeps(a.n, Error);
      EnableFails(n);
    } else {
      EnableProceeds(n);
      FreshProceed(a.n);
    }
  }

  lemma SetEnableStale(n: Node, b: bool)
    requires Sound(n)
    ensures var m := Handle(n, SetEnable(b)); StaleAfter(n, m, {}) && (m.pv.queued.Some? ==> Abandoned(m.pv) == {})
  {
    hide EnableInterface, DisableInterface, Linked, Trusted, RecordOk, Shape, CurrentIn;
    var n1 := n.(dm := n.dm.(enable := b));
    if b != n.dm.enable && n.on {
      if b { EnableStale(n1); } else { WriteKeeps(n, n1); DisableInterfaceKeeps(n1); }
    }
  }

  lemma SwitchStale(n: Node, e: Event)
    requires Sound(n) && (e.SetPrecedence? || e.SetAddressType?)
    ensures var m := Handle(n, e); StaleAfter(n, m, {}) && (m.pv.queued.Some? ==> Abandoned(m.pv) == {})
  {
    hide GetRemote, Proceed, ClearRemote, Linked, Trusted, RecordOk, Shape, CurrentIn;
    var n1 := if e.SetPrecedence? then n.(dm := n.dm.(precedence := e.precedence))
              else n.(dm := n.dm.(addressType := e.addressType));
    if n1 != n && Active(n) && !(e.SetAddressType? && MethodOf(n1.dm) == FromDhcp) {
      SwitchKeeps(n, n1);
      FreshProceed(ClearRemote(n1));
    }
  }

  lemma SetAddressStale(n: Node, a: string)
    requires Sound(n) && Active(n)
    ensures var m := Handle(n, SetAddress(a)); StaleAfter(n, m, {}) && m.pv.queued.None?
  {
    hide Proceed, GetRemote, Trusted, StatusOk, RecordOk, Shape, QueriesAre, CurrentIn, AwakeIn;
    var n1 := n.(dm := n.dm.(endpointAddress := a));
    WriteKeeps(n, n1);
    if MethodOf(n.dm) == StaticIPv6 { ProceedStatic(n1); SetAddressIsProceed(n1); }
  }

  lemma SetWanStale(n: Node, w: string)
    requires Sound(n) && Active(n)
    ensures var m := Handle(n, SetWan(w)); StaleAfter(n, m, {}) && m.pv.queued.None?
  {
    hide OpenAddressQuery, Setup, Disable, Trusted, StatusOk, RecordOk, Shape, QueriesAre, CurrentIn, AwakeIn, ServedBy;
    var n1 := n.(dm := n.dm.(wan := w));
    WriteKeeps(n, n1);
    OpenAddressKeeps(n1);
    var r := OpenAddressQuery(n1);
    if r.rv != 0 { DisableKeeps(r.n, Error); } else { SetupKeeps(r.n); }
  }

  lemma ReportAddressStale(n: Node, q: nat, report: AddressReport)
    requires Sound(n) && Active(n)
    ensures var m := Handle(n, ReportAddress(q, report)); StaleAfter(n, m, {}) && m.pv.queued.None?
  {
    hide AddressCallback, Trusted, StatusOk, RecordOk, Shape, QueriesAre, CurrentIn, AwakeIn, ServedBy;
    if q in n.pv.queries { QueryOwner(n, q); AddressCallbackKeeps(n, report); }
  }

  lemma LookupStale(n: Node, e: Event)
    requires Sound(n) && Active(n) && (e.LookupDone? || e.LookupSocket? || e.DnsTimer? || e.DestroyTimer?)
    ensures var m := Handle(n, e); StaleAfter(n, m, {}) && m.pv.queued.None?
  {
    hide Complete, DestroyExpired, Trusted, StatusOk, RecordOk, Shape, QueriesAre, LookupLinked, CurrentIn;
    match e
    case LookupDone(h, a) =>
      if h in n.pv.lookups && n.pv.lookups[h].pending { LookupHasChannel(n, h); CompleteKeeps(n, h, a); }
    case LookupSocket(_, _, _) =>
    case DnsTimer(_) =>
    case DestroyTimer(h) =>
      if h in n.pv.lookups { LookupHasChannel(n, h); DestroyExpiredKeeps(n, h); }
  }

  lemma SubmitStale(n: Node, e: Event)
    requires Sound(n) && Active(n) && (e.SetName? || e.ReportName? || e.RetryTimer?)
    ensures var m := Handle(n, e);
            StaleAfter(n, m, if !Submits(n, e) || m.pv.queued.Some? then {} else Abandoned(n.pv))
            && (m.pv.queued.Some? ==> Submits(n, e) && Abandoned(m.pv) == Abandoned(n.pv))
  {
    hide DhcpCallback, NameChanged, Resolve, Trusted, StatusOk, RecordOk, Shape, QueriesAre, LookupLinked, CurrentIn, LeavesTimer;
    match e
    case SetName(s) =>
      var n1 := n.(dm := n.dm.(endpointName := s));
      WriteKeeps(n, n1);
      NameChangedKeeps(n1, s);
    case ReportName(q, s) =>
      if q in n.pv.queries && n.pv.queries[q].kind == AftrName { QueryOwner(n, q); DhcpCallbackKeeps(n, s); }
    case RetryTimer(t) =>
      if t in n.pv.timers { TimerOwner(n, t); ResolveKeeps(n.(pv := n.pv.(timers := n.pv.timers[t := false])), n.dm.endpointName); }
  }

  lemma IdleStale(n: Node, e: Event)
    requires Sound(n) && !Active(n) && !e.SetEnable? && !e.StaleTimer?
    ensures var m := Handle(n, e); StaleAfter(n, m, {}) && m.pv.queued.None?
  {
    hide Resolve, DhcpCallback, AddressCallback, Complete, Trusted;
  }

  /** One event leaves a timer on a freed query exactly when it overtakes: on the query that it frees, with its channel if the destroy timer runs. */
  lemma StepStale(n: Node, e: Event)
    requires Sound(n) && !e.StaleTimer?
    ensures StaleAfter(n, Step(n, e), if Overtakes(n, e) then {LeftOf(Rec(n).dns, n.pv.lookups[Rec(n).dns])} else {})
  {
    hide Handle, Drain, Sound, Handled, Submits, LeavesTimer;
    HandleKeeps(n, e);
    DrainStale(Handle(n, e));
    NeedsName(n, e);
    if e.SetEnable? { SetEnableStale(n, e.enable); }
    else if !Active(n) { IdleStale(n, e); }
    else if e.SetPrecedence? || e.SetAddressType? { SwitchStale(n, e); }
    else if e.SetAddress? { SetAddressStale(n, e.address); }
    else if e.SetWan? { SetWanStale(n, e.wan); }
    else if e.ReportAddress? { ReportAddressStale(n, e.q, e.report); }
    else if e.SetName? || e.ReportName? || e.RetryTimer? { SubmitStale(n, e); }
    else { LookupStale(n, e); }
  }

  lemma NeedsName(n: Node, e: Event)
    requires Sound(n)
    ensures Submits(n, e) ==> Active(n) && Live(n) && (e.SetName? || e.ReportName? || e.RetryTimer?)
  {
    hide Trusted, StatusOk, RecordOk, Shape;
  }

  // ---- runs ---------------------------------------------------------------------------

  /** No timer runs on a freed query, and none has called back. */
  ghost predicate Clean(w: World) {
    forall k: nat :: k < |w.ifs| ==> w.ifs[k].pv.stale == {} && !w.ifs[k].pv.wild
  }

  predicate OvertakesWorld(w: World, e: WorldEvent) {
    e.On? && e.k < |w.ifs| && Overtakes(At(w, e.k), e.e)
  }

  lemma PassedStale(n: Node, b: bool, e1: Env, e2: Env)
    requires Sound(n) && b != n.on && e1.o == e2.o == n.env.o
    ensures var i := Passed(n, b, e1, e2); i.pv.stale == n.pv.stale && i.pv.wild == n.pv.wild
  {
    hide EnableInterface, DisableInterface, Drain, Handled, Trusted, StatusOk, RecordOk, Shape, Linked, CurrentIn, LeavesTimer;
    PassedKeeps(n, b, e1, e2);
    var n1 := n.(on := b, env := e1);
    DrainStale(Toggled(n1).(env := e2));
    if n.dm.enable {
      if b { EnableStale(n1); } else { WriteKeeps(n.(env := e1), n1); DisableInterfaceKeeps(n1); }
    }
  }

  lemma WorldStepClean(w: World, e: WorldEvent)
    requires AllSound(w) && Guard(w, e) && Clean(w)
    ensures Clean(WorldStep(w, e)) <==> !OvertakesWorld(w, e)
  {
    hide Sound, Step, Passed, ToggleDslite, Overtakes;
    var w1 := WorldStep(w, e);
    match e
    case SetDslite(b) =>
      if b != w.on {
        var e1, e2 := LoopEach(w, b);
        forall j: nat | j < |w1.ifs| ensures w1.ifs[j].pv.stale == {} && !w1.ifs[j].pv.wild {
          PassedStale(At(w, j), b, e1[j], e2[j]);
        }
      }
    case Add(dm) =>
    case On(k, ev) =>
      if k < |w.ifs| {
        if ev.StaleTimer? { NothingStale(At(w, k), ev.left); } else { StepStale(At(w, k), ev); }
        assert w1.ifs[k].pv == Step(At(w, k), ev).pv;
      }
  }

  lemma NothingStale(n: Node, left: Leftover)
    requires Sound(n) && n.pv.stale == {}
    ensures Step(n, StaleTimer(left)) == n && !Overtakes(n, StaleTimer(left))
  {
    hide Trusted, Mid;
  }

  ghost predicate NeverOvertakes(w: World, es: seq<WorldEvent>) {
    forall i :: 0 <= i < |es| ==> !OvertakesWorld(Run(w, es[..i]), es[i])
  }

  lemma {:induction false} RunClean(w: World, es: seq<WorldEvent>)
    requires AllSound(w) && Guarded(w, es) && Clean(w) && NeverOvertakes(w, es)
    ensures Clean(Run(w, es))
    decreases |es|
  {
    hide WorldStep, AllSound, Clean, Guard, OvertakesWorld;
    if es != [] {
      var p := es[..|es| - 1];
      assert forall i {:trigger es[..i]} :: 0 <= i < |p| ==> p[..i] == es[..i];
      RunKeeps(w, p);
      RunClean(w, p);
      WorldStepClean(Run(w, p), es[|es| - 1]);
    }
  }

  /**
   Main result. In every state of a guarded run no timer runs on a freed DNS query, and none has
   called back, if and only if no event overtakes: submits a name while the record's lookup has its
   destroy timer running, sockets open, or its DNS timer running with no completion to come.
   */
  lemma NoTimerOutlivesExactly(env: Env, es: seq<WorldEvent>)
    requires Trusted(env.o) && Guarded(Start(env), es)
    ensures (forall i :: 0 <= i <= |es| ==> Clean(Run(Start(env), es[..i]))) <==> NeverOvertakes(Start(env), es)
  {
    hide Run, WorldStep, Clean, Trusted, OvertakesWorld, AllSound, Guard;
    var w := Start(env);
    StartClean(env);
    if NeverOvertakes(w, es) {
      forall i | 0 <= i <= |es| ensures Clean(Run(w, es[..i])) {
        assert forall j {:trigger es[..j]} :: 0 <= j < i ==> es[..i][..j] == es[..j];
        RunClean(w, es[..i]);
      }
    } else {
      var i :| 0 <= i < |es| && OvertakesWorld(Run(w, es[..i]), es[i]);
      RunTo(w, es, i);
      if Clean(Run(w, es[..i])) {
        assert forall j {:trigger es[..j]} :: 0 <= j < i ==> es[..i][..j] == es[..j];
        RunKeeps(w, es[..i]);
        WorldStepClean(Run(w, es[..i]), es[i]);
      }
    }
  }

  lemma StartClean(env: Env)
    requires Trusted(env.o)
    ensures AllSound(Start(env)) && Clean(Start(env))
  {
  }

  // ---- channels -----------------------------------------------------------------------

  /** No channel was left behind with a freed query. */
  ghost predicate NoStray(w: World) {
    forall k: nat, left :: k < |w.ifs| && left in w.ifs[k].pv.stale ==> !left.channel
  }

  /** The event overtakes while the destroy timer runs. */
  predicate Strands(n: Node, e: Event) {
    Overtakes(n, e) && n.pv.lookups[Rec(n).dns].channel && n.pv.lookups[Rec(n).dns].armed
  }

  predicate StrandsWorld(w: World, e: WorldEvent) {
    e.On? && e.k < |w.ifs| && Strands(At(w, e.k), e.e)
  }

  lemma StepStrands(n: Node, e: Event)
    requires Sound(n) && forall left :: left in n.pv.stale ==> !left.channel
    ensures (forall left :: left in Step(n, e).pv.stale ==> !left.channel) <==> !Strands(n, e)
  {
    hide Step, Sound, Submits, LeavesTimer;
    if e.StaleTimer? {
      StaleGoes(n, e.left);
    } else {
      StepStale(n, e);
      if Strands(n, e) {
        var left := LeftOf(Rec(n).dns, n.pv.lookups[Rec(n).dns]);
        assert left in Step(n, e).pv.stale && left.channel;
      }
    }
  }

  lemma StaleGoes(n: Node, left: Leftover)
    requires Sound(n)
    ensures Step(n, StaleTimer(left)).pv.stale == n.pv.stale - {left} && !Overtakes(n, StaleTimer(left))
  {
    hide Trusted, Mid;
  }

  lemma WorldStepStrands(w: World, e: WorldEvent)
    requires AllSound(w) && Guard(w, e) && NoStray(w)
    ensures NoStray(WorldStep(w, e)) <==> !StrandsWorld(w, e)
  {
    hide Sound, Step, Passed, ToggleDslite, Strands;
    var w1 := WorldStep(w, e);
    match e
    case SetDslite(b) =>
      if b != w.on {
        var e1, e2 := LoopEach(w, b);
        forall j: nat | j < |w1.ifs| ensures w1.ifs[j].pv.stale == w.ifs[j].pv.stale {
          PassedStale(At(w, j), b, e1[j], e2[j]);
        }
      }
    case Add(dm) =>
    case On(k, ev) =>
      if k < |w.ifs| {
        StepStrands(At(w, k), ev);
        assert w1.ifs[k].pv == Step(At(w, k), ev).pv;
      }
  }

  ghost predicate NeverStrands(w: World, es: seq<WorldEvent>) {
    forall i :: 0 <= i < |es| ==> !StrandsWorld(Run(w, es[..i]), es[i])
  }

  lemma {:induction false} RunStrands(w: World, es: seq<WorldEvent>)
    requires AllSound(w) && Guarded(w, es) && NoStray(w) && NeverStrands(w, es)
    ensures NoStray(Run(w, es))
    decreases |es|
  {
    hide WorldStep, AllSound, NoStray, Guard, StrandsWorld;
    if es != [] {
      var p := es[..|es| - 1];
      assert forall i {:trigger es[..i]} :: 0 <= i < |p| ==> p[..i] == es[..i];
      RunKeeps(w, p);
      RunStrands(w, p);
      WorldStepStrands(Run(w, p), es[|es| - 1]);
    }
  }

  /**
   Main result. In every state of a guarded run no channel of a freed DNS query is left behind, if
   and only if no event submits a name while the destroy timer of the record's lookup runs.
   */
  lemma NoChannelStrandedExactly(env: Env, es: seq<WorldEvent>)
    requires Trusted(env.o) && Guarded(Start(env), es)
    ensures (forall i :: 0 <= i <= |es| ==> NoStray(Run(Start(env), es[..i]))) <==> NeverStrands(Start(env), es)
  {
    hide Run, WorldStep, NoStray, Trusted, StrandsWorld, AllSound, Guard;
    var w := Start(env);
    StartClean(env);
    CleanNoStray(w);
    if NeverStrands(w, es) {
      forall i | 0 <= i <= |es| ensures NoStray(Run(w, es[..i])) {
        assert forall j {:trigger es[..j]} :: 0 <= j < i ==> es[..i][..j] == es[..j];
        RunStrands(w, es[..i]);
      }
    } else {
      var i :| 0 <= i < |es| && StrandsWorld(Run(w, es[..i]), es[i]);
      RunTo(w, es, i);
      if NoStray(Run(w, es[..i])) {
        assert forall j {:trigger es[..j]} :: 0 <= j < i ==> es[..i][..j] == es[..j];
        RunKeeps(w, es[..i]);
        WorldStepStrands(Run(w, es[..i]), es[i]);
      }
    }
  }

  lemma CleanNoStray(w: World)
    requires Clean(w)
    ensures NoStray(w)
  {
  }
}
