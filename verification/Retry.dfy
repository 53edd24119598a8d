/** A name that was submitted for resolution is retried until it resolves, with one exact exception. */
module Retry {
  import opened Basics
  import opened Model
  import opened Tunnel
  import opened Resolver
  import opened Netmodel
  import opened Interface
  import opened Events
  import opened Invariant
  import opened Keeps
  import opened Lifecycle
  import opened World
  import opened Ownership

  /**
   The event that ends retrying: the retry timer expires while EndpointName is empty, no lookup is
   outstanding, and the last one did not succeed.
   */
  predicate Stalls(n: Node, e: Event) {
    && e.RetryTimer? && e.t in n.pv.timers && n.pv.timers[e.t] && n.dm.endpointName == ""
    && Live(n) && Rec(n).asked && !Rec(n).answered
    && forall h :: h in n.pv.lookups ==> !n.pv.lookups[h].pending
  }

  ghost predicate AwakeIfActive(n: Node) {
    Active(n) ==> Live(n) && Awake(n)
  }

  lemma EmptyRetry(n: Node, t: nat)
    requires Sound(n) && n.dm.endpointName == "" && Active(n) && Awake(n)
    ensures var m := Step(n, RetryTimer(t));
            && Active(m) && Live(m)
            && (Awake(m) <==> !Stalls(n, RetryTimer(t)))
  {
    hide Trusted, RecordOk, StatusOk, Shape, QueriesAre, LookupLinked, CurrentIn;
    if t in n.pv.timers && n.pv.timers[t] {
      TimerOwner(n, t);
      var m := n.(pv := n.pv.(timers := n.pv.timers[t := false]));
      assert Step(n, RetryTimer(t)) == m;
    }
  }

  /** When the retry timer expires, the name is submitted again, once. */
  ghost predicate Tries(n: Node, e: Event) {
    e.RetryTimer? && e.t in n.pv.timers && n.pv.timers[e.t] ==>
      Step(n, e).pv.attempts == n.pv.attempts + if n.dm.endpointName == "" then [] else [n.dm.endpointName]
  }

  lemma StepTries(n: Node, e: Event)
    requires Sound(n)
    ensures Tries(n, e)
  {
    hide Resolve, Trusted, StatusOk, RecordOk, Shape, QueriesAre, CurrentIn, AwakeIn, LeavesTimer;
    if e.RetryTimer? && e.t in n.pv.timers && n.pv.timers[e.t] {
      assert Active(n);
      TimerOwner(n, e.t);
      ResolveKeeps(n.(pv := n.pv.(timers := n.pv.timers[e.t := false])), n.dm.endpointName);
      assert n.pv.attempts + [] == n.pv.attempts;
    }
  }

  /** One event of one interface: retrying stops exactly at a stalling event, and every expiry before submits the name. */
  lemma StepStaysAwake(n: Node, e: Event)
    requires Sound(n) && AwakeIfActive(n) && DnsOpens(n)
    ensures AwakeIfActive(Step(n, e)) <==> !(Active(n) && Stalls(n, e))
    ensures Tries(n, e)
  {
    hide Step, Sound, AwakeIn, Stalls, Tries;
    StepKeeps(n, e);
    StepTries(n, e);
    if Active(n) && e.RetryTimer? && n.dm.endpointName == "" {
      EmptyRetry(n, e.t);
    } else {
      NeedsEmptyName(n, e);
      if e.RetryTimer? && n.dm.endpointName == "" { InactiveRetry(n, e.t); }
    }
  }

  lemma NeedsEmptyName(n: Node, e: Event)
    ensures Stalls(n, e) ==> e.RetryTimer? && n.dm.endpointName == ""
  {
  }

  lemma InactiveRetry(n: Node, t: nat)
    requires Sound(n) && !Active(n)
    ensures Step(n, RetryTimer(t)) == n
  {
    hide Resolve, Trusted;
  }

  ghost predicate AllAwake(w: World) {
    forall k: nat :: k < |w.ifs| ==> AwakeIfActive(At(w, k))
  }

  /** The condition under which an event of the run ends retrying. */
  predicate StallsWorld(w: World, e: WorldEvent) {
    e.On? && e.k < |w.ifs| && Active(At(w, e.k)) && Stalls(At(w, e.k), e.e)
  }

  lemma AwakeOtherEnv(n: Node, env: Env)
    ensures AwakeIfActive(n) <==> AwakeIfActive(n.(env := env))
  {
  }

  /** Passing through the loop of `_toggle_dslite`. */
  lemma PassedAwake(n: Node, b: bool, e1: Env, e2: Env, env: Env)
    requires Sound(n) && b != n.on && e1.o == e2.o == n.env.o && DnsOpens(n)
    ensures var i := Passed(n, b, e1, e2); AwakeIfActive(Node(b, i.dm, i.pv, env))
  {
    hide Toggled, Drain, Sound, Handled, AwakeIn;
    PassedKeeps(n, b, e1, e2);
    AwakeOtherEnv(Drain(Toggled(n.(on := b, env := e1)).(env := e2)), env);
  }

  lemma WorldStepAwake(w: World, e: WorldEvent)
    requires AllSound(w) && Guard(w, e) && AllAwake(w) && (forall c :: w.env.o.dns(c).Opened?)
    ensures AllAwake(WorldStep(w, e)) <==> !StallsWorld(w, e)
  {
    hide Sound, Handled, Step, ToggleDslite, Passed, AwakeIn, Stalls;
    var w1 := WorldStep(w, e);
    match e
    case SetDslite(b) =>
      if b != w.on {
        var e1, e2 := LoopEach(w, b);
        forall j: nat | j < |w1.ifs| ensures AwakeIfActive(At(w1, j)) { PassedAwake(At(w, j), b, e1[j], e2[j], w1.env); }
      }
    case Add(dm) =>
      forall k: nat | k < |w1.ifs| ensures AwakeIfActive(At(w1, k)) {
        if k < |w.ifs| { assert At(w1, k) == At(w, k); }
      }
    case On(k, ev) =>
      if k < |w.ifs| {
        var n := At(w, k);
        StepStaysAwake(n, ev);
        StepKeeps(n, ev);
        assert At(w1, k) == Step(n, ev);
        forall j: nat | j < |w.ifs| && j != k ensures AwakeIfActive(At(w1, j)) { AwakeOtherEnv(At(w, j), w1.env); }
      }
  }

  /** No event of the run is a stalling one. */
  ghost predicate NeverStalls(w: World, es: seq<WorldEvent>) {
    forall i :: 0 <= i < |es| ==> !StallsWorld(Run(w, es[..i]), es[i])
  }

  lemma {:induction false} RunStaysAwake(w: World, es: seq<WorldEvent>)
    requires AllSound(w) && Guarded(w, es) && AllAwake(w) && NeverStalls(w, es) && (forall c :: w.env.o.dns(c).Opened?)
    ensures AllAwake(Run(w, es))
    decreases |es|
  {
    hide WorldStep, AllSound, AllAwake, Guard, StallsWorld;
    if es != [] {
      var p := es[..|es| - 1];
      assert forall i {:trigger es[..i]} :: 0 <= i < |p| ==> p[..i] == es[..i];
      RunKeeps(w, p);
      RunStaysAwake(w, p);
      WorldStepAwake(Run(w, p), es[|es| - 1]);
    }
  }

  /**
   Main result. When queries can always be opened, then in every state of a guarded run each active
   interface that submitted a name has a lookup outstanding, its retry timer running, or a last
   lookup that succeeded, if and only if no event of the run is a stalling one; and every expiry of a
   retry timer, in any run, submits the name once more.
   */
  lemma RetryingEndsExactly(env: Env, es: seq<WorldEvent>)
    requires Trusted(env.o) && Guarded(Start(env), es) && forall c :: env.o.dns(c).Opened?
    ensures (forall i :: 0 <= i <= |es| ==> AllAwake(Run(Start(env), es[..i]))) <==> NeverStalls(Start(env), es)
    ensures forall i :: 0 <= i < |es| ==> TriesWorld(Run(Start(env), es[..i]), es[i])
  {
    hide WorldStep, AllAwake, Trusted, StallsWorld, AllSound, Guard, TriesWorld;
    var w := Start(env);
    StartIsFine(env);
    forall i | 0 <= i < |es| ensures TriesWorld(Run(w, es[..i]), es[i]) { RunTries(w, es, i); }
    if NeverStalls(w, es) {
      forall i | 0 <= i <= |es| ensures AllAwake(Run(w, es[..i])) {
        assert forall j {:trigger es[..j]} :: 0 <= j < i ==> es[..i][..j] == es[..j];
        RunStaysAwake(w, es[..i]);
      }
    } else {
      var i :| 0 <= i < |es| && StallsWorld(Run(w, es[..i]), es[i]);
      RunTo(w, es, i);
      if AllAwake(Run(w, es[..i])) {
        assert forall j {:trigger es[..j]} :: 0 <= j < i ==> es[..i][..j] == es[..j];
        RunKeeps(w, es[..i]);
        WorldStepAwake(Run(w, es[..i]), es[i]);
      }
    }
  }

  ghost predicate TriesWorld(w: World, e: WorldEvent) {
    e.On? && e.k < |w.ifs| ==> Tries(At(w, e.k), e.e)
  }

  lemma WorldTries(w: World, e: WorldEvent)
    requires AllSound(w)
    ensures TriesWorld(w, e)
  {
    hide Sound, Trusted, Tries;
    if e.On? && e.k < |w.ifs| { StepTries(At(w, e.k), e.e); }
  }

  lemma RunTries(w: World, es: seq<WorldEvent>, i: nat)
    requires AllSound(w) && Guarded(w, es) && i < |es|
    ensures TriesWorld(Run(w, es[..i]), es[i])
  {
    hide Run, AllSound, Guard, TriesWorld;
    assert forall j {:trigger es[..j]} :: 0 <= j < i ==> es[..i][..j] == es[..j];
    RunKeeps(w, es[..i]);
    WorldTries(Run(w, es[..i]), es[i]);
  }

  lemma StartIsFine(env: Env)
    requires Trusted(env.o)
    ensures AllSound(Start(env)) && AllAwake(Start(env))
  {
  }

  /** Switching on a new FQDN interface whose WAN interface has no address yet. */
  lemma EnableWithoutAddress(n: Node)
    requires n.pv == NewInstance(n.dm).pv && n.dm.status == Disabled && n.env.o.addresses(n.env.calls) == Opened(None)
    requires MethodOf(n.dm) == StaticFqdn && n.dm.endpointName != "" && n.dm.wan != ""
    ensures var m := EnableInterface(n);
            && Live(m) && Rec(m).asked && !Rec(m).answered && m.pv.lookups == map[] && m.pv.timers == map[3 := true]
            && m.pv.queued.None? && SameSettings(n, m) && m.dm.endpointName == n.dm.endpointName
  {
    hide TakeDown;
    var n1 := Create(n);
    var a := OpenAddressQuery(n1);
    assert Live(a.n) && Rec(a.n).local == "" && a.n.pv.next == 3 && a.n.dm == n.dm && a.rv == 0;
    var r := Resolve(a.n, n.dm.endpointName);
    assert r.rv == -1 && r.n.pv.timers == map[3 := true];
  }

  /**
   A run that stalls: the WAN interface has no address yet, the name is cleared, and the retry
   timer expires.
   */
  lemma ClearedNameStalls(env: Env, dm: Settings)
    requires Trusted(env.o) && forall c :: env.o.addresses(c) == Opened(None)
    requires dm.enable && dm.precedence == Static && dm.addressType == FQDN && dm.endpointName != "" && dm.wan != ""
    ensures var w := Run(Start(env), [Add(dm), SetDslite(true), On(0, SetName("")), On(0, RetryTimer(3))]);
            && |w.ifs| == 1 && Active(At(w, 0)) && Live(At(w, 0)) && !Awake(At(w, 0))
  {
    hide Run, Trusted, Resolve, EnableInterface, AwakeIn, Sound, RetryExpired;
    var e1, e2, e3, e4 := Add(dm), SetDslite(true), On(0, SetName("")), On(0, RetryTimer(3));
    var w0 := Start(env);
    RunTwo(w0, e1, e2);
    RunOne(w0, [e1, e2], e3);
    RunOne(w0, [e1, e2, e3], e4);
    assert [e1, e2] + [e3] == [e1, e2, e3] && [e1, e2, e3] + [e4] == [e1, e2, e3, e4];
    var w1 := Run(w0, [e1]);
    var n1 := Node(true, w1.ifs[0].dm, w1.ifs[0].pv, env);
    EnableWithoutAddress(n1);
    var n2 := EnableInterface(n1);
    var w2 := Run(w0, [e1, e2]);
    SwitchOnOne(w1.(on := true));
    assert At(w2, 0) == n2;
    StartIsFine(env);
    WorldStepKeeps(w0, e1);
    WorldStepKeeps(w1, e2);
    var n3 := Step(n2, SetName(""));
    assert n3 == n2.(dm := n2.dm.(endpointName := ""));
    var w3 := Run(w0, [e1, e2, e3]);
    WorldStepKeeps(w2, e3);
    assert At(w3, 0) == n3;
    TimerRuns(n3);
    EmptyRetry(n3, 3);
  }

  lemma TimerRuns(n: Node)
    requires Live(n) && 3 in n.pv.timers && n.pv.timers[3] && Sound(n) && Active(n)
    ensures Awake(n)
  {
    hide Trusted, RecordOk, StatusOk;
    TimerOwner(n, 3);
  }

  /** Switching on a world of one instance. */
  lemma SwitchOnOne(w: World)
    requires w.on && |w.ifs| == 1 && w.ifs[0].dm.enable && EnableInterface(At(w, 0)).pv.queued.None?
    requires EnableInterface(At(w, 0)).on
    ensures var m := EnableInterface(At(w, 0));
            ToggleDslite(w) == World(true, [Instance(m.dm, m.pv)], m.env)
  {
    hide EnableInterface;
    var w1 := Put(w, 0, Toggled(At(w, 0)));
    assert ToggleFrom(w, 0) == ToggleFrom(w1, 1) == w1;
    assert Drain(At(w1, 0)) == At(w1, 0);
    assert DrainFrom(w1, 0) == DrainFrom(w1, 1);
  }
}
