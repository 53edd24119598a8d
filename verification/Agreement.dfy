/** Whole runs in which tunnel, firewall service and status agree. */
module Agreement {
  import opened Model
  import opened Interface
  import opened Events
  import opened Invariant
  import opened Keeps
  import opened Lifecycle
  import opened World
  import opened Ownership
  import opened Service
  import opened Sync
  import opened Breaking
  import Ioctl

  ghost predicate AnyEnabled(w: World) {
    exists k: nat :: k < |w.ifs| && w.ifs[k].dm.status == Enabled
  }

  /** The part of NodeSync that one interface keeps to itself. */
  ghost predicate RecSync(n: Node, devs: set<string>) {
    && NamesIps(n.dm)
    && (Active(n) ==> Live(n) && Repeatable(Rec(n), n.dm, n.env.o.pf, devs))
  }

  ghost predicate WorldSync(w: World, devs: set<string>) {
    && Friendly(w.env.o, devs)
    && Agree(AnyEnabled(w), w.env.kernel, w.env.services, devs)
    && forall k: nat :: k < |w.ifs| ==> RecSync(At(w, k), devs)
  }

  lemma OnlyOne(w: World, k: nat)
    requires k < |w.ifs| && OthersNotEnabled(w, k)
    ensures AnyEnabled(w) <==> w.ifs[k].dm.status == Enabled
  {
  }

  lemma AtSync(w: World, k: nat, devs: set<string>)
    requires k < |w.ifs| && OthersNotEnabled(w, k) && WorldSync(w, devs)
    ensures NodeSync(At(w, k), devs)
  {
    hide Friendly, Agree, Repeatable;
    OnlyOne(w, k);
    assert RecSync(At(w, k), devs);
  }

  lemma PutSync(w: World, k: nat, m: Node, devs: set<string>)
    requires k < |w.ifs| && OthersNotEnabled(w, k) && WorldSync(w, devs)
    requires NodeSync(m, devs) && m.on == w.on && m.env.o == w.env.o
    ensures WorldSync(Put(w, k, m), devs)
  {
    hide Friendly, Agree, Repeatable;
    var w1 := Put(w, k, m);
    OnlyOne(w1, k);
    assert At(w1, k) == m;
    forall j: nat | j < |w1.ifs| ensures RecSync(At(w1, j), devs) {
      if j != k { assert RecSync(At(w, j), devs); }
    }
  }

  /** A name is queued only while the interface is not Enabled, as after switching on. */
  predicate Quiet(i: Instance) {
    i.pv.queued.Some? ==> i.dm.status != Enabled
  }

  /** The loop of `_toggle_dslite`: only the candidate does anything. */
  lemma ToggledSync(n: Node, devs: set<string>)
    requires Sound(n.(on := !n.on)) && NodeSync(n.(on := !n.on), devs)
    ensures NodeSync(Toggled(n), devs) && Quiet(InstanceOf(Toggled(n)))
  {
    hide EnableInterface, DisableInterface, Linked, Trusted, RecordOk, Shape, Friendly, Agree, CurrentIn, Usable;
    if n.dm.enable {
      if n.on {
        EnableKeeps(n);
        EnableSync(n, devs);
      } else {
        WriteKeeps(n.(on := !n.on), n);
        DisableInterfaceKeeps(n);
        DisableInterfaceSync(n, devs);
      }
    }
  }

  /** Between the writes of DSLite.Enable and the end of the loop: passed, or as before the write. */
  ghost predicate HalfSync(w: World, k: nat, devs: set<string>) {
    && Friendly(w.env.o, devs)
    && Agree(AnyEnabled(w), w.env.kernel, w.env.services, devs)
    && (forall j: nat :: j < k && j < |w.ifs| ==> RecSync(At(w, j), devs) && Quiet(w.ifs[j]))
    && (forall j: nat :: k <= j < |w.ifs| ==> RecSync(Node(!w.on, w.ifs[j].dm, w.ifs[j].pv, w.env), devs))
  }

  lemma {:induction false} ToggleFromSync(w: World, before: World, k: nat, devs: set<string>)
    requires k <= |w.ifs| && before == w.(on := !w.on)
    requires forall j: nat :: k <= j < |w.ifs| ==> Sound(At(before, j))
    requires HalfSync(w, k, devs) && OneCandidate(w)
    ensures WorldSync(ToggleFrom(w, k), devs) && OneCandidate(ToggleFrom(w, k))
    ensures forall j: nat :: j < |ToggleFrom(w, k).ifs| ==> Quiet(ToggleFrom(w, k).ifs[j])
    decreases |w.ifs| - k
  {
    hide Toggled, Sound, Handled, Friendly, Agree, Repeatable, Quiet;
    if k < |w.ifs| {
      var n, b := At(w, k), At(before, k);
      assert n.(on := !n.on) == b;
      ToggledKeeps(n);
      var m := Toggled(n);
      var w1 := Put(w, k, m);
      if n.dm.enable {
        OnlyOne(w, k);
        ToggledSync(n, devs);
        OnlyOne(w1, k);
      } else {
        NotEnabledUntouched(n);
        SoundIsQuiet(b);
        SameEnabled(w, w1);
      }
      assert At(w1, k) == m;
      forall j: nat | j < k ensures RecSync(At(w1, j), devs) && Quiet(w1.ifs[j]) { assert RecSync(At(w, j), devs); }
      forall j: nat | k + 1 <= j < |w1.ifs| ensures RecSync(Node(!w1.on, w1.ifs[j].dm, w1.ifs[j].pv, w1.env), devs) {
        assert RecSync(Node(!w.on, w.ifs[j].dm, w.ifs[j].pv, w.env), devs);
      }
      var before1 := w1.(on := !w1.on);
      forall j: nat | k + 1 <= j < |w1.ifs| ensures Sound(At(before1, j)) { OtherEnv(At(before, j), w1.env); }
      ToggleFromSync(w1, before1, k + 1, devs);
    }
  }

  lemma SoundIsQuiet(n: Node)
    requires Sound(n)
    ensures Quiet(InstanceOf(n))
  {
    hide Trusted, Mid;
  }

  lemma SameEnabled(w: World, w1: World)
    requires |w.ifs| == |w1.ifs| && forall j :: 0 <= j < |w.ifs| ==> w1.ifs[j].dm.status == w.ifs[j].dm.status
    ensures AnyEnabled(w) <==> AnyEnabled(w1)
  {
  }

  lemma {:induction false} DrainFromSync(w: World, k: nat, devs: set<string>)
    requires k <= |w.ifs|
    requires forall j: nat :: k <= j < |w.ifs| ==> Handled(At(w, j))
    requires forall j: nat :: k <= j < |w.ifs| ==> Quiet(w.ifs[j])
    requires WorldSync(w, devs) && OneCandidate(w)
    ensures WorldSync(DrainFrom(w, k), devs)
    decreases |w.ifs| - k
  {
    hide Drain, Sound, Handled, Friendly, Agree, Repeatable;
    if k < |w.ifs| {
      var n := At(w, k);
      DrainKeeps(n);
      IdleDrain(n);
      var w1 := Put(w, k, Drain(n));
      if n.dm.enable {
        AtSync(w, k, devs);
        DrainSync(n, devs);
        PutSync(w, k, Drain(n), devs);
      } else {
        assert w1 == w;
      }
      forall j: nat | k + 1 <= j < |w1.ifs| ensures Handled(At(w1, j)) { OtherEnv(At(w, j), w1.env); }
      DrainFromSync(w1, k + 1, devs);
    }
  }

  ghost predicate CooperativeWorld(w: World, e: WorldEvent, devs: set<string>) {
    match e
    case SetDslite(_) => true
    case Add(dm) => NamesIps(dm)
    case On(_, ev) => Cooperative(ev, devs)
  }

  ghost predicate BreaksWorld(w: World, e: WorldEvent) {
    e.On? && e.k < |w.ifs| && Breaks(At(w, e.k), e.e)
  }

  /** Tunnel, firewall service and status are equivalent. */
  ghost predicate Agreed(w: World) {
    (Ioctl.IsTunnel(w.env.kernel, TUNNEL_DEVICE) <==> AnyEnabled(w)) && (SERVICE in w.env.services <==> AnyEnabled(w))
  }

  lemma WorldStepBreaks(w: World, e: WorldEvent, devs: set<string>)
    requires AllSound(w) && AtMostOneActive(w) && WorldSync(w, devs) && CooperativeWorld(w, e, devs) && BreaksWorld(w, e)
    ensures !Agreed(WorldStep(w, e))
  {
    hide Sound, Step, Friendly, Agree, Repeatable, Cooperative;
    var k, w1 := e.k, WorldStep(w, e);
    forall j: nat | j < |w.ifs| ensures Active(At(w, j)) || w.ifs[j].dm.status != Enabled { InactiveNotEnabled(At(w, j)); }
    AtSync(w, k, devs);
    StepSync(At(w, k), e.e, devs);
    OnlyOne(w1, k);
  }

  lemma WorldStepSync(w: World, e: WorldEvent, devs: set<string>)
    requires AllSound(w) && Guard(w, e) && AtMostOneActive(w) && AtMostOneActive(WorldStep(w, e))
    requires WorldSync(w, devs) && CooperativeWorld(w, e, devs) && !BreaksWorld(w, e)
    ensures WorldSync(WorldStep(w, e), devs)
  {
    hide Sound, Handled, Step, ToggleFrom, DrainFrom, Friendly, Agree, Repeatable, Cooperative, Breaks;
    var w1 := WorldStep(w, e);
    forall j: nat | j < |w.ifs| ensures Active(At(w, j)) || w.ifs[j].dm.status != Enabled { InactiveNotEnabled(At(w, j)); }
    match e
    case SetDslite(b) =>
      if b != w.on {
        var w0 := w.(on := b);
        ToggleOne(w, b);
        SameEnabled(w, w0);
        forall j: nat | j < |w0.ifs| ensures RecSync(Node(!w0.on, w0.ifs[j].dm, w0.ifs[j].pv, w0.env), devs) {
          assert RecSync(At(w, j), devs);
        }
        ToggleFromKeeps(w0, w, 0);
        ToggleFromSync(w0, w, 0, devs);
        DrainFromSync(ToggleFrom(w0, 0), 0, devs);
      }
    case Add(dm) =>
      if AnyEnabled(w1) { assert AnyEnabled(w); }
      if AnyEnabled(w) { var j: nat :| j < |w.ifs| && w.ifs[j].dm.status == Enabled; assert w1.ifs[j] == w.ifs[j]; }
      forall k: nat | k < |w1.ifs| ensures RecSync(At(w1, k), devs) {
        if k < |w.ifs| { assert RecSync(At(w, k), devs) && At(w1, k) == At(w, k); }
      }
    case On(k, ev) =>
      if k < |w.ifs| {
        var n := At(w, k);
        StepKeeps(n, ev);
        assert At(w1, k) == Step(n, ev);
        assert forall j: nat :: j < |w.ifs| && j != k ==> (Active(At(w1, j)) <==> Active(At(w, j)));
        if !Active(n) && !Active(Step(n, ev)) {
          IdleStep(n, ev);
          SameEnabled(w, w1);
          forall j: nat | j < |w1.ifs| ensures RecSync(At(w1, j), devs) { assert RecSync(At(w, j), devs); }
        } else {
          AtSync(w, k, devs);
          StepSync(n, ev, devs);
          PutSync(w, k, Step(n, ev), devs);
        }
      }
  }

  ghost predicate CooperativeRun(w: World, es: seq<WorldEvent>, devs: set<string>) {
    forall i :: 0 <= i < |es| ==> CooperativeWorld(Run(w, es[..i]), es[i], devs)
  }

  /** No event of the run has an Enabled interface set up again in vain. */
  ghost predicate NeverBreaks(w: World, es: seq<WorldEvent>) {
    forall i :: 0 <= i < |es| ==> !BreaksWorld(Run(w, es[..i]), es[i])
  }

  lemma {:induction false} RunSync(w: World, es: seq<WorldEvent>, devs: set<string>)
    requires AllSound(w) && WorldSync(w, devs)
    requires Guarded(w, es) && OneAtATime(w, es) && CooperativeRun(w, es, devs) && NeverBreaks(w, es)
    ensures WorldSync(Run(w, es), devs)
    decreases |es|
  {
    hide WorldStep, AllSound, WorldSync, Guard, AtMostOneActive, CooperativeWorld, BreaksWorld;
    if es != [] {
      var p := es[..|es| - 1];
      assert forall i {:trigger es[..i]} :: 0 <= i <= |p| ==> p[..i] == es[..i];
      RunKeeps(w, p);
      RunSync(w, p, devs);
      assert es[..|es|] == es;
      WorldStepSync(Run(w, p), es[|es| - 1], devs);
    }
  }

  lemma PrefixSync(w: World, es: seq<WorldEvent>, i: nat, devs: set<string>)
    requires AllSound(w) && WorldSync(w, devs) && i <= |es|
    requires Guarded(w, es) && OneAtATime(w, es) && CooperativeRun(w, es, devs)
    requires forall j :: 0 <= j < i ==> !BreaksWorld(Run(w, es[..j]), es[j])
    ensures AllSound(Run(w, es[..i])) && WorldSync(Run(w, es[..i]), devs)
  {
    hide AllSound, WorldSync, Guard, AtMostOneActive, CooperativeWorld, BreaksWorld, Run;
    assert forall j {:trigger es[..j]} :: 0 <= j <= i ==> es[..i][..j] == es[..j];
    RunKeeps(w, es[..i]);
    RunSync(w, es[..i], devs);
  }

  /** The first breaking event of a run. */
  lemma FirstBreak(w: World, es: seq<WorldEvent>) returns (i: nat)
    requires !NeverBreaks(w, es)
    ensures i < |es| && BreaksWorld(Run(w, es[..i]), es[i])
    ensures forall j :: 0 <= j < i ==> !BreaksWorld(Run(w, es[..j]), es[j])
  {
    hide Run, BreaksWorld;
    i := 0;
    while i < |es| && !BreaksWorld(Run(w, es[..i]), es[i])
      invariant i <= |es|
      invariant forall j :: 0 <= j < i ==> !BreaksWorld(Run(w, es[..j]), es[j])
    {
      i := i + 1;
    }
  }

  /**
   Main result. With cooperating surroundings and one active interface at a time, a run that starts
   without tunnel and service keeps all three equivalent in every state - the tunnel exists, the
   firewall service exists, some interface is Enabled - if and only if no event has an Enabled
   interface set up again with addresses that the controller turns down.
   */
  lemma AgreementHoldsExactly(env: Env, es: seq<WorldEvent>, devs: set<string>)
    requires Friendly(env.o, devs) && Agree(false, env.kernel, env.services, devs)
    requires Guarded(Start(env), es) && OneAtATime(Start(env), es) && CooperativeRun(Start(env), es, devs)
    ensures (forall i :: 0 <= i <= |es| ==> Agreed(Run(Start(env), es[..i]))) <==> NeverBreaks(Start(env), es)
  {
    hide Run, WorldStep, AllSound, WorldSync, Agreed, Trusted, Guard, AtMostOneActive, CooperativeWorld, BreaksWorld;
    var w := Start(env);
    StartInSync(env, devs);
    if NeverBreaks(w, es) {
      forall i | 0 <= i <= |es| ensures Agreed(Run(w, es[..i])) {
        PrefixSync(w, es, i, devs);
        SyncAgrees(Run(w, es[..i]), devs);
      }
    } else {
      var i := FirstBreak(w, es);
      PrefixSync(w, es, i, devs);
      WorldStepBreaks(Run(w, es[..i]), es[i], devs);
      RunTo(w, es, i);
    }
  }

  lemma StartInSync(env: Env, devs: set<string>)
    requires Friendly(env.o, devs) && Agree(false, env.kernel, env.services, devs)
    ensures AllSound(Start(env)) && WorldSync(Start(env), devs) && Run(Start(env), []) == Start(env)
  {
    hide Trusted;
  }

  lemma SyncAgrees(w: World, devs: set<string>)
    requires WorldSync(w, devs)
    ensures Agreed(w)
  {
    hide Friendly, RecSync;
  }
}
