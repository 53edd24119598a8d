/** Runs over any number of interfaces: who owns what, and when that breaks. */
module Ownership {
  import opened Model
  import opened Tunnel
  import opened Interface
  import opened Events
  import opened Invariant
  import opened Keeps
  import opened Lifecycle
  import opened World

  ghost predicate AllSound(w: World) {
    Trusted(w.env.o) && forall k: nat :: k < |w.ifs| ==> Sound(At(w, k))
  }

  /** Soundness of one interface does not depend on what the others do to the world. */
  lemma OtherEnv(n: Node, env: Env)
    requires env.o == n.env.o
    ensures Sound(n) ==> Sound(n.(env := env))
    ensures Handled(n) ==> Handled(n.(env := env))
  {
    hide Trusted, RecordOk, Shape, StatusOk, Linked;
  }

  /** The loop body of `_toggle_dslite`, just after DSLite.Enable was written. */
  lemma ToggledKeeps(n: Node)
    requires Sound(n.(on := !n.on))
    ensures Handled(Toggled(n)) && Serves(n, Toggled(n)) && Toggled(n).env.o == n.env.o && Toggled(n).on == n.on
    ensures SameSettings(n, Toggled(n))
    ensures Active(Toggled(n)) ==> Live(Toggled(n)) && (DnsOpens(n) ==> Awake(Toggled(n)))
  {
    hide EnableInterface, DisableInterface, Linked, Trusted, RecordOk, Shape;
    if n.dm.enable {
      if n.on {
        EnableKeeps(n);
      } else {
        WriteKeeps(n.(on := !n.on), n);
        DisableInterfaceKeeps(n);
      }
    }
  }

  lemma {:induction false} ToggleFromKeeps(w: World, before: World, k: nat)
    requires k <= |w.ifs| && before == w.(on := !w.on)
    requires forall j: nat :: j < k ==> Handled(At(w, j))
    requires forall j: nat :: k <= j < |w.ifs| ==> Sound(At(before, j))
    ensures var t := ToggleFrom(w, k);
            && |t.ifs| == |w.ifs| && t.on == w.on && t.env.o == w.env.o
            && forall j: nat :: j < |t.ifs| ==> Handled(At(t, j))
    decreases |w.ifs| - k
  {
    hide Toggled, Sound, Handled;
    if k < |w.ifs| {
      var n := At(w, k);
      assert n.(on := !n.on) == At(before, k);
      ToggledKeeps(n);
      var w1 := Put(w, k, Toggled(n));
      forall j: nat | j < k ensures Handled(At(w1, j)) { OtherEnv(At(w, j), w1.env); }
      assert At(w1, k) == Toggled(n);
      var before1 := w1.(on := !w1.on);
      forall j: nat | k + 1 <= j < |w1.ifs| ensures Sound(At(before1, j)) {
        OtherEnv(At(before, j), w1.env);
      }
      ToggleFromKeeps(w1, before1, k + 1);
    }
  }

  lemma {:induction false} DrainFromKeeps(w: World, k: nat)
    requires k <= |w.ifs|
    requires forall j: nat :: j < k ==> Sound(At(w, j))
    requires forall j: nat :: k <= j < |w.ifs| ==> Handled(At(w, j))
    ensures var t := DrainFrom(w, k);
            && |t.ifs| == |w.ifs| && t.on == w.on && t.env.o == w.env.o
            && forall j: nat :: j < |t.ifs| ==> Sound(At(t, j))
    decreases |w.ifs| - k
  {
    hide Drain, Sound, Handled;
    if k < |w.ifs| {
      var n := At(w, k);
      DrainKeeps(n);
      var w1 := Put(w, k, Drain(n));
      forall j: nat | j < k ensures Sound(At(w1, j)) { OtherEnv(At(w, j), w1.env); }
      assert At(w1, k) == Drain(n);
      forall j: nat | k + 1 <= j < |w1.ifs| ensures Handled(At(w1, j)) { OtherEnv(At(w, j), w1.env); }
      DrainFromKeeps(w1, k + 1);
    }
  }

  /** The one event that breaks ownership: `_interface_added` never enables the new instance. */
  predicate Guard(w: World, e: WorldEvent) {
    e.Add? ==> !(w.on && e.dm.enable)
  }

  lemma WorldStepKeeps(w: World, e: WorldEvent)
    requires AllSound(w) && Guard(w, e)
    ensures AllSound(WorldStep(w, e)) && WorldStep(w, e).env.o == w.env.o
  {
    hide Sound, Handled, Step, ToggleFrom, DrainFrom;
    var w1 := WorldStep(w, e);
    match e
    case SetDslite(b) =>
      if b != w.on {
        var w0 := w.(on := b);
        ToggleFromKeeps(w0, w, 0);
        DrainFromKeeps(ToggleFrom(w0, 0), 0);
      }
    case Add(dm) =>
      forall k: nat | k < |w1.ifs| ensures Sound(At(w1, k)) {
        if k < |w.ifs| { assert At(w1, k) == At(w, k); } else { NewIsSound(w1, k, dm); }
      }
    case On(k, ev) =>
      if k < |w.ifs| {
        var n := At(w, k);
        StepKeeps(n, ev);
        forall j: nat | j < |w1.ifs| ensures Sound(At(w1, j)) {
          if j == k { assert At(w1, k) == Step(n, ev); } else { OtherEnv(At(w, j), w1.env); }
        }
      }
  }

  lemma NewIsSound(w: World, k: nat, dm: Settings)
    requires k < |w.ifs| && w.ifs[k] == NewInstance(dm) && Trusted(w.env.o) && !(w.on && dm.enable)
    ensures Sound(At(w, k))
  {
    hide Trusted;
  }

  // ---- one instance in the loop -------------------------------------------------------

  /** Each instance passes through the loop in the surroundings that the ones before it leave. */
  lemma {:induction false} ToggleFromEach(w: World, before: World, k: nat) returns (envs: seq<Env>)
    requires k <= |w.ifs| && before == w.(on := !w.on)
    requires forall j: nat :: k <= j < |w.ifs| ==> Sound(At(before, j))
    ensures |envs| == |w.ifs| == |ToggleFrom(w, k).ifs|
    ensures forall j: nat :: j < k ==> ToggleFrom(w, k).ifs[j] == w.ifs[j]
    ensures forall j: nat :: k <= j < |w.ifs| ==>
              envs[j].o == w.env.o && ToggleFrom(w, k).ifs[j] == InstanceOf(Toggled(At(w, j).(env := envs[j])))
    decreases |w.ifs| - k
  {
    hide Toggled, Sound, Handled;
    if k == |w.ifs| {
      envs := seq(|w.ifs|, _ => w.env);
    } else {
      assert At(w, k).(on := !w.on) == At(before, k);
      ToggledKeeps(At(w, k));
      var w1 := Put(w, k, Toggled(At(w, k)));
      var before1 := w1.(on := !w1.on);
      forall j: nat | k + 1 <= j < |w1.ifs| ensures Sound(At(before1, j)) { OtherEnv(At(before, j), w1.env); }
      var rest := ToggleFromEach(w1, before1, k + 1);
      envs := rest[k := w.env];
      assert forall j: nat, env: Env :: k < j < |w.ifs| ==> At(w1, j).(env := env) == At(w, j).(env := env);
    }
  }

  lemma {:induction false} DrainFromEach(w: World, k: nat) returns (envs: seq<Env>)
    requires k <= |w.ifs|
    requires forall j: nat :: k <= j < |w.ifs| ==> Handled(At(w, j))
    ensures |envs| == |w.ifs| == |DrainFrom(w, k).ifs|
    ensures forall j: nat :: j < k ==> DrainFrom(w, k).ifs[j] == w.ifs[j]
    ensures forall j: nat :: k <= j < |w.ifs| ==>
              envs[j].o == w.env.o && DrainFrom(w, k).ifs[j] == InstanceOf(Drain(At(w, j).(env := envs[j])))
    decreases |w.ifs| - k
  {
    hide Drain, Sound, Handled;
    if k == |w.ifs| {
      envs := seq(|w.ifs|, _ => w.env);
    } else {
      DrainKeeps(At(w, k));
      var w1 := Put(w, k, Drain(At(w, k)));
      forall j: nat | k + 1 <= j < |w1.ifs| ensures Handled(At(w1, j)) { OtherEnv(At(w, j), w1.env); }
      var rest := DrainFromEach(w1, k + 1);
      envs := rest[k := w.env];
      assert forall j: nat, env: Env :: k < j < |w.ifs| ==> At(w1, j).(env := env) == At(w, j).(env := env);
    }
  }

  /** What a write of DSLite.Enable makes of one instance, given when its turn comes. */
  function Passed(n: Node, b: bool, e1: Env, e2: Env): Instance {
    InstanceOf(Drain(Toggled(n.(on := b, env := e1)).(env := e2)))
  }

  lemma LoopEach(w: World, b: bool) returns (e1: seq<Env>, e2: seq<Env>)
    requires AllSound(w) && b != w.on
    ensures |e1| == |e2| == |w.ifs| == |WorldStep(w, SetDslite(b)).ifs|
    ensures WorldStep(w, SetDslite(b)).on == b && WorldStep(w, SetDslite(b)).env.o == w.env.o
    ensures forall j: nat :: j < |w.ifs| ==>
              e1[j].o == e2[j].o == w.env.o && WorldStep(w, SetDslite(b)).ifs[j] == Passed(At(w, j), b, e1[j], e2[j])
  {
    hide Toggled, Drain, Sound, Handled;
    var w0 := w.(on := b);
    ToggleFromKeeps(w0, w, 0);
    e1 := ToggleFromEach(w0, w, 0);
    var t := ToggleFrom(w0, 0);
    DrainFromKeeps(t, 0);
    e2 := DrainFromEach(t, 0);
    forall j: nat | j < |w.ifs|
      ensures WorldStep(w, SetDslite(b)).ifs[j] == Passed(At(w, j), b, e1[j], e2[j])
    {
      var n1 := At(w0, j).(env := e1[j]);
      OtherEnv(At(w, j), e1[j]);
      assert n1.(on := !n1.on) == At(w, j).(env := e1[j]);
      ToggledKeeps(n1);
      assert At(t, j).(env := e2[j]) == Toggled(At(w0, j).(env := e1[j])).(env := e2[j]);
    }
  }

  /** Along the way the instance keeps what every transition keeps. */
  lemma PassedKeeps(n: Node, b: bool, e1: Env, e2: Env)
    requires Sound(n) && b != n.on && e1.o == e2.o == n.env.o
    ensures var t := Toggled(n.(on := b, env := e1)).(env := e2);
            && Handled(t) && SameSettings(n.(on := b, env := e2), t)
            && (Active(t) ==> Live(t) && (DnsOpens(n) ==> Awake(t)))
            && Sound(Drain(t)) && SameSettings(t, Drain(t)) && StaysAwake(t, Drain(t))
  {
    hide Toggled, Drain, Sound, Handled, AwakeIn;
    var n1 := n.(on := b, env := e1);
    OtherEnv(n, e1);
    assert n.(env := e1) == n1.(on := !n1.on);
    ToggledKeeps(n1);
    OtherEnv(Toggled(n1), e2);
    DrainKeeps(Toggled(n1).(env := e2));
  }

  // ---- runs ---------------------------------------------------------------------------

  /** A record is allocated, and pointed to, exactly while the interface is active. */
  ghost predicate RecordIffActive(w: World) {
    forall k: nat :: k < |w.ifs| ==>
      && (Active(At(w, k)) <==> Live(At(w, k)))
      && w.ifs[k].pv.heap.Keys <= {w.ifs[k].pv.priv}
  }

  /** Whatever was opened or started refers to a record that is still allocated. */
  ghost predicate NothingDangles(pv: Private) {
    && !pv.fault
    && (forall q :: q in pv.queries ==> pv.queries[q].rec in pv.heap)
    && (forall h :: h in pv.lookups ==> pv.lookups[h].rec in pv.heap)
    && (pv.timers != map[] ==> pv.priv in pv.heap)
  }

  /** Netmodel queries opened and not closed are exactly those in the record, at most one of each kind. */
  ghost predicate QueriesConserved(pv: Private) {
    pv.queriesOpened - pv.queriesClosed == |pv.queries| ==
      if pv.priv in pv.heap then
        (if pv.heap[pv.priv].addrQuery != NULL then 1 else 0) + (if pv.heap[pv.priv].dhcpQuery != NULL then 1 else 0)
      else 0
  }

  lemma SoundHeap(n: Node)
    requires Sound(n)
    ensures !n.pv.fault && n.pv.heap.Keys == if Active(n) then {n.pv.priv} else {}
  {
    hide Trusted, RecordOk, StatusOk, LookupsOk, QueriesOk, Linked, CurrentIn;
  }

  lemma SoundOwns(n: Node)
    requires Sound(n)
    ensures (Active(n) <==> Live(n)) && n.pv.heap.Keys <= {n.pv.priv}
    ensures NothingDangles(n.pv) && QueriesConserved(n.pv)
  {
    hide Trusted, RecordOk, StatusOk;
    if Active(n) {
      var a, d, qs := Rec(n).addrQuery, Rec(n).dhcpQuery, n.pv.queries;
      assert qs.Keys == Keys(a) + Keys(d) && |qs| == |qs.Keys|;
      assert a != NULL && d != NULL ==> qs[a].kind != qs[d].kind && qs.Keys == {a, d} && a != d;
    }
  }

  /** Every event of the run passes the guard. */
  ghost predicate Guarded(w: World, es: seq<WorldEvent>) {
    forall i :: 0 <= i < |es| ==> Guard(Run(w, es[..i]), es[i])
  }

  lemma {:induction false} RunKeeps(w: World, es: seq<WorldEvent>)
    requires AllSound(w) && Guarded(w, es)
    ensures AllSound(Run(w, es)) && Run(w, es).env.o == w.env.o
    decreases |es|
  {
    hide WorldStep, AllSound, Guard;
    if es != [] {
      var p := es[..|es| - 1];
      assert forall i {:trigger es[..i]} :: 0 <= i < |p| ==> p[..i] == es[..i];
      RunKeeps(w, p);
      WorldStepKeeps(Run(w, p), es[|es| - 1]);
    }
  }

  /**
   Main result. In every state of every guarded run, for every interface: a record is allocated
   exactly while DSLite.Enable and Enable both hold, nothing refers to a released record and no
   handler has followed such a pointer, and netmodel queries are neither lost nor duplicated.
   */
  lemma EveryRunOwnsItsRecords(env: Env, es: seq<WorldEvent>)
    requires Trusted(env.o) && Guarded(Start(env), es)
    ensures var w := Run(Start(env), es);
            && RecordIffActive(w)
            && forall k: nat :: k < |w.ifs| ==> NothingDangles(w.ifs[k].pv) && QueriesConserved(w.ifs[k].pv)
  {
    hide Run, Sound, Guarded, Trusted;
    RunKeeps(Start(env), es);
    var w := Run(Start(env), es);
    forall k: nat | k < |w.ifs|
      ensures (Active(At(w, k)) <==> Live(At(w, k))) && w.ifs[k].pv.heap.Keys <= {w.ifs[k].pv.priv}
      ensures NothingDangles(w.ifs[k].pv) && QueriesConserved(w.ifs[k].pv)
    {
      SoundOwns(At(w, k));
    }
  }

  /** And the guard is exact: every state has records where it should iff no event breaks the guard. */
  lemma OwnershipHoldsExactly(env: Env, es: seq<WorldEvent>)
    requires Trusted(env.o)
    ensures (forall i :: 0 <= i <= |es| ==> RecordIffActive(Run(Start(env), es[..i]))) <==> Guarded(Start(env), es)
  {
    hide WorldStep, RecordIffActive, Trusted;
    var w := Start(env);
    if Guarded(w, es) {
      forall i | 0 <= i <= |es| ensures RecordIffActive(Run(w, es[..i])) {
        assert forall j {:trigger es[..j]} :: 0 <= j < i ==> es[..i][..j] == es[..j];
        EveryRunOwnsItsRecords(env, es[..i]);
      }
    } else {
      var i :| 0 <= i < |es| && !Guard(Run(w, es[..i]), es[i]);
      RunTo(w, es, i);
      UnguardedBreaks(Run(w, es[..i]), es[i]);
    }
  }

  lemma RunOne(w: World, es: seq<WorldEvent>, e: WorldEvent)
    ensures Run(w, es + [e]) == WorldStep(Run(w, es), e)
  {
    assert (es + [e])[..|es|] == es;
  }

  lemma RunTwo(w: World, e1: WorldEvent, e2: WorldEvent)
    ensures Run(w, [e1]) == WorldStep(w, e1)
    ensures Run(w, [e1, e2]) == WorldStep(WorldStep(w, e1), e2)
  {
    hide WorldStep;
    RunOne(w, [], e1);
    RunOne(w, [e1], e2);
    assert [] + [e1] == [e1] && [e1] + [e2] == [e1, e2];
  }

  lemma RunTo(w: World, es: seq<WorldEvent>, i: nat)
    requires i < |es|
    ensures Run(w, es[..i + 1]) == WorldStep(Run(w, es[..i]), es[i])
  {
    assert es[..i + 1] == es[..i] + [es[i]];
    RunOne(w, es[..i], es[i]);
  }

  lemma UnguardedBreaks(w: World, e: WorldEvent)
    requires !Guard(w, e)
    ensures !RecordIffActive(WorldStep(w, e))
  {
    var w1 := WorldStep(w, e);
    var k := |w.ifs|;
    assert At(w1, k) == Node(w.on, w1.ifs[k].dm, w1.ifs[k].pv, w.env) && w1.ifs[k] == NewInstance(e.dm);
  }

  /** What follows from such an instance: its first static address follows a NULL record pointer. */
  lemma AddedWhileOnFaults(env: Env, dm: Settings, address: string)
    requires dm.enable && dm.precedence == Static && dm.addressType == IPv6Address
    requires address != dm.endpointAddress && |address| <= ADDRLEN
    ensures var w := Run(Start(env), [SetDslite(true), Add(dm), On(0, SetAddress(address))]);
            |w.ifs| == 1 && w.ifs[0].pv.fault
  {
    hide Step, Run;
    var e1, e2, e3 := SetDslite(true), Add(dm), On(0, SetAddress(address));
    var w0 := Start(env);
    RunTwo(w0, e1, e2);
    RunOne(w0, [e1, e2], e3);
    assert [e1, e2] + [e3] == [e1, e2, e3];
    NoRecordFaults(At(Run(w0, [e1, e2]), 0), address);
  }

  lemma NoRecordFaults(n: Node, address: string)
    requires Active(n) && n.pv.priv == NULL && n.pv.heap == map[] && n.pv.queued.None? && MethodOf(n.dm) == StaticIPv6
    requires address != n.dm.endpointAddress && |address| <= ADDRLEN
    ensures Step(n, SetAddress(address)).pv.fault
  {
    hide Setup, TakeDown;
    var n1 := n.(dm := n.dm.(endpointAddress := address));
    assert GetRemote(n1) == ParamRes(Fault(n1), Missing);
    var n2 := if n1.dm.status == Enabled then TakeDown(Fault(n1)) else Fault(n1);
    TakeDownKeepsFault(Fault(n1));
    assert AddressChanged(n1) == UpdateStatus(n2, Error) == n2;
  }

  lemma TakeDownKeepsFault(n: Node)
    requires n.pv.fault
    ensures TakeDown(n).pv == n.pv
  {
  }
}
