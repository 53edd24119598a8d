/** Runs with at most one active interface: what Status = Enabled says about the world outside. */
module Service {
  import opened Basics
  import opened Model
  import opened Interface
  import opened Events
  import opened Invariant
  import opened Keeps
  import opened Lifecycle
  import opened World
  import opened Ownership
  import Ioctl

  ghost predicate AllServed(w: World) {
    forall k: nat :: k < |w.ifs| ==> Served(At(w, k))
  }

  /** `dslite0`, the firewall service and the IP interfaces have room for one tunnel. */
  ghost predicate AtMostOneActive(w: World) {
    forall j: nat, k: nat :: j < |w.ifs| && k < |w.ifs| && Active(At(w, j)) && Active(At(w, k)) ==> j == k
  }

  ghost predicate OthersNotEnabled(w: World, k: nat) {
    forall j: nat :: j < |w.ifs| && j != k ==> w.ifs[j].dm.status != Enabled
  }

  lemma PutServes(w: World, k: nat, m: Node)
    requires k < |w.ifs| && AllServed(w) && Serves(At(w, k), m) && m.env.o == w.env.o
    requires m.env == w.env || OthersNotEnabled(w, k)
    ensures AllServed(Put(w, k, m))
  {
    var w1 := Put(w, k, m);
    forall j: nat | j < |w1.ifs| ensures Served(At(w1, j)) {
      assert Served(At(w, j));
    }
  }

  /** At most one instance has Enable set, and the others are not Enabled. */
  ghost predicate OneCandidate(w: World) {
    forall j: nat, k: nat :: j < |w.ifs| && k < |w.ifs| && j != k && w.ifs[j].dm.enable ==>
      !w.ifs[k].dm.enable && w.ifs[k].dm.status != Enabled
  }

  lemma {:induction false} ToggleFromServes(w: World, before: World, k: nat)
    requires k <= |w.ifs| && before == w.(on := !w.on)
    requires forall j: nat :: k <= j < |w.ifs| ==> Sound(At(before, j))
    requires AllServed(w) && OneCandidate(w)
    ensures AllServed(ToggleFrom(w, k)) && OneCandidate(ToggleFrom(w, k))
    decreases |w.ifs| - k
  {
    hide Toggled, Sound, Handled, ServedBy;
    if k < |w.ifs| {
      var n := At(w, k);
      assert n.(on := !n.on) == At(before, k);
      ToggledKeeps(n);
      NotEnabledUntouched(n);
      PutServes(w, k, Toggled(n));
      var w1 := Put(w, k, Toggled(n));
      var before1 := w1.(on := !w1.on);
      forall j: nat | k + 1 <= j < |w1.ifs| ensures Sound(At(before1, j)) { OtherEnv(At(before, j), w1.env); }
      ToggleFromServes(w1, before1, k + 1);
    }
  }

  lemma NotEnabledUntouched(n: Node)
    ensures !n.dm.enable ==> Toggled(n) == n
  {
    hide EnableInterface, DisableInterface;
  }

  lemma {:induction false} DrainFromServes(w: World, k: nat)
    requires k <= |w.ifs|
    requires forall j: nat :: k <= j < |w.ifs| ==> Handled(At(w, j))
    requires AllServed(w) && OneCandidate(w)
    ensures AllServed(DrainFrom(w, k))
    decreases |w.ifs| - k
  {
    hide Drain, Sound, Handled, ServedBy;
    if k < |w.ifs| {
      var n := At(w, k);
      DrainKeeps(n);
      IdleDrain(n);
      PutServes(w, k, Drain(n));
      var w1 := Put(w, k, Drain(n));
      forall j: nat | k + 1 <= j < |w1.ifs| ensures Handled(At(w1, j)) { OtherEnv(At(w, j), w1.env); }
      DrainFromServes(w1, k + 1);
    }
  }

  lemma IdleDrain(n: Node)
    requires Handled(n)
    ensures !n.dm.enable ==> Drain(n) == n
  {
    hide NameChanged, Trusted;
  }

  lemma WorldStepServes(w: World, e: WorldEvent)
    requires AllSound(w) && Guard(w, e) && AllServed(w) && AtMostOneActive(w) && AtMostOneActive(WorldStep(w, e))
    ensures AllServed(WorldStep(w, e))
  {
    hide Sound, Handled, Step, ToggleFrom, DrainFrom, ServedBy;
    var w1 := WorldStep(w, e);
    forall j: nat | j < |w.ifs| ensures Active(At(w, j)) || w.ifs[j].dm.status != Enabled { InactiveNotEnabled(At(w, j)); }
    match e
    case SetDslite(b) =>
      if b != w.on {
        var w0 := w.(on := b);
        ToggleOne(w, b);
        ToggleFromKeeps(w0, w, 0);
        forall j: nat | j < |w0.ifs| ensures Served(At(w0, j)) { assert Served(At(w, j)); }
        ToggleFromServes(w0, w, 0);
        DrainFromServes(ToggleFrom(w0, 0), 0);
      }
    case Add(dm) =>
      forall k: nat | k < |w1.ifs| ensures Served(At(w1, k)) {
        if k < |w.ifs| { assert Served(At(w, k)) && At(w1, k) == At(w, k); } else { NewNotServed(w1, k, dm); }
      }
    case On(k, ev) =>
      if k < |w.ifs| {
        var n := At(w, k);
        StepKeeps(n, ev);
        if !Active(n) && !Active(Step(n, ev)) { IdleStep(n, ev); }
        assert At(w1, k) == Step(n, ev);
        assert forall j: nat :: j < |w.ifs| && j != k ==> (Active(At(w1, j)) <==> Active(At(w, j)));
        PutServes(w, k, Step(n, ev));
      }
  }

  lemma InactiveNotEnabled(n: Node)
    requires Sound(n)
    ensures Active(n) || n.dm.status != Enabled
  {
    hide Trusted, Mid;
  }

  lemma NewNotServed(w: World, k: nat, dm: Settings)
    requires k < |w.ifs| && w.ifs[k] == NewInstance(dm)
    ensures Served(At(w, k))
  {
  }

  /** Enable flags survive the handlers, so that switching involves one instance at most. */
  lemma ToggleOne(w: World, b: bool)
    requires AllSound(w) && b != w.on && AtMostOneActive(w) && AtMostOneActive(WorldStep(w, SetDslite(b)))
    ensures OneCandidate(w.(on := b))
  {
    hide Sound, Handled, WorldStep, Passed;
    var w0, w1 := w.(on := b), WorldStep(w, SetDslite(b));
    var e1, e2 := LoopEach(w, b);
    forall j: nat | j < |w.ifs| ensures w1.ifs[j].dm.enable == w.ifs[j].dm.enable {
      PassedEnable(At(w, j), b, e1[j], e2[j]);
    }
    forall j: nat | j < |w.ifs| ensures Active(At(w, j)) || w.ifs[j].dm.status != Enabled { InactiveNotEnabled(At(w, j)); }
    forall j: nat, k: nat | j < |w.ifs| && k < |w.ifs| && j != k && w0.ifs[j].dm.enable
      ensures !w0.ifs[k].dm.enable && w0.ifs[k].dm.status != Enabled
    {
      if w.on { assert Active(At(w, j)); } else { assert Active(At(w1, j)); assert w0.ifs[k].dm.enable ==> Active(At(w1, k)); }
    }
  }

  lemma PassedEnable(n: Node, b: bool, e1: Env, e2: Env)
    requires Sound(n) && b != n.on && e1.o == e2.o == n.env.o
    ensures Passed(n, b, e1, e2).dm.enable == n.dm.enable
  {
    hide Toggled, Drain, Sound, Handled;
    PassedKeeps(n, b, e1, e2);
  }

  /** Every state of the run has at most one active interface. */
  ghost predicate OneAtATime(w: World, es: seq<WorldEvent>) {
    forall i :: 0 <= i <= |es| ==> AtMostOneActive(Run(w, es[..i]))
  }

  lemma {:induction false} RunServes(w: World, es: seq<WorldEvent>)
    requires AllSound(w) && AllServed(w) && Guarded(w, es) && OneAtATime(w, es)
    ensures AllServed(Run(w, es))
    decreases |es|
  {
    hide WorldStep, AllSound, AllServed, Guard, AtMostOneActive;
    if es != [] {
      var p := es[..|es| - 1];
      assert forall i {:trigger es[..i]} :: 0 <= i <= |p| ==> p[..i] == es[..i];
      RunKeeps(w, p);
      RunServes(w, p);
      assert es[..|es|] == es;
      WorldStepServes(Run(w, p), es[|es| - 1]);
    }
  }

  /**
   Main result. Across every run with one active interface at a time, Status = Enabled means that
   the kernel tunnel runs between LocalAddress and EndpointAddressInUse, both known, and that both
   IP interfaces are on.
   */
  lemma EnabledMeansTunnel(env: Env, es: seq<WorldEvent>, k: nat)
    requires Trusted(env.o) && Guarded(Start(env), es) && OneAtATime(Start(env), es)
    requires k < |Run(Start(env), es).ifs|
    requires Run(Start(env), es).ifs[k].dm.status == Enabled
    ensures var w := Run(Start(env), es); var dm := w.ifs[k].dm;
            && Active(At(w, k))
            && dm.inUse != "" && dm.localAddress != ""
            && Ioctl.Carries(env.o.pf, w.env.kernel, TUNNEL_DEVICE, dm.localAddress, dm.inUse)
            && dm.tunneledIf in w.env.ip && w.env.ip[dm.tunneledIf].enable
            && dm.tunnelIf in w.env.ip && w.env.ip[dm.tunnelIf].enable
  {
    hide Run, Sound, Trusted, Guarded, OneAtATime, Ioctl.Carries;
    RunServes(Start(env), es);
    RunKeeps(Start(env), es);
    InactiveNotEnabled(At(Run(Start(env), es), k));
  }

  /**
   Main result, for any number of active interfaces. A remote address of an active interface was
   obtained under its current method: by a lookup that was submitted under it, or by copying. A
   lookup in flight was submitted under the current method too, for the name submitted last. A
   status that shows an address names where it came from; any other status shows none; a static
   address comes without lookup, DHCP query or retry timer; and an active interface that knows its
   remote address is never Disabled.
   */
  lemma AddressesKeepTheirSource(env: Env, es: seq<WorldEvent>, k: nat)
    requires Trusted(env.o) && Guarded(Start(env), es) && k < |Run(Start(env), es).ifs|
    ensures var n := At(Run(Start(env), es), k); var m := MethodOf(n.dm);
            && (if n.dm.status == Enabled then
                  0 < |n.dm.inUse| <= ADDRLEN && n.dm.localAddress != "" && n.dm.origin == PrecedenceOf(n.dm.usedVia)
                else n.dm.inUse == "" && n.dm.localAddress == "")
            && (Active(n) ==>
                  && Live(n)
                  && (Rec(n).remote != "" ==> Rec(n).via == m && n.dm.status != Disabled)
                  && (m == StaticIPv6 ==> n.pv.lookups == map[] && n.pv.timers == map[] && Rec(n).dhcpQuery == NULL && n.dm.status != Disabled)
                  && (Rec(n).dhcpQuery != NULL ==> m == FromDhcp)
                  && (Rec(n).local != "" <==> Rec(n).netdev.Some?)
                  && (forall h :: h in n.pv.lookups ==>
                        && n.pv.lookups[h].via == m && Latest(n.pv.attempts) == Some(n.pv.lookups[h].name)
                        && Rec(n).local != "" && Rec(n).netdev.Some?))
  {
    hide Run, Sound, Trusted, Guarded;
    RunKeeps(Start(env), es);
    SoundSource(At(Run(Start(env), es), k));
  }

  lemma SoundSource(n: Node)
    requires Sound(n)
    ensures StatusOk(n.dm)
    ensures Active(n) ==>
              && Live(n)
              && (Rec(n).remote != "" ==> Rec(n).via == MethodOf(n.dm) && n.dm.status != Disabled)
              && (MethodOf(n.dm) == StaticIPv6 ==>
                    n.pv.lookups == map[] && n.pv.timers == map[] && Rec(n).dhcpQuery == NULL && n.dm.status != Disabled)
              && (Rec(n).dhcpQuery != NULL ==> MethodOf(n.dm) == FromDhcp)
              && (Rec(n).local != "" <==> Rec(n).netdev.Some?)
              && (forall h :: h in n.pv.lookups ==>
                    && n.pv.lookups[h].via == MethodOf(n.dm) && Latest(n.pv.attempts) == Some(n.pv.lookups[h].name)
                    && Rec(n).local != "")
  {
    hide Trusted, QueriesOk;
  }
}
