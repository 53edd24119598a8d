/** Concrete runs that reach the situations which the exact results single out. */
module Witnesses {
  import opened Basics
  import opened Model
  import opened Tunnel
  import opened Resolver
  import opened Netmodel
  import opened Interface
  import opened Events
  import opened Invariant
  import opened Keeps
  import opened Lifecycle
  import opened World
  import opened Ownership
  import opened Service
  import opened Retry
  import opened Sync
  import opened Breaking
  import opened Agreement
  import opened LastWriter
  import opened StaleTimers
  import opened StaticAddress
  import Outcomes
  import Ioctl

  /** A new interface whose Enable is set, when DSLite.Enable has just been written. */
  function Waiting(env: Env, dm: Settings): Node {
    Node(true, NewInstance(dm).dm, NewInstance(dm).pv, env)
  }

  /** Adding an instance and switching DSLite on. */
  lemma SwitchedOn(env: Env, dm: Settings)
    requires Trusted(env.o) && dm.enable && EnableInterface(Waiting(env, dm)).pv.queued.None?
    ensures var m := EnableInterface(Waiting(env, dm));
            && Run(Start(env), [Add(dm), SetDslite(true)]) == World(true, [InstanceOf(m)], m.env)
            && At(Run(Start(env), [Add(dm), SetDslite(true)]), 0) == m && Sound(m) && Active(m) && m.env.o == env.o
  {
    hide EnableInterface, Sound, Trusted, ToggleDslite, AllSound, Run;
    StartSound(env);
    WaitingIsFresh(env, dm);
    EnableKeeps(Waiting(env, dm));
    AddedThenOn(env, dm);
    SwitchOnOne(World(true, [NewInstance(dm)], env));
    var m := EnableInterface(Waiting(env, dm));
    OneSound(World(true, [InstanceOf(m)], m.env), m);
  }

  lemma AddedThenOn(env: Env, dm: Settings)
    requires Trusted(env.o)
    ensures Run(Start(env), [Add(dm), SetDslite(true)]) == ToggleDslite(World(true, [NewInstance(dm)], env))
    ensures AllSound(Run(Start(env), [Add(dm), SetDslite(true)]))
    ensures At(World(true, [NewInstance(dm)], env), 0) == Waiting(env, dm)
  {
    hide Run, ToggleDslite, Sound, Trusted;
    var e1, e2 := Add(dm), SetDslite(true);
    var w0, w1 := Start(env), World(false, [NewInstance(dm)], env);
    RunTwo(w0, e1, e2);
    assert WorldStep(w0, e1) == w1;
    StartSound(env);
    WorldStepKeeps(w0, e1);
    WorldStepKeeps(w1, e2);
  }

  lemma OneSound(w: World, m: Node)
    requires AllSound(w) && w == World(m.on, [InstanceOf(m)], m.env)
    ensures Sound(m) && At(w, 0) == m
  {
    hide Sound;
    assert At(w, 0) == m;
  }

  lemma StartSound(env: Env)
    requires Trusted(env.o)
    ensures AllSound(Start(env))
  {
  }

  lemma WaitingIsFresh(env: Env, dm: Settings)
    ensures var n := Waiting(env, dm);
            !n.pv.fault && StatusOk(n.dm) && n.pv.next != NULL && Nothing(n.pv) && n.pv.queued.None? && n.dm.status == Disabled
  {
  }

  /** One more event of the only instance. */
  lemma Then(w: World, es: seq<WorldEvent>, e: Event)
    requires |Run(w, es).ifs| == 1
    ensures Run(w, es + [On(0, e)]) == World(Run(w, es).on, [InstanceOf(Step(At(Run(w, es), 0), e))], Step(At(Run(w, es), 0), e).env)
  {
    RunOne(w, es, On(0, e));
  }

  // ---- a lookup in flight -------------------------------------------------------------

  /** Switching on an FQDN interface whose WAN interface has an address starts a lookup. */
  lemma EnableLooksUp(n: Node, r: AddressReport)
    requires n.pv == NewInstance(n.dm).pv && n.dm.status == Disabled && n.env.o.addresses(n.env.calls) == Opened(Some(r))
    requires r.address != "" && r.netdev != "" && n.env.o.dns(n.env.calls + 1) == Opened(None)
    requires MethodOf(n.dm) == StaticFqdn && n.dm.endpointName != "" && n.dm.wan != ""
    ensures var m := EnableInterface(n);
            && m.pv.queued.None? && m.pv.stale == {} && Live(m) && Rec(m).dns == 4 && m.dm == n.dm
            && m.pv.lookups == map[4 := Lookup(1, true, true, false, false, true, {}, StaticFqdn, n.dm.endpointName)]
  {
    hide TakeDown, Setup;
    var a := OpenAddressQuery(Create(n));
    assert a.rv == 0 && Live(a.n) && a.n.pv.priv == 1 && Rec(a.n) == Record(Trunc(r.address, ADDRLEN), "", Some(r.netdev), 2, NULL, NULL, NULL, StaticFqdn, false, false);
    assert a.n.pv.next == 3 && a.n.dm == n.dm && a.n.pv.lookups == map[] && a.n.env.calls == n.env.calls + 1;
    var s := Submitted(a.n, n.dm.endpointName);
    assert s.pv.next == 4 && Rec(s).local != "" && Rec(s).dns == NULL;
    NothingToClose(s);
    assert Resolve(a.n, n.dm.endpointName) == Reopen(s, n.dm.endpointName);
  }

  /** A run that ends in Error although its last event switches off. */
  lemma SwitchOffEndsInError(env: Env, dm: Settings, r: AddressReport)
    requires Trusted(env.o) && (forall c :: env.o.addresses(c) == Opened(Some(r))) && (forall c :: env.o.dns(c) == Opened(None))
    requires r.address != "" && r.netdev != ""
    requires dm.enable && dm.precedence == Static && dm.addressType == FQDN && dm.endpointName != "" && dm.wan != ""
    ensures var w := Run(Start(env), [Add(dm), SetDslite(true), On(0, SetEnable(false))]);
            |w.ifs| == 1 && !w.ifs[0].dm.enable && w.ifs[0].dm.status == Error
  {
    hide EnableInterface, Step, Sound, Trusted;
    EnableLooksUp(Waiting(env, dm), r);
    SwitchedOn(env, dm);
    var m := EnableInterface(Waiting(env, dm));
    assert 4 in m.pv.lookups && m.pv.lookups[4].pending;
    Then(Start(env), [Add(dm), SetDslite(true)], SetEnable(false));
    assert [Add(dm), SetDslite(true)] + [On(0, SetEnable(false))] == [Add(dm), SetDslite(true), On(0, SetEnable(false))];
    Outcomes.SwitchOff(m);
    OffStaysOff(m);
  }

  lemma OffStaysOff(n: Node)
    requires Sound(n) && Active(n)
    ensures !Step(n, SetEnable(false)).dm.enable
  {
    hide DisableInterface, Trusted, RecordOk, Shape, Linked, CurrentIn;
    var n1 := n.(dm := n.dm.(enable := false));
    WriteKeeps(n, n1);
    DisableInterfaceKeeps(n1);
  }

  /** A run that leaves a channel behind, too: its socket has gone, so that the destroy timer runs. */
  lemma NewNameStrandsChannel(env: Env, dm: Settings, r: AddressReport, name: string)
    requires Trusted(env.o) && (forall c :: env.o.addresses(c) == Opened(Some(r))) && (forall c :: env.o.dns(c) == Opened(None))
    requires r.address != "" && r.netdev != "" && name != "" && name != dm.endpointName && |name| <= NAMELEN
    requires dm.enable && dm.precedence == Static && dm.addressType == FQDN && dm.endpointName != "" && dm.wan != ""
    ensures var w := Run(Start(env), [Add(dm), SetDslite(true), On(0, LookupSocket(4, 5, false)), On(0, SetName(name))]);
            |w.ifs| == 1 && w.ifs[0].pv.stale == {Leftover(4, true)}
  {
    hide EnableInterface, Step, Sound, Trusted;
    EnableLooksUp(Waiting(env, dm), r);
    SwitchedOn(env, dm);
    var w, es := Start(env), [Add(dm), SetDslite(true)];
    var e1, e2 := LookupSocket(4, 5, false), SetName(name);
    var m := EnableInterface(Waiting(env, dm));
    Then(w, es, e1);
    Then(w, es + [On(0, e1)], e2);
    assert es + [On(0, e1)] + [On(0, e2)] == [Add(dm), SetDslite(true), On(0, e1), On(0, e2)];
    SocketGone(m, 4, 5);
    StepKeeps(m, e1);
    StepStale(Step(m, e1), e2);
    assert Overtakes(Step(m, e1), e2);
  }

  lemma SocketGone(n: Node, h: nat, fd: int)
    requires Sound(n) && h in n.pv.lookups && n.pv.lookups[h].channel && n.pv.lookups[h].timed && n.pv.lookups[h].socks == {}
    ensures Step(n, LookupSocket(h, fd, false)) == SetLookup(n, h, n.pv.lookups[h].(armed := true))
  {
    hide Trusted, Mid;
    var none: set<int> := {};
    assert none - {fd} == none;
  }

  /** A run that leaves a timer on a freed query: a new name arrives while a socket is open; then the timer calls back. */
  lemma NewNameLeavesTimer(env: Env, dm: Settings, r: AddressReport, name: string)
    requires Trusted(env.o) && (forall c :: env.o.addresses(c) == Opened(Some(r))) && (forall c :: env.o.dns(c) == Opened(None))
    requires r.address != "" && r.netdev != "" && name != "" && name != dm.endpointName && |name| <= NAMELEN
    requires dm.enable && dm.precedence == Static && dm.addressType == FQDN && dm.endpointName != "" && dm.wan != ""
    ensures var es := [Add(dm), SetDslite(true), On(0, LookupSocket(4, 5, true)), On(0, SetName(name))];
            && |Run(Start(env), es).ifs| == 1 && Run(Start(env), es).ifs[0].pv.stale == {Leftover(4, false)}
            && |Run(Start(env), es + [On(0, StaleTimer(Leftover(4, false)))]).ifs| == 1 && Run(Start(env), es + [On(0, StaleTimer(Leftover(4, false)))]).ifs[0].pv.wild
  {
    hide EnableInterface, Step, Sound, Trusted;
    EnableLooksUp(Waiting(env, dm), r);
    SwitchedOn(env, dm);
    var w, es := Start(env), [Add(dm), SetDslite(true)];
    var e1, e2, e3 := LookupSocket(4, 5, true), SetName(name), StaleTimer(Leftover(4, false));
    var m := EnableInterface(Waiting(env, dm));
    Then(w, es, e1);
    Then(w, es + [On(0, e1)], e2);
    Then(w, es + [On(0, e1)] + [On(0, e2)], e3);
    assert es + [On(0, e1)] + [On(0, e2)] == [Add(dm), SetDslite(true), On(0, e1), On(0, e2)];
    SocketOpened(m, 4, 5);
    var m1 := Step(m, e1);
    StepKeeps(m, e1);
    StepStale(m1, e2);
    assert Overtakes(m1, e2);
    StepKeeps(m1, e2);
    StaleFires(Step(m1, e2), Leftover(4, false));
  }

  lemma SocketOpened(n: Node, h: nat, fd: int)
    requires Sound(n) && h in n.pv.lookups && n.pv.lookups[h].channel && n.pv.lookups[h].socks == {}
    ensures Step(n, LookupSocket(h, fd, true)) ==
              SetLookup(n, h, n.pv.lookups[h].(socks := {fd}, ticking := true))
  {
    hide Trusted, Mid;
    assert {} + {fd} == {fd};
  }

  lemma StaleFires(n: Node, left: Leftover)
    requires Sound(n) && left in n.pv.stale
    ensures Step(n, StaleTimer(left)).pv.wild
  {
    hide Trusted, Mid;
  }

  // ---- static interfaces --------------------------------------------------------------

  /** A run to an interface that listens although its EndpointAddress has not reached the record. */
  lemma ListensWithoutAddress(env: Env, dm: Settings, wan: string, devs: set<string>)
    requires Accepting(env.o, devs) && KernelOk(env.kernel, devs) && forall c :: env.o.addresses(c) == Opened(None)
    requires dm.enable && dm.precedence == Static && dm.addressType == IPv6Address && dm.wan == "" && wan != "" && NamesIps(dm)
    requires 0 < |dm.endpointAddress| <= ADDRLEN && Readable(env.o.pf, dm.endpointAddress)
    ensures var w := Run(Start(env), [Add(dm), SetDslite(true), On(0, SetWan(wan))]);
            |w.ifs| == 1 && Listening(At(w, 0), devs) && !Loaded(At(w, 0))
  {
    hide EnableInterface, Step, Sound, Trusted, Orderly, KernelOk;
    EnableWithoutWan(Waiting(env, dm));
    SwitchedOn(env, dm);
    var m := EnableInterface(Waiting(env, dm));
    Then(Start(env), [Add(dm), SetDslite(true)], SetWan(wan));
    assert [Add(dm), SetDslite(true)] + [On(0, SetWan(wan))] == [Add(dm), SetDslite(true), On(0, SetWan(wan))];
    WanWithoutAddress(m, wan);
    StepKeeps(m, SetWan(wan));
  }

  lemma EnableWithoutWan(n: Node)
    requires n.pv == NewInstance(n.dm).pv && n.dm.status == Disabled && n.dm.wan == ""
    ensures EnableInterface(n) == Create(n).(dm := n.dm.(status := Error, inUse := "", localAddress := "", origin := n.dm.precedence))
    ensures EnableInterface(n).pv.queued.None?
  {
  }

  lemma WanWithoutAddress(n: Node, wan: string)
    requires Active(n) && Live(n) && n.pv.priv != NULL && n.pv.queued.None? && n.dm.wan == "" && wan != ""
    requires n.env.o.addresses(n.env.calls) == Opened(None) && Rec(n).addrQuery == NULL && Rec(n).netdev.None? && n.pv.next != NULL
    requires n.dm.status == Error
    ensures var m := Step(n, SetWan(wan));
            && Live(m) && Rec(m) == Rec(n).(addrQuery := n.pv.next) && m.env.kernel == n.env.kernel
            && m.dm == n.dm.(wan := wan, inUse := "", localAddress := "", origin := n.dm.precedence) && m.on == n.on && m.env.o == n.env.o
  {
    hide TakeDown;
    var n1 := n.(dm := n.dm.(wan := wan));
    var a := OpenAddressQuery(n1);
    assert a.rv == 0 && a.n.pv.queued.None? && Live(a.n) && Rec(a.n) == Rec(n).(addrQuery := n.pv.next);
    assert BringUp(a.n) == Res(a.n, -1);
  }

  /** What is needed to bring a static interface up right away. */
  ghost predicate Prepared(env: Env, dm: Settings, r: AddressReport, devs: set<string>) {
    && Friendly(env.o, devs) && Agree(false, env.kernel, env.services, devs)
    && (forall c :: env.o.addresses(c) == Opened(Some(r))) && r.address != "" && r.netdev != ""
    && dm.enable && dm.precedence == Static && dm.addressType == IPv6Address && dm.wan != "" && NamesIps(dm)
    && Readable(env.o.pf, r.address) && 0 < |dm.endpointAddress| <= ADDRLEN && Readable(env.o.pf, dm.endpointAddress)
  }

  /** Such an interface is Enabled as soon as DSLite is. */
  lemma EnabledAtOnce(env: Env, dm: Settings, r: AddressReport, devs: set<string>)
    requires Prepared(env, dm, r, devs)
    ensures var w := Run(Start(env), [Add(dm), SetDslite(true)]);
            && |w.ifs| == 1 && w.env.o == env.o && Listening(At(w, 0), devs) && WorldSync(w, devs) && AllSound(w) && AtMostOneActive(w)
            && At(w, 0).dm.status == Enabled && Rec(At(w, 0)).remote == dm.endpointAddress == At(w, 0).dm.endpointAddress
            && Rec(At(w, 0)).addrQuery == 2 && InSync(At(w, 0), devs) && At(w, 0).dm.wan == dm.wan && At(w, 0).dm.endpointName == dm.endpointName
  {
    hide EnableInterface, Sound, Friendly, Agree;
    AcceptingTrusts(env.o, devs);
    var n := Waiting(env, dm);
    EnableStatic(n, r, devs);
    SwitchedOn(env, dm);
    WaitingIsFresh(env, dm);
    EnableSync(n, devs);
    var m := EnableInterface(n);
    OneInSync(Run(Start(env), [Add(dm), SetDslite(true)]), m, devs);
  }

  lemma AcceptingTrusts(o: Oracle, devs: set<string>)
    requires Friendly(o, devs)
    ensures Trusted(o) && Accepting(o, devs)
  {
    hide Trusted, Orderly;
  }

  lemma OneInSync(w: World, m: Node, devs: set<string>)
    requires w == World(m.on, [InstanceOf(m)], m.env) && Sound(m) && Active(m) && InSync(m, devs)
    ensures WorldSync(w, devs) && AllSound(w) && AtMostOneActive(w)
  {
    hide Mid, Friendly, Agree, Repeatable;
    assert At(w, 0) == m;
    OnlyOne(w, 0);
  }

  lemma EnableStatic(n: Node, r: AddressReport, devs: set<string>)
    requires n.pv == NewInstance(n.dm).pv && n.dm.status == Disabled && n.dm.inUse == "" && n.dm.localAddress == ""
    requires Prepared(n.env, n.dm, r, devs)
    ensures var m := EnableInterface(n);
            && m.pv.queued.None? && Live(m) && m.dm.status == Enabled && Rec(m).remote == n.dm.endpointAddress
            && m.dm.endpointAddress == n.dm.endpointAddress && Rec(m).addrQuery == 2 && m.env.o == n.env.o
            && m.dm.wan == n.dm.wan && m.dm.endpointName == n.dm.endpointName
            && (Sound(m) && Active(m) ==> Listening(m, devs))
  {
    hide Setup, OpenAddressQuery, Create, Friendly, Agree, Accepting, KernelOk, Trusted, Sound, Proceed, GetRemote, RecordOk, Shape, Linked;
    AcceptingTrusts(n.env.o, devs);
    CreateKeeps(n);
    OpenAddressKeeps(Create(n));
    var a := OpenAddressQuery(Create(n));
    ReportStored(n, r);
    EnableProceeds(n);
    StaticRemoteKeeps(a.n);
    ProceedStatic(a.n);
    KnownFromFriendly(n.env.o, n.env.calls, r, devs);
    AgreeKernel(false, n.env.kernel, n.env.services, devs);
    BroughtUp(SetStaticRemote(a.n), devs);
  }

  lemma BroughtUp(p: ParamRes, devs: set<string>)
    requires p.st == Ready && Core(p.n) && p.n.dm.wan != "" && NamesIps(p.n.dm) && Usable(Rec(p.n), p.n.env.o.pf)
    requires Accepting(p.n.env.o, devs) && KernelOk(p.n.env.kernel, devs) && p.n.pv.queued.None?
    requires Rec(p.n).netdev.Some? ==> Ioctl.IfName(Rec(p.n).netdev.value) in devs
    ensures var m := Proceed(p);
            && m.dm.status == Enabled && StatusOnly(p.n, m) && KernelOk(m.env.kernel, devs)
  {
    hide Setup, Accepting, KernelOk, Trusted, RecordOk, Shape, Usable;
    SetupUp(p.n, devs);
    ReadyProceeds(p);
  }

  lemma ReadyProceeds(p: ParamRes)
    requires p.st == Ready
    ensures Proceed(p) == Setup(p.n)
  {
    hide Setup;
  }

  lemma AgreeKernel(enabled: bool, k: Ioctl.Kernel, services: map<string, string>, devs: set<string>)
    requires Agree(enabled, k, services, devs)
    ensures KernelOk(k, devs)
  {
  }

  lemma KnownFromFriendly(o: Oracle, c: nat, r: AddressReport, devs: set<string>)
    requires Friendly(o, devs) && o.addresses(c) == Opened(Some(r))
    ensures KnownDevice(r, devs)
  {
    hide Accepting;
  }

  lemma ReportStored(n: Node, r: AddressReport)
    requires n.pv == NewInstance(n.dm).pv && n.dm.status == Disabled && n.dm.wan != ""
    requires n.env.o.addresses(n.env.calls) == Opened(Some(r)) && r.address != "" && r.netdev != ""
    ensures var a := OpenAddressQuery(Create(n));
            && a.rv == 0 && a.n == n.(env := a.n.env, pv := a.n.pv) && Live(a.n) && a.n.env == n.env.(calls := n.env.calls + 1)
            && a.n.pv.queued.None? && Rec(a.n).local == Trunc(r.address, ADDRLEN) && Rec(a.n).netdev == Some(r.netdev)
            && Rec(a.n).remote == "" && Rec(a.n).addrQuery == 2
  {
    hide Setup, TakeDown;
  }

  /** A run that breaks the agreement: one write of an unreadable address. */
  lemma UnreadableWrite(env: Env, dm: Settings, r: AddressReport, a: string, devs: set<string>)
    requires Prepared(env, dm, r, devs) && 0 < |a| <= ADDRLEN && !Readable(env.o.pf, a)
    ensures Agreed(Run(Start(env), [Add(dm), SetDslite(true)]))
    ensures !Agreed(Run(Start(env), [Add(dm), SetDslite(true), On(0, SetAddress(a))]))
  {
    hide Run, WorldSync, AllSound, Agreed, AtMostOneActive, Friendly, Agree, Accepting, KernelOk, Sound;
    EnabledAtOnce(env, dm, r, devs);
    var es := [Add(dm), SetDslite(true)];
    var w := Run(Start(env), es);
    SyncAgrees(w, devs);
    assert BreaksWorld(w, On(0, SetAddress(a)));
    WorldStepBreaks(w, On(0, SetAddress(a)), devs);
    RunOne(Start(env), es, On(0, SetAddress(a)));
    assert es + [On(0, SetAddress(a))] == [Add(dm), SetDslite(true), On(0, SetAddress(a))];
  }

  /** With a lookup that takes its time, resolving a name changes neither status nor remote address. */
  lemma ResolvesLater(n: Node, host: string)
    requires Core(n) && n.pv.lookups == map[] && Rec(n).dns == NULL && Rec(n).local != "" && host != ""
    requires n.env.o.dns(n.env.calls) == Opened(None)
    ensures var r := Resolve(n, host);
            && r.rv == 0 && r.n.dm == n.dm && r.n.on == n.on && r.n.pv.queued == n.pv.queued
            && Live(r.n) && Rec(r.n).remote == Rec(n).remote
  {
    hide Submitted, Trusted, StatusOk, RecordOk, Shape;
    SubmittedKeeps(n, host);
    NothingToClose(Submitted(n, host));
    AddLookupKeeps(NextCall(Submitted(n, host)), host);
  }

  /** An Enabled static interface that is switched to FQDN stays Enabled, with no remote address, while the lookup lasts. */
  lemma PendingSwitch(n: Node)
    requires Sound(n) && IsStatic(n) && n.dm.status == Enabled && Rec(n).local != "" && n.dm.endpointName != ""
    requires n.env.o.dns(n.env.calls) == Opened(None)
    ensures var m := Step(n, SetAddressType(FQDN));
            && m.dm.status == Enabled && m.dm.wan == n.dm.wan && m.on == n.on && m.dm.enable == n.dm.enable
            && Live(m) && Rec(m).remote == ""
  {
    hide ClearRemote, Resolve, Trusted, StatusOk, RecordOk, Shape, QueriesAre, CurrentIn, AwakeIn;
    var n1 := n.(dm := n.dm.(addressType := FQDN));
    SwitchKeeps(n, n1);
    NoLookup(n);
    var c := ClearRemote(n1);
    assert !Outstanding(n.pv) && c == n1.(pv := c.pv);
    ResolvesLater(c, n.dm.endpointName);
  }

  /**
   A run that breaks the agreement without any unreadable address: the method changes, the lookup is
   still in flight, and WANInterface is written.
   */
  lemma SwitchThenWan(env: Env, dm: Settings, r: AddressReport, wan: string, devs: set<string>)
    requires Prepared(env, dm, r, devs) && (forall c :: env.o.dns(c) == Opened(None))
    requires dm.endpointName != "" && wan != "" && wan != dm.wan
    ensures var es := [Add(dm), SetDslite(true), On(0, SetAddressType(FQDN))];
            Agreed(Run(Start(env), es)) && !Agreed(Run(Start(env), es + [On(0, SetWan(wan))]))
  {
    hide Run, WorldSync, Agreed, Friendly, Agree, Accepting, KernelOk, Sound, Step;
    EnabledAtOnce(env, dm, r, devs);
    var es, e3, e4 := [Add(dm), SetDslite(true)], On(0, SetAddressType(FQDN)), On(0, SetWan(wan));
    var w := Run(Start(env), es);
    var n := At(w, 0);
    EnabledHasLocal(n, devs);
    PendingSwitch(n);
    RunOne(Start(env), es, e3);
    RunOne(Start(env), es + [e3], e4);
    assert es + [e3] == [Add(dm), SetDslite(true), On(0, SetAddressType(FQDN))];
    var w3 := Run(Start(env), es + [e3]);
    assert !BreaksWorld(w, e3);
    WorldStepKeeps(w, e3);
    WorldStepSync(w, e3, devs);
    SyncAgrees(w3, devs);
    assert BreaksWorld(w3, e4);
    WorldStepBreaks(w3, e4, devs);
  }

  lemma EnabledHasLocal(n: Node, devs: set<string>)
    requires Listening(n, devs) && n.dm.status == Enabled && InSync(n, devs)
    ensures Rec(n).local != ""
  {
    hide Friendly, Agree, Sound, Accepting, KernelOk;
  }

  /**
   A run after which EndpointAddress and the address in use differ: the parameter is emptied, which
   takes the tunnel down, and the next local address brings it back with the old address.
   */
  lemma ClearedAddressComesBack(env: Env, dm: Settings, r: AddressReport, devs: set<string>)
    requires Prepared(env, dm, r, devs)
    ensures var es := [Add(dm), SetDslite(true), On(0, SetAddress(""))];
            var w1, w2 := Run(Start(env), es), Run(Start(env), es + [On(0, ReportAddress(2, r))]);
            && |w1.ifs| == |w2.ifs| == 1 && w1.ifs[0].dm.status == Error && w1.ifs[0].dm.endpointAddress == ""
            && w2.ifs[0].dm.status == Enabled && w2.ifs[0].dm.endpointAddress == "" && w2.ifs[0].dm.inUse == dm.endpointAddress
  {
    hide Step, Sound, WorldSync, AllSound, AtMostOneActive, Friendly, Agree, Accepting, KernelOk;
    EnabledAtOnce(env, dm, r, devs);
    var es := [Add(dm), SetDslite(true)];
    var n := At(Run(Start(env), es), 0);
    KnownFromFriendly(env.o, 0, r, devs);
    Then(Start(env), es, SetAddress(""));
    assert es + [On(0, SetAddress(""))] == [Add(dm), SetDslite(true), On(0, SetAddress(""))];
    ClearListens(n, devs);
    var m := Step(n, SetAddress(""));
    Then(Start(env), es + [On(0, SetAddress(""))], ReportAddress(2, r));
    ReportFeeds(m, r, devs);
  }

  lemma ClearListens(n: Node, devs: set<string>)
    requires Listening(n, devs) && n.dm.endpointAddress != ""
    ensures var m := Step(n, SetAddress(""));
            Listening(m, devs) && m.pv == n.pv && m.dm.status == Error && m.dm.endpointAddress == "" && m.env.o == n.env.o
  {
    hide Disable, Orderly, KernelOk, Trusted, Shape, QueriesAre, LookupLinked, CurrentIn;
    var n1 := n.(dm := n.dm.(endpointAddress := ""));
    WriteKeeps(n, n1);
    ProceedStatic(n1);
    SetAddressIsProceed(n1);
    DisableKeeps(n1, Error);
    assert Step(n, SetAddress("")) == Disable(n1, Error);
    StepKeeps(n, SetAddress(""));
    DownKernel(n1, devs);
  }

  lemma DownKernel(n: Node, devs: set<string>)
    requires Live(n) && Orderly(n.env.o, devs) && KernelOk(n.env.kernel, devs)
    requires Rec(n).netdev.Some? ==> Ioctl.IfName(Rec(n).netdev.value) in devs
    ensures KernelOk(Disable(n, Error).env.kernel, devs)
  {
    hide KernelOk, ToggleIps;
    TogglesBoth(CloseFirewall(DeleteTunnel(n)), false);
    if HasArgs(n) { assert PluginArgs(ControllerArgs(Rec(n)), devs); }
  }
}
