/**
 Tunnel, firewall service and status in cooperating surroundings: each function keeps them together,
 or parts them because it sets up an Enabled interface and is turned down.
 */
module Sync {
  import opened Basics
  import opened Model
  import opened Tunnel
  import opened Resolver
  import opened Netmodel
  import opened Invariant
  import opened Keeps
  import opened Lifecycle
  import Ioctl

  /** The network devices `devs` exist, and the tunnel's name is free or belongs to a tunnel. */
  ghost predicate KernelOk(k: Ioctl.Kernel, devs: set<string>) {
    && devs <= k.devices.Keys && TUNNEL_DEVICE !in devs && "" !in devs
    && (TUNNEL_DEVICE in k.devices ==> Ioctl.IsTunnel(k, TUNNEL_DEVICE))
  }

  ghost predicate PluginArgs(a: Ioctl.Args, devs: set<string>) {
    a.tunnelIf == Some(TUNNEL_DEVICE) && a.netdev.Some? && Ioctl.IfName(a.netdev.value) in devs
  }

  /** Failed additions change nothing that matters, and a tunnel can be taken down. */
  ghost predicate Orderly(o: Oracle, devs: set<string>) {
    forall k, a :: KernelOk(k, devs) && PluginArgs(a, devs) ==>
      && KernelOk(o.add(k, a).k, devs) && KernelOk(o.delete(k, a).k, devs)
      && (o.add(k, a).rv != 0 ==> (Ioctl.IsTunnel(o.add(k, a).k, TUNNEL_DEVICE) <==> Ioctl.IsTunnel(k, TUNNEL_DEVICE)))
      && !Ioctl.IsTunnel(o.delete(k, a).k, TUNNEL_DEVICE)
  }

  /** The text reads as an IPv6 address by the time it has gone through a buffer of the record. */
  predicate Readable(pf: Ioctl.Platform, s: string) {
    pf.pton(Trunc(s, ADDRLEN)).Some?
  }

  predicate Parses(pf: Ioctl.Platform, a: Ioctl.Args) {
    Ioctl.NonEmpty(a) && pf.pton(a.local.value).Some? && pf.pton(a.remote.value).Some?
  }

  /** The controller accepts readable addresses; firewall and IP manager do as they are told. */
  ghost predicate Accepting(o: Oracle, devs: set<string>) {
    && Trusted(o) && Orderly(o, devs)
    && (forall k, a :: KernelOk(k, devs) && PluginArgs(a, devs) && Parses(o.pf, a) ==> o.add(k, a).rv == 0)
    && (forall c :: o.firewall(c)) && (forall c :: o.ip(c) == 0)
  }

  ghost predicate KnownDevice(r: AddressReport, devs: set<string>) {
    r.netdev != "" ==> Ioctl.IfName(r.netdev) in devs
  }

  /** Cooperating surroundings: `inet_ntop` can be relied on, and reports inside open calls name known devices. */
  ghost predicate Friendly(o: Oracle, devs: set<string>) {
    && Accepting(o, devs)
    && (forall c :: o.addresses(c).Opened? && o.addresses(c).now.Some? ==> KnownDevice(o.addresses(c).now.value, devs))
    && (forall a :: o.ntop(a) != "" && Readable(o.pf, o.ntop(a)))
  }

  /** The tunnel, the firewall service and a status agree. */
  ghost predicate Agree(enabled: bool, k: Ioctl.Kernel, services: map<string, string>, devs: set<string>) {
    && KernelOk(k, devs)
    && (Ioctl.IsTunnel(k, TUNNEL_DEVICE) <==> enabled)
    && (SERVICE in services <==> enabled)
  }

  ghost predicate NamesIps(dm: Settings) {
    dm.tunnelIf != "" && dm.tunneledIf != ""
  }

  /** Both addresses are known and readable. */
  predicate Usable(r: Record, pf: Ioctl.Platform) {
    r.remote != "" && r.local != "" && pf.pton(r.remote).Some? && pf.pton(r.local).Some?
  }

  ghost predicate DeviceKnown(r: Record, devs: set<string>) {
    r.netdev.Some? ==> Ioctl.IfName(r.netdev.value) in devs
  }

  /** All three agree; the record may be about to be set up with other addresses. */
  ghost predicate Poised(n: Node, devs: set<string>) {
    && Friendly(n.env.o, devs)
    && Agree(n.dm.status == Enabled, n.env.kernel, n.env.services, devs)
    && NamesIps(n.dm) && Live(n) && DeviceKnown(Rec(n), devs)
    && (n.dm.status == Enabled ==> Rec(n).local != "")
  }

  /** A record that can repeat, and undo, what the status claims. */
  ghost predicate Repeatable(r: Record, dm: Settings, pf: Ioctl.Platform, devs: set<string>) {
    && DeviceKnown(r, devs)
    && (dm.status == Enabled ==> r.local != "" && dm.wan != "" && (r.remote != "" ==> Usable(r, pf)))
  }

  /** All three agree, and a remote address that an Enabled interface knows is in use. */
  ghost predicate InSync(n: Node, devs: set<string>) {
    && Friendly(n.env.o, devs)
    && Agree(n.dm.status == Enabled, n.env.kernel, n.env.services, devs)
    && NamesIps(n.dm) && Live(n) && Repeatable(Rec(n), n.dm, n.env.o.pf, devs)
  }

  /** Tunnel and service are left behind an interface in Error. */
  ghost predicate Broken(n: Node, devs: set<string>) {
    && Friendly(n.env.o, devs) && KernelOk(n.env.kernel, devs) && Live(n) && DeviceKnown(Rec(n), devs)
    && n.dm.status == Error && Ioctl.IsTunnel(n.env.kernel, TUNNEL_DEVICE) && SERVICE in n.env.services
  }

  /** What a function leaves, given whether it was turned down while the interface was Enabled. */
  ghost predicate After(m: Node, broken: bool, devs: set<string>) {
    if broken then Broken(m, devs) else InSync(m, devs)
  }

  lemma TrustedAdd(o: Oracle, k: Ioctl.Kernel, a: Ioctl.Args)
    requires Trusted(o) && a.tunnelIf == Some(TUNNEL_DEVICE)
    ensures o.add(k, a).rv == 0 ==> Parses(o.pf, a) && Ioctl.IsTunnel(o.add(k, a).k, TUNNEL_DEVICE)
  {
  }

  // ---- exactly when setting up breaks the agreement -----------------------------------

  /** The code with which switching the IP interfaces ends, when its calls are numbered from `call`. */
  function IpCode(n: Node, call: nat): int {
    if n.dm.tunneledIf == "" then -1
    else if n.env.o.ip(call) != 0 then n.env.o.ip(call)
    else if n.dm.tunnelIf == "" then -1
    else n.env.o.ip(call + 1)
  }

  /** How many calls that takes. */
  function IpCalls(n: Node, call: nat): nat {
    if n.dm.tunneledIf == "" then 0 else if n.env.o.ip(call) != 0 || n.dm.tunnelIf == "" then 1 else 2
  }

  lemma IpCodeIs(n: Node, enable: bool)
    ensures ToggleIps(n, enable).rv == IpCode(n, n.env.calls)
    ensures ToggleIps(n, enable).n.env.calls == n.env.calls + IpCalls(n, n.env.calls)
  {
  }

  /** Setting up does not get past the controller. */
  predicate TurnedDown(n: Node) {
    n.dm.wan == "" || UpdateTunnel(n).rv != 0
  }

  lemma RefusedSetup(n: Node, devs: set<string>)
    requires Live(n) && n.pv.priv != NULL && Orderly(n.env.o, devs) && KernelOk(n.env.kernel, devs)
    requires Rec(n).netdev.Some? ==> Ioctl.IfName(Rec(n).netdev.value) in devs
    requires TurnedDown(n)
    ensures var m := Setup(n);
            && m.dm.status == Error && m.env.services == n.env.services && KernelOk(m.env.kernel, devs)
            && (Ioctl.IsTunnel(m.env.kernel, TUNNEL_DEVICE) <==> Ioctl.IsTunnel(n.env.kernel, TUNNEL_DEVICE))
  {
    if HasArgs(n) { assert PluginArgs(ControllerArgs(Rec(n)), devs); }
  }

  lemma AcceptedSetup(n: Node, devs: set<string>)
    requires Live(n) && n.pv.priv != NULL && Trusted(n.env.o) && Orderly(n.env.o, devs) && KernelOk(n.env.kernel, devs)
    requires |Rec(n).remote| <= ADDRLEN && (Rec(n).netdev.Some? ==> Ioctl.IfName(Rec(n).netdev.value) in devs)
    requires !TurnedDown(n) && forall c :: n.env.o.firewall(c)
    ensures var m := Setup(n); var code := IpCode(n, n.env.calls + 1);
            && KernelOk(m.env.kernel, devs)
            && (Ioctl.IsTunnel(m.env.kernel, TUNNEL_DEVICE) <==> code >= 0)
            && (SERVICE in m.env.services <==> code >= 0)
            && (m.dm.status == Enabled <==> code == 0)
  {
    hide Trusted, ToggleIps;
    var a := ControllerArgs(Rec(n));
    var f := OpenFirewall(UpdateTunnel(n).n, n.dm.wan);
    TogglesBoth(f, true);
    IpCodeIs(f, true);
    TrustedAdd(n.env.o, n.env.kernel, a);
    assert PluginArgs(a, devs);
  }

  /**
   Tunnel, service and status agree before setting up. They agree afterwards, too, unless the
   controller refuses while the interface is Enabled, or the IP manager refuses with a positive code.
   */
  lemma SetupAgreesExactly(n: Node, devs: set<string>)
    requires Core(n) && Orderly(n.env.o, devs) && (forall c :: n.env.o.firewall(c))
    requires Rec(n).netdev.Some? ==> Ioctl.IfName(Rec(n).netdev.value) in devs
    requires Agree(n.dm.status == Enabled, n.env.kernel, n.env.services, devs)
    ensures var m := Setup(n);
            Agree(m.dm.status == Enabled, m.env.kernel, m.env.services, devs)
            <==> if TurnedDown(n) then n.dm.status != Enabled else IpCode(n, n.env.calls + 1) <= 0
  {
    hide Setup, TurnedDown, Trusted, Orderly, Shape, StatusOk, IpCode;
    if TurnedDown(n) { RefusedSetup(n, devs); } else { AcceptedSetup(n, devs); }
  }

  // ---- setting up and taking down -----------------------------------------------------

  /** With an accepting controller only the WAN interface and the two addresses decide. */
  lemma DownExactly(n: Node, devs: set<string>)
    requires Live(n) && n.pv.priv != NULL && RecordOk(Rec(n), MethodOf(n.dm)) && DeviceKnown(Rec(n), devs)
    requires Accepting(n.env.o, devs) && KernelOk(n.env.kernel, devs)
    ensures TurnedDown(n) <==> n.dm.wan == "" || !Usable(Rec(n), n.env.o.pf)
  {
    hide Trusted, Orderly, KernelOk;
    if HasArgs(n) {
      var a := ControllerArgs(Rec(n));
      TrustedAdd(n.env.o, n.env.kernel, a);
      assert PluginArgs(a, devs);
      assert Parses(n.env.o.pf, a) <==> Usable(Rec(n), n.env.o.pf);
    }
  }

  lemma SetupSync(n: Node, devs: set<string>)
    requires Poised(n, devs) && n.pv.priv != NULL && RecordOk(Rec(n), MethodOf(n.dm))
    ensures After(Setup(n), n.dm.status == Enabled && (n.dm.wan == "" || !Usable(Rec(n), n.env.o.pf)), devs)
    ensures Setup(n).dm.status == Enabled <==> n.dm.wan != "" && Usable(Rec(n), n.env.o.pf)
  {
    hide Setup, BringUp, TurnedDown, Trusted, Orderly, KernelOk, Usable;
    FriendlyParts(n.env.o, devs);
    SetupFrame(n);
    DownExactly(n, devs);
    if TurnedDown(n) { RefusedSetup(n, devs); } else { AcceptedSetup(n, devs); UsableLocal(Rec(n), n.env.o.pf); }
  }

  lemma FriendlyParts(o: Oracle, devs: set<string>)
    requires Friendly(o, devs)
    ensures Trusted(o) && Orderly(o, devs) && (forall c :: o.firewall(c)) && (forall c :: o.ip(c) == 0)
  {
    hide Trusted, Orderly;
  }

  lemma UsableLocal(r: Record, pf: Ioctl.Platform)
    requires Usable(r, pf)
    ensures r.local != ""
  {
  }

  lemma SetupFrame(n: Node)
    requires n.pv.priv != NULL && Live(n) && RecordOk(Rec(n), MethodOf(n.dm)) && Trusted(n.env.o)
    ensures StatusOnly(n, Setup(n))
  {
    hide Setup, BringUp, Trusted;
    SetupKeeps(n);
  }

  /** Setting up what is broken, with addresses that are still not usable, mends nothing. */
  lemma StaysBroken(n: Node, devs: set<string>)
    requires Broken(n, devs) && n.pv.priv != NULL && RecordOk(Rec(n), MethodOf(n.dm)) && !Usable(Rec(n), n.env.o.pf)
    ensures Broken(Setup(n), devs)
  {
    hide Setup, TurnedDown, Trusted, Orderly, KernelOk, Usable;
    FriendlyParts(n.env.o, devs);
    SetupFrame(n);
    DownExactly(n, devs);
    RefusedSetup(n, devs);
  }

  lemma DisableSync(n: Node, s: Status, devs: set<string>)
    requires Poised(n, devs) && n.pv.priv != NULL && RecordOk(Rec(n), MethodOf(n.dm)) && s != Enabled
    ensures InSync(Disable(n, s), devs)
  {
    hide Trusted;
    DisableKeeps(n, s);
    if n.dm.status == Enabled {
      var a := ControllerArgs(Rec(n));
      assert PluginArgs(a, devs);
    }
  }

  // ---- lookups ------------------------------------------------------------------------

  /** An Enabled interface whose local address could not be read: it came in while no remote address was known. */
  predicate LocalBad(n: Node)
    requires Live(n)
  {
    n.dm.status == Enabled && n.env.o.pf.pton(Rec(n).local).None?
  }

  /** A lookup that is opened now completes inside the call, with an address that cannot be set up. */
  predicate FindsInside(n: Node)
    requires Live(n)
  {
    && LocalBad(n)
    && match n.env.o.dns(n.env.calls)
       case Refused => false
       case Opened(now) => now.Some? && ResultOf(n.env.o, now.value).Some?
  }

  /** Closing the lookup of the record reports a failure. */
  predicate FailsOnClose(pv: Private)
    requires pv.priv in pv.heap
  {
    var h := pv.heap[pv.priv].dns; h in pv.lookups && pv.lookups[h].pending && !pv.lookups[h].armed
  }

  /** Resolving a name now parts tunnel and status. */
  predicate Finds(n: Node)
    requires Live(n)
  {
    FindsInside(n) && !FailsOnClose(n.pv)
  }

  lemma DnsSuccessSync(n: Node, via: Method, ip: string, devs: set<string>)
    requires InSync(n, devs) && Core(n) && via == MethodOf(n.dm) && ip != "" && Readable(n.env.o.pf, ip)
    ensures After(DnsCallback(n, n.pv.priv, via, Some(ip)), LocalBad(n), devs)
  {
    hide DnsCallback, Setup, Friendly, Agree, KernelOk, Trusted, RecordOk, Shape, StatusOk, ServedBy;
    var n1 := SetRec(n, n.pv.priv, Rec(n).(remote := Trunc(ip, ADDRLEN), via := via, answered := true));
    AddressKept(Rec(n), via, ip);
    OwnTimer(n.pv);
    SetupKeeps(n1);
    SetupSync(n1, devs);
    SuccessIs(n, via, ip);
  }

  lemma DnsFailureSync(n: Node, via: Method, devs: set<string>)
    requires InSync(n, devs) && Core(n)
    ensures InSync(DnsCallback(n, n.pv.priv, via, None), devs)
  {
    hide Disable, Friendly, Agree, Trusted, RecordOk, Shape, StatusOk, ServedBy;
    var n1 := SetRec(n, n.pv.priv, Rec(n).(answered := false));
    OwnTimer(n.pv);
    FailureKept(Rec(n), MethodOf(n.dm));
    DisableKeeps(n1, Error);
    DisableSync(n1, Error, devs);
  }

  lemma FailureKept(r: Record, m: Method)
    requires RecordOk(r, m)
    ensures RecordOk(r.(answered := false), m)
  {
  }

  lemma CompleteSync(n: Node, h: nat, a: Answer, devs: set<string>)
    requires InSync(n, devs) && Core(n) && n.pv.lookups.Keys == {h} && n.pv.lookups[h].pending
    requires a.Nodes? ==> n.pv.lookups[h].via == MethodOf(n.dm)
    ensures After(Complete(n, h, a), LocalBad(n) && ResultOf(n.env.o, a).Some?, devs)
  {
    hide DnsCallback, SetLookup, Agree, KernelOk, Trusted, StatusOk, RecordOk, Shape, Accepting, ServedBy;
    var l := Completed(n.pv.lookups[h]);
    var n1 := SetLookup(n, h, l);
    CompletedCore(n, h);
    SetLookupFrame(n, h, l);
    match ResultOf(n.env.o, a)
    case Some(ip) => DnsSuccessSync(n1, l.via, ip, devs);
    case None => DnsFailureSync(n1, l.via, devs);
  }

  lemma CompletedCore(n: Node, h: nat)
    requires Core(n) && n.pv.lookups.Keys == {h}
    ensures Core(SetLookup(n, h, Completed(n.pv.lookups[h]))) && n.pv.lookups[h].rec == n.pv.priv
  {
    hide Trusted, StatusOk, RecordOk, QueriesOk;
    var ls := n.pv.lookups[h := Completed(n.pv.lookups[h])];
    LookupsShape(n.pv, ls, n.pv.next, n.pv.stale);
  }

  /** Closing reports failures only. */
  lemma CloseLookupSync(n: Node, h: nat, devs: set<string>)
    requires InSync(n, devs) && Core(n) && n.pv.lookups.Keys == Keys(h)
    ensures InSync(CloseLookup(n, h), devs)
  {
    hide Complete, Agree, KernelOk, Trusted, StatusOk, Friendly, RecordOk, LeavesTimer;
    if h != NULL {
      assert n.pv.lookups.Keys == {h};
      var l := n.pv.lookups[h];
      if l.pending && !l.armed { CompleteSync(n, h, Failure, devs); }
    }
  }

  lemma OpenLookupSync(n: Node, host: string, devs: set<string>)
    requires InSync(n, devs) && Core(n) && n.pv.lookups == map[] && Rec(n).local != "" && Rec(n).retry != NULL && host != ""
    ensures After(OpenLookup(n, host, n.pv.priv).n, FindsInside(n), devs)
  {
    hide Complete, AddLookup, Agree, KernelOk, Trusted, StatusOk, Friendly, RecordOk, Shape, ResultOf;
    var n1 := NextCall(n);
    AddLookupKeeps(n1, host);
    AddedFrame(n1, host);
    match n.env.o.dns(n.env.calls)
    case Refused =>
    case Opened(now) =>
      if now.Some? { CompleteSync(AddLookup(n1, host, n.pv.priv), n.pv.next, now.value, devs); }
  }

  lemma AddedFrame(n: Node, host: string)
    requires Live(n)
    ensures var m := AddLookup(n, host, n.pv.priv); m == n.(pv := m.pv) && Live(m) && Rec(m) == Rec(n)
  {
  }

  lemma ReopenSync(n: Node, host: string, devs: set<string>)
    requires InSync(n, devs) && Core(n) && LookupLinked(n.pv) && Rec(n).local != "" && Rec(n).retry != NULL && host != ""
    ensures After(Reopen(n, host).n, Finds(n), devs)
    ensures Finds(n) ==> Reopen(n, host).rv == 0
  {
    hide CloseLookup, OpenLookup, Agree, KernelOk, Trusted, StatusOk, Friendly, RecordOk, Shape, ServedBy, LeavesTimer, ResultOf, AwakeIn;
    var c := CloseLookup(n, Rec(n).dns);
    CloseLookupKeeps(n, Rec(n).dns);
    CloseLookupSync(n, Rec(n).dns, devs);
    OpenLookupSync(c, host, devs);
    OpenLookupKeeps(c, host);
  }

  lemma ResolveSync(n: Node, host: string, devs: set<string>)
    requires InSync(n, devs) && Core(n) && LookupLinked(n.pv)
    ensures After(Resolve(n, host).n, host != "" && Finds(n), devs)
    ensures host != "" && Finds(n) ==> Resolve(n, host).rv == 0
  {
    hide Submitted, Reopen, Agree, KernelOk, Trusted, StatusOk, Friendly, RecordOk, Shape, ResultOf;
    if host != "" {
      SubmittedKeeps(n, host);
      var n1 := Submitted(n, host);
      if Rec(n1).local != "" { ReopenSync(n1, host, devs); ReopenLives(n1, host); }
    }
  }

  lemma ReopenLives(n: Node, host: string)
    requires Live(n)
    ensures Reopen(n, host).rv == 0 || Reopen(n, host).rv == -1
  {
    hide CloseLookup, OpenLookup;
  }

  // ---- netmodel -----------------------------------------------------------------------

  /** An unreadable local address reaches an interface that is Enabled with a remote address. */
  predicate Spoils(n: Node, report: AddressReport)
    requires Live(n)
  {
    && n.dm.status == Enabled && Rec(n).remote != ""
    && report.address != "" && report.netdev != "" && !Readable(n.env.o.pf, report.address)
  }

  /** The record with the reported address. */
  function Patched(r: Record, report: AddressReport): Record {
    r.(local := Trunc(report.address, ADDRLEN), netdev := Some(report.netdev))
  }

  lemma AddressCallbackSync(n: Node, report: AddressReport, devs: set<string>)
    requires InSync(n, devs) && Core(n) && KnownDevice(report, devs)
    ensures After(AddressCallback(n, n.pv.priv, report), Spoils(n, report), devs)
  {
    hide Setup, Disable, Agree, KernelOk, Trusted, StatusOk, Friendly, RecordOk, Shape;
    CoreRecord(n);
    if report.address == "" || report.netdev == "" {
      DisableSync(n, Error, devs);
    } else {
      PatchAddress(n, report);
      var n1 := SetRec(n, n.pv.priv, Patched(Rec(n), report));
      CoreRecord(n1);
      SetupSync(n1, devs);
    }
  }

  lemma SubscribeAddressesSync(n: Node, now: Option<AddressReport>, devs: set<string>)
    requires Core(n) && InSync(n, devs) && (now.Some? ==> KnownDevice(now.value, devs))
    ensures After(SubscribeAddresses(n, now), now.Some? && Spoils(n, now.value), devs)
  {
    hide AddressCallback, Agree, KernelOk, Trusted, StatusOk, RecordOk, Shape, Friendly;
    AddQueryKeeps(n, Addresses);
    if now.Some? { AddressCallbackSync(AddQuery(n, Addresses), now.value, devs); }
  }

  /** What netmodel reports from inside the call that opens an address query now, if it does. */
  function Greeting(n: Node): Option<AddressReport> {
    match n.env.o.addresses(n.env.calls) case Refused => None case Opened(now) => now
  }

  lemma OpenAddressSync(n: Node, devs: set<string>)
    requires Core(n) && Linked(n.pv) && Known(n)
    requires n.dm.wan != "" && InSync(n, devs)
    ensures After(OpenAddressQuery(n).n, Greeting(n).Some? && Spoils(n, Greeting(n).value), devs)
  {
    hide OpenAddressQuery, CloseQuery, SubscribeAddresses, Agree, KernelOk, Trusted, StatusOk, RecordOk, Shape, QueriesAre, Accepting, ServedBy;
    OpenAddressIs(n);
    NextIsNew(n);
    Relink(n.pv.queries, Rec(n).addrQuery, Rec(n).dhcpQuery, n.pv.next, n.pv.priv);
    CloseQueryKeeps(n, Rec(n).addrQuery);
    var n1 := NextCall(CloseQuery(n, Rec(n).addrQuery));
    match n.env.o.addresses(n.env.calls)
    case Refused =>
    case Opened(now) =>
      SubscribeAddressesKeeps(n1, now);
      SubscribeAddressesSync(n1, now, devs);
  }

  lemma OpenAddressIs(n: Node)
    requires Live(n) && n.pv.priv != NULL && n.dm.wan != ""
    ensures var n1 := NextCall(CloseQuery(n, Rec(n).addrQuery));
            OpenAddressQuery(n) == match n.env.o.addresses(n.env.calls)
                                   case Refused => StoreAddressQuery(n1, NULL, -1)
                                   case Opened(now) => StoreAddressQuery(SubscribeAddresses(n1, now), n1.pv.next, 0)
  {
    hide CloseQuery, SubscribeAddresses, StoreAddressQuery;
  }

  lemma DhcpCallbackSync(n: Node, name: string, devs: set<string>)
    requires InSync(n, devs) && Core(n) && LookupLinked(n.pv) && Known(n)
    ensures After(DhcpCallback(n, n.pv.priv, name), name != "" && name == n.dm.endpointName && Finds(n), devs)
  {
    hide Resolve, Disable, Agree, KernelOk, Trusted, StatusOk, Friendly, RecordOk, Shape, Finds;
    if name != "" && name == n.dm.endpointName {
      ResolveKeeps(n, name);
      ResolveSync(n, name, devs);
      var r := Resolve(n, name);
      if r.rv != 0 { CoreRecord(r.n); DisableSync(r.n, Error, devs); }
    }
  }

  lemma CoreRecord(n: Node)
    requires Core(n)
    ensures RecordOk(Rec(n), MethodOf(n.dm)) && n.pv.priv != NULL
  {
  }

  lemma SubscribeAftrSync(n: Node, now: Option<string>, devs: set<string>)
    requires Core(n) && LookupLinked(n.pv) && Known(n) && InSync(n, devs)
    ensures After(SubscribeAftr(n, now), now.Some? && now.value != "" && now.value == n.dm.endpointName && Finds(n), devs)
  {
    hide DhcpCallback, Agree, KernelOk, Trusted, StatusOk, RecordOk, Shape, Friendly, ResultOf;
    AddQueryKeeps(n, AftrName);
    if now.Some? { DhcpCallbackSync(AddQuery(n, AftrName), now.value, devs); }
  }

  /** The name told inside the open call is EndpointName already, so that it is resolved at once. */
  predicate ToldAgain(n: Node) {
    Prompt(n).Some? && Prompt(n).value != "" && Prompt(n).value == n.dm.endpointName
  }

  lemma OpenDhcpIs(n: Node)
    requires Live(n) && n.pv.priv != NULL && n.dm.wan != ""
    ensures var n1 := NextCall(CloseQuery(n, Rec(n).dhcpQuery));
            OpenDhcpQuery(n) == match n.env.o.dhcp(n.env.calls)
                                case Refused => StoreDhcpQuery(n1, NULL, -1)
                                case Opened(now) => StoreDhcpQuery(SubscribeAftr(n1, now), n1.pv.next, 0)
  {
    hide CloseQuery, SubscribeAftr, StoreDhcpQuery;
  }

  /** Closing a netmodel query changes nothing of this. */
  lemma QueryClosedSync(n: Node, n1: Node, devs: set<string>)
    requires Live(n) && InSync(n, devs)
    requires n1 == NextCall(n).(pv := n.pv.(queries := n1.pv.queries, queriesClosed := n1.pv.queriesClosed))
    ensures InSync(n1, devs) && (Finds(n1) <==> Finds(NextCall(n)))
  {
    hide Friendly, Agree, Usable, ResultOf;
  }

  lemma StoredDhcp(n: Node, q: nat, rv: int, broken: bool, devs: set<string>)
    requires Live(n) && After(n, broken, devs)
    ensures After(StoreDhcpQuery(n, q, rv).n, broken, devs) && StoreDhcpQuery(n, q, rv).rv == rv
  {
    hide Friendly, Agree, KernelOk;
  }

  lemma OpenDhcpSync(n: Node, devs: set<string>)
    requires Core(n) && Linked(n.pv) && Known(n) && InSync(n, devs)
    ensures After(OpenDhcpQuery(n).n, ToldAgain(n) && Finds(NextCall(n)), devs)
    ensures ToldAgain(n) ==> OpenDhcpQuery(n).rv == 0
  {
    hide OpenDhcpQuery, StoreDhcpQuery, CloseQuery, SubscribeAftr, After, InSync, Finds, Trusted, StatusOk, RecordOk, Shape, QueriesAre, ServedBy;
    if n.dm.wan != "" {
      OpenDhcpIs(n);
      NextIsNew(n);
      Relink(n.pv.queries, Rec(n).addrQuery, Rec(n).dhcpQuery, n.pv.next, n.pv.priv);
      CloseQueryKeeps(n, Rec(n).dhcpQuery);
      var n1 := NextCall(CloseQuery(n, Rec(n).dhcpQuery));
      QueryClosedSync(n, n1, devs);
      match n.env.o.dhcp(n.env.calls)
      case Refused =>
        NotBroken(n1, devs);
        StoredDhcp(n1, NULL, -1, false, devs);
      case Opened(now) =>
        SubscribeAftrKeeps(n1, now);
        SubscribeAftrSync(n1, now, devs);
        StoredDhcp(SubscribeAftr(n1, now), n1.pv.next, 0, ToldAgain(n) && Finds(NextCall(n)), devs);
    } else {
      NoWanDhcp(n);
      NotBroken(n, devs);
    }
  }

  lemma NotBroken(n: Node, devs: set<string>)
    requires InSync(n, devs)
    ensures After(n, false, devs)
  {
  }

  lemma NoWanDhcp(n: Node)
    requires Live(n) && n.dm.wan == "" && n.pv.priv != NULL
    ensures OpenDhcpQuery(n) == Res(n, -1) && !ToldAgain(n)
  {
  }
}
