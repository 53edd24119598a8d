/** What each event achieves, told by the state before it and by what the surroundings answer. */
module Progress {
  import opened Basics
  import opened Model
  import opened Tunnel
  import opened Resolver
  import opened Interface
  import opened Events
  import opened Invariant
  import opened Keeps
  import opened Lifecycle
  import opened Sync
  import opened Breaking
  import Ioctl
  import Outcomes

  // ---- outcomes -----------------------------------------------------------------------

  /** Enabled with the addresses of the record: tunnel, service on the WAN interface, both IP interfaces. */
  ghost predicate Running(m: Node)
    requires Live(m)
  {
    && m.dm.status == Enabled && m.dm.inUse == Rec(m).remote && m.dm.localAddress == Rec(m).local
    && m.dm.usedVia == Rec(m).via && m.dm.origin == m.dm.precedence
    && Ioctl.Carries(m.env.o.pf, m.env.kernel, TUNNEL_DEVICE, Rec(m).local, Rec(m).remote)
    && SERVICE in m.env.services && m.env.services[SERVICE] == m.dm.wan
    && m.dm.tunneledIf in m.env.ip && m.env.ip[m.dm.tunneledIf] == IpRow(true, "Device." + m.dm.path)
    && m.dm.tunnelIf in m.env.ip && m.env.ip[m.dm.tunnelIf].enable
  }

  /** Error, showing no address. */
  predicate Down(m: Node) {
    m.dm.status == Error && m.dm.inUse == "" && m.dm.localAddress == "" && m.dm.origin == m.dm.precedence
  }

  /** Firewall and IP manager do as they are told, about two different rows. */
  ghost predicate Obedient(o: Oracle, dm: Settings) {
    (forall c :: o.firewall(c)) && (forall c :: o.ip(c) == 0) && NamesIps(dm) && dm.tunneledIf != dm.tunnelIf
  }

  /** No service, both IP interfaces off, nothing under the tunneled one. */
  predicate Withdrawn(dm: Settings, services: map<string, string>, ip: map<string, IpRow>) {
    && SERVICE !in services && dm.tunneledIf in ip && ip[dm.tunneledIf] == IpRow(false, "")
    && dm.tunnelIf in ip && !ip[dm.tunnelIf].enable
  }

  /** The interface has gone to Error, and what it had brought up is gone; there was nothing unless it was Enabled. */
  ghost predicate Lowered(n: Node, m: Node) {
    && Down(m)
    && if n.dm.status == Enabled then Obedient(n.env.o, n.dm) ==> Withdrawn(n.dm, m.env.services, m.env.ip)
       else m.env.kernel == n.env.kernel && m.env.services == n.env.services && m.env.ip == n.env.ip
  }

  /** WAN interface and record alone decide, whatever was there before. */
  ghost predicate Settled(m: Node)
    requires Live(m)
  {
    if m.dm.wan != "" && Usable(Rec(m), m.env.o.pf) then Running(m) else Down(m)
  }

  /** Nobody outside has noticed anything. */
  predicate SameService(n: Node, m: Node) {
    && m.dm.status == n.dm.status && m.dm.inUse == n.dm.inUse && m.dm.localAddress == n.dm.localAddress
    && m.dm.origin == n.dm.origin && m.dm.usedVia == n.dm.usedVia
    && m.env.kernel == n.env.kernel && m.env.services == n.env.services && m.env.ip == n.env.ip
  }

  /** Surroundings in which setting up succeeds with readable addresses. */
  ghost predicate Willing(n: Node, netdev: Option<string>, devs: set<string>) {
    && Accepting(n.env.o, devs) && KernelOk(n.env.kernel, devs) && NamesIps(n.dm)
    && (netdev.Some? ==> Ioctl.IfName(netdev.value) in devs)
  }

  ghost predicate TimerIs(m: Node, running: bool)
    requires Live(m)
  {
    Rec(m).retry != NULL && m.pv.timers == map[Rec(m).retry := running]
  }

  /** What a resolution starts from: the record, whether a lookup failed just before, and the number of the next call. */
  datatype Before = Before(local: string, netdev: Option<string>, remote: string, failed: bool, ticks: bool, call: nat)

  /** A lookup that was just submitted for `host`. */
  function Fresh(rec: nat, m: Method, host: string): Lookup {
    Lookup(rec, true, true, false, false, true, {}, m, host)
  }

  /** Nothing was started; a failure shows, and a strict caller goes to Error. */
  ghost predicate Stalled(n: Node, m: Node, b: Before, strict: bool)
    requires Live(m)
  {
    && m.pv.lookups == map[] && Rec(m).dns == NULL && Rec(m).remote == b.remote
    && (if strict || b.failed then Lowered(n, m) else SameService(n, m))
  }

  /** One lookup is in flight. */
  ghost predicate InFlight(n: Node, m: Node, host: string, b: Before)
    requires Live(m)
  {
    && Rec(m).dns != NULL && m.pv.lookups == map[Rec(m).dns := Fresh(m.pv.priv, MethodOf(n.dm), host)]
    && Rec(m).remote == b.remote && TimerIs(m, b.ticks)
    && (if b.failed then Lowered(n, m) else SameService(n, m))
  }

  /** One lookup completed inside the call. */
  ghost predicate Answered(n: Node, m: Node, host: string, b: Before, result: Option<string>, devs: set<string>)
    requires Live(m)
  {
    && Rec(m).dns != NULL && m.pv.lookups == map[Rec(m).dns := Completed(Fresh(m.pv.priv, MethodOf(n.dm), host))]
    && match result
       case Some(ip) =>
         && Rec(m).remote == Trunc(ip, ADDRLEN) && Rec(m).via == MethodOf(n.dm)
         && Rec(m).retry == NULL && m.pv.timers == map[] && m.dm.status != Disabled
         && (Willing(n, b.netdev, devs) ==> Settled(m))
       case None =>
         Rec(m).remote == b.remote && TimerIs(m, true) && Lowered(n, m)
  }

  /**
   A name was submitted once. Without a local address the retry timer runs; otherwise one lookup for
   the name is in flight, or it was refused, or it completed at once, with an address that is set up or
   with none, so that the retry timer runs. A strict caller goes to Error when nothing was started.
   */
  ghost predicate Attempted(n: Node, m: Node, host: string, b: Before, strict: bool, devs: set<string>) {
    && Live(m) && SameSettings(n, m) && m.pv.attempts == n.pv.attempts + [host]
    && Rec(m).local == b.local && Rec(m).netdev == b.netdev
    && if b.local == "" then Stalled(n, m, b, strict) && TimerIs(m, true)
       else
         match n.env.o.dns(b.call)
         case Refused => Stalled(n, m, b, strict) && TimerIs(m, b.ticks)
         case Opened(now) =>
           if now.None? then InFlight(n, m, host, b) else Answered(n, m, host, b, ResultOf(n.env.o, now.value), devs)
  }

  // ---- setting up and taking down -----------------------------------------------------

  /** Setting up with willing surroundings: the whole outcome, and what it leaves alone. */
  lemma SetupOutcome(n: Node, devs: set<string>)
    requires Core(n) && Willing(n, Rec(n).netdev, devs)
    ensures var m := Setup(n);
            && StatusOnly(n, m) && Settled(m) && KernelOk(m.env.kernel, devs)
            && (forall id :: id in n.env.services && id != SERVICE ==> id in m.env.services && m.env.services[id] == n.env.services[id])
            && (forall row :: row in n.env.ip && row != n.dm.tunneledIf && row != n.dm.tunnelIf ==>
                  row in m.env.ip && m.env.ip[row] == n.env.ip[row])
            && (n.dm.tunnelIf in n.env.ip && n.dm.tunnelIf != n.dm.tunneledIf ==>
                  m.env.ip[n.dm.tunnelIf].lowerLayers == n.env.ip[n.dm.tunnelIf].lowerLayers)
  {
    hide Setup, BringUp, ServedBy, Trusted, Orderly, Shape, StatusOk, KernelOk, RecordOk, Usable, Ioctl.Carries;
    WillingParts(n, devs);
    SetupKeeps(n);
    CoreRecord(n);
    DownExactly(n, devs);
    if TurnedDown(n) {
      RefusedSetup(n, devs);
      RefusedEnv(n);
    } else {
      AcceptedSetup(n, devs);
      AcceptedEnv(n);
      BringUpServes(n);
    }
  }

  lemma WillingParts(n: Node, devs: set<string>)
    requires Live(n) && Willing(n, Rec(n).netdev, devs)
    ensures Trusted(n.env.o) && Orderly(n.env.o, devs) && DeviceKnown(Rec(n), devs)
    ensures (forall c :: n.env.o.firewall(c)) && (forall c :: n.env.o.ip(c) == 0)
  {
    hide Trusted, Orderly, KernelOk;
  }

  lemma RefusedEnv(n: Node)
    requires Live(n) && n.pv.priv != NULL && TurnedDown(n)
    ensures Down(Setup(n)) && Setup(n).env.services == n.env.services && Setup(n).env.ip == n.env.ip
  {
  }

  lemma AcceptedEnv(n: Node)
    requires Live(n) && n.pv.priv != NULL && !TurnedDown(n) && NamesIps(n.dm)
    requires (forall c :: n.env.o.firewall(c)) && (forall c :: n.env.o.ip(c) == 0)
    ensures var m := Setup(n); var ip1 := n.env.ip[n.dm.tunneledIf := IpRow(true, "Device." + n.dm.path)];
            && BringUp(n).rv == 0 && m.env == BringUp(n).n.env
            && m.env.services == n.env.services[SERVICE := n.dm.wan]
            && m.env.ip == ip1[n.dm.tunnelIf := IpRow(true, if n.dm.tunnelIf in ip1 then ip1[n.dm.tunnelIf].lowerLayers else "")]
  {
    hide UpdateTunnel, ToggleIps, DeleteTunnel;
    UpdatedOnlyKernel(n);
    BothOn(OpenFirewall(UpdateTunnel(n).n, n.dm.wan));
  }

  lemma UpdatedOnlyKernel(n: Node)
    requires Live(n)
    ensures UpdateTunnel(n).n == n.(env := n.env.(kernel := UpdateTunnel(n).n.env.kernel))
  {
  }

  lemma BothOn(n: Node)
    requires NamesIps(n.dm) && forall c :: n.env.o.ip(c) == 0
    ensures var t := ToggleIps(n, true); var ip1 := n.env.ip[n.dm.tunneledIf := IpRow(true, "Device." + n.dm.path)];
            && t.rv == 0 && EnvOnly(n, t.n) && t.n.env.kernel == n.env.kernel && t.n.env.services == n.env.services
            && t.n.env.ip == ip1[n.dm.tunnelIf := IpRow(true, if n.dm.tunnelIf in ip1 then ip1[n.dm.tunnelIf].lowerLayers else "")]
  {
  }

  /** How many calls disabling takes: closing the firewall, and switching IP interfaces off. */
  function DownCall(n: Node, down: bool): nat {
    if down && n.dm.status == Enabled then n.env.calls + 1 + IpCalls(n, n.env.calls + 1) else n.env.calls
  }

  lemma DisableOutcome(n: Node, devs: set<string>)
    requires Core(n)
    ensures var m := Disable(n, Error);
            && StatusOnly(n, m) && Lowered(n, m) && m.env.calls == DownCall(n, true)
            && (Willing(n, Rec(n).netdev, devs) ==> KernelOk(m.env.kernel, devs))
  {
    hide ToggleIps, Trusted, StatusOk, Shape, RecordOk, KernelOk, IpCalls, Obedient, Withdrawn;
    DisableKeeps(n, Error);
    if n.dm.status == Enabled {
      if Obedient(n.env.o, n.dm) { Withdraws(n, Error); }
      var f := CloseFirewall(DeleteTunnel(n));
      IpCodeIs(f, false);
      TogglesBoth(f, false);
      SameIpCalls(n, f, n.env.calls + 1);
      if Willing(n, Rec(n).netdev, devs) && HasArgs(n) { assert PluginArgs(ControllerArgs(Rec(n)), devs); }
    }
  }

  lemma Withdraws(n: Node, s: Status)
    requires s != Enabled && Live(n) && n.pv.priv != NULL && Obedient(n.env.o, n.dm) && n.dm.status == Enabled
    ensures Withdrawn(n.dm, Disable(n, s).env.services, Disable(n, s).env.ip)
  {
    hide ToggleIps;
    Outcomes.BothOff(CloseFirewall(DeleteTunnel(n)));
  }

  lemma SameIpCalls(n: Node, f: Node, call: nat)
    requires f.dm.tunneledIf == n.dm.tunneledIf && f.dm.tunnelIf == n.dm.tunnelIf && f.env.o == n.env.o
    ensures IpCalls(f, call) == IpCalls(n, call)
  {
  }

  // ---- lookups ------------------------------------------------------------------------

  /** The lookup of the record fails: Error, and the retry timer runs. */
  lemma FailureOutcome(n: Node, via: Method, devs: set<string>)
    requires Core(n)
    ensures var m := DnsCallback(n, n.pv.priv, via, None);
            && Core(m) && Lowered(n, m) && m.env.calls == DownCall(n, true) && m.env.o == n.env.o && m.on == n.on
            && m.pv == n.pv.(heap := m.pv.heap, timers := m.pv.timers) && Rec(m) == Rec(n).(answered := false)
            && (Rec(n).retry != NULL ==> m.pv.timers == map[Rec(n).retry := true])
            && m.dm == n.dm.(status := m.dm.status, inUse := m.dm.inUse, localAddress := m.dm.localAddress,
                             origin := m.dm.origin, usedVia := m.dm.usedVia)
            && (Willing(n, Rec(n).netdev, devs) ==> KernelOk(m.env.kernel, devs))
  {
    hide Disable, ServedBy, StatusOk, Trusted, RecordOk, Shape, Accepting, KernelOk, IpCalls, Obedient, Withdrawn;
    var n1 := SetRec(n, n.pv.priv, Rec(n).(answered := false));
    OwnTimer(n.pv);
    FailedCore(n);
    DisableOutcome(n1, devs);
    DnsFailure(n, via);
    if Rec(n).retry != NULL { OnlyTimer(n.pv); }
    SameIpCalls(n, n1, n.env.calls + 1);
  }

  lemma FailedCore(n: Node)
    requires Core(n)
    ensures Core(SetRec(n, n.pv.priv, Rec(n).(answered := false)))
  {
    hide StatusOk, Trusted, Shape;
    OwnTimer(n.pv);
    PatchShape(n.pv, Rec(n).(answered := false), n.pv.timers, n.pv.next);
  }

  lemma OnlyTimer(pv: Private)
    requires Shape(pv) && pv.heap[pv.priv].retry != NULL
    ensures pv.timers[pv.heap[pv.priv].retry := true] == map[pv.heap[pv.priv].retry := true]
  {
    hide LookupsOk, QueriesOk;
  }

  /** The lookup finds an address: it is in the record, the retry timer is gone, and setting up decides. */
  lemma FoundOutcome(n: Node, via: Method, ip: string, devs: set<string>)
    requires Core(n) && NonePending(n) && via == MethodOf(n.dm)
    ensures var m := DnsCallback(n, n.pv.priv, via, Some(ip));
            && Core(m) && m.env.o == n.env.o && m.on == n.on && m.dm.status != Disabled
            && m.pv == n.pv.(heap := m.pv.heap, timers := map[])
            && Rec(m) == Rec(n).(remote := Trunc(ip, ADDRLEN), via := via, answered := true, retry := NULL)
            && m.dm == n.dm.(status := m.dm.status, inUse := m.dm.inUse, localAddress := m.dm.localAddress,
                             origin := m.dm.origin, usedVia := m.dm.usedVia)
            && (Willing(n, Rec(n).netdev, devs) ==> Settled(m))
  {
    hide DnsCallback, Setup, ServedBy, StatusOk, Trusted, RecordOk, Shape, Accepting, KernelOk, Running, Usable;
    var n1 := SetRec(n, n.pv.priv, Rec(n).(remote := Trunc(ip, ADDRLEN), via := via, answered := true));
    DnsSuccess(n, via, ip);
    FoundCore(n, via, ip);
    OwnTimer(n.pv);
    SetupKeeps(n1);
    SuccessIs(n, via, ip);
    if Willing(n, Rec(n).netdev, devs) {
      SetupOutcome(n1, devs);
      SettledRecord(Setup(n1), DnsCallback(n, n.pv.priv, via, Some(ip)));
    }
  }

  lemma FoundCore(n: Node, via: Method, ip: string)
    requires Core(n) && via == MethodOf(n.dm)
    ensures Core(SetRec(n, n.pv.priv, Rec(n).(remote := Trunc(ip, ADDRLEN), via := via, answered := true)))
  {
    hide StatusOk, Trusted, Shape;
    OwnTimer(n.pv);
    PatchShape(n.pv, Rec(n).(remote := Trunc(ip, ADDRLEN), via := via, answered := true), n.pv.timers, n.pv.next);
  }

  /** Only the addresses of the record, with where they came from, matter to being settled. */
  lemma SettledRecord(n: Node, m: Node)
    requires Live(n) && Settled(n) && m == n.(pv := m.pv) && Live(m)
    requires Rec(m) == Rec(n).(addrQuery := Rec(m).addrQuery, dhcpQuery := Rec(m).dhcpQuery, dns := Rec(m).dns, retry := Rec(m).retry)
    ensures Settled(m)
  {
    hide Ioctl.Carries;
  }

  /** A lookup completes. */
  ghost predicate Found(n: Node, m: Node, h: nat, a: Answer, devs: set<string>)
    requires Live(n) && h in n.pv.lookups
  {
    && Core(m) && m.env.o == n.env.o && m.on == n.on
    && m.pv == n.pv.(heap := m.pv.heap, timers := m.pv.timers, lookups := n.pv.lookups[h := Completed(n.pv.lookups[h])])
    && m.dm == n.dm.(status := m.dm.status, inUse := m.dm.inUse, localAddress := m.dm.localAddress,
                     origin := m.dm.origin, usedVia := m.dm.usedVia)
    && match ResultOf(n.env.o, a)
       case Some(ip) =>
         && Rec(m) == Rec(n).(remote := Trunc(ip, ADDRLEN), via := n.pv.lookups[h].via, answered := true, retry := NULL)
         && m.pv.timers == map[] && m.dm.status != Disabled && (Willing(n, Rec(n).netdev, devs) ==> Settled(m))
       case None =>
         && Rec(m) == Rec(n).(answered := false) && Lowered(n, m) && m.env.calls == DownCall(n, true)
         && (Rec(n).retry != NULL ==> TimerIs(m, true))
         && (Willing(n, Rec(n).netdev, devs) ==> KernelOk(m.env.kernel, devs))
  }

  lemma CompleteOutcome(n: Node, h: nat, a: Answer, devs: set<string>)
    requires Core(n) && n.pv.lookups.Keys == {h} && n.pv.lookups[h].pending
    requires a.Nodes? ==> n.pv.lookups[h].via == MethodOf(n.dm)
    ensures Found(n, Complete(n, h, a), h, a, devs)
  {
    hide DnsCallback, ResultOf, ServedBy, StatusOk, Trusted, RecordOk, Shape, Accepting, KernelOk, Running, Usable, IpCalls;
    var l := Completed(n.pv.lookups[h]);
    CompletedCore(n, h);
    var n1 := SetLookup(n, h, l);
    FailureHasNone(n.env.o, a);
    SameIpCalls(n, n1, n.env.calls + 1);
    match ResultOf(n.env.o, a)
    case Some(ip) => FoundOutcome(n1, l.via, ip, devs);
    case None => FailureOutcome(n1, l.via, devs);
  }

  lemma FailureHasNone(o: Oracle, a: Answer)
    ensures ResultOf(o, a).Some? ==> a.Nodes?
  {
  }

  /** What the record's lookup being closed amounts to. */
  ghost predicate Closed(n: Node, c: Node, failed: bool, devs: set<string>)
    requires Live(n)
  {
    && Core(c) && c.on == n.on && c.env.o == n.env.o && c.pv.lookups == map[]
    && c.pv == n.pv.(heap := c.pv.heap, timers := c.pv.timers, lookups := map[], stale := c.pv.stale)
    && Rec(c) == Rec(n).(answered := Rec(c).answered)
    && c.dm == n.dm.(status := c.dm.status, inUse := c.dm.inUse, localAddress := c.dm.localAddress,
                     origin := c.dm.origin, usedVia := c.dm.usedVia)
    && c.env.calls == DownCall(n, failed)
    && (if failed then Lowered(n, c) && (Rec(n).retry != NULL ==> TimerIs(c, true))
        else c.dm == n.dm && c.env == n.env && c.pv.timers == n.pv.timers)
    && (Willing(n, Rec(n).netdev, devs) ==> KernelOk(c.env.kernel, devs))
  }

  lemma CloseOutcome(n: Node, h: nat, devs: set<string>)
    requires Core(n) && n.pv.lookups.Keys == Keys(h)
    ensures Closed(n, CloseLookup(n, h), h in n.pv.lookups && n.pv.lookups[h].pending && !n.pv.lookups[h].armed, devs)
  {
    hide CloseLookup, Complete, ServedBy, StatusOk, Trusted, RecordOk, Shape, Accepting, KernelOk, IpCalls, LeavesTimer, Running, Usable;
    CloseLookupKeeps(n, h);
    if h == NULL {
      NothingToClose(n);
      NoNull(n);
    } else if n.pv.lookups[h].pending && !n.pv.lookups[h].armed {
      CompleteOutcome(n, h, Failure, devs);
      CloseIsFailure(n, h);
    } else {
      CloseQuietly(n, h);
    }
  }

  lemma NoNull(n: Node)
    requires Core(n) && n.pv.lookups.Keys == {}
    ensures NULL !in n.pv.lookups && n.pv.lookups == map[]
  {
  }

  lemma CloseIsFailure(n: Node, h: nat)
    requires Core(n) && n.pv.lookups.Keys == {h} && n.pv.lookups[h].pending && !n.pv.lookups[h].armed
    ensures var c := Complete(n, h, Failure); var m := CloseLookup(n, h);
            m == c.(pv := m.pv) && m.pv == c.pv.(lookups := c.pv.lookups - {h}, stale := m.pv.stale)
  {
    hide Complete, LeavesTimer, StatusOk, Trusted, RecordOk, Shape;
    PendingHasChannel(n, h);
    NotNull(n, h);
  }

  /** Opening a lookup: refused, in flight, or completed inside the call. */
  lemma OpenOutcome(n: Node, host: string, devs: set<string>)
    requires Core(n) && n.pv.lookups == map[] && Rec(n).local != "" && Rec(n).retry != NULL && host != ""
    ensures var r := OpenLookup(n, host, n.pv.priv);
            && Core(r.n)
            && match n.env.o.dns(n.env.calls)
               case Refused => r == Res(NextCall(n), NULL)
               case Opened(now) =>
                 && r.rv == n.pv.next != NULL
                 && (if now.None? then r.n == Launched(n, host) else Found(Launched(n, host), r.n, r.rv, now.value, devs))
  {
    hide Complete, ServedBy, StatusOk, Trusted, RecordOk, Shape, Accepting, KernelOk, ResultOf, Found;
    var n1 := NextCall(n);
    AddLookupKeeps(n1, host);
    var n2 := AddLookup(n1, host, n.pv.priv);
    assert n2.pv.lookups == map[n.pv.next := Fresh(n.pv.priv, MethodOf(n.dm), host)];
    match n.env.o.dns(n.env.calls)
    case Refused =>
    case Opened(now) =>
      if now.Some? {
        CompleteOutcome(n2, n.pv.next, now.value, devs);
        FoundCoreOf(n2, Complete(n2, n.pv.next, now.value), n.pv.next, now.value, devs);
      }
  }

  lemma FoundCoreOf(n: Node, m: Node, h: nat, a: Answer, devs: set<string>)
    requires Live(n) && h in n.pv.lookups && Found(n, m, h, a, devs)
    ensures Core(m)
  {
  }

  // ---- resolving a name ---------------------------------------------------------------

  /** A resolution that starts from the record as it is; its lookup, if it is outstanding, fails first. */
  function AsIs(n: Node): Before
    requires Live(n)
  {
    var failed := FailsOnClose(n.pv);
    Before(Rec(n).local, Rec(n).netdev, Rec(n).remote, failed, failed, DownCall(n, failed))
  }

  /** The old query is gone and nothing has been opened yet. */
  ghost predicate Opening(n: Node, c: Node, b: Before, host: string, devs: set<string>) {
    && Core(c) && c.pv.lookups == map[] && c.pv.attempts == n.pv.attempts + [host]
    && Rec(c).local == b.local != "" && Rec(c).netdev == b.netdev && Rec(c).remote == b.remote
    && c.env.calls == b.call && TimerIs(c, b.ticks) && SameSettings(n, c)
    && (if b.failed then Lowered(n, c) else SameService(n, c))
    && (Willing(n, b.netdev, devs) ==> KernelOk(c.env.kernel, devs))
  }

  lemma Opens(n: Node, c: Node, b: Before, host: string, devs: set<string>)
    requires Opening(n, c, b, host, devs) && host != ""
    ensures var o := OpenLookup(c, host, c.pv.priv);
            && Live(o.n)
            && Attempted(n, SetRec(o.n, o.n.pv.priv, Rec(o.n).(dns := o.rv)), host, b, false, devs)
            && (o.rv == NULL <==> n.env.o.dns(b.call).Refused?)
  {
    hide OpenLookup, Found, Attempted, Willing, Lowered, SameService, ServedBy, StatusOk, Trusted, RecordOk, Shape, ResultOf;
    OpenOutcome(c, host, devs);
    match n.env.o.dns(b.call)
    case Refused => OpensRefused(n, c, b, host, devs);
    case Opened(now) =>
      if now.None? { OpensInFlight(n, c, b, host, devs); }
      else { OpensFound(n, c, OpenLookup(c, host, c.pv.priv).n, b, host, now.value, devs); }
  }

  /** The lookup as it was just stored among the lookups. */
  function Launched(n: Node, host: string): Node {
    NextCall(n).(pv := n.pv.(lookups := map[n.pv.next := Fresh(n.pv.priv, MethodOf(n.dm), host)], next := n.pv.next + 1))
  }

  lemma OpensRefused(n: Node, c: Node, b: Before, host: string, devs: set<string>)
    requires Opening(n, c, b, host, devs) && n.env.o.dns(b.call).Refused?
    ensures Attempted(n, SetRec(NextCall(c), c.pv.priv, Rec(c).(dns := NULL)), host, b, false, devs)
  {
    hide Willing, Obedient, Withdrawn, ServedBy, StatusOk, Trusted, RecordOk, Shape, InFlight, Answered;
  }

  lemma OpensInFlight(n: Node, c: Node, b: Before, host: string, devs: set<string>)
    requires Opening(n, c, b, host, devs) && n.env.o.dns(b.call) == Opened(None) && c.pv.next != NULL
    ensures var m := Launched(c, host);
            Attempted(n, SetRec(m, m.pv.priv, Rec(m).(dns := c.pv.next)), host, b, false, devs)
  {
    hide Willing, Obedient, Withdrawn, ServedBy, StatusOk, Trusted, RecordOk, Shape, Stalled, Answered;
  }

  lemma OpensFound(n: Node, c: Node, k: Node, b: Before, host: string, a: Answer, devs: set<string>)
    requires Opening(n, c, b, host, devs) && n.env.o.dns(b.call) == Opened(Some(a)) && c.pv.next != NULL
    requires Found(Launched(c, host), k, c.pv.next, a, devs)
    ensures Live(k) && Attempted(n, SetRec(k, k.pv.priv, Rec(k).(dns := c.pv.next)), host, b, false, devs)
  {
    hide Settled, Willing, Lowered, SameService, ServedBy, StatusOk, Trusted, RecordOk, Shape, Answered, Stalled, InFlight, ResultOf, TimerIs;
    AnswerIs(n, c, k, b, host, a, devs);
  }

  /** The lookup that was launched completed, and its pointer is stored. */
  lemma AnswerIs(n: Node, c: Node, k: Node, b: Before, host: string, a: Answer, devs: set<string>)
    requires Opening(n, c, b, host, devs) && c.pv.next != NULL && Found(Launched(c, host), k, c.pv.next, a, devs)
    ensures Live(k) && Answered(n, SetRec(k, k.pv.priv, Rec(k).(dns := c.pv.next)), host, b, ResultOf(n.env.o, a), devs)
  {
    hide Settled, Accepting, KernelOk, Lowered, ServedBy, StatusOk, Trusted, RecordOk, Shape, ResultOf;
    var l, m := Fresh(c.pv.priv, MethodOf(n.dm), host), SetRec(k, k.pv.priv, Rec(k).(dns := c.pv.next));
    assert map[c.pv.next := l][c.pv.next := Completed(l)] == map[c.pv.next := Completed(l)];
    if ResultOf(n.env.o, a).Some? {
      if Settled(k) { SettledRecord(k, m); }
    } else {
      LoweredSince(n, c, Launched(c, host), k, m, b.failed);
    }
  }

  /** Going to Error twice is like once, and what happens unnoticed before does not matter. */
  lemma LoweredSince(n: Node, c: Node, c1: Node, k: Node, m: Node, failed: bool)
    requires SameSettings(n, c) && SameSettings(c, m) && c1 == c.(pv := c1.pv, env := c.env.(calls := c1.env.calls))
    requires (if failed then Lowered(n, c) else SameService(n, c)) && Lowered(c1, k) && m == k.(pv := m.pv)
    ensures Lowered(n, m)
  {
    hide Obedient;
    SameObedient(n, c);
  }

  lemma ResolveOutcome(n: Node, host: string, devs: set<string>)
    requires Core(n) && LookupLinked(n.pv) && host != ""
    ensures var r := Resolve(n, host); var b := AsIs(n);
            && Attempted(n, r.n, host, b, false, devs)
            && (r.rv == 0 || r.rv == -1) && (r.rv == -1 <==> b.local == "" || n.env.o.dns(b.call).Refused?)
  {
    hide Submitted, Reopen, Attempted, Opening, ServedBy, StatusOk, Trusted, RecordOk, Shape, Accepting, KernelOk;
    SubmittedKeeps(n, host);
    var s := Submitted(n, host);
    if Rec(n).local == "" {
      NoLookups(n);
      NoPointer(n.pv);
      TimerOnly(n, s, host, devs);
    } else {
      SubmittedOpening(n, s, host, devs);
      Opens(n, CloseLookup(s, Rec(s).dns), AsIs(n), host, devs);
      ReopenIs(s, host);
    }
  }

  lemma NoPointer(pv: Private)
    requires pv.priv in pv.heap && LookupLinked(pv) && pv.lookups == map[]
    ensures pv.heap[pv.priv].dns == NULL
  {
  }

  lemma TimerOnly(n: Node, s: Node, host: string, devs: set<string>)
    requires Core(n) && Core(s) && Rec(n).local == "" && n.pv.lookups == map[] && Rec(n).dns == NULL && TimerIs(s, false)
    requires s == n.(pv := s.pv) && s.pv.attempts == n.pv.attempts + [host] && s.pv.lookups == map[]
    requires Rec(s) == Rec(n).(asked := true, retry := Rec(s).retry)
    ensures Attempted(n, StartTimer(s, Rec(s).retry), host, AsIs(n), false, devs)
  {
    hide StatusOk, Trusted, RecordOk, Shape, Accepting, KernelOk;
  }

  lemma SubmittedOpening(n: Node, s: Node, host: string, devs: set<string>)
    requires Core(n) && Core(s) && LookupLinked(n.pv) && Rec(n).local != "" && TimerIs(s, false)
    requires s == n.(pv := s.pv) && s.pv == n.pv.(heap := s.pv.heap, timers := s.pv.timers, next := s.pv.next, attempts := n.pv.attempts + [host])
    requires Rec(s) == Rec(n).(asked := true, retry := Rec(s).retry)
    ensures Opening(n, CloseLookup(s, Rec(s).dns), AsIs(n), host, devs) && CloseLookup(s, Rec(s).dns).pv.priv == s.pv.priv
  {
    hide CloseLookup, ServedBy, StatusOk, Trusted, RecordOk, Shape, Accepting, KernelOk, IpCalls;
    CloseOutcome(s, Rec(s).dns, devs);
    SameIpCalls(n, s, n.env.calls + 1);
  }

  lemma ReopenIs(n: Node, host: string)
    requires Live(n)
    requires var c := CloseLookup(n, Rec(n).dns); c.pv.priv == n.pv.priv && Live(OpenLookup(c, host, n.pv.priv).n)
    ensures var o := OpenLookup(CloseLookup(n, Rec(n).dns), host, n.pv.priv);
            Reopen(n, host) == Res(SetRec(o.n, o.n.pv.priv, Rec(o.n).(dns := o.rv)), if o.rv == NULL then -1 else 0)
  {
    hide CloseLookup, OpenLookup;
  }

  /** A strict caller disables the interface when nothing was started. */
  lemma StrictOutcome(n: Node, m: Node, host: string, b: Before, devs: set<string>)
    requires Attempted(n, m, host, b, false, devs) && Core(m)
    ensures Attempted(n, if b.local == "" || n.env.o.dns(b.call).Refused? then Disable(m, Error) else m, host, b, true, devs)
  {
    hide Disable, Settled, StatusOk, Trusted, RecordOk, Shape, Accepting, KernelOk, ResultOf;
    DisableOutcome(m, devs);
  }

  // ---- names --------------------------------------------------------------------------

  /** The retry timer expired: the name was submitted again, whatever the status, unless it is empty. */
  ghost predicate Retried(n: Node, m: Node, devs: set<string>)
    requires Live(n)
  {
    if n.dm.endpointName == "" then Live(m) && m == n.(pv := n.pv.(timers := m.pv.timers)) && TimerIs(m, false)
    else Attempted(n, m, n.dm.endpointName, AsIs(n), false, devs)
  }

  lemma RetryOutcome(n: Node, t: nat, devs: set<string>)
    requires Sound(n) && t in n.pv.timers && n.pv.timers[t]
    ensures Active(n) && Live(n) && Retried(n, Step(n, RetryTimer(t)), devs)
  {
    hide Resolve, Attempted, Trusted, StatusOk, RecordOk, Shape, QueriesAre, LookupLinked, CurrentIn;
    NoTimerWhenIdle(n, t);
    TimerOwner(n, t);
    var n1 := n.(pv := n.pv.(timers := n.pv.timers[t := false]));
    LinkedLookup(n1.pv);
    ResolveKeeps(n1, n.dm.endpointName);
    if n.dm.endpointName == "" {
      TimerStops(n, t);
    } else {
      ResolveOutcome(n1, n.dm.endpointName, devs);
      SameAttempt(n, n1, Resolve(n1, n.dm.endpointName).n, n.dm.endpointName, false, devs);
    }
    NothingQueued(Resolve(n1, n.dm.endpointName).n);
  }

  lemma TimerStops(n: Node, t: nat)
    requires Mid(n) && t in n.pv.timers
    ensures t == Rec(n).retry != NULL && n.pv.timers[t := false] == map[t := false]
  {
    hide Trusted, StatusOk, RecordOk, LookupsOk, QueriesOk, Linked, CurrentIn;
    TimerOwner(n, t);
  }

  lemma NoTimerWhenIdle(n: Node, t: nat)
    requires Sound(n) && t in n.pv.timers
    ensures Active(n) && Mid(n)
  {
    hide Trusted, StatusOk, Mid;
  }

  /** What `c` has behind it, seen from `n`: no setting has changed, and a failure has shown if there was one. */
  ghost predicate Since(n: Node, c: Node, was: Before, b: Before, devs: set<string>) {
    && SameSettings(n, c) && c.pv.attempts == n.pv.attempts && (Willing(n, b.netdev, devs) ==> Willing(c, b.netdev, devs))
    && b == was.(failed := was.failed || b.failed)
    && (if b.failed && !was.failed then Lowered(n, c) else SameService(n, c))
  }

  lemma AttemptSince(n: Node, c: Node, m: Node, host: string, was: Before, b: Before, strict: bool, devs: set<string>)
    requires Attempted(c, m, host, was, strict, devs) && Since(n, c, was, b, devs)
    ensures Attempted(n, m, host, b, strict, devs)
  {
    hide Stalled, InFlight, Answered, Willing, TimerIs, Lowered, SameService, ResultOf;
    if b.local == "" || n.env.o.dns(b.call).Refused? { StalledSince(n, c, m, was, b, strict, devs); }
    else { StartedSince(n, c, m, host, was, b, devs); }
  }

  lemma StalledSince(n: Node, c: Node, m: Node, was: Before, b: Before, strict: bool, devs: set<string>)
    requires Live(m) && Since(n, c, was, b, devs) && SameSettings(c, m) && Stalled(c, m, was, strict)
    ensures Stalled(n, m, b, strict)
  {
    hide Willing, Obedient;
    SameObedient(n, c);
  }

  lemma StartedSince(n: Node, c: Node, m: Node, host: string, was: Before, b: Before, devs: set<string>)
    requires Live(m) && Since(n, c, was, b, devs) && SameSettings(c, m)
    ensures InFlight(c, m, host, was) ==> InFlight(n, m, host, b)
    ensures forall result :: Answered(c, m, host, was, result, devs) ==> Answered(n, m, host, b, result, devs)
  {
    hide Willing, Settled, Obedient;
    SameObedient(n, c);
  }

  lemma SameObedient(n: Node, c: Node)
    requires SameSettings(n, c)
    ensures Obedient(c.env.o, c.dm) <==> Obedient(n.env.o, n.dm)
  {
  }

  /** Timers and EndpointName do not matter to what an attempt starts from. */
  lemma SameAttempt(n: Node, n1: Node, m: Node, host: string, strict: bool, devs: set<string>)
    requires Live(n) && n1 == n.(dm := n.dm.(endpointName := n1.dm.endpointName), pv := n.pv.(timers := n1.pv.timers))
    requires Attempted(n1, m, host, AsIs(n1), strict, devs)
    ensures Attempted(n, m, host, AsIs(n), strict, devs)
  {
    hide Attempted, Accepting, KernelOk, IpCalls;
    SameIpCalls(n, n1, n.env.calls + 1);
    AttemptSince(n, n1, m, host, AsIs(n), AsIs(n), strict, devs);
  }

  lemma NameChangedOutcome(n: Node, name: string, devs: set<string>)
    requires Mid(n) && Active(n) && MethodOf(n.dm) != StaticIPv6 && name != ""
    ensures Attempted(n, NameChanged(n, name), name, AsIs(n), true, devs)
  {
    hide Resolve, Disable, Attempted, Trusted, StatusOk, RecordOk, Shape, QueriesLinked, CurrentIn;
    ResolveKeeps(n, name);
    ResolveOutcome(n, name, devs);
    StrictOutcome(n, Resolve(n, name).n, name, AsIs(n), devs);
  }

  /** A name was written: submitted if the method asks for one, and only stored otherwise. */
  ghost predicate NameSet(n: Node, s: string, m: Node, devs: set<string>)
    requires Live(n)
  {
    if s == n.dm.endpointName || |s| > NAMELEN then m == n
    else if s == "" || MethodOf(n.dm) == StaticIPv6 then m == n.(dm := n.dm.(endpointName := s))
    else m.dm.endpointName == s && Attempted(n, m, s, AsIs(n), true, devs)
  }

  lemma SetNameOutcome(n: Node, s: string, devs: set<string>)
    requires Sound(n) && Active(n)
    ensures Live(n) && NameSet(n, s, Step(n, SetName(s)), devs)
  {
    hide NameChanged, Attempted, Trusted, StatusOk, RecordOk, Shape, Linked, CurrentIn;
    var n1 := n.(dm := n.dm.(endpointName := s));
    WriteKeeps(n, n1);
    if s != n.dm.endpointName && |s| <= NAMELEN {
      NameChangedKeeps(n1, s);
      NothingQueued(NameChanged(n1, s));
      if s == "" || MethodOf(n.dm) == StaticIPv6 { IdleName(n1, s); }
      else { NameChangedOutcome(n1, s, devs); SameAttempt(n, n1, NameChanged(n1, s), s, true, devs); }
    } else {
      NothingQueued(n);
    }
  }

  lemma IdleName(n: Node, s: string)
    requires s == "" || MethodOf(n.dm) == StaticIPv6
    ensures NameChanged(n, s) == n
  {
  }

  /** A DHCP name report: what counts was stored and submitted once, with errors taken to the status. */
  ghost predicate NameTold(n: Node, name: string, m: Node, devs: set<string>)
    requires Live(n)
  {
    if Counts(name, n.dm.endpointName) then m.dm.endpointName == name && Attempted(n, m, name, AsIs(n), true, devs)
    else m == n
  }

  lemma ReportNameOutcome(n: Node, q: nat, name: string, devs: set<string>)
    requires Sound(n) && q in n.pv.queries && n.pv.queries[q].kind == AftrName
    ensures Active(n) && Live(n) && NameTold(n, name, Step(n, ReportName(q, name)), devs)
  {
    hide Resolve, NameChanged, Disable, Attempted, Trusted, StatusOk, RecordOk, Shape, QueriesAre, LookupLinked, CurrentIn;
    NoQueryWhenIdle(n, q);
    QueryOwner(n, q);
    LinkedLookup(n.pv);
    if name == n.dm.endpointName && name != "" {
      NameAgain(n, q, name);
      ResolveKeeps(n, name);
      ResolveOutcome(n, name, devs);
      StrictOutcome(n, Resolve(n, name).n, name, AsIs(n), devs);
      if Resolve(n, name).rv != 0 { DisableKeeps(Resolve(n, name).n, Error); }
    } else if Counts(name, n.dm.endpointName) {
      var n1 := n.(dm := n.dm.(endpointName := name));
      WriteKeeps(n, n1);
      QueuedThenChanged(n, q, name);
      NameChangedKeeps(n1, name);
      NameChangedOutcome(n1, name, devs);
      SameAttempt(n, n1, NameChanged(n1, name), name, true, devs);
    } else {
      Ignored(n, q, name);
    }
  }

  lemma NoQueryWhenIdle(n: Node, q: nat)
    requires Sound(n) && q in n.pv.queries
    ensures Active(n) && Mid(n)
  {
    hide Trusted, StatusOk, Mid;
  }

  lemma NameAgain(n: Node, q: nat, name: string)
    requires n.pv.queued.None? && n.pv.priv != NULL && Live(n) && q in n.pv.queries && n.pv.queries[q] == Query(AftrName, n.pv.priv)
    requires name == n.dm.endpointName != ""
    ensures var r := Resolve(n, name); var d := if r.rv != 0 then Disable(r.n, Error) else r.n;
            Handle(n, ReportName(q, name)) == d && (d.pv.queued.None? ==> Step(n, ReportName(q, name)) == d)
  {
    hide Resolve, Disable;
  }

  lemma Ignored(n: Node, q: nat, name: string)
    requires n.pv.queued.None? && n.pv.priv != NULL && Live(n) && q in n.pv.queries && n.pv.queries[q] == Query(AftrName, n.pv.priv)
    requires !Counts(name, n.dm.endpointName)
    ensures Step(n, ReportName(q, name)) == n
  {
  }

  // ---- lookups and their timers -------------------------------------------------------

  /** A lookup completes: found or not, the whole outcome. */
  lemma LookupDoneOutcome(n: Node, h: nat, a: Answer, devs: set<string>)
    requires Sound(n) && h in n.pv.lookups && n.pv.lookups[h].pending
    ensures Live(n) && Found(n, Step(n, LookupDone(h, a)), h, a, devs)
  {
    hide Complete, Found, Trusted, StatusOk, RecordOk, Shape, QueriesAre, LookupLinked, CurrentIn;
    LookupHasChannel(n, h);
    CompleteOutcome(n, h, a, devs);
    CompleteKeeps(n, h, a);
    NothingQueued(Complete(n, h, a));
  }

  /** What expiry of the destroy timer achieves: the channel is gone, and a lookup in flight fails. */
  ghost predicate Lapsed(n: Node, m: Node, h: nat, devs: set<string>)
    requires Live(n) && h in n.pv.lookups
  {
    var l := n.pv.lookups[h];
    if !l.channel then m == SetLookup(n, h, l.(armed := false))
    else if !l.pending then m == SetLookup(n, h, Destroyed(l))
    else
      && Core(m) && Lowered(n, m) && Rec(m) == Rec(n).(answered := false) && TimerIs(m, true) && SameSettings(n, m)
      && m.pv == n.pv.(heap := m.pv.heap, timers := m.pv.timers, lookups := n.pv.lookups[h := Destroyed(Completed(l))])
      && (Willing(n, Rec(n).netdev, devs) ==> KernelOk(m.env.kernel, devs))
  }

  /** The destroy timer of a lookup expires. */
  lemma DestroyTimerOutcome(n: Node, h: nat, devs: set<string>)
    requires Sound(n) && h in n.pv.lookups && n.pv.lookups[h].armed
    ensures Live(n) && Lapsed(n, Step(n, DestroyTimer(h)), h, devs)
  {
    hide DestroyExpired, Lapsed, Trusted, StatusOk, RecordOk, Shape, QueriesAre, LookupLinked, CurrentIn;
    LookupHasChannel(n, h);
    DestroyTimerKeeps(n, h);
    LapseOutcome(n, h, devs);
    DestroyTimerQueues(n, h, devs);
    NothingQueued(DestroyExpired(n, h));
  }

  lemma DestroyTimerQueues(n: Node, h: nat, devs: set<string>)
    requires Sound(n) && h in n.pv.lookups && Live(n) && Lapsed(n, DestroyExpired(n, h), h, devs)
    ensures DestroyExpired(n, h).pv.queued.None?
  {
    hide DestroyExpired, Trusted, StatusOk, Mid, Core;
  }

  lemma LapseOutcome(n: Node, h: nat, devs: set<string>)
    requires Core(n) && LookupLinked(n.pv) && Current(n) && n.pv.lookups.Keys == {h} && n.pv.lookups[h].via == MethodOf(n.dm)
    requires n.pv.lookups[h].pending ==> n.pv.lookups[h].channel
    ensures Lapsed(n, DestroyExpired(n, h), h, devs)
  {
    hide DestroyExpired, Complete, Lapsed, Found, Core, CurrentIn, LookupLinked, LookupKeeps;
    if !n.pv.lookups[h].pending {
      CoreLives(n);
      QuietLapse(n, h, devs);
    } else {
      ExpiryFails(n, h, devs);
      DestroyExpiredKeeps(n, h);
      KeptParts(n, DestroyExpired(n, h));
      Lapses(n, Complete(Unarmed(n, h), h, Failure), h, devs);
    }
  }

  function Unarmed(n: Node, h: nat): Node
    requires h in n.pv.lookups
  {
    SetLookup(n, h, n.pv.lookups[h].(armed := false))
  }

  lemma ExpiryFails(n: Node, h: nat, devs: set<string>)
    requires Core(n) && LookupLinked(n.pv) && Current(n) && n.pv.lookups.Keys == {h}
    requires n.pv.lookups[h].pending && n.pv.lookups[h].channel
    ensures Live(Unarmed(n, h)) && Found(Unarmed(n, h), Complete(Unarmed(n, h), h, Failure), h, Failure, devs)
    ensures var c := Complete(Unarmed(n, h), h, Failure);
            DestroyExpired(n, h) == if h in c.pv.lookups then SetLookup(c, h, Destroyed(c.pv.lookups[h])) else c
    ensures Live(n) && Rec(n).retry != NULL && h in Complete(Unarmed(n, h), h, Failure).pv.lookups
  {
    hide Complete, Found, Trusted, StatusOk, RecordOk, Shape, QueriesAre, CurrentIn, LookupLinked, ServedBy, AwakeIn;
    PatchLookup(n, h, n.pv.lookups[h].(armed := false));
    assert Unarmed(n, h).pv.lookups.Keys == n.pv.lookups.Keys;
    Outcomes.PendingHasTimer(n, h);
    CompleteOutcome(Unarmed(n, h), h, Failure, devs);
    CompleteKeeps(Unarmed(n, h), h, Failure);
  }

  lemma CoreLives(n: Node)
    requires Core(n)
    ensures Live(n)
  {
  }

  lemma Lapses(n: Node, c: Node, h: nat, devs: set<string>)
    requires Live(n) && h in n.pv.lookups && n.pv.lookups[h].pending && n.pv.lookups[h].channel && Rec(n).retry != NULL
    requires Found(Unarmed(n, h), c, h, Failure, devs) && h in c.pv.lookups
    requires Core(SetLookup(c, h, Destroyed(c.pv.lookups[h])))
    ensures Lapsed(n, SetLookup(c, h, Destroyed(c.pv.lookups[h])), h, devs)
  {
    hide Core, Accepting, KernelOk;
    var l := n.pv.lookups[h];
    assert n.pv.lookups[h := l.(armed := false)][h := Completed(l.(armed := false))][h := Destroyed(Completed(l))]
           == n.pv.lookups[h := Destroyed(Completed(l))];
  }

  lemma QuietLapse(n: Node, h: nat, devs: set<string>)
    requires Live(n) && h in n.pv.lookups && !n.pv.lookups[h].pending
    ensures Lapsed(n, DestroyExpired(n, h), h, devs)
  {
    var l := n.pv.lookups[h];
    assert n.pv.lookups[h := l.(armed := false)][h := Destroyed(l)] == n.pv.lookups[h := Destroyed(l)];
  }

  lemma ExpiredIs(n: Node, h: nat)
    requires h in n.pv.lookups && n.pv.lookups[h].channel && n.pv.lookups[h].pending
    ensures var c := Complete(SetLookup(n, h, n.pv.lookups[h].(armed := false)), h, Failure);
            DestroyExpired(n, h) == if h in c.pv.lookups then SetLookup(c, h, Destroyed(c.pv.lookups[h])) else c
  {
    hide Complete;
  }

  // ---- local addresses ----------------------------------------------------------------

  /**
   A local-address report, for every method: an empty one goes to Error; any other one is stored, and
   with a remote address known it is set up, whatever the status was.
   */
  ghost predicate AddressTold(n: Node, report: AddressReport, m: Node, devs: set<string>)
    requires Live(n)
  {
    && Live(m) && SameSettings(n, m)
    && if !Tells(report) then Lowered(n, m) && m.pv == n.pv
       else if Rec(n).remote == "" then m == SetRec(n, n.pv.priv, Patched(Rec(n), report))
       else
         && m.pv == SetRec(n, n.pv.priv, Patched(Rec(n), report)).pv && m.dm.status != Disabled
         && (Willing(n, Some(report.netdev), devs) ==> Settled(m))
  }

  lemma ReportAddressOutcome(n: Node, q: nat, report: AddressReport, devs: set<string>)
    requires Sound(n) && q in n.pv.queries && n.pv.queries[q].kind == Addresses
    ensures Active(n) && Live(n) && AddressTold(n, report, Step(n, ReportAddress(q, report)), devs)
  {
    hide Setup, Disable, Settled, Trusted, RecordOk, Shape, QueriesAre, LookupLinked, CurrentIn, Accepting, KernelOk, StatusOk;
    NoQueryWhenIdle(n, q);
    QueryOwner(n, q);
    if !Tells(report) {
      DisableOutcome(n, devs);
    } else {
      PatchAddress(n, report);
      var n1 := SetRec(n, n.pv.priv, Patched(Rec(n), report));
      SetupKeeps(n1);
      if Willing(n, Some(report.netdev), devs) { SetupOutcome(n1, devs); }
    }
  }

  /** EndpointAddress was written: with static addresses it was copied and set up, or missed. */
  ghost predicate AddressSet(n: Node, a: string, m: Node, devs: set<string>)
    requires Live(n)
  {
    if a == n.dm.endpointAddress || |a| > ADDRLEN then m == n
    else if MethodOf(n.dm) != StaticIPv6 then m == n.(dm := n.dm.(endpointAddress := a))
    else
      && Live(m) && SameSettings(n.(dm := n.dm.(endpointAddress := a)), m)
      && if a == "" then Lowered(n, m) && m.pv == n.pv
         else
           && m.pv == SetRec(n, n.pv.priv, Rec(n).(remote := a, via := StaticIPv6)).pv && m.dm.status != Disabled
           && (Willing(n, Rec(n).netdev, devs) ==> Settled(m))
  }

  lemma SetAddressOutcome(n: Node, a: string, devs: set<string>)
    requires Sound(n) && Active(n)
    ensures Live(n) && AddressSet(n, a, Step(n, SetAddress(a)), devs)
  {
    hide Setup, Disable, GetRemote, Settled, Trusted, RecordOk, Shape, Linked, CurrentIn, Accepting, KernelOk;
    if a != n.dm.endpointAddress && |a| <= ADDRLEN {
      var n1 := n.(dm := n.dm.(endpointAddress := a));
      WriteKeeps(n, n1);
      if MethodOf(n.dm) == StaticIPv6 {
        ProceedStatic(n1);
        SetAddressIsProceed(n1);
        StaticRemoteKeeps(n1);
        StaticOutcome(n1, devs);
        NothingQueued(Proceed(GetRemote(n1)));
      } else {
        NothingQueued(n1);
      }
    } else {
      NothingQueued(n);
    }
  }

  /** A static address is missing, or copied and set up. */
  lemma StaticOutcome(n: Node, devs: set<string>)
    requires Mid(n) && MethodOf(n.dm) == StaticIPv6
    ensures var m := Proceed(GetRemote(n));
            && Live(m) && StatusOnly(n.(pv := m.pv), m)
            && if n.dm.endpointAddress == "" then Lowered(n, m) && m.pv == n.pv
               else
                 && m.pv == SetRec(n, n.pv.priv, Rec(n).(remote := Trunc(n.dm.endpointAddress, ADDRLEN), via := StaticIPv6)).pv
                 && m.dm.status != Disabled && (Willing(n, Rec(n).netdev, devs) ==> Settled(m))
  {
    hide Setup, Disable, GetRemote, Settled, Trusted, RecordOk, Shape, Linked, CurrentIn, Accepting, KernelOk, StatusOk;
    ProceedStatic(n);
    StaticRemoteKeeps(n);
    var p := SetStaticRemote(n);
    if p.st == Ready {
      SetupKeeps(p.n);
      if Willing(n, Rec(n).netdev, devs) { SetupOutcome(p.n, devs); }
    } else {
      DisableOutcome(p.n, devs);
    }
  }
}
