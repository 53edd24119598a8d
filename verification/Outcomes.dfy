/** What single transitions amount to, with the exact conditions under which they do. */
module Outcomes {
  import opened Basics
  import opened Model
  import opened Tunnel
  import opened Resolver
  import opened Netmodel
  import opened Interface
  import opened Events
  import opened Invariant
  import opened Keeps
  import opened Lifecycle
  import opened Sync
  import World
  import Ownership
  import Ioctl

  /**
   Switching an active interface off leaves nothing behind. It ends Disabled exactly when no lookup
   is outstanding; otherwise the failure that closing the lookup reports turns Disabled into Error.
   */
  lemma SwitchOff(n: Node)
    requires Sound(n) && Active(n)
    ensures var m := Step(n, SetEnable(false));
            && !Active(m) && Nothing(m.pv) && m.pv.stale == n.pv.stale
            && m.dm.inUse == "" && m.dm.localAddress == ""
            && (m.dm.status == Disabled <==> !Outstanding(n.pv))
            && (m.dm.status == Error <==> Outstanding(n.pv))
  {
    hide DisableInterface, Trusted, RecordOk, Shape, Linked;
    var n1 := n.(dm := n.dm.(enable := false));
    WriteKeeps(n, n1);
    DisableInterfaceKeeps(n1);
  }

  /** The same for all interfaces, when DSLite itself is switched off: each active one ends as its own lookup has it. */
  lemma SwitchAllOff(w: World.World, k: nat)
    requires Ownership.AllSound(w) && w.on && k < |w.ifs|
    ensures var w1 := World.WorldStep(w, World.SetDslite(false));
            && |w1.ifs| == |w.ifs|
            && var n, i := World.At(w, k), w1.ifs[k];
               if Active(n) then
                 && Nothing(i.pv) && i.pv.stale == n.pv.stale && i.dm.inUse == "" && i.dm.localAddress == ""
                 && (i.dm.status == Disabled <==> !Outstanding(n.pv)) && (i.dm.status == Error <==> Outstanding(n.pv))
               else
                 i == w.ifs[k]
  {
    hide Sound, World.WorldStep, Ownership.Passed, Nothing;
    var e1, e2 := Ownership.LoopEach(w, false);
    PassedOff(World.At(w, k), e1[k], e2[k]);
  }

  lemma PassedOff(n: Node, e1: Env, e2: Env)
    requires Sound(n) && n.on && e1.o == e2.o == n.env.o
    ensures var i := Ownership.Passed(n, false, e1, e2);
            if Active(n) then
              && Nothing(i.pv) && i.pv.stale == n.pv.stale && i.dm.inUse == "" && i.dm.localAddress == ""
              && (i.dm.status == Disabled <==> !Outstanding(n.pv)) && (i.dm.status == Error <==> Outstanding(n.pv))
            else
              i == World.InstanceOf(n)
  {
    hide DisableInterface, EnableInterface, Trusted, RecordOk, Shape, Linked, CurrentIn, NameChanged, ServedBy;
    if n.dm.enable {
      Ownership.OtherEnv(n, e1);
      var n1 := n.(on := false, env := e1);
      WriteKeeps(n.(env := e1), n1);
      DisableInterfaceKeeps(n1);
    }
  }

  /** What a report leads to: exactly one resolution attempt, with the name, which is EndpointName by then. */
  ghost predicate Heard(n: Node, m: Node, told: Option<string>) {
    if told.Some? && Counts(told.value, n.dm.endpointName) then
      m.pv.attempts == n.pv.attempts + [told.value] && m.dm.endpointName == told.value
    else
      m.pv.attempts == n.pv.attempts && m.dm.endpointName == n.dm.endpointName
  }

  /** A name that was told to a handler, followed by the change event that it may have queued. */
  lemma HeardAfterDrain(n: Node, m: Node, told: Option<string>)
    requires n.pv.queued.None? && Told(n, m, told)
    requires Handled(m) && Active(m) && MethodOf(m.dm) == FromDhcp
    ensures Heard(n, Drain(m), told)
  {
    hide NameChanged, Trusted, RecordOk, Shape, QueriesAre, LookupLinked, StatusOk, CurrentIn;
    if m.pv.queued.Some? {
      Dequeued(m);
      NameChangedKeeps(m.(pv := m.pv.(queued := None)), m.pv.queued.value);
    }
  }

  /** A name reported by DHCP is resolved exactly once and becomes EndpointName, new or not, if it counts. */
  lemma NameReport(n: Node, q: nat, name: string)
    requires Sound(n) && q in n.pv.queries && n.pv.queries[q].kind == AftrName
    ensures Heard(n, Step(n, ReportName(q, name)), Some(name))
  {
    hide DhcpCallback, Drain, Trusted, RecordOk, Shape, QueriesAre, LookupLinked, StatusOk, CurrentIn, Heard;
    QueryOwner(n, q);
    DhcpCallbackKeeps(n, name);
    ReportNameKeeps(n, q, name);
    HeardAfterDrain(n, Handle(n, ReportName(q, name)), Some(name));
  }

  /** The same for a name that is reported from inside the call that opens the query: on a change to DHCPv6, ... */
  lemma NameReportOnSwitch(n: Node)
    requires Sound(n) && Active(n) && n.dm.precedence != DHCPv6
    ensures var c := ClearRemote(n.(dm := n.dm.(precedence := DHCPv6)));
            Heard(n, Step(n, SetPrecedence(DHCPv6)), Prompt(c))
  {
    hide ClearRemote, Proceed, GetRemote, Drain, Trusted, RecordOk, Shape, Linked, StatusOk, CurrentIn, Heard, AwakeIn;
    var n1 := n.(dm := n.dm.(precedence := DHCPv6));
    SwitchKeeps(n, n1);
    var c := ClearRemote(n1);
    ProceedDhcp(c);
    SetMethodKeeps(n, SetPrecedence(DHCPv6));
    HeardAfterDrain(c, Proceed(GetRemote(c)), Prompt(c));
    HeardFrom(n, c, Step(n, SetPrecedence(DHCPv6)), Prompt(c));
  }

  lemma HeardFrom(n: Node, c: Node, m: Node, told: Option<string>)
    requires c.pv.attempts == n.pv.attempts && c.dm.endpointName == n.dm.endpointName && Heard(c, m, told)
    ensures Heard(n, m, told)
  {
  }

  /** ... and on switching on, once the address query is open. */
  lemma NameReportOnEnable(n: Node)
    requires Sound(n) && n.on && !n.dm.enable && MethodOf(n.dm) == FromDhcp
    ensures var a := OpenAddressQuery(Create(n.(dm := n.dm.(enable := true))));
            Heard(n, Step(n, SetEnable(true)), if a.rv == 0 then Prompt(a.n) else None)
  {
    hide EnableInterface, Create, OpenAddressQuery, Proceed, GetRemote, Disable, Drain, Trusted, RecordOk, Shape, Linked, CurrentIn, Heard, AwakeIn;
    var n1 := n.(dm := n.dm.(enable := true));
    EnabledDhcp(n1);
    SetEnableKeeps(n, true);
    var a := OpenAddressQuery(Create(n1));
    var told := if a.rv == 0 then Prompt(a.n) else None;
    HeardAfterDrain(n1, EnableInterface(n1), told);
    HeardFrom(n, n1, Step(n, SetEnable(true)), told);
  }

  /** ... or when DSLite itself is switched on: the queue is drained after the loop over all instances. */
  lemma NameReportOnDslite(n: Node, e1: Env, e2: Env)
    requires Sound(n) && !n.on && n.dm.enable && MethodOf(n.dm) == FromDhcp && e1.o == e2.o == n.env.o
    ensures var a := OpenAddressQuery(Create(n.(on := true, env := e1))); var i := Ownership.Passed(n, true, e1, e2);
            Heard(n, Node(true, i.dm, i.pv, e2), if a.rv == 0 then Prompt(a.n) else None)
  {
    hide EnableInterface, Create, OpenAddressQuery, Proceed, GetRemote, Disable, Drain, Trusted, RecordOk, Shape, Linked, CurrentIn, Heard, AwakeIn;
    var n1 := n.(on := true, env := e1);
    Ownership.OtherEnv(n, e1);
    EnabledDhcp(n1);
    Ownership.PassedKeeps(n, true, e1, e2);
    var a := OpenAddressQuery(Create(n1));
    var told := if a.rv == 0 then Prompt(a.n) else None;
    var t := EnableInterface(n1).(env := e2);
    ToldOtherEnv(n1, EnableInterface(n1), e2, told);
    HeardAfterDrain(n1, t, told);
    HeardFrom(n, n1, Drain(t), told);
    HeardIn(n, Drain(t), e2, told);
  }

  lemma ToldOtherEnv(n: Node, m: Node, env: Env, told: Option<string>)
    requires Told(n, m, told)
    ensures Told(n, m.(env := env), told)
  {
  }

  lemma HeardIn(n: Node, m: Node, env: Env, told: Option<string>)
    requires Heard(n, m, told)
    ensures Heard(n, Node(true, m.dm, m.pv, env), told)
  {
  }

  lemma EnabledDhcp(n: Node)
    requires Trusted(n.env.o) && !n.pv.fault && StatusOk(n.dm) && n.pv.next != NULL && Nothing(n.pv) && n.pv.queued.None?
    requires MethodOf(n.dm) == FromDhcp
    ensures var a := OpenAddressQuery(Create(n)); var m := EnableInterface(n);
            Told(n, m, if a.rv == 0 then Prompt(a.n) else None) && MethodOf(m.dm) == FromDhcp && m.on == n.on && m.dm.enable == n.dm.enable
  {
    hide Create, OpenAddressQuery, Proceed, GetRemote, Disable, Trusted, StatusOk, RecordOk, Shape, Linked, CurrentIn, AwakeIn;
    CreateKeeps(n);
    OpenAddressKeeps(Create(n));
    var a := OpenAddressQuery(Create(n));
    assert Mid(a.n);
    if a.rv == 0 {
      EnableProceeds(n);
      ProceedDhcp(a.n);
    } else {
      EnableFails(n);
      DisableKeeps(a.n, Error);
    }
  }

  lemma Completes(n: Node, h: nat, answer: Answer)
    requires Sound(n) && h in n.pv.lookups && n.pv.lookups[h].pending
    ensures var m := Step(n, LookupDone(h, answer)); var result := ResultOf(n.env.o, answer);
            && Live(n) && Live(m)
            && (result.Some? ==>
                  && Rec(m).retry == NULL && m.pv.timers == map[] && m.dm.status != Disabled
                  && Rec(m).remote == Trunc(result.value, ADDRLEN))
            && (result.None? ==>
                  && m.dm.status == Error && Rec(m).remote == Rec(n).remote
                  && Rec(m).retry != NULL && m.pv.timers == map[Rec(m).retry := true])
  {
    hide Step, DnsCallback, ResultOf, SetLookup, Trusted, RecordOk, QueriesAre, StatusOk, ServedBy, Shape, LookupLinked, CurrentIn, AwakeIn;
    LookupHasChannel(n, h);
    LookupOwner(n, h);
    var l := Completed(n.pv.lookups[h]);
    PatchLookup(n, h, l);
    SetLookupFrame(n, h, l);
    var n1, result := SetLookup(n, h, l), ResultOf(n.env.o, answer);
    match result {
      case Some(ip) => DnsSuccess(n1, l.via, ip);
      case None => DnsFailure(n1, l.via); PendingHasTimer(n, h); OneTimer(n1.pv);
    }
    StepCompletes(n, h, answer);
  }

  lemma StepCompletes(n: Node, h: nat, answer: Answer)
    requires h in n.pv.lookups && n.pv.lookups[h].pending
    requires var l := Completed(n.pv.lookups[h]);
             DnsCallback(SetLookup(n, h, l), l.rec, l.via, ResultOf(n.env.o, answer)).pv.queued.None?
    ensures var l := Completed(n.pv.lookups[h]);
            Step(n, LookupDone(h, answer)) == DnsCallback(SetLookup(n, h, l), l.rec, l.via, ResultOf(n.env.o, answer))
  {
    hide DnsCallback, SetLookup;
  }

  lemma PendingHasTimer(n: Node, h: nat)
    requires Core(n) && h in n.pv.lookups && n.pv.lookups[h].pending
    ensures Rec(n).retry != NULL
  {
    hide Trusted, RecordOk, StatusOk, QueriesOk;
  }

  lemma OneTimer(pv: Private)
    requires Shape(pv) && pv.heap[pv.priv].retry != NULL
    ensures pv.timers[pv.heap[pv.priv].retry := true] == map[pv.heap[pv.priv].retry := true]
  {
  }

  /**
   A lookup that completes: the address of the first node that is not IPv4, if there is one, becomes
   the remote address and ends retrying; in every other case the interface goes to Error and the
   retry timer runs.
   */
  lemma LookupOutcome(n: Node, h: nat, answer: Answer)
    requires Sound(n) && h in n.pv.lookups && n.pv.lookups[h].pending
    ensures var m := Step(n, LookupDone(h, answer));
            Live(n) && Live(m) &&
            if answer.Nodes? && exists i :: 0 <= i < |answer.nodes| && !answer.nodes[i].inet4 then
              && Rec(m).retry == NULL && m.pv.timers == map[] && m.dm.status != Disabled
              && exists i :: && 0 <= i < |answer.nodes| && !answer.nodes[i].inet4
                             && (forall j :: 0 <= j < i ==> answer.nodes[j].inet4)
                             && Rec(m).remote == Trunc(n.env.o.ntop(answer.nodes[i].addr), ADDRLEN)
            else
              && m.dm.status == Error && Rec(m).remote == Rec(n).remote
              && Rec(m).retry != NULL && m.pv.timers == map[Rec(m).retry := true]
  {
    hide Step, Sound;
    Completes(n, h, answer);
  }

  // ---- setting up ---------------------------------------------------------------------

  /** Neither tunnel nor firewall service. */
  ghost predicate TornDown(n: Node) {
    !Ioctl.IsTunnel(n.env.kernel, TUNNEL_DEVICE) && SERVICE !in n.env.services
  }

  /** Enabled, with the tunnel, the firewall service for the WAN interface, and both IP interfaces on. */
  ghost predicate SetUp(n: Node) {
    && n.dm.status == Enabled
    && SERVICE in n.env.services && n.env.services[SERVICE] == n.dm.wan
    && Ioctl.IsTunnel(n.env.kernel, TUNNEL_DEVICE)
    && n.dm.tunneledIf in n.env.ip && n.env.ip[n.dm.tunneledIf].enable
    && n.dm.tunnelIf in n.env.ip && n.env.ip[n.dm.tunnelIf].enable
  }

  /** Nothing, or everything. */
  ghost predicate AllOrNothing(n: Node) {
    SetUp(n) || (n.dm.status == Error && TornDown(n))
  }

  /**
   Setting up from a torn-down state is all or nothing exactly when the controller refuses, or the
   firewall and the IP manager both accept, or the IP manager refuses with a negative code and no
   firewall service is left. Positive codes are not rolled back; a firewall that refuses the service
   is not noticed, so that the interface is Enabled without it.
   */
  lemma SetupAllOrNothing(n: Node, devs: set<string>)
    requires Core(n) && TornDown(n) && Orderly(n.env.o, devs) && KernelOk(n.env.kernel, devs)
    requires Rec(n).netdev.Some? ==> Ioctl.IfName(Rec(n).netdev.value) in devs
    ensures var o, call := n.env.o, n.env.calls; var code := IpCode(n, call + 1);
            && (AllOrNothing(Setup(n)) <==>
                  || TurnedDown(n)
                  || (code == 0 && o.firewall(call))
                  || (code < 0 && (!o.firewall(call) || o.firewall(call + 1 + IpCalls(n, call + 1)))))
            && (Setup(n).dm.status == Enabled && SERVICE !in Setup(n).env.services <==>
                  !TurnedDown(n) && code == 0 && !o.firewall(call))
  {
    hide Setup, TurnedDown, Trusted, Orderly, Shape, StatusOk, IpCode, IpCalls;
    if TurnedDown(n) { RefusedSetup(n, devs); } else { AcceptedFrom(n, devs); }
  }

  lemma AcceptedFrom(n: Node, devs: set<string>)
    requires Core(n) && TornDown(n) && Orderly(n.env.o, devs) && KernelOk(n.env.kernel, devs)
    requires Rec(n).netdev.Some? ==> Ioctl.IfName(Rec(n).netdev.value) in devs
    requires !TurnedDown(n)
    ensures var m := Setup(n); var o, call := n.env.o, n.env.calls; var code := IpCode(n, call + 1);
            && (m.dm.status == Enabled <==> code == 0) && (m.dm.status == Error <==> code != 0)
            && (Ioctl.IsTunnel(m.env.kernel, TUNNEL_DEVICE) <==> code >= 0)
            && (SERVICE in m.env.services <==> o.firewall(call) && (code >= 0 || !o.firewall(call + 1 + IpCalls(n, call + 1))))
            && (code == 0 && o.firewall(call) ==> SetUp(m))
  {
    hide Setup, BringUp, UpdateTunnel, CloseFirewall, DeleteTunnel, ToggleIps, IpCode, IpCalls, Trusted, StatusOk, Shape, Orderly, RecordOk;
    SetupKeeps(n);
    SetupEnv(n);
    Brought(n, devs);
    var f := OpenFirewall(UpdateTunnel(n).n, n.dm.wan);
    TogglesBoth(f, true);
    IpCodeIs(f, true);
    SameIpCode(n, f, n.env.calls + 1);
    RolledBack(ToggleIps(f, true).n, devs);
  }

  lemma SetupEnv(n: Node)
    ensures Setup(n).env == BringUp(n).n.env && Setup(n).dm == BringUp(n).n.dm.(status := Setup(n).dm.status,
      inUse := Setup(n).dm.inUse, localAddress := Setup(n).dm.localAddress, origin := Setup(n).dm.origin, usedVia := Setup(n).dm.usedVia)
  {
    hide BringUp;
  }

  lemma SameIpCode(n: Node, f: Node, call: nat)
    requires f.dm == n.dm && f.env.o == n.env.o
    ensures IpCode(f, call) == IpCode(n, call) && IpCalls(f, call) == IpCalls(n, call)
  {
  }

  /** Once the controller has accepted, the tunnel is there and the IP interfaces decide. */
  lemma Brought(n: Node, devs: set<string>)
    requires Core(n) && Orderly(n.env.o, devs) && KernelOk(n.env.kernel, devs) && !TurnedDown(n)
    requires Rec(n).netdev.Some? ==> Ioctl.IfName(Rec(n).netdev.value) in devs
    ensures var u := UpdateTunnel(n).n; var t := ToggleIps(OpenFirewall(u, n.dm.wan), true);
            && n.dm.wan != "" && HasArgs(n) && u == n.(env := n.env.(kernel := u.env.kernel))
            && KernelOk(u.env.kernel, devs) && Ioctl.IsTunnel(u.env.kernel, TUNNEL_DEVICE)
            && BringUp(n) == if t.rv < 0 then Res(DeleteTunnel(CloseFirewall(t.n)), t.rv) else t
  {
    hide Trusted, StatusOk, Shape, RecordOk, ToggleIps, CloseFirewall, OpenFirewall;
    var a := ControllerArgs(Rec(n));
    TrustedAdd(n.env.o, n.env.kernel, a);
    assert PluginArgs(a, devs);
  }

  lemma RolledBack(n: Node, devs: set<string>)
    requires HasArgs(n) && Orderly(n.env.o, devs) && KernelOk(n.env.kernel, devs)
    requires Ioctl.IfName(Rec(n).netdev.value) in devs
    ensures var m := DeleteTunnel(CloseFirewall(n));
            && !Ioctl.IsTunnel(m.env.kernel, TUNNEL_DEVICE)
            && (SERVICE in m.env.services <==> SERVICE in n.env.services && !n.env.o.firewall(n.env.calls))
  {
    assert PluginArgs(ControllerArgs(Rec(n)), devs);
  }

  /**
   Taking an Enabled interface down undoes what setting up did: no tunnel, no service, both IP
   interfaces off and the tunneled one without its lower layer, while other rows stay as they were.
   */
  lemma DisableTakesDown(n: Node, s: Status, devs: set<string>)
    requires Core(n) && n.dm.status == Enabled && s != Enabled && Orderly(n.env.o, devs) && KernelOk(n.env.kernel, devs)
    requires Rec(n).netdev.Some? && DeviceKnown(Rec(n), devs)
    requires NamesIps(n.dm) && n.dm.tunneledIf != n.dm.tunnelIf
    requires (forall c :: n.env.o.firewall(c)) && (forall c :: n.env.o.ip(c) == 0)
    ensures var m := Disable(n, s);
            && m.dm.status == s && TornDown(m)
            && n.dm.tunneledIf in m.env.ip && m.env.ip[n.dm.tunneledIf] == IpRow(false, "")
            && n.dm.tunnelIf in m.env.ip && !m.env.ip[n.dm.tunnelIf].enable
            && (forall row :: row in n.env.ip && row != n.dm.tunneledIf && row != n.dm.tunnelIf ==>
                  row in m.env.ip && m.env.ip[row] == n.env.ip[row])
            && (forall id :: id in n.env.services && id != SERVICE ==>
                  id in m.env.services && m.env.services[id] == n.env.services[id])
  {
    hide Trusted, StatusOk, Shape, ToggleIps;
    DisableKeeps(n, s);
    assert PluginArgs(ControllerArgs(Rec(n)), devs);
    BothOff(CloseFirewall(DeleteTunnel(n)));
  }

  lemma BothOff(n: Node)
    requires NamesIps(n.dm) && n.dm.tunneledIf != n.dm.tunnelIf && forall c :: n.env.o.ip(c) == 0
    ensures var t := ToggleIps(n, false).n;
            && t.env.kernel == n.env.kernel && t.env.services == n.env.services && t.pv == n.pv
            && n.dm.tunneledIf in t.env.ip && t.env.ip[n.dm.tunneledIf] == IpRow(false, "")
            && n.dm.tunnelIf in t.env.ip && !t.env.ip[n.dm.tunnelIf].enable
            && (forall row :: row in n.env.ip && row != n.dm.tunneledIf && row != n.dm.tunnelIf ==>
                  row in t.env.ip && t.env.ip[row] == n.env.ip[row])
  {
  }

  /**
   Setting up that ends in Error leaves the IP rows as they were exactly when it did not get as far
   as the tunneled IP interface, was refused there, or that row already was what it was set to: the
   roll-back does not reach the IP rows.
   */
  lemma FailedSetupKeepsRows(n: Node)
    requires Core(n) && Setup(n).dm.status == Error
    ensures Setup(n).env.ip == n.env.ip <==>
            || TurnedDown(n) || n.dm.tunneledIf == "" || n.env.o.ip(n.env.calls + 1) != 0
            || (n.dm.tunneledIf in n.env.ip && n.env.ip[n.dm.tunneledIf] == IpRow(true, "Device." + n.dm.path))
  {
    hide Trusted, StatusOk, Shape, RecordOk, UpdateTunnel, DeleteTunnel, ToggleIps;
    UpdateOnlyKernel(n);
    SetupKeeps(n);
    if !TurnedDown(n) {
      var f := OpenFirewall(UpdateTunnel(n).n, n.dm.wan);
      TogglesBoth(f, true);
      FailedToggle(f);
      DeleteOnlyKernel(CloseFirewall(ToggleIps(f, true).n));
    }
  }

  lemma UpdateOnlyKernel(n: Node)
    requires Live(n)
    ensures UpdateTunnel(n).n == n.(env := n.env.(kernel := UpdateTunnel(n).n.env.kernel))
  {
  }

  lemma DeleteOnlyKernel(n: Node)
    requires Live(n)
    ensures DeleteTunnel(n) == n.(env := n.env.(kernel := DeleteTunnel(n).env.kernel))
  {
  }

  lemma FailedToggle(n: Node)
    requires ToggleIps(n, true).rv != 0
    ensures ToggleIps(n, true).n.env.ip ==
            if n.dm.tunneledIf == "" || n.env.o.ip(n.env.calls) != 0 then n.env.ip
            else n.env.ip[n.dm.tunneledIf := IpRow(true, "Device." + n.dm.path)]
  {
  }
}
