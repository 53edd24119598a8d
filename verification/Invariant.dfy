/** What every handler keeps. */
module Invariant {
  import opened Basics
  import opened Model
  import opened Tunnel
  import Ioctl

  ghost function Keys(h: nat): set<nat> {
    if h == NULL then {} else {h}
  }

  /** The kernel tunnel and the IP interfaces are what the data model says they are. */
  ghost predicate ServedBy(dm: Settings, pf: Ioctl.Platform, kernel: Ioctl.Kernel, ip: map<string, IpRow>) {
    dm.status == Enabled ==>
      && dm.inUse != "" && dm.localAddress != ""
      && Ioctl.Carries(pf, kernel, TUNNEL_DEVICE, dm.localAddress, dm.inUse)
      && dm.tunneledIf in ip && ip[dm.tunneledIf].enable
      && dm.tunnelIf in ip && ip[dm.tunnelIf].enable
  }

  ghost predicate Served(n: Node) {
    ServedBy(n.dm, n.env.o.pf, n.env.kernel, n.env.ip)
  }

  /** The status parameters satisfy their validators and name the source of the address. */
  ghost predicate StatusOk(dm: Settings) {
    if dm.status == Enabled then
      && 0 < |dm.inUse| <= ADDRLEN && dm.localAddress != "" && dm.origin == PrecedenceOf(dm.usedVia)
    else
      dm.inUse == "" && dm.localAddress == ""
  }

  ghost predicate RecordOk(r: Record, m: Method) {
    && |r.remote| <= ADDRLEN && |r.local| <= ADDRLEN
    && (r.remote != "" ==> r.via == m)
    && (r.local != "" <==> r.netdev.Some?)
    && r.netdev != Some("")
  }

  /** Lookups belong to the record `p`, which has a local address, and a retry timer while one is outstanding. */
  ghost predicate LookupsOk(ls: map<nat, Lookup>, p: nat, next: nat, local: bool, retry: bool) {
    forall h :: h in ls ==> 0 < h < next && ls[h].rec == p && local && (ls[h].pending ==> ls[h].channel && retry)
  }

  ghost predicate QueriesOk(qs: map<nat, Query>, p: nat, next: nat) {
    forall q :: q in qs ==> 0 < q < next && qs[q].rec == p
  }

  /** Everything that exists belongs to the one record that priv points to. */
  ghost predicate Shape(pv: Private) {
    && pv.priv != NULL && pv.heap.Keys == {pv.priv} && pv.priv < pv.next
    && !pv.fault
    && pv.timers.Keys == Keys(pv.heap[pv.priv].retry) && pv.heap[pv.priv].retry < pv.next
    && LookupsOk(pv.lookups, pv.priv, pv.next, pv.heap[pv.priv].local != "", pv.heap[pv.priv].retry != NULL)
    && QueriesOk(pv.queries, pv.priv, pv.next)
    && pv.queriesOpened - pv.queriesClosed == |pv.queries|
  }

  /** Holds whenever code that uses a live record runs, even halfway through a handler. */
  ghost predicate Core(n: Node) {
    && n.pv.priv != NULL && Live(n) && Shape(n.pv) && Trusted(n.env.o)
    && RecordOk(Rec(n), MethodOf(n.dm)) && StatusOk(n.dm)
  }

  ghost predicate Serves(n: Node, m: Node) {
    Served(n) ==> Served(m)
  }

  /** Only status parameters and the outside world differ. */
  ghost predicate StatusOnly(n: Node, m: Node) {
    && m.on == n.on && m.pv == n.pv && m.env.o == n.env.o
    && m.dm == n.dm.(status := m.dm.status, inUse := m.dm.inUse, localAddress := m.dm.localAddress,
                     origin := m.dm.origin, usedVia := m.dm.usedVia)
  }

  /** Only the outside world differs. */
  ghost predicate EnvOnly(n: Node, m: Node) {
    m == n.(env := m.env) && m.env.o == n.env.o
  }

  lemma TogglesBoth(n: Node, enable: bool)
    ensures EnvOnly(n, ToggleIps(n, enable).n)
    ensures var t := ToggleIps(n, enable);
            && t.n.env.kernel == n.env.kernel && t.n.env.services == n.env.services
            && (t.rv == 0 ==>
                  && n.dm.tunneledIf in t.n.env.ip && t.n.env.ip[n.dm.tunneledIf].enable == enable
                  && n.dm.tunnelIf in t.n.env.ip && t.n.env.ip[n.dm.tunnelIf].enable == enable)
  {
  }

  lemma BringUpFrame(n: Node)
    requires Live(n)
    ensures EnvOnly(n, BringUp(n).n)
  {
    hide ToggleIps;
    TogglesBoth(OpenFirewall(UpdateTunnel(n).n, n.dm.wan), true);
  }

  /** Bringing the tunnel up succeeds only with everything in place. */
  lemma BringUpServes(n: Node)
    requires Live(n) && Trusted(n.env.o) && BringUp(n).rv == 0
    ensures n.dm.wan != "" && Rec(n).remote != "" && Rec(n).local != ""
    ensures var e := BringUp(n).n.env;
            && Ioctl.Carries(e.o.pf, e.kernel, TUNNEL_DEVICE, Rec(n).local, Rec(n).remote)
            && n.dm.tunneledIf in e.ip && e.ip[n.dm.tunneledIf].enable
            && n.dm.tunnelIf in e.ip && e.ip[n.dm.tunnelIf].enable
  {
    hide ToggleIps, Ioctl.Carries;
    TogglesBoth(OpenFirewall(UpdateTunnel(n).n, n.dm.wan), true);
  }

  lemma SetupKeeps(n: Node)
    requires n.pv.priv != NULL && Live(n) && RecordOk(Rec(n), MethodOf(n.dm)) && Trusted(n.env.o)
    ensures StatusOnly(n, Setup(n))
    ensures StatusOk(Setup(n).dm) && Served(Setup(n)) && Setup(n).dm.status != Disabled
    ensures Setup(n).dm.status == Enabled <==> BringUp(n).rv == 0
    ensures Setup(n).dm.status == Enabled ==>
              && Setup(n).dm.inUse == Rec(n).remote && Setup(n).dm.localAddress == Rec(n).local
              && Setup(n).dm.usedVia == Rec(n).via && n.dm.wan != ""
    ensures Setup(n).dm.origin == n.dm.precedence
  {
    hide BringUp;
    BringUpFrame(n);
    if BringUp(n).rv == 0 { BringUpServes(n); }
  }

  lemma TakeDownFrame(n: Node)
    requires Live(n)
    ensures EnvOnly(n, TakeDown(n))
  {
    hide ToggleIps;
    TogglesBoth(CloseFirewall(DeleteTunnel(n)), false);
  }

  lemma DisableKeeps(n: Node, s: Status)
    requires n.pv.priv != NULL && Live(n) && s != Enabled
    ensures StatusOnly(n, Disable(n, s))
    ensures StatusOk(Disable(n, s).dm) && Served(Disable(n, s)) && Disable(n, s).dm.status == s
    ensures Disable(n, s).dm.origin == n.dm.precedence && (n.dm.status != Enabled ==> Disable(n, s).env == n.env)
  {
    hide TakeDown;
    TakeDownFrame(n);
  }
}
