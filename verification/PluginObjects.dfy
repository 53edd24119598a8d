/**
 The plugin as the C code runs it: interface objects, private records reached through pointers, and
 the surroundings, all updated in place. Every method is proved against the function of the same
 name in Tunnel, Resolver, Netmodel, Interface or Events.
 */
module PluginObjects {
  import opened Basics
  import opened Model
  import Tunnel
  import Resolver
  import Netmodel
  import Interface
  import Events
  import Lifecycle
  import Ownership
  import EveryEvent
  import Ioctl

  /** The DSLite object. */
  class Root {
    var enable: bool

    constructor ()
      ensures !enable
    {
      enable := false;
    }
  }

  class Surroundings {
    const o: Oracle
    var calls: nat
    var kernel: Ioctl.Kernel
    var services: map<string, string>
    var ip: map<string, IpRow>

    constructor (o: Oracle, kernel: Ioctl.Kernel, services: map<string, string>, ip: map<string, IpRow>)
      ensures View() == Env(o, 0, kernel, services, ip)
    {
      this.o := o;
      this.kernel, this.services, this.ip, calls := kernel, services, ip, 0;
    }

    ghost function View(): Env
      reads this
    {
      Env(o, calls, kernel, services, ip)
    }
  }

  class InterfaceObject {
    const root: Root
    const env: Surroundings
    var dm: Settings
    var priv: nat
    var heap: map<nat, Record>
    var queries: map<nat, Query>
    var lookups: map<nat, Lookup>
    var timers: map<nat, bool>
    var next: nat
    var queued: Option<string>
    var fault: bool
    ghost var stale: set<Leftover>
    ghost var wild: bool
    var queriesOpened: nat
    var queriesClosed: nat
    ghost var attempts: seq<string>

    ghost function PrivateView(): Private
      reads this
    {
      Private(priv, heap, queries, lookups, timers, next, queued, fault, stale, wild, queriesOpened, queriesClosed, attempts)
    }

    ghost function View(): Node
      reads this, root, env
    {
      Node(root.enable, dm, PrivateView(), env.View())
    }

    constructor (root: Root, env: Surroundings, dm: Settings)
      ensures this.root == root && this.env == env
      ensures View() == Node(root.enable, dm.(status := Disabled, inUse := "", localAddress := "", origin := DHCPv6),
                             Private(NULL, map[], map[], map[], map[], 1, None, false, {}, false, 0, 0, []), env.View())
    {
      this.root, this.env := root, env;
      this.dm := dm.(status := Disabled, inUse := "", localAddress := "", origin := DHCPv6);
      priv, heap, queries, lookups, timers, next := NULL, map[], map[], map[], map[], 1;
      queued, fault, stale, wild, queriesOpened, queriesClosed, attempts := None, false, {}, false, 0, 0, [];
    }

    // ---- dslite_interface.c, the tunnel -------------------------------------------------

    /** `dslite_build_ctrlr_args_from_object` */
    method BuildArgs() returns (rv: int, args: Ioctl.Args)
      modifies `fault
      ensures View() == if Tunnel.HasArgs(old(View())) then old(View()) else Tunnel.Followed(old(View()))
      ensures rv == (if Tunnel.HasArgs(old(View())) then 0 else -1)
      ensures rv == 0 ==> args == Tunnel.ControllerArgs(heap[priv])
    {
      rv, args := -1, Ioctl.Args(None, None, None, None);
      if priv == NULL {
        return;
      }
      if priv !in heap {
        fault := true;
        return;
      }
      var r := heap[priv];
      if r.netdev.None? {
        return;
      }
      args := Ioctl.Args(Some(TUNNEL_DEVICE), r.netdev, Some(r.remote), Some(r.local));
      rv := 0;
    }

    method UpdateTunnel() returns (rv: int)
      modifies `fault, env`kernel
      ensures Res(View(), rv) == Tunnel.UpdateTunnel(old(View()))
    {
      var args;
      rv, args := BuildArgs();
      if rv == 0 {
        var t := env.o.add(env.kernel, args);
        env.kernel, rv := t.k, t.rv;
      }
    }

    method DeleteTunnel()
      modifies `fault, env`kernel
      ensures View() == Tunnel.DeleteTunnel(old(View()))
    {
      var rv, args := BuildArgs();
      if rv == 0 {
        env.kernel := env.o.delete(env.kernel, args).k;
      }
    }

    method OpenFirewall(iface: string)
      modifies env`services, env`calls
      ensures View() == Tunnel.OpenFirewall(old(View()), iface)
    {
      if env.o.firewall(env.calls) {
        env.services := env.services[SERVICE := iface];
      }
      env.calls := env.calls + 1;
    }

    method CloseFirewall()
      modifies env`services, env`calls
      ensures View() == Tunnel.CloseFirewall(old(View()))
    {
      if env.o.firewall(env.calls) {
        env.services := env.services - {SERVICE};
      }
      env.calls := env.calls + 1;
    }

    method ToggleIp(enable: bool, tunneled: bool) returns (rv: int)
      modifies env`ip, env`calls
      ensures Res(View(), rv) == Tunnel.ToggleIp(old(View()), enable, tunneled)
    {
      var name := if tunneled then dm.tunneledIf else dm.tunnelIf;
      if name == "" {
        return -1;
      }
      var row := if name in env.ip then env.ip[name] else IpRow(false, "");
      row := row.(enable := enable);
      if tunneled {
        row := row.(lowerLayers := if enable then "Device." + dm.path else "");
      }
      rv := env.o.ip(env.calls);
      env.calls := env.calls + 1;
      if rv == 0 {
        env.ip := env.ip[name := row];
      }
    }

    method ToggleIps(enable: bool) returns (rv: int)
      modifies env`ip, env`calls
      ensures Res(View(), rv) == Tunnel.ToggleIps(old(View()), enable)
    {
      rv := ToggleIp(enable, true);
      if rv == 0 {
        rv := ToggleIp(enable, false);
      }
    }

    /** `update_interface_status`: all values are set, or none. */
    method UpdateStatus(s: Status)
      modifies `dm, `fault
      ensures View() == Tunnel.UpdateStatus(old(View()), s)
    {
      if priv == NULL {
        return;
      }
      var inUse, localAddress, via := "", "", dm.usedVia;
      if s == Enabled {
        if priv !in heap {
          fault := true;
          return;
        }
        inUse, localAddress, via := heap[priv].remote, heap[priv].local, heap[priv].via;
      }
      if |inUse| <= ADDRLEN {
        dm := dm.(inUse := inUse, localAddress := localAddress, status := s, origin := dm.precedence, usedVia := via);
      }
    }

    method BringUp() returns (rv: int)
      modifies `fault, env
      ensures Res(View(), rv) == Tunnel.BringUp(old(View()))
    {
      hide Tunnel.UpdateTunnel, Tunnel.DeleteTunnel, Tunnel.OpenFirewall, Tunnel.CloseFirewall, Tunnel.ToggleIps;
      if dm.wan == "" {
        return -1;
      }
      rv := UpdateTunnel();
      if rv != 0 {
        return;
      }
      OpenFirewall(dm.wan);
      rv := ToggleIps(true);
      if rv < 0 {
        CloseFirewall();
        DeleteTunnel();
      }
    }

    method Setup()
      modifies `dm, `fault, env
      ensures View() == Tunnel.Setup(old(View()))
    {
      hide Tunnel.BringUp, Tunnel.UpdateStatus;
      var rv := BringUp();
      UpdateStatus(if rv == 0 then Enabled else Error);
    }

    method Disable(s: Status)
      modifies `dm, `fault, env
      ensures View() == Tunnel.Disable(old(View()), s)
    {
      hide Tunnel.DeleteTunnel, Tunnel.CloseFirewall, Tunnel.ToggleIps, Tunnel.UpdateStatus;
      if s == Enabled {
        return;
      }
      if dm.status == Enabled {
        DeleteTunnel();
        CloseFirewall();
        var _ := ToggleIps(false);
      }
      UpdateStatus(s);
    }

    // ---- dslite_utils.c -----------------------------------------------------------------

    method StartTimer(t: nat)
      modifies `timers, `fault
      ensures View() == Resolver.StartTimer(old(View()), t)
    {
      if t == NULL {
      } else if t in timers {
        timers := timers[t := true];
      } else {
        fault := true;
      }
    }

    method DropRetry(p: nat)
      modifies `heap, `timers, `fault
      ensures View() == Resolver.DropRetry(old(View()), p)
    {
      if p !in heap {
        fault := true;
        return;
      }
      var t := heap[p].retry;
      if t != NULL && t !in timers {
        fault := true;
      }
      timers := timers - {t};
      heap := heap[p := heap[p].(retry := NULL)];
    }

    /** `remote_endpoint_addr_query_cb`. */
    method DnsCallback(p: nat, via: Method, result: Option<string>)
      modifies `dm, `heap, `timers, `fault, env
      ensures View() == Resolver.DnsCallback(old(View()), p, via, result)
    {
      hide Tunnel.Setup, Tunnel.Disable, Resolver.DropRetry, Resolver.StartTimer;
      if p == NULL {
        return;
      }
      if p !in heap {
        fault := true;
        return;
      }
      match result {
        case Some(ip) =>
          heap := heap[p := heap[p].(remote := Trunc(ip, ADDRLEN), via := via, answered := true)];
          Setup();
          DropRetry(p);
        case None =>
          heap := heap[p := heap[p].(answered := false)];
          var t := heap[p].retry;
          Disable(Error);
          StartTimer(t);
      }
    }

    method PutLookup(h: nat, l: Lookup)
      modifies `lookups
      ensures View() == SetLookup(old(View()), h, l) && lookups == old(lookups)[h := l]
    {
      lookups := lookups[h := l];
    }

    /** c-ares completes a lookup. */
    method Complete(h: nat, a: Answer)
      requires h in lookups
      modifies `dm, `heap, `lookups, `timers, `fault, env
      ensures View() == Resolver.Complete(old(View()), h, a)
    {
      hide Resolver.DnsCallback, SetLookup;
      var l := lookups[h];
      PutLookup(h, l.(pending := false, ticking := false));
      DnsCallback(l.rec, l.via, Resolver.ResultOf(env.o, a));
    }

    method AddLookup(host: string, p: nat) returns (h: nat)
      modifies `lookups, `next
      ensures h == old(next) && h in lookups && View() == Resolver.AddLookup(old(View()), host, p)
    {
      h := next;
      next := next + 1;
      lookups := lookups[h := Lookup(p, true, true, false, false, true, {}, MethodOf(dm), host)];
    }

    method OpenLookup(host: string, p: nat) returns (h: nat)
      modifies `dm, `heap, `lookups, `timers, `next, `fault, env
      ensures Res(View(), h) == Resolver.OpenLookup(old(View()), host, p)
    {
      hide Resolver.Complete, Resolver.AddLookup;
      if host == "" {
        return NULL;
      }
      var outcome := env.o.dns(env.calls);
      env.calls := env.calls + 1;
      if outcome.Refused? {
        return NULL;
      }
      h := AddLookup(host, p);
      if outcome.now.Some? {
        Complete(h, outcome.now.value);
      }
    }

    method DeleteAresTimers(h: nat)
      modifies `lookups, `fault
      ensures View() == Resolver.DeleteAresTimers(old(View()), h)
    {
      if h == NULL {
      } else if h in lookups {
        PutLookup(h, lookups[h].(armed := false, ticking := false, timed := false));
      } else {
        fault := true;
      }
    }

    method CloseLookup(h: nat)
      modifies `dm, `heap, `lookups, `timers, `stale, `fault, env
      ensures View() == Resolver.CloseLookup(old(View()), h)
    {
      hide Resolver.Complete;
      if h == NULL {
        return;
      }
      if h !in lookups {
        fault := true;
        return;
      }
      var l := lookups[h];
      if l.channel && !l.armed {
        if l.pending {
          Complete(h, Failure);
        }
      }
      if Resolver.LeavesTimer(l) {
        stale := stale + {Resolver.LeftOf(h, l)};
      }
      lookups := lookups - {h};
    }

    /** `resolve_endpoint_name`. */
    method Resolve(host: string) returns (rv: int)
      modifies `dm, `heap, `lookups, `timers, `next, `stale, `attempts, `fault, env
      ensures Res(View(), rv) == Resolver.Resolve(old(View()), host)
    {
      hide Resolver.StartTimer, Resolver.ReadyTimer, Resolver.Reopen;
      if host == "" || priv == NULL {
        return -1;
      }
      if priv !in heap {
        fault := true;
        return -1;
      }
      attempts := attempts + [host];
      heap := heap[priv := heap[priv].(asked := true)];
      ReadyTimer();
      if heap[priv].local == "" {
        StartTimer(heap[priv].retry);
        return -1;
      }
      rv := Reopen(host);
    }

    /** A retry timer exists and does not run. */
    method ReadyTimer()
      requires priv in heap
      modifies `heap, `timers, `next, `fault
      ensures View() == Resolver.ReadyTimer(old(View())) && priv in heap
    {
      var r := heap[priv];
      if r.retry == NULL {
        heap := heap[priv := r.(retry := next)];
        timers := timers[next := false];
        next := next + 1;
      } else if r.retry in timers {
        timers := timers[r.retry := false];
      } else {
        fault := true;
      }
    }

    /** The rest of `resolve_endpoint_name`: out with the old query, in with the new one. */
    method Reopen(host: string) returns (rv: int)
      requires priv in heap
      modifies `dm, `heap, `lookups, `timers, `next, `stale, `fault, env
      ensures Res(View(), rv) == Resolver.Reopen(old(View()), host)
    {
      hide Resolver.CloseLookup, Resolver.OpenLookup;
      CloseLookup(heap[priv].dns);
      var h := OpenLookup(host, priv);
      if priv !in heap {
        fault := true;
        return -1;
      }
      heap := heap[priv := heap[priv].(dns := h)];
      rv := if h == NULL then -1 else 0;
    }

    method RetryExpired(t: nat)
      requires t in timers
      modifies `dm, `heap, `lookups, `timers, `next, `stale, `attempts, `fault, env
      ensures View() == Resolver.RetryExpired(old(View()), t)
    {
      hide Resolver.Resolve;
      timers := timers[t := false];
      var _ := Resolve(dm.endpointName);
    }

    /** `dslite_ares_destroy_channel_cb`, for the query behind a lookup. */
    method DestroyExpired(h: nat)
      requires h in lookups
      modifies `dm, `heap, `lookups, `timers, `fault, env
      ensures View() == Resolver.DestroyExpired(old(View()), h)
    {
      hide Resolver.ChannelGone, SetLookup;
      var l := lookups[h].(armed := false);
      PutLookup(h, l);
      if l.channel {
        DestroyChannel(h);
      }
    }

    method DestroyChannel(h: nat)
      requires h in lookups
      modifies `dm, `heap, `lookups, `timers, `fault, env
      ensures View() == Resolver.ChannelGone(old(View()), h)
    {
      hide Resolver.Complete, SetLookup;
      if lookups[h].pending {
        Complete(h, Failure);
      }
      if h in lookups {
        PutLookup(h, lookups[h].(channel := false, armed := false, timed := false, socks := {}));
      }
    }

    // ---- dslite_netmodel.c --------------------------------------------------------------

    method CloseQuery(q: nat)
      modifies `queries, `queriesClosed, `fault
      ensures View() == Netmodel.CloseQuery(old(View()), q)
    {
      if q == NULL {
      } else if q in queries {
        queries := queries - {q};
        queriesClosed := queriesClosed + 1;
      } else {
        fault := true;
      }
    }

    /** `nm_local_addr_cb`. */
    method AddressCallback(p: nat, report: AddressReport)
      modifies `dm, `heap, `fault, env
      ensures View() == Netmodel.AddressCallback(old(View()), p, report)
    {
      hide Tunnel.Setup, Tunnel.Disable;
      if p == NULL {
        return;
      }
      if p !in heap {
        fault := true;
        return;
      }
      if report.address == "" {
        Disable(Error);
        return;
      }
      if report.netdev == "" {
        Disable(Error);
        return;
      }
      heap := heap[p := heap[p].(local := Trunc(report.address, ADDRLEN), netdev := Some(report.netdev))];
      if dm.status == Disabled {
        return;
      }
      if heap[p].remote != "" {
        Setup();
      }
    }

    /** `nm_dhcp_cb`. */
    method DhcpCallback(p: nat, name: string)
      modifies `dm, `heap, `lookups, `timers, `next, `stale, `attempts, `queued, `fault, env
      ensures View() == Netmodel.DhcpCallback(old(View()), p, name)
    {
      hide Resolver.Resolve, Tunnel.Disable;
      if name == "" || p == NULL {
        return;
      }
      if p !in heap {
        fault := true;
        return;
      }
      if name == dm.endpointName {
        var rv := Resolve(name);
        if rv != 0 {
          Disable(Error);
        }
      } else if |name| <= NAMELEN {
        dm := dm.(endpointName := name);
        queued := Some(name);
      }
    }

    /** netmodel accepts an address query; its handler may run at once. */
    method SubscribeAddresses(now: Option<AddressReport>) returns (q: nat)
      modifies `dm, `heap, `queries, `next, `queriesOpened, `fault, env
      ensures q == old(next) && View() == Netmodel.SubscribeAddresses(old(View()), now)
    {
      hide Netmodel.AddressCallback;
      q := next;
      queries := queries[q := Query(Addresses, priv)];
      next := next + 1;
      queriesOpened := queriesOpened + 1;
      if now.Some? {
        AddressCallback(priv, now.value);
      }
    }

    method StoreAddressQuery(q: nat, code: int) returns (rv: int)
      modifies `heap, `fault
      ensures Res(View(), rv) == Netmodel.StoreAddressQuery(old(View()), q, code)
    {
      if priv !in heap {
        fault := true;
        return -1;
      }
      heap := heap[priv := heap[priv].(addrQuery := q)];
      return code;
    }

    method OpenAddressQuery() returns (rv: int)
      modifies `dm, `heap, `queries, `next, `queriesOpened, `queriesClosed, `fault, env
      ensures Res(View(), rv) == Netmodel.OpenAddressQuery(old(View()))
    {
      hide Netmodel.CloseQuery, Netmodel.SubscribeAddresses, Netmodel.StoreAddressQuery;
      if priv == NULL {
        return -1;
      }
      if priv !in heap {
        fault := true;
        return -1;
      }
      if dm.wan == "" {
        return -1;
      }
      CloseQuery(heap[priv].addrQuery);
      var outcome := env.o.addresses(env.calls);
      env.calls := env.calls + 1;
      match outcome {
        case Refused => rv := StoreAddressQuery(NULL, -1);
        case Opened(now) =>
          var q := SubscribeAddresses(now);
          rv := StoreAddressQuery(q, 0);
      }
    }

    /** netmodel accepts a DHCP option query; its handler may run at once. */
    method SubscribeAftr(now: Option<string>) returns (q: nat)
      modifies `dm, `heap, `queries, `lookups, `timers, `next, `stale, `attempts, `queued, `queriesOpened, `fault, env
      ensures q == old(next) && View() == Netmodel.SubscribeAftr(old(View()), now)
    {
      hide Netmodel.DhcpCallback;
      q := next;
      queries := queries[q := Query(AftrName, priv)];
      next := next + 1;
      queriesOpened := queriesOpened + 1;
      if now.Some? {
        DhcpCallback(priv, now.value);
      }
    }

    method StoreDhcpQuery(q: nat, code: int) returns (rv: int)
      modifies `heap, `fault
      ensures Res(View(), rv) == Netmodel.StoreDhcpQuery(old(View()), q, code)
    {
      if priv !in heap {
        fault := true;
        return -1;
      }
      heap := heap[priv := heap[priv].(dhcpQuery := q)];
      return code;
    }

    method OpenDhcpQuery() returns (rv: int)
      modifies `dm, `heap, `queries, `lookups, `timers, `next, `stale, `attempts, `queued, `queriesOpened, `queriesClosed, `fault, env
      ensures Res(View(), rv) == Netmodel.OpenDhcpQuery(old(View()))
    {
      hide Netmodel.CloseQuery, Netmodel.SubscribeAftr, Netmodel.StoreDhcpQuery;
      if priv == NULL {
        return -1;
      }
      if priv !in heap {
        fault := true;
        return -1;
      }
      if dm.wan == "" {
        return -1;
      }
      CloseQuery(heap[priv].dhcpQuery);
      var outcome := env.o.dhcp(env.calls);
      env.calls := env.calls + 1;
      match outcome {
        case Refused => rv := StoreDhcpQuery(NULL, -1);
        case Opened(now) =>
          var q := SubscribeAftr(now);
          rv := StoreDhcpQuery(q, 0);
      }
    }

    // ---- dslite_interface.c, the private record -----------------------------------------

    /** `dslite_intf_priv_t_ctor`. */
    method Create()
      modifies `priv, `heap, `next
      ensures View() == Interface.Create(old(View()))
    {
      heap := heap[next := Record("", "", None, NULL, NULL, NULL, NULL, MethodOf(dm), false, false)];
      priv := next;
      next := next + 1;
    }

    /** `cleanup_private_data`. */
    method Cleanup()
      modifies this, env
      ensures View() == Interface.Cleanup(old(View()))
    {
      hide Netmodel.CloseQuery, Resolver.CloseLookup, Resolver.DeleteAresTimers, Resolver.DropRetry;
      if priv == NULL {
        return;
      }
      if priv !in heap {
        fault := true;
        return;
      }
      var r := heap[priv];
      var p := priv;
      CloseQuery(r.dhcpQuery);
      CloseQuery(r.addrQuery);
      DeleteAresTimers(r.dns);
      CloseLookup(r.dns);
      DropRetry(p);
      heap := heap - {p};
    }

    /** The part of `clear_remote_endpoint_properties` that closes things. */
    method DropSources()
      requires priv in heap
      modifies this, env
      ensures View() == Interface.DropSources(old(View()))
    {
      hide Netmodel.CloseQuery, Resolver.CloseLookup, Resolver.DeleteAresTimers, Resolver.DropRetry;
      var p, dns := priv, heap[priv].dns;
      CloseQuery(heap[p].dhcpQuery);
      heap := heap[p := heap[p].(dhcpQuery := NULL)];
      DeleteAresTimers(dns);
      CloseLookup(dns);
      if p !in heap {
        fault := true;
        return;
      }
      heap := heap[p := heap[p].(dns := NULL)];
      DropRetry(p);
    }

    /** `clear_remote_endpoint_properties`. */
    method ClearRemote()
      modifies this, env
      ensures View() == Interface.ClearRemote(old(View()))
    {
      hide Interface.DropSources;
      if priv == NULL {
        return;
      }
      if priv !in heap {
        fault := true;
        return;
      }
      heap := heap[priv := heap[priv].(remote := "", asked := false, answered := false)];
      DropSources();
    }

    /** `set_static_remote_addr`. */
    method SetStaticRemote() returns (st: Interface.Parameters)
      requires priv in heap
      modifies `heap
      ensures Interface.ParamRes(View(), st) == Interface.SetStaticRemote(old(View()))
    {
      if dm.endpointAddress == "" {
        return Interface.Missing;
      }
      heap := heap[priv := heap[priv].(remote := Trunc(dm.endpointAddress, ADDRLEN), via := MethodOf(dm))];
      st := Interface.Ready;
    }

    /** `get_remote_endp_addr`. */
    method GetRemote() returns (st: Interface.Parameters)
      modifies this, env
      ensures Interface.ParamRes(View(), st) == Interface.GetRemote(old(View()))
    {
      hide Resolver.CloseLookup, Resolver.Resolve, Netmodel.OpenDhcpQuery, Interface.SetStaticRemote;
      st := Interface.Missing;
      match MethodOf(dm) {
        case StaticIPv6 =>
          if priv !in heap {
            fault := true;
            return;
          }
          var h := heap[priv].dns;
          if h != NULL && h !in lookups {
            fault := true;
          } else if h in lookups && lookups[h].channel {
            CloseLookup(h);
          }
          if priv !in heap {
            fault := true;
            return;
          }
          st := SetStaticRemote();
        case StaticFqdn =>
          var rv := Resolve(dm.endpointName);
          if rv == 0 {
            st := Interface.Waiting;
          }
        case FromDhcp =>
          var rv := OpenDhcpQuery();
          if rv == 0 {
            st := Interface.Waiting;
          }
      }
    }

    /** `get_tunnel_parameters`. */
    method GetParameters() returns (st: Interface.Parameters)
      modifies this, env
      ensures Interface.ParamRes(View(), st) == Interface.GetParameters(old(View()))
    {
      hide Netmodel.OpenAddressQuery, Interface.GetRemote;
      st := Interface.Missing;
      var rv := OpenAddressQuery();
      if rv == 0 {
        st := GetRemote();
      }
    }

    method Proceed(st: Interface.Parameters)
      modifies this, env
      ensures View() == Interface.Proceed(Interface.ParamRes(old(View()), st))
    {
      hide Tunnel.Setup, Tunnel.Disable;
      if st == Interface.Ready {
        Setup();
      } else if st == Interface.Missing {
        Disable(Error);
      }
    }

    /** `enable_interface`. */
    method EnableInterface()
      modifies this, env
      ensures View() == Interface.EnableInterface(old(View()))
    {
      hide Interface.Create, Interface.GetParameters, Interface.Proceed;
      Create();
      var st := GetParameters();
      Proceed(st);
    }

    method DisableInterface()
      modifies this, env
      ensures View() == Interface.DisableInterface(old(View()))
    {
      hide Tunnel.Disable, Interface.Cleanup;
      Disable(Disabled);
      Cleanup();
    }

    // ---- dm_dslite_events.c -------------------------------------------------------------

    method ToggleInterface(enable: bool)
      modifies this, env
      ensures View() == Events.ToggleInterface(old(View()), enable)
    {
      hide Interface.EnableInterface, Interface.DisableInterface;
      if root.enable {
        if enable {
          EnableInterface();
        } else {
          DisableInterface();
        }
      }
    }

    method AddressChanged()
      modifies this, env
      ensures View() == Events.AddressChanged(old(View()))
    {
      hide Interface.GetRemote, Tunnel.Setup, Tunnel.Disable;
      if !root.enable || !dm.enable {
        return;
      }
      if MethodOf(dm) == StaticIPv6 {
        var st := GetRemote();
        if st == Interface.Ready {
          Setup();
        } else {
          Disable(Error);
        }
      }
    }

    method PrecedenceChanged()
      modifies this, env
      ensures View() == Events.PrecedenceChanged(old(View()))
    {
      hide Interface.GetRemote, Interface.ClearRemote, Interface.Proceed;
      if !root.enable || !dm.enable {
        return;
      }
      ClearRemote();
      var st := GetRemote();
      Proceed(st);
    }

    method NameChanged(name: string)
      modifies this, env
      ensures View() == Events.NameChanged(old(View()), name)
    {
      hide Resolver.Resolve, Tunnel.Disable;
      if !root.enable || !dm.enable || name == "" {
        return;
      }
      if MethodOf(dm) == StaticFqdn || MethodOf(dm) == FromDhcp {
        var rv := Resolve(name);
        if rv != 0 {
          Disable(Error);
        }
      }
    }

    method AddressTypeChanged()
      modifies this, env
      ensures View() == Events.AddressTypeChanged(old(View()))
    {
      hide Interface.GetRemote, Interface.ClearRemote, Interface.Proceed;
      if !root.enable || !dm.enable || MethodOf(dm) == FromDhcp {
        return;
      }
      ClearRemote();
      var st := GetRemote();
      Proceed(st);
    }

    method WanChanged()
      modifies this, env
      ensures View() == Events.WanChanged(old(View()))
    {
      hide Netmodel.OpenAddressQuery, Tunnel.Setup, Tunnel.Disable;
      if !root.enable || !dm.enable {
        return;
      }
      var rv := OpenAddressQuery();
      if rv != 0 {
        Disable(Error);
      } else {
        Setup();
      }
    }

    /** The event loop gets round to a queued EndpointName change. */
    method Drain()
      modifies this, env
      ensures View() == Events.Drain(old(View()))
    {
      hide Events.NameChanged;
      if queued.Some? {
        var name := queued.value;
        queued := None;
        NameChanged(name);
      }
    }

    /**
     A parameter write or a callback, with everything it triggers. A sound object does what the event
     asks of it and stays sound: no pointer to nothing has been followed, and its record is allocated
     exactly while it is active.
     */
    method Dispatch(e: Events.Event)
      modifies this, env
      ensures View() == Events.Step(old(View()), e)
      ensures Lifecycle.Sound(old(View())) ==>
                Lifecycle.Sound(View()) && !fault && heap.Keys == (if root.enable && dm.enable then {priv} else {})
      ensures Lifecycle.Sound(old(View())) ==> forall devs :: EveryEvent.Achieves(old(View()), e, View(), devs)
    {
      hide Events.Handle, Events.Drain, Lifecycle.Sound, EveryEvent.Achieves;
      ghost var n := View();
      HandleEvent(e);
      Drain();
      if Lifecycle.Sound(n) {
        Lifecycle.StepKeeps(n, e);
        Ownership.SoundHeap(View());
        forall devs ensures EveryEvent.Achieves(n, e, View(), devs) { EveryEvent.EveryEventAchieves(n, e, devs); }
      }
    }

    method HandleEvent(e: Events.Event)
      modifies this, env
      ensures View() == Events.Handle(old(View()), e)
    {
      hide Events.Handle;
      match e {
        case SetEnable(_) => HandleWrite(e);
        case SetAddress(_) => HandleWrite(e);
        case SetPrecedence(_) => HandleWrite(e);
        case SetAddressType(_) => HandleWrite(e);
        case SetName(_) => HandleWrite(e);
        case SetWan(_) => HandleWrite(e);
        case ReportAddress(_, _) => HandleReport(e);
        case ReportName(_, _) => HandleReport(e);
        case LookupSocket(h, fd, used) => HandleSocket(h, fd, used);
        case DnsTimer(_) => HandleTimer(e);
        case StaleTimer(_) => HandleTimer(e);
        case _ => HandleExpiry(e);
      }
    }

    /** A parameter write: the validators, then the handler. */
    method HandleWrite(e: Events.Event)
      requires e.SetEnable? || e.SetAddress? || e.SetPrecedence? || e.SetAddressType? || e.SetName? || e.SetWan?
      modifies this, env
      ensures View() == Events.Handle(old(View()), e)
    {
      hide Events.ToggleInterface, Events.AddressChanged, Events.PrecedenceChanged, Events.AddressTypeChanged,
        Events.NameChanged, Events.WanChanged;
      match e {
        case SetEnable(b) =>
          if b != dm.enable {
            dm := dm.(enable := b);
            ToggleInterface(b);
          }
        case SetAddress(a) =>
          if a != dm.endpointAddress && |a| <= ADDRLEN {
            dm := dm.(endpointAddress := a);
            AddressChanged();
          }
        case SetPrecedence(p) =>
          if p != dm.precedence {
            dm := dm.(precedence := p);
            PrecedenceChanged();
          }
        case SetAddressType(t) =>
          if t != dm.addressType {
            dm := dm.(addressType := t);
            AddressTypeChanged();
          }
        case SetName(s) =>
          if s != dm.endpointName && |s| <= NAMELEN {
            dm := dm.(endpointName := s);
            NameChanged(s);
          }
        case SetWan(w) =>
          if w != dm.wan {
            dm := dm.(wan := w);
            WanChanged();
          }
      }
    }

    /** A report through a netmodel query that is open. */
    method HandleReport(e: Events.Event)
      requires e.ReportAddress? || e.ReportName?
      modifies this, env
      ensures View() == Events.Handle(old(View()), e)
    {
      hide Netmodel.AddressCallback, Netmodel.DhcpCallback;
      match e {
        case ReportAddress(q, report) =>
          if q in queries && queries[q].kind == Addresses {
            AddressCallback(queries[q].rec, report);
          }
        case ReportName(q, name) =>
          if q in queries && queries[q].kind == AftrName {
            DhcpCallback(queries[q].rec, name);
          }
      }
    }

    /** `dslite_ares_sock_cb`, as the rest of the plugin sees it. */
    method HandleSocket(h: nat, fd: int, used: bool)
      modifies `lookups
      ensures View() == Events.Handle(old(View()), Events.LookupSocket(h, fd, used))
    {
      hide SetLookup;
      if h in lookups && lookups[h].channel {
        var l := lookups[h];
        if !used {
          l := l.(socks := l.socks - {fd});
          if l.socks == {} {
            l := l.(armed := l.timed);
          }
        } else if fd !in l.socks {
          l := l.(socks := l.socks + {fd}, ticking := true);
        }
        PutLookup(h, l);
      }
    }

    /** A timer expires that changes nothing but itself. */
    method HandleTimer(e: Events.Event)
      requires e.DnsTimer? || e.StaleTimer?
      modifies `lookups, `stale, `wild
      ensures View() == Events.Handle(old(View()), e)
    {
      hide SetLookup;
      match e {
        case DnsTimer(h) =>
          if h in lookups && lookups[h].ticking {
            PutLookup(h, lookups[h].(ticking := false));
          }
        case StaleTimer(left) =>
          if left in stale {
            stale, wild := stale - {left}, true;
          }
      }
    }

    /** A lookup completes, its destroy timer expires, or the retry timer does. */
    method HandleExpiry(e: Events.Event)
      requires e.LookupDone? || e.DestroyTimer? || e.RetryTimer?
      modifies this, env
      ensures View() == Events.Handle(old(View()), e)
    {
      hide Resolver.Complete, Resolver.DestroyExpired, Resolver.RetryExpired;
      match e {
        case LookupDone(h, answer) =>
          if h in lookups && lookups[h].pending {
            Complete(h, answer);
          }
        case DestroyTimer(h) =>
          if h in lookups && lookups[h].armed {
            DestroyExpired(h);
          }
        case RetryTimer(t) =>
          if t in timers && timers[t] {
            RetryExpired(t);
          }
      }
    }
  }
}
