/**
 The tunnel controller (mod-dslite-ioctl/src/dslite_ioctl.c) as functions over a table of
 network devices. System calls are numbered; `Platform.sys` decides which of them go through.
 */
module Ioctl {
  import opened Basics

  const IFNAMSIZ: nat := 16
  const IPPROTO_IPIP := 4
  const DEFAULT_ENCAP_LIMIT := 4
  const HOP_LIMIT := 64
  const FLAGS := 3 // use the original traffic class, ignore the encapsulation limit

  /** `struct ip6_tnl_parm`. */
  datatype Parm = Parm(name: string, proto: int, encapLimit: int, hopLimit: int, flags: int,
                       laddr: int, raddr: int, link: int)

  /** A row of the kernel's device table; only tunnels carry parameters. */
  datatype Device = Device(index: int, parm: Option<Parm>, up: bool)

  /** Everything outside the controller: which system calls work, and `inet_pton`. */
  datatype Platform = Platform(sys: nat -> bool, pton: string -> Option<int>)

  datatype Kernel = Kernel(devices: map<string, Device>, nextIndex: int,
                           fds: set<nat>, nextFd: nat, socketCalls: nat, closeCalls: nat, calls: nat)

  /** The variant handed to a controller function; an absent key is None. */
  datatype Args = Args(tunnelIf: Option<string>, netdev: Option<string>,
                       remote: Option<string>, local: Option<string>)

  datatype Command = AddTunnel | ChangeTunnel | DeleteTunnel

  datatype Ret = Ret(k: Kernel, rv: int)

  /** The name as it fits in `ifr_name` or `parm.name`. */
  function IfName(s: string): (name: string)
    ensures name <= s && |name| == if |s| <= 15 then |s| else 15
  {
    Trunc(s, IFNAMSIZ - 1)
  }

  // ---- system calls -------------------------------------------------------------------

  function Socket(pf: Platform, k: Kernel): Ret {
    if pf.sys(k.calls) then
      Ret(k.(fds := k.fds + {k.nextFd}, nextFd := k.nextFd + 1, socketCalls := k.socketCalls + 1, calls := k.calls + 1), k.nextFd)
    else
      Ret(k.(calls := k.calls + 1), -1)
  }

  function Close(k: Kernel, fd: nat): Kernel {
    k.(fds := k.fds - {fd}, closeCalls := k.closeCalls + 1)
  }

  /** SIOCGIFINDEX: negative on failure, otherwise the index is the one in the table. */
  function GetIndex(pf: Platform, k: Kernel, name: string): Ret {
    Ret(k.(calls := k.calls + 1), if pf.sys(k.calls) && name in k.devices then 0 else -1)
  }

  predicate IsTunnel(k: Kernel, name: string) {
    name in k.devices && k.devices[name].parm.Some?
  }

  /** SIOCADDTUNNEL creates `p.name`; the other two commands act on the tunnel `name`. */
  function TunnelCommand(pf: Platform, k: Kernel, cmd: Command, name: string, p: Parm): Ret {
    var k1 := k.(calls := k.calls + 1);
    if !pf.sys(k.calls) then Ret(k1, -1)
    else
      match cmd
      case AddTunnel =>
        if p.name in k.devices then Ret(k1, -1)
        else Ret(k1.(devices := k.devices[p.name := Device(k.nextIndex, Some(p), false)], nextIndex := k.nextIndex + 1), 0)
      case ChangeTunnel =>
        if !IsTunnel(k, name) then Ret(k1, -1)
        else Ret(k1.(devices := k.devices[name := k.devices[name].(parm := Some(p))]), 0)
      case DeleteTunnel =>
        if !IsTunnel(k, name) then Ret(k1, -1)
        else Ret(k1.(devices := k.devices - {name}), 0)
  }

  /** SIOCSIFFLAGS with IFF_UP. */
  function SetFlagsUp(pf: Platform, k: Kernel, name: string): Ret {
    var k1 := k.(calls := k.calls + 1);
    if pf.sys(k.calls) && name in k.devices then
      Ret(k1.(devices := k.devices[name := k.devices[name].(up := true)]), 0)
    else
      Ret(k1, -1)
  }

  // ---- the controller -----------------------------------------------------------------

  /** `get_tunnel_params`; the link is filled in later. */
  function TunnelParams(pf: Platform, a: Args): Option<Parm> {
    if Empty(a.tunnelIf) || Empty(a.remote) || Empty(a.local) then None
    else
      var l, r := pf.pton(a.local.value), pf.pton(a.remote.value);
      if l.None? || r.None? then None
      else Some(Parm(IfName(a.tunnelIf.value), IPPROTO_IPIP, DEFAULT_ENCAP_LIMIT, HOP_LIMIT, FLAGS, l.value, r.value, 0))
  }

  /** `set_if_up`. */
  function SetIfUp(pf: Platform, k: Kernel, name: string): Ret {
    var s := Socket(pf, k);
    if s.rv < 0 then Ret(s.k, -1)
    else
      var f := SetFlagsUp(pf, s.k, IfName(name));
      Ret(Close(f.k, s.rv), f.rv)
  }

  /** `tunnel_operate`. */
  function TunnelOperate(pf: Platform, k: Kernel, a: Args, cmd: Command): Ret {
    if Empty(a.tunnelIf) || Empty(a.netdev) then Ret(k, -1)
    else if cmd != DeleteTunnel && TunnelParams(pf, a).None? then Ret(k, -1)
    else
      var s := Socket(pf, k);
      if s.rv < 0 then Ret(s.k, -1)
      else
        var netdev := IfName(a.netdev.value);
        var g := GetIndex(pf, s.k, netdev);
        if g.rv < 0 then Ret(Close(g.k, s.rv), -1)
        else
          var c := TunnelCommand(pf, g.k, cmd, IfName(a.tunnelIf.value), Filled(pf, a, cmd, g.k.devices[netdev].index));
          var u := if c.rv == 0 && cmd != DeleteTunnel then SetIfUp(pf, c.k, a.tunnelIf.value) else c;
          Ret(Close(u.k, s.rv), u.rv)
  }

  /** The parameter block handed to the kernel; a delete leaves all but link and name unset. */
  function Filled(pf: Platform, a: Args, cmd: Command, link: int): Parm
    requires a.tunnelIf.Some?
    requires cmd == DeleteTunnel || TunnelParams(pf, a).Some?
  {
    var p := if cmd == DeleteTunnel then Parm("", 0, 0, 0, 0, 0, 0, 0) else TunnelParams(pf, a).value;
    p.(link := link, name := IfName(a.tunnelIf.value))
  }

  /** `tunnel_exists`: -1 on error, otherwise 0 or 1. */
  function TunnelExists(pf: Platform, k: Kernel, a: Args): Ret {
    if a.tunnelIf.None? then Ret(k, -1)
    else
      var s := Socket(pf, k);
      if s.rv < 0 then Ret(s.k, -1)
      else
        var g := GetIndex(pf, s.k, IfName(a.tunnelIf.value));
        Ret(Close(g.k, s.rv), if g.rv < 0 then 0 else 1)
  }

  /** `add_or_modify_tunnel`. */
  function AddOrModify(pf: Platform, k: Kernel, a: Args): Ret {
    var e := TunnelExists(pf, k, a);
    if e.rv == -1 then Ret(e.k, -1)
    else
      var t := TunnelOperate(pf, e.k, a, if e.rv == 1 then ChangeTunnel else AddTunnel);
      Ret(t.k, if t.rv == 0 then 0 else -1)
  }

  /** `delete_tunnel`. */
  function Delete(pf: Platform, k: Kernel, a: Args): Ret {
    var t := TunnelOperate(pf, k, a, DeleteTunnel);
    Ret(t.k, if t.rv == 0 then 0 else -1)
  }

  // ---- what callers rely on -----------------------------------------------------------

  predicate NonEmpty(a: Args) {
    !Empty(a.tunnelIf) && !Empty(a.netdev) && !Empty(a.remote) && !Empty(a.local)
  }

  /** The device `name` is a tunnel between the two addresses and is up. */
  predicate Carries(pf: Platform, k: Kernel, name: string, local: string, remote: string) {
    && IsTunnel(k, name)
    && k.devices[name].up
    && pf.pton(local) == Some(k.devices[name].parm.value.laddr)
    && pf.pton(remote) == Some(k.devices[name].parm.value.raddr)
  }

  /** The exact row that a successful upsert leaves behind. */
  function Upserted(pf: Platform, k: Kernel, a: Args): Device
    requires TunnelParams(pf, a).Some? && a.netdev.Some? && IfName(a.netdev.value) in k.devices
  {
    var name := IfName(a.tunnelIf.value);
    var p := TunnelParams(pf, a).value.(link := k.devices[IfName(a.netdev.value)].index);
    Device(if name in k.devices then k.devices[name].index else k.nextIndex, Some(p), true)
  }

  /** Success: exactly one row changes, to exactly this device. */
  lemma UpsertSets(pf: Platform, k: Kernel, a: Args)
    requires AddOrModify(pf, k, a).rv == 0
    ensures NonEmpty(a) && TunnelParams(pf, a).Some? && IfName(a.netdev.value) in k.devices
    ensures AddOrModify(pf, k, a).k.devices == k.devices[IfName(a.tunnelIf.value) := Upserted(pf, k, a)]
    ensures Carries(pf, AddOrModify(pf, k, a).k, IfName(a.tunnelIf.value), a.local.value, a.remote.value)
    ensures var name := IfName(a.tunnelIf.value); var p := AddOrModify(pf, k, a).k.devices[name].parm;
            && p.Some? && p.value.name == name
            && p.value.proto == 4 && p.value.encapLimit == 4 && p.value.hopLimit == 64 && p.value.flags == 3
            && pf.pton(a.local.value) == Some(p.value.laddr) && pf.pton(a.remote.value) == Some(p.value.raddr)
            && p.value.link == k.devices[IfName(a.netdev.value)].index
  {
    var k1 := AddOrModify(pf, k, a).k;
    assert k1.devices.Keys == k.devices.Keys + {IfName(a.tunnelIf.value)};
  }

  /** Failure: the table is untouched unless only the final bring-up failed. */
  lemma FailedUpsert(pf: Platform, k: Kernel, a: Args)
    requires AddOrModify(pf, k, a).rv != 0
    ensures AddOrModify(pf, k, a).rv == -1
    ensures var k1 := AddOrModify(pf, k, a).k;
            || k1.devices == k.devices
            || (&& NonEmpty(a) && TunnelParams(pf, a).Some? && IfName(a.netdev.value) in k.devices
                && var name := IfName(a.tunnelIf.value);
                   k1.devices == k.devices[name := Upserted(pf, k, a).(up := name in k.devices && k.devices[name].up)])
  {
  }

  /** With working system calls an upsert succeeds exactly when its arguments make sense. */
  lemma UpsertSucceedsExactly(pf: Platform, k: Kernel, a: Args)
    requires forall n :: pf.sys(n)
    ensures AddOrModify(pf, k, a).rv == 0 <==>
            && NonEmpty(a)
            && pf.pton(a.local.value).Some? && pf.pton(a.remote.value).Some?
            && IfName(a.netdev.value) in k.devices
            && (IfName(a.tunnelIf.value) in k.devices ==> IsTunnel(k, IfName(a.tunnelIf.value)))
  {
    var e := TunnelExists(pf, k, a);
    assert e.rv != -1 ==> e.k.devices == k.devices;
  }

  /** Repeating a successful upsert changes nothing, whether or not it succeeds again; with working calls it does. */
  lemma UpsertIdempotent(pf: Platform, k: Kernel, a: Args)
    requires AddOrModify(pf, k, a).rv == 0
    ensures var again := AddOrModify(pf, AddOrModify(pf, k, a).k, a);
            && again.k.devices == AddOrModify(pf, k, a).k.devices
            && ((forall n :: pf.sys(n)) ==> again.rv == 0)
  {
    hide AddOrModify;
    var k1 := AddOrModify(pf, k, a).k;
    UpsertSets(pf, k, a);
    assert Upserted(pf, k1, a) == Upserted(pf, k, a);
    if forall n :: pf.sys(n) { UpsertSucceedsExactly(pf, k1, a); }
    if AddOrModify(pf, k1, a).rv == 0 { UpsertSets(pf, k1, a); } else { FailedUpsert(pf, k1, a); }
    assert k1.devices[IfName(a.tunnelIf.value) := Upserted(pf, k, a)] == k1.devices;
  }

  /** Deleting removes exactly the named tunnel, or changes nothing. */
  lemma DeleteRemoves(pf: Platform, k: Kernel, a: Args)
    ensures var d := Delete(pf, k, a);
            if d.rv == 0 then
              && !Empty(a.tunnelIf) && IsTunnel(k, IfName(a.tunnelIf.value))
              && !Empty(a.netdev) && IfName(a.netdev.value) in k.devices
              && d.k.devices == k.devices - {IfName(a.tunnelIf.value)}
            else d.rv == -1 && d.k.devices == k.devices
    ensures (forall n :: pf.sys(n)) ==>
              (Delete(pf, k, a).rv == 0 <==>
               && !Empty(a.tunnelIf) && !Empty(a.netdev) && IfName(a.netdev.value) in k.devices
               && IsTunnel(k, IfName(a.tunnelIf.value)))
  {
  }

  /** Adding a tunnel and deleting it again restores a table that lacked it. */
  lemma AddThenDelete(pf: Platform, k: Kernel, a: Args)
    requires AddOrModify(pf, k, a).rv == 0
    requires IfName(a.tunnelIf.value) !in k.devices
    requires Delete(pf, AddOrModify(pf, k, a).k, a).rv == 0
    ensures Delete(pf, AddOrModify(pf, k, a).k, a).k.devices == k.devices
  {
    UpsertSets(pf, k, a);
    DeleteRemoves(pf, AddOrModify(pf, k, a).k, a);
  }

  ghost predicate FdsFresh(k: Kernel) {
    forall fd :: fd in k.fds ==> fd < k.nextFd
  }

  /** `k1` was reached from `k` with every socket opened in between closed again, once. */
  ghost predicate SocketsBalanced(k: Kernel, k1: Kernel) {
    && FdsFresh(k1)
    && k1.fds == k.fds
    && k1.socketCalls - k.socketCalls == k1.closeCalls - k.closeCalls
  }

  lemma OperateClosesSockets(pf: Platform, k: Kernel, a: Args, cmd: Command)
    requires FdsFresh(k)
    ensures SocketsBalanced(k, TunnelOperate(pf, k, a, cmd).k)
  {
    if !Empty(a.tunnelIf) && !Empty(a.netdev) && (cmd == DeleteTunnel || TunnelParams(pf, a).Some?) {
      var s := Socket(pf, k);
      if s.rv >= 0 {
        var g := GetIndex(pf, s.k, IfName(a.netdev.value));
        assert Close(g.k, s.rv).fds == k.fds;
        if g.rv >= 0 {
          var c := TunnelCommand(pf, g.k, cmd, IfName(a.tunnelIf.value), Filled(pf, a, cmd, g.k.devices[IfName(a.netdev.value)].index));
          assert Close(c.k, s.rv).fds == k.fds;
          var s2 := Socket(pf, c.k);
          assert s2.rv >= 0 ==> SetIfUp(pf, c.k, a.tunnelIf.value).k.fds == c.k.fds;
        }
      }
    }
  }

  /** On every path through both entry points, each socket that was opened is closed once. */
  lemma SocketsClosed(pf: Platform, k: Kernel, a: Args)
    requires FdsFresh(k)
    ensures SocketsBalanced(k, AddOrModify(pf, k, a).k)
    ensures SocketsBalanced(k, Delete(pf, k, a).k)
  {
    OperateClosesSockets(pf, k, a, DeleteTunnel);
    var e := TunnelExists(pf, k, a);
    assert SocketsBalanced(k, e.k) by {
      if a.tunnelIf.Some? {
        var s := Socket(pf, k);
        assert s.rv >= 0 ==> Close(s.k, s.rv).fds == k.fds;
      }
    }
    OperateClosesSockets(pf, e.k, a, if e.rv == 1 then ChangeTunnel else AddTunnel);
  }
}
