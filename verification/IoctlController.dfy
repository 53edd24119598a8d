/**
 The same controller as the C code runs it: system calls change one machine, `ip6_tnl_parm` is
 filled field by field, and every method is proved against its function in `Ioctl`.
 */
module IoctlController {
  import opened Basics
  import opened Ioctl

  class Machine {
    const pf: Platform
    var devices: map<string, Device>
    var nextIndex: int
    var fds: set<nat>
    var nextFd: nat
    var socketCalls: nat
    var closeCalls: nat
    var calls: nat

    constructor (pf: Platform, devices: map<string, Device>, nextIndex: int)
      ensures this.pf == pf && View() == Kernel(devices, nextIndex, {}, 0, 0, 0, 0)
    {
      this.pf := pf;
      this.devices, this.nextIndex := devices, nextIndex;
      fds, nextFd, socketCalls, closeCalls, calls := {}, 0, 0, 0, 0;
    }

    ghost function View(): Kernel
      reads this
    {
      Kernel(devices, nextIndex, fds, nextFd, socketCalls, closeCalls, calls)
    }

    method SysSocket() returns (fd: int)
      modifies this
      ensures Ret(View(), fd) == Socket(pf, old(View()))
    {
      if pf.sys(calls) {
        fd := nextFd;
        fds, nextFd, socketCalls := fds + {nextFd}, nextFd + 1, socketCalls + 1;
      } else {
        fd := -1;
      }
      calls := calls + 1;
    }

    method SysClose(fd: nat)
      modifies this
      ensures View() == Close(old(View()), fd)
    {
      fds, closeCalls := fds - {fd}, closeCalls + 1;
    }

    method SysGetIndex(name: string) returns (rv: int, index: int)
      modifies this
      ensures Ret(View(), rv) == GetIndex(pf, old(View()), name)
      ensures rv >= 0 ==> name in devices && index == devices[name].index
    {
      rv, index := -1, 0;
      if pf.sys(calls) && name in devices {
        rv, index := 0, devices[name].index;
      }
      calls := calls + 1;
    }

    method SysTunnelCommand(cmd: Command, name: string, p: Parm) returns (rv: int)
      modifies this
      ensures Ret(View(), rv) == TunnelCommand(pf, old(View()), cmd, name, p)
    {
      var works := pf.sys(calls);
      calls := calls + 1;
      rv := -1;
      if works {
        match cmd {
          case AddTunnel =>
            if p.name !in devices {
              devices := devices[p.name := Device(nextIndex, Some(p), false)];
              nextIndex := nextIndex + 1;
              rv := 0;
            }
          case ChangeTunnel =>
            if name in devices && devices[name].parm.Some? {
              devices := devices[name := devices[name].(parm := Some(p))];
              rv := 0;
            }
          case DeleteTunnel =>
            if name in devices && devices[name].parm.Some? {
              devices := devices - {name};
              rv := 0;
            }
        }
      }
    }

    method SysSetFlagsUp(name: string) returns (rv: int)
      modifies this
      ensures Ret(View(), rv) == SetFlagsUp(pf, old(View()), name)
    {
      rv := -1;
      if pf.sys(calls) && name in devices {
        devices := devices[name := devices[name].(up := true)];
        rv := 0;
      }
      calls := calls + 1;
    }

    method GetTunnelParams(a: Args) returns (rv: int, p: Parm)
      ensures rv == (if TunnelParams(pf, a).Some? then 0 else -1) && (rv == 0 ==> Some(p) == TunnelParams(pf, a))
      ensures rv == 0 <==> !Empty(a.tunnelIf) && !Empty(a.remote) && !Empty(a.local)
                           && pf.pton(a.local.value).Some? && pf.pton(a.remote.value).Some?
      ensures rv == 0 ==>
                && p.name == IfName(a.tunnelIf.value) && p.proto == 4 && p.encapLimit == 4 && p.hopLimit == 64 && p.flags == 3
                && Some(p.laddr) == pf.pton(a.local.value) && Some(p.raddr) == pf.pton(a.remote.value)
    {
      rv := -1;
      p := Parm("", 0, 0, 0, 0, 0, 0, 0);
      if Empty(a.tunnelIf) || Empty(a.remote) || Empty(a.local) {
        return;
      }
      p := p.(proto := IPPROTO_IPIP);
      p := p.(encapLimit := DEFAULT_ENCAP_LIMIT, hopLimit := HOP_LIMIT, flags := FLAGS);
      p := p.(name := IfName(a.tunnelIf.value));
      var laddr := pf.pton(a.local.value);
      if laddr.None? {
        return;
      }
      p := p.(laddr := laddr.value);
      var raddr := pf.pton(a.remote.value);
      if raddr.None? {
        return;
      }
      p := p.(raddr := raddr.value);
      rv := 0;
    }

    method SetInterfaceUp(name: string) returns (rv: int)
      modifies this
      ensures Ret(View(), rv) == SetIfUp(pf, old(View()), name)
    {
      var fd := SysSocket();
      if fd < 0 {
        return -1;
      }
      rv := SysSetFlagsUp(IfName(name));
      SysClose(fd);
    }

    method Operate(a: Args, cmd: Command) returns (rv: int)
      modifies this
      ensures Ret(View(), rv) == TunnelOperate(pf, old(View()), a, cmd)
    {
      rv := -1;
      if Empty(a.tunnelIf) || Empty(a.netdev) {
        return;
      }
      var p := Parm("", 0, 0, 0, 0, 0, 0, 0);
      if cmd != DeleteTunnel {
        var got;
        got, p := GetTunnelParams(a);
        if got < 0 {
          return;
        }
      }
      var fd := SysSocket();
      if fd < 0 {
        return;
      }
      var found, index := SysGetIndex(IfName(a.netdev.value));
      if found < 0 {
        SysClose(fd);
        return;
      }
      p := p.(link := index);
      p := p.(name := IfName(a.tunnelIf.value));
      // A new tunnel is requested through the fallback device "ip6tnl0"; the kernel goes by p.name.
      rv := SysTunnelCommand(cmd, IfName(a.tunnelIf.value), p);
      if rv == 0 && cmd != DeleteTunnel {
        rv := SetInterfaceUp(a.tunnelIf.value);
      }
      SysClose(fd);
    }

    method Exists(a: Args) returns (rv: int)
      modifies this
      ensures Ret(View(), rv) == TunnelExists(pf, old(View()), a)
    {
      if a.tunnelIf.None? {
        return -1;
      }
      var fd := SysSocket();
      if fd < 0 {
        return -1;
      }
      var found, _ := SysGetIndex(IfName(a.tunnelIf.value));
      rv := if found < 0 then 0 else 1;
      SysClose(fd);
    }

    /** An upsert: see `Ioctl.UpsertSets`, `Ioctl.FailedUpsert` and `Ioctl.SocketsClosed`. */
    method AddOrModifyTunnel(a: Args) returns (rv: int)
      modifies this
      ensures Ret(View(), rv) == AddOrModify(pf, old(View()), a)
    {
      var exists_ := Exists(a);
      var t;
      if exists_ == 1 {
        t := Operate(a, ChangeTunnel);
      } else if exists_ == 0 {
        t := Operate(a, AddTunnel);
      } else {
        return -1;
      }
      rv := if t == 0 then 0 else -1;
    }

    method RemoveTunnel(a: Args) returns (rv: int)
      modifies this
      ensures Ret(View(), rv) == Delete(pf, old(View()), a)
    {
      var t := Operate(a, DeleteTunnel);
      rv := if t == 0 then 0 else -1;
    }
  }
}
