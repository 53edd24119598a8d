/** The ioctl controller over whole histories, and as the controller that the plugin relies on. */
module Controller {
  import opened Model
  import opened Sync
  import Ioctl

  datatype Op = Upsert(a: Ioctl.Args) | Remove(a: Ioctl.Args)

  function Apply(pf: Ioctl.Platform, k: Ioctl.Kernel, op: Op): Ioctl.Ret {
    match op
    case Upsert(a) => Ioctl.AddOrModify(pf, k, a)
    case Remove(a) => Ioctl.Delete(pf, k, a)
  }

  function ApplyAll(pf: Ioctl.Platform, k: Ioctl.Kernel, ops: seq<Op>): Ioctl.Kernel {
    if ops == [] then k else Apply(pf, ApplyAll(pf, k, ops[..|ops| - 1]), ops[|ops| - 1]).k
  }

  /** The device that a call is about, if it names one. */
  predicate Names(op: Op, name: string) {
    op.a.tunnelIf.Some? && Ioctl.IfName(op.a.tunnelIf.value) == name
  }

  /** The same row, or none, in both tables. */
  predicate SameRow(k: Ioctl.Kernel, k1: Ioctl.Kernel, name: string) {
    (name in k.devices <==> name in k1.devices) && (name in k.devices ==> k1.devices[name] == k.devices[name])
  }

  lemma ApplyFrame(pf: Ioctl.Platform, k: Ioctl.Kernel, op: Op, name: string)
    requires Ioctl.FdsFresh(k)
    ensures Ioctl.SocketsBalanced(k, Apply(pf, k, op).k)
    ensures !Names(op, name) ==> SameRow(k, Apply(pf, k, op).k, name)
  {
    hide Ioctl.AddOrModify, Ioctl.Delete, Ioctl.SocketsBalanced;
    Ioctl.SocketsClosed(pf, k, op.a);
    match op {
      case Upsert(a) =>
        if Ioctl.AddOrModify(pf, k, a).rv == 0 { Ioctl.UpsertSets(pf, k, a); } else { Ioctl.FailedUpsert(pf, k, a); }
      case Remove(a) => Ioctl.DeleteRemoves(pf, k, a);
    }
  }

  lemma {:induction false} HistoryFrame(pf: Ioctl.Platform, k: Ioctl.Kernel, ops: seq<Op>, name: string)
    requires Ioctl.FdsFresh(k)
    ensures Ioctl.SocketsBalanced(k, ApplyAll(pf, k, ops))
    ensures (forall i :: 0 <= i < |ops| ==> !Names(ops[i], name)) ==> SameRow(k, ApplyAll(pf, k, ops), name)
    decreases |ops|
  {
    hide Apply, Names;
    if ops != [] {
      HistoryFrame(pf, k, ops[..|ops| - 1], name);
      ApplyFrame(pf, ApplyAll(pf, k, ops[..|ops| - 1]), ops[|ops| - 1], name);
    }
  }

  /**
   Whatever happened before, succeeding or failing at any system call: after a successful upsert the
   named tunnel carries the given addresses, devices that no call named are as they were at the
   start, and every socket that was ever opened has been closed.
   */
  lemma UpsertAfterAnyHistory(pf: Ioctl.Platform, k: Ioctl.Kernel, ops: seq<Op>, a: Ioctl.Args, other: string)
    requires Ioctl.FdsFresh(k) && Ioctl.AddOrModify(pf, ApplyAll(pf, k, ops), a).rv == 0
    requires !Names(Upsert(a), other) && forall i :: 0 <= i < |ops| ==> !Names(ops[i], other)
    ensures var k1 := Ioctl.AddOrModify(pf, ApplyAll(pf, k, ops), a).k;
            && Ioctl.NonEmpty(a)
            && Ioctl.Carries(pf, k1, Ioctl.IfName(a.tunnelIf.value), a.local.value, a.remote.value)
            && SameRow(k, k1, other)
            && k1.fds == k.fds && k1.socketCalls - k.socketCalls == k1.closeCalls - k.closeCalls
  {
    hide Ioctl.AddOrModify, Names;
    HistoryFrame(pf, k, ops, other);
    ApplyFrame(pf, ApplyAll(pf, k, ops), Upsert(a), other);
    Ioctl.UpsertSets(pf, ApplyAll(pf, k, ops), a);
  }

  // ---- the controller the plugin was given --------------------------------------------

  /** The oracle's controller is this one. */
  ghost predicate UsesIoctl(o: Oracle) {
    forall k, a :: o.add(k, a) == Ioctl.AddOrModify(o.pf, k, a) && o.delete(k, a) == Ioctl.Delete(o.pf, k, a)
  }

  /** It keeps the promise on which `Service.EnabledMeansTunnel` rests, whatever system calls do. */
  lemma IoctlIsTrusted(o: Oracle)
    requires UsesIoctl(o)
    ensures Trusted(o)
  {
    hide Ioctl.AddOrModify, Ioctl.Delete, Ioctl.Carries;
    forall k, a | o.add(k, a).rv == 0
      ensures Ioctl.NonEmpty(a)
      ensures Ioctl.Carries(o.pf, o.add(k, a).k, Ioctl.IfName(a.tunnelIf.value), a.local.value, a.remote.value)
    {
      assert o.add(k, a) == Ioctl.AddOrModify(o.pf, k, a);
      Ioctl.UpsertSets(o.pf, k, a);
    }
  }

  /** With working system calls it is the accepting controller of `Agreement`. */
  lemma IoctlAccepts(o: Oracle, devs: set<string>)
    requires UsesIoctl(o) && forall n :: o.pf.sys(n)
    requires (forall c :: o.firewall(c)) && (forall c :: o.ip(c) == 0)
    ensures Accepting(o, devs)
  {
    hide Ioctl.AddOrModify, Ioctl.Delete, Trusted, KernelOk, Parses;
    IoctlIsTrusted(o);
    forall k, a | KernelOk(k, devs) && PluginArgs(a, devs)
      ensures KernelOk(o.add(k, a).k, devs) && KernelOk(o.delete(k, a).k, devs)
      ensures o.add(k, a).rv != 0 ==> (Ioctl.IsTunnel(o.add(k, a).k, TUNNEL_DEVICE) <==> Ioctl.IsTunnel(k, TUNNEL_DEVICE))
      ensures !Ioctl.IsTunnel(o.delete(k, a).k, TUNNEL_DEVICE)
      ensures Parses(o.pf, a) ==> o.add(k, a).rv == 0
    {
      assert o.add(k, a) == Ioctl.AddOrModify(o.pf, k, a) && o.delete(k, a) == Ioctl.Delete(o.pf, k, a);
      WorkingIoctl(o.pf, k, a, devs);
    }
  }

  lemma WorkingIoctl(pf: Ioctl.Platform, k: Ioctl.Kernel, a: Ioctl.Args, devs: set<string>)
    requires (forall n :: pf.sys(n)) && KernelOk(k, devs) && PluginArgs(a, devs)
    ensures var k1 := Ioctl.AddOrModify(pf, k, a).k; var k2 := Ioctl.Delete(pf, k, a).k;
            && KernelOk(k1, devs) && KernelOk(k2, devs)
            && (Ioctl.AddOrModify(pf, k, a).rv != 0 ==> (Ioctl.IsTunnel(k1, TUNNEL_DEVICE) <==> Ioctl.IsTunnel(k, TUNNEL_DEVICE)))
            && !Ioctl.IsTunnel(k2, TUNNEL_DEVICE)
            && (Ioctl.AddOrModify(pf, k, a).rv == 0 <==> Parses(pf, a))
  {
    hide Ioctl.AddOrModify, Ioctl.Delete;
    assert |TUNNEL_DEVICE| == 7 && Ioctl.IfName(TUNNEL_DEVICE) == TUNNEL_DEVICE;
    Ioctl.UpsertSucceedsExactly(pf, k, a);
    Ioctl.DeleteRemoves(pf, k, a);
    if Ioctl.AddOrModify(pf, k, a).rv == 0 { Ioctl.UpsertSets(pf, k, a); } else {
      Ioctl.FailedUpsert(pf, k, a);
      assert !Parses(pf, a);
    }
  }
}
