/** The plugin on top of the ioctl controller: from data model to kernel device table. */
module EndToEnd {
  import opened Basics
  import opened Model
  import opened World
  import opened Ownership
  import opened Service
  import opened Sync
  import opened Agreement
  import opened Controller

  /**
   Whatever system calls, firewall and IP manager do, and however events interleave: with one active
   interface at a time, an interface that says Enabled has an up kernel tunnel whose endpoints are
   the addresses it shows.
   */
  lemma EnabledMeansKernelTunnel(env: Env, es: seq<WorldEvent>, k: nat)
    requires UsesIoctl(env.o) && Guarded(Start(env), es) && OneAtATime(Start(env), es)
    requires k < |Run(Start(env), es).ifs|
    requires Run(Start(env), es).ifs[k].dm.status == Enabled
    ensures var w := Run(Start(env), es); var dm := w.ifs[k].dm;
            && TUNNEL_DEVICE in w.env.kernel.devices
            && var d := w.env.kernel.devices[TUNNEL_DEVICE];
            && d.up && d.parm.Some?
            && env.o.pf.pton(dm.localAddress) == Some(d.parm.value.laddr)
            && env.o.pf.pton(dm.inUse) == Some(d.parm.value.raddr)
  {
    hide Run, Guarded, OneAtATime, UsesIoctl;
    IoctlIsTrusted(env.o);
    EnabledMeansTunnel(env, es, k);
  }

  /**
   With working system calls the ioctl controller keeps tunnel, firewall service and status together
   in every state of a run if and only if no event has an Enabled interface set up again with
   addresses that `inet_pton` does not read, or with none. Of `inet_pton` it is only asked that it
   reads what `inet_ntop` writes.
   */
  lemma KernelAgreesExactly(env: Env, es: seq<WorldEvent>, devs: set<string>)
    requires UsesIoctl(env.o) && (forall n :: env.o.pf.sys(n)) && (forall c :: env.o.firewall(c)) && (forall c :: env.o.ip(c) == 0)
    requires forall a :: env.o.ntop(a) != "" && Readable(env.o.pf, env.o.ntop(a))
    requires forall c :: env.o.addresses(c).Opened? && env.o.addresses(c).now.Some? ==> KnownDevice(env.o.addresses(c).now.value, devs)
    requires Agree(false, env.kernel, env.services, devs)
    requires Guarded(Start(env), es) && OneAtATime(Start(env), es) && CooperativeRun(Start(env), es, devs)
    ensures (forall i :: 0 <= i <= |es| ==> Agreed(Run(Start(env), es[..i]))) <==> NeverBreaks(Start(env), es)
  {
    hide Run, Guarded, OneAtATime, CooperativeRun, NeverBreaks, Agreed, UsesIoctl, Accepting;
    IoctlAccepts(env.o, devs);
    AgreementHoldsExactly(env, es, devs);
  }
}
