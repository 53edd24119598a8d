/** A static interface converges on the last address report and the last address written. */
module LastWriter {
  import opened Basics
  import opened Model
  import opened Tunnel
  import opened Interface
  import opened Events
  import opened Invariant
  import opened Keeps
  import opened Lifecycle
  import opened Sync
  import Ioctl

  /**
   An active static interface with its address query open and controllers that accept readable
   addresses. Whether a tunnel or a firewall service is left over from before does not matter.
   */
  ghost predicate Listening(n: Node, devs: set<string>) {
    && Sound(n) && Active(n) && MethodOf(n.dm) == StaticIPv6 && Live(n)
    && Rec(n).addrQuery != NULL && n.dm.wan != "" && NamesIps(n.dm)
    && Accepting(n.env.o, devs) && KernelOk(n.env.kernel, devs)
    && (Rec(n).netdev.Some? ==> Ioctl.IfName(Rec(n).netdev.value) in devs)
  }

  /** EndpointAddress, if it is an address, has reached the record. */
  predicate Loaded(n: Node)
    requires Live(n)
  {
    0 < |n.dm.endpointAddress| <= ADDRLEN && Readable(n.env.o.pf, n.dm.endpointAddress) ==> Rec(n).remote != ""
  }

  datatype Input = Reported(report: AddressReport) | Written(address: string)

  ghost predicate Valid(i: Input, devs: set<string>) {
    match i
    case Reported(r) => r.address != "" && r.netdev != "" && KnownDevice(r, devs)
    case Written(a) => 0 < |a| <= ADDRLEN
  }

  /** Reports arrive through the address query of the record. */
  function Feed(n: Node, i: Input): Node
    requires Live(n)
  {
    match i
    case Reported(r) => Step(n, ReportAddress(Rec(n).addrQuery, r))
    case Written(a) => Step(n, SetAddress(a))
  }

  function FeedAll(n: Node, xs: seq<Input>): Node {
    if xs == [] then n
    else
      var m := FeedAll(n, xs[..|xs| - 1]);
      if Live(m) then Feed(m, xs[|xs| - 1]) else m
  }

  function LastReport(xs: seq<Input>): Option<AddressReport> {
    if xs == [] then None
    else if xs[|xs| - 1].Reported? then Some(xs[|xs| - 1].report)
    else LastReport(xs[..|xs| - 1])
  }

  function LastWrite(xs: seq<Input>): Option<string> {
    if xs == [] then None
    else if xs[|xs| - 1].Written? then Some(xs[|xs| - 1].address)
    else LastWrite(xs[..|xs| - 1])
  }

  /** The record's two addresses are in use. */
  ghost predicate Up(n: Node)
    requires Live(n)
  {
    && n.dm.status == Enabled && n.dm.inUse == Rec(n).remote && n.dm.localAddress == Rec(n).local
    && SERVICE in n.env.services && Served(n)
  }

  ghost predicate Follows(n: Node, report: Option<AddressReport>, write: Option<string>)
    requires Live(n)
  {
    && (report.Some? ==>
          && Rec(n).local == Trunc(report.value.address, ADDRLEN) && Rec(n).netdev == Some(report.value.netdev)
          && (Usable(Rec(n), n.env.o.pf) ==> Up(n)))
    && (write.Some? && Readable(n.env.o.pf, write.value) ==> Rec(n).remote == write.value)
  }

  /** Setting up with two readable addresses succeeds, whatever was there before. */
  lemma SetupUp(n: Node, devs: set<string>)
    requires Core(n) && n.dm.wan != "" && NamesIps(n.dm) && Accepting(n.env.o, devs) && KernelOk(n.env.kernel, devs)
    requires Rec(n).netdev.Some? ==> Ioctl.IfName(Rec(n).netdev.value) in devs
    ensures KernelOk(Setup(n).env.kernel, devs) && StatusOnly(n, Setup(n))
    ensures Usable(Rec(n), n.env.o.pf) ==> Up(Setup(n))
  {
    hide Setup, BringUp, ServedBy, Trusted, Orderly, Shape, StatusOk, KernelOk;
    SetupKeeps(n);
    if Usable(Rec(n), n.env.o.pf) {
      var a := ControllerArgs(Rec(n));
      assert PluginArgs(a, devs) && Parses(n.env.o.pf, a);
    }
    if TurnedDown(n) { RefusedSetup(n, devs); } else { AcceptedSetup(n, devs); }
  }

  lemma ReportFeeds(n: Node, r: AddressReport, devs: set<string>)
    requires Listening(n, devs) && Valid(Reported(r), devs)
    ensures var m := Feed(n, Reported(r));
            && Listening(m, devs) && (Loaded(n) ==> Loaded(m))
            && Rec(m).remote == Rec(n).remote && m.dm.endpointAddress == n.dm.endpointAddress && m.env.o == n.env.o
            && Follows(m, Some(r), None)
            && (Rec(n).remote == "" ==> m.dm.status != Enabled)
  {
    hide Setup, Disable, Accepting, KernelOk, Up, Trusted, Shape, QueriesAre, LookupLinked;
    QueryPresent(n);
    var q := Rec(n).addrQuery;
    var n1 := SetRec(n, n.pv.priv, Rec(n).(local := Trunc(r.address, ADDRLEN), netdev := Some(r.netdev)));
    PatchAddress(n, r);
    SetupUp(n1, devs);
    StepKeeps(n, ReportAddress(q, r));
    assert Step(n, ReportAddress(q, r)) == if Rec(n).remote != "" then Setup(n1) else n1;
  }

  lemma WriteFeeds(n: Node, a: string, report: Option<AddressReport>, devs: set<string>)
    requires Listening(n, devs) && Valid(Written(a), devs) && Loaded(n) && Follows(n, report, None)
    ensures var m := Feed(n, Written(a));
            Listening(m, devs) && Loaded(m) && m.env.o == n.env.o && Follows(m, report, Some(a))
  {
    hide Setup, Disable, Accepting, KernelOk, Up, Trusted, Shape, QueriesAre, LookupLinked;
    StepKeeps(n, SetAddress(a));
    if a != n.dm.endpointAddress {
      var n1 := n.(dm := n.dm.(endpointAddress := a));
      WriteKeeps(n, n1);
      ProceedStatic(n1);
      StaticRemoteKeeps(n1);
      SetAddressIsProceed(n1);
      SetupUp(SetStaticRemote(n1).n, devs);
      assert Step(n, SetAddress(a)) == Setup(SetStaticRemote(n1).n);
    } else {
      assert Step(n, SetAddress(a)) == n;
    }
  }

  lemma {:induction false} FeedAllFollows(n: Node, xs: seq<Input>, devs: set<string>)
    requires Listening(n, devs) && Loaded(n) && forall i :: 0 <= i < |xs| ==> Valid(xs[i], devs)
    ensures var m := FeedAll(n, xs);
            Listening(m, devs) && Loaded(m) && m.env.o == n.env.o && Follows(m, LastReport(xs), LastWrite(xs))
    decreases |xs|
  {
    hide Feed, Accepting, KernelOk, Sound, Valid, Up, Loaded, Usable;
    if xs != [] {
      var p, i := xs[..|xs| - 1], xs[|xs| - 1];
      FeedAllFollows(n, p, devs);
      var m := FeedAll(n, p);
      match i {
        case Reported(r) => ReportFeeds(m, r, devs);
        case Written(a) => WriteFeeds(m, a, LastReport(p), devs);
      }
    }
  }

  /** Enabled, with tunnel, service and data model given by this report and this address. */
  ghost predicate Converged(m: Node, report: AddressReport, address: string) {
    && m.dm.status == Enabled
    && m.dm.inUse == address
    && m.dm.localAddress == Trunc(report.address, ADDRLEN)
    && Ioctl.Carries(m.env.o.pf, m.env.kernel, TUNNEL_DEVICE, m.dm.localAddress, m.dm.inUse)
    && SERVICE in m.env.services
  }

  /** The last-writer law for one sequence of inputs: only the last of each kind needs to be readable. */
  ghost predicate Law(n: Node, xs: seq<Input>, devs: set<string>) {
    && (forall i :: 0 <= i < |xs| ==> Valid(xs[i], devs))
    && LastReport(xs).Some? && Readable(n.env.o.pf, LastReport(xs).value.address)
    && LastWrite(xs).Some? && Readable(n.env.o.pf, LastWrite(xs).value)
    ==> Converged(FeedAll(n, xs), LastReport(xs).value, LastWrite(xs).value)
  }

  lemma {:induction false} LastOnesValid(xs: seq<Input>, devs: set<string>)
    requires forall i :: 0 <= i < |xs| ==> Valid(xs[i], devs)
    ensures LastReport(xs).Some? ==> LastReport(xs).value.address != ""
    ensures LastWrite(xs).Some? ==> 0 < |LastWrite(xs).value| <= ADDRLEN
    decreases |xs|
  {
    if xs != [] { LastOnesValid(xs[..|xs| - 1], devs); }
  }

  lemma LawHolds(n: Node, xs: seq<Input>, devs: set<string>)
    requires Listening(n, devs) && Loaded(n)
    ensures Law(n, xs, devs)
  {
    hide FeedAll, Sound, Accepting, KernelOk, Ioctl.Carries, Valid, Loaded;
    if (forall i :: 0 <= i < |xs| ==> Valid(xs[i], devs)) {
      FeedAllFollows(n, xs, devs);
      LastOnesValid(xs, devs);
    }
  }

  /** Without a loaded address, writing the value that EndpointAddress already has is lost. */
  lemma LawFails(n: Node, r: AddressReport, devs: set<string>)
    requires Listening(n, devs) && !Loaded(n) && Valid(Reported(r), devs) && Readable(n.env.o.pf, r.address)
    ensures !Law(n, [Written(n.dm.endpointAddress), Reported(r)], devs)
  {
    hide Accepting, KernelOk, Mid, Trusted, StatusOk, Step;
    var a := n.dm.endpointAddress;
    var xs := [Written(a), Reported(r)];
    assert xs[..1] == [Written(a)] && xs[..1][..0] == [];
    Rewritten(n);
    assert FeedAll(n, [Written(a)]) == n;
    assert FeedAll(n, xs) == Feed(n, Reported(r));
    assert LastWrite(xs) == LastWrite([Written(a)]) == Some(a);
    ReportFeeds(n, r, devs);
  }

  lemma Rewritten(n: Node)
    requires n.pv.queued.None?
    ensures Step(n, SetAddress(n.dm.endpointAddress)) == n
  {
  }

  /**
   Main result. An active static interface that listens obeys the last-writer law for every
   sequence of inputs exactly when its EndpointAddress has reached the record.
   */
  lemma LastWriterLaw(n: Node, devs: set<string>, r: AddressReport)
    requires Listening(n, devs) && Valid(Reported(r), devs) && Readable(n.env.o.pf, r.address)
    ensures (forall xs :: Law(n, xs, devs)) <==> Loaded(n)
  {
    hide Law, Sound, Accepting, KernelOk, Valid, Loaded;
    if Loaded(n) {
      forall xs ensures Law(n, xs, devs) { LawHolds(n, xs, devs); }
    } else {
      LawFails(n, r, devs);
    }
  }
}
