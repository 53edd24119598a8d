/** Which events part tunnel, firewall service and status, and that no other does. */
module Breaking {
  import opened Basics
  import opened Model
  import opened Tunnel
  import opened Resolver
  import opened Netmodel
  import opened Interface
  import opened Events
  import opened Invariant
  import opened Keeps
  import opened Lifecycle
  import opened Sync
  import opened StaleTimers

  // ---- the condition ------------------------------------------------------------------

  /** Setting up after a change of WANInterface is turned down, with what netmodel said when the query was opened. */
  predicate WanBreaks(n: Node)
    requires Live(n)
  {
    match n.env.o.addresses(n.env.calls)
    case Refused => false
    case Opened(now) =>
      if now.None? then !Usable(Rec(n), n.env.o.pf)
      else Tells(now.value) && !Usable(Patched(Rec(n), now.value), n.env.o.pf)
  }

  /** The report tells an address and a device. */
  predicate Tells(report: AddressReport) {
    report.address != "" && report.netdev != ""
  }

  /**
   After a change of the method, which gave `n` its settings, a remote address is found at once and
   cannot be set up together with the local one. An outstanding lookup of the old method fails, which
   takes the tunnel down before.
   */
  ghost predicate SwitchBreaks(n: Node)
    requires Live(n)
  {
    && !Outstanding(n.pv)
    && match MethodOf(n.dm)
       case StaticIPv6 => n.dm.endpointAddress != "" && (LocalBad(n) || !Readable(n.env.o.pf, n.dm.endpointAddress))
       case StaticFqdn => n.dm.endpointName != "" && FindsInside(n)
       case FromDhcp => Prompt(n).Some? && Counts(Prompt(n).value, n.dm.endpointName) && FindsInside(NextCall(n))
  }

  /** The event has an Enabled interface set up again, and the controller turns it down. */
  ghost predicate Breaks(n: Node, e: Event) {
    && Active(n) && Live(n) && n.dm.status == Enabled
    && match e
       case SetAddress(a) =>
         MethodOf(n.dm) == StaticIPv6 && a != n.dm.endpointAddress && 0 < |a| <= ADDRLEN && !Readable(n.env.o.pf, a)
       case ReportAddress(q, report) => q in n.pv.queries && n.pv.queries[q].kind == Addresses && Spoils(n, report)
       case SetWan(w) => w != n.dm.wan && w != "" && WanBreaks(n)
       case SetPrecedence(p) => p != n.dm.precedence && SwitchBreaks(n.(dm := n.dm.(precedence := p)))
       case SetAddressType(t) =>
         t != n.dm.addressType && n.dm.precedence != DHCPv6 && SwitchBreaks(n.(dm := n.dm.(addressType := t)))
       case LookupDone(h, answer) =>
         h in n.pv.lookups && n.pv.lookups[h].pending && LocalBad(n) && ResultOf(n.env.o, answer).Some?
       case _ => Submits(n, e) && Finds(n)
  }

  /** Reports name known devices. */
  ghost predicate Cooperative(e: Event, devs: set<string>) {
    e.ReportAddress? ==> KnownDevice(e.report, devs)
  }

  // ---- methods ------------------------------------------------------------------------

  lemma NameChangedSync(n: Node, name: string, devs: set<string>)
    requires Mid(n) && InSync(n, devs)
    ensures After(NameChanged(n, name), Active(n) && name != "" && MethodOf(n.dm) != StaticIPv6 && Finds(n), devs)
  {
    hide Resolve, Disable, Agree, KernelOk, Trusted, StatusOk, Friendly, RecordOk, Shape, Finds, QueriesLinked;
    if Active(n) && name != "" && MethodOf(n.dm) != StaticIPv6 {
      ResolveKeeps(n, name);
      ResolveSync(n, name, devs);
      var r := Resolve(n, name);
      if r.rv != 0 { CoreRecord(r.n); DisableSync(r.n, Error, devs); }
    }
  }

  lemma ProceedStaticSync(n: Node, devs: set<string>)
    requires Mid(n) && InSync(n, devs) && MethodOf(n.dm) == StaticIPv6
    ensures After(Proceed(GetRemote(n)),
                  n.dm.status == Enabled && n.dm.endpointAddress != "" && (LocalBad(n) || !Readable(n.env.o.pf, n.dm.endpointAddress)), devs)
  {
    hide GetRemote, Setup, Disable, Agree, KernelOk, Trusted, StatusOk, Friendly, RecordOk, Shape, Linked, CurrentIn;
    ProceedStatic(n);
    StaticRemoteKeeps(n);
    var p := SetStaticRemote(n);
    CoreRecord(n);
    CoreRecord(p.n);
    if p.st == Ready { SetupSync(p.n, devs); } else { DisableSync(p.n, Error, devs); }
  }

  lemma ProceedFqdnSync(n: Node, devs: set<string>)
    requires Mid(n) && InSync(n, devs) && MethodOf(n.dm) == StaticFqdn
    ensures After(Proceed(GetRemote(n)), n.dm.endpointName != "" && Finds(n), devs)
  {
    hide Resolve, Disable, Agree, KernelOk, Trusted, StatusOk, Friendly, RecordOk, Shape, QueriesLinked, CurrentIn, Finds;
    ResolveKeeps(n, n.dm.endpointName);
    ResolveSync(n, n.dm.endpointName, devs);
    var p := GetRemote(n);
    CoreRecord(p.n);
    if p.st == Missing { DisableSync(p.n, Error, devs); }
  }

  /** A new name that is told inside the open call is written and queued; nothing else happens yet. */
  lemma NewNameQueued(n: Node)
    requires Core(n) && Linked(n.pv) && Known(n)
    requires Prompt(n).Some? && Prompt(n).value != n.dm.endpointName && Counts(Prompt(n).value, n.dm.endpointName)
    ensures var r := OpenDhcpQuery(n);
            && r.rv == 0 && r.n.env == NextCall(n).env && Live(r.n)
            && r.n.dm == n.dm.(endpointName := Prompt(n).value)
            && Rec(r.n) == Rec(n).(dhcpQuery := Rec(r.n).dhcpQuery) && r.n.pv.lookups == n.pv.lookups
            && r.n.pv.queued == Prompt(n)
  {
    hide CloseQuery, Trusted, StatusOk, RecordOk, Shape, QueriesAre;
    NextIsNew(n);
    Relink(n.pv.queries, Rec(n).addrQuery, Rec(n).dhcpQuery, n.pv.next, n.pv.priv);
    CloseQueryKeeps(n, Rec(n).dhcpQuery);
  }

  lemma ProceedDhcpSync(n: Node, devs: set<string>)
    requires Mid(n) && InSync(n, devs) && MethodOf(n.dm) == FromDhcp && n.pv.queued.None? && n.pv.lookups == map[] && Active(n)
    ensures After(Drain(Proceed(GetRemote(n))),
                  Prompt(n).Some? && Counts(Prompt(n).value, n.dm.endpointName) && FindsInside(NextCall(n)), devs)
  {
    hide OpenDhcpQuery, NameChanged, Disable, After, Agree, KernelOk, Trusted, StatusOk, Friendly, RecordOk, Shape, Linked, CurrentIn, FindsInside, AwakeIn, LeavesTimer;
    ProceedKeeps(n);
    ProceedDhcp(n);
    OpenDhcpKeeps(n);
    OpenDhcpSync(n, devs);
    var r := OpenDhcpQuery(n);
    if Prompt(n).Some? && Prompt(n).value != n.dm.endpointName && Counts(Prompt(n).value, n.dm.endpointName) {
      NewNameQueued(n);
      Dequeued(r.n);
      var n1 := r.n.(pv := r.n.pv.(queued := None));
      QueuedSync(n, r.n, devs);
      NameChangedSync(n1, Prompt(n).value, devs);
    } else {
      CoreRecord(r.n);
      if r.rv != 0 { AfterInSync(r.n, devs); DisableSync(r.n, Error, devs); NotBroken(Disable(r.n, Error), devs); }
    }
  }

  lemma AfterInSync(n: Node, devs: set<string>)
    requires After(n, false, devs)
    ensures InSync(n, devs)
  {
  }

  lemma QueuedSync(n: Node, m: Node, devs: set<string>)
    requires InSync(n, devs) && Live(m) && m.env == NextCall(n).env && m.dm == n.dm.(endpointName := m.dm.endpointName)
    requires Rec(m) == Rec(n).(dhcpQuery := Rec(m).dhcpQuery) && m.pv.lookups == n.pv.lookups == map[]
    ensures var n1 := m.(pv := m.pv.(queued := None)); InSync(n1, devs) && (Finds(n1) <==> FindsInside(NextCall(n)))
  {
    hide Friendly, Agree, ResultOf;
  }

  // ---- a change of method -------------------------------------------------------------

  lemma DropSourcesSync(n: Node, devs: set<string>)
    requires Core(n) && Linked(n.pv) && InSync(n, devs)
    ensures InSync(DropSources(n), devs)
  {
    hide QueriesAre, CloseQuery, DeleteAresTimers, CloseLookup, Usable, Agree, KernelOk, Friendly, StatusOk, Trusted, RecordOk, Shape, ServedBy;
    var r := Rec(n);
    NextIsNew(n);
    Relink(n.pv.queries, r.addrQuery, r.dhcpQuery, n.pv.next, n.pv.priv);
    CloseQueryKeeps(n, r.dhcpQuery);
    var n1 := CloseQuery(n, r.dhcpQuery);
    StoreQuery(n1, r.addrQuery, NULL);
    var n2 := SetRec(n1, n.pv.priv, Rec(n1).(dhcpQuery := NULL));
    StoredSync(n1, Rec(n2), devs);
    DisarmKeeps(n2, r.dns);
    var n3 := DeleteAresTimers(n2, r.dns);
    CloseLookupSync(n3, r.dns, devs);
    CloseLookupKeeps(n3, r.dns);
    var n4 := CloseLookup(n3, r.dns);
    StoredSync(n4, Rec(n4).(dns := NULL), devs);
    RetryGoneSync(SetRec(n4, n.pv.priv, Rec(n4).(dns := NULL)), devs);
  }

  /** Pointers of the record do not matter. */
  lemma StoredSync(n: Node, r: Record, devs: set<string>)
    requires InSync(n, devs) && r == Rec(n).(dns := r.dns, dhcpQuery := r.dhcpQuery, retry := r.retry)
    ensures InSync(SetRec(n, n.pv.priv, r), devs)
  {
    hide Friendly, Agree;
  }

  lemma RetryGoneSync(n: Node, devs: set<string>)
    requires InSync(n, devs)
    ensures InSync(DropRetry(n, n.pv.priv), devs)
  {
    hide Friendly, Agree;
  }

  lemma ClearSync(n: Node, m: Node, devs: set<string>)
    requires Mid(n) && InSync(n, devs) && m == n.(dm := n.dm.(precedence := m.dm.precedence, addressType := m.dm.addressType))
    ensures InSync(ClearRemote(m), devs)
  {
    hide DropSources, Friendly, Agree, Trusted, StatusOk, RecordOk, Shape, Linked, CurrentIn;
    BlankKeeps(n, m);
    DropSourcesSync(Blank(m), devs);
  }

  lemma SwitchSync(n: Node, m: Node, devs: set<string>)
    requires Sound(n) && Active(n) && InSync(n, devs)
    requires m == n.(dm := n.dm.(precedence := m.dm.precedence, addressType := m.dm.addressType))
    ensures After(Drain(Proceed(GetRemote(ClearRemote(m)))), n.dm.status == Enabled && SwitchBreaks(m), devs)
  {
    hide Proceed, GetRemote, ClearRemote, Drain, After, InSync, Trusted, StatusOk, RecordOk, Shape, Linked, CurrentIn, AwakeIn, Proceeded, ResultOf;
    SwitchKeeps(n, m);
    ClearSync(n, m, devs);
    var c := ClearRemote(m);
    var p := Proceed(GetRemote(c));
    match MethodOf(m.dm)
    case StaticIPv6 =>
      ProceedStatic(c);
      ProceedStaticSync(c, devs);
      NothingQueued(p);
    case StaticFqdn =>
      ProceedFqdn(c);
      ProceedFqdnSync(c, devs);
      NothingQueued(p);
    case FromDhcp =>
      ProceedDhcpSync(c, devs);
  }

  lemma NothingQueued(n: Node)
    requires n.pv.queued.None?
    ensures Drain(n) == n
  {
  }

  // ---- a change of WANInterface -------------------------------------------------------

  /** What opening the address query makes of the record and of the status. */
  lemma OpenedRecord(n: Node)
    requires Core(n) && Linked(n.pv) && Known(n) && n.dm.wan != "" && n.env.o.addresses(n.env.calls).Opened?
    ensures var r := OpenAddressQuery(n); var now := Greeting(n);
            && r.rv == 0 && Live(r.n) && Rec(r.n).remote == Rec(n).remote
            && (if now.Some? && Tells(now.value) then Rec(r.n).local == Patched(Rec(n), now.value).local else Rec(r.n).local == Rec(n).local)
            && (now.None? || (Tells(now.value) && Rec(n).remote == "") ==> r.n.dm.status == n.dm.status)
            && (now.Some? && !Tells(now.value) ==> r.n.dm.status == Error)
  {
    hide OpenAddressQuery, CloseQuery, AddressCallback, Trusted, StatusOk, RecordOk, Shape, QueriesAre, ServedBy;
    OpenAddressIs(n);
    NextIsNew(n);
    Relink(n.pv.queries, Rec(n).addrQuery, Rec(n).dhcpQuery, n.pv.next, n.pv.priv);
    CloseQueryKeeps(n, Rec(n).addrQuery);
    var n1 := NextCall(CloseQuery(n, Rec(n).addrQuery));
    var now := Greeting(n);
    AddQueryKeeps(n1, Addresses);
    if now.Some? {
      AddressCallbackKeeps(AddQuery(n1, Addresses), now.value);
      CallbackRecord(AddQuery(n1, Addresses), now.value);
    }
  }

  lemma CallbackRecord(n: Node, report: AddressReport)
    requires Core(n)
    ensures var m := AddressCallback(n, n.pv.priv, report);
            && Live(m) && (if Tells(report) then Rec(m).local == Patched(Rec(n), report).local else Rec(m) == Rec(n) && m.dm.status == Error)
            && (Tells(report) && Rec(n).remote == "" ==> m.dm.status == n.dm.status)
  {
    hide Setup, Disable, Trusted, StatusOk, Shape;
    if Tells(report) {
      PatchAddress(n, report);
      SetupKeeps(SetRec(n, n.pv.priv, Patched(Rec(n), report)));
    } else {
      DisableKeeps(n, Error);
    }
  }

  lemma SetWanSync(n: Node, w: string, devs: set<string>)
    requires Sound(n) && Active(n) && InSync(n, devs) && w != n.dm.wan
    ensures After(Handle(n, SetWan(w)), n.dm.status == Enabled && w != "" && WanBreaks(n), devs)
  {
    hide OpenAddressQuery, Setup, Disable, Linked, Trusted, RecordOk, Shape, Friendly, Agree, KernelOk, CurrentIn, StatusOk;
    var n1 := n.(dm := n.dm.(wan := w));
    WriteKeeps(n, n1);
    OpenAddressKeeps(n1);
    var r := OpenAddressQuery(n1);
    CoreRecord(r.n);
    if w == "" {
      NoWan(n1);
      DisableSync(n1, Error, devs);
    } else {
      OpenAddressSync(n1, devs);
      if n.env.o.addresses(n.env.calls).Opened? { OpenedRecord(n1); SetWanOpened(n1, devs); }
      else { RefusedQuery(n1); DisableSync(r.n, Error, devs); }
    }
  }

  lemma NoWan(n: Node)
    requires Core(n) && n.dm.wan == ""
    ensures OpenAddressQuery(n) == Res(n, -1)
  {
  }

  lemma RefusedQuery(n: Node)
    requires Live(n) && n.pv.priv != NULL && n.dm.wan != "" && n.env.o.addresses(n.env.calls).Refused?
    ensures OpenAddressQuery(n).rv != 0 && Greeting(n).None?
  {
    hide CloseQuery;
  }

  lemma SetWanOpened(n: Node, devs: set<string>)
    requires Core(n) && Linked(n.pv) && Known(n) && InSync(n, devs) && n.dm.wan != "" && n.env.o.addresses(n.env.calls).Opened?
    ensures After(Setup(OpenAddressQuery(n).n), n.dm.status == Enabled && WanBreaks(n), devs)
  {
    hide OpenAddressQuery, Setup, Linked, Trusted, RecordOk, Shape, Friendly, Agree, KernelOk, StatusOk;
    OpenAddressKeeps(n);
    OpenAddressSync(n, devs);
    OpenedRecord(n);
    var r := OpenAddressQuery(n);
    CoreRecord(r.n);
    var now := Greeting(n);
    if now.Some? && Spoils(n, now.value) { StaysBroken(r.n, devs); } else { SetupSync(r.n, devs); }
  }

  // ---- lookups ------------------------------------------------------------------------

  lemma DestroyExpiredSync(n: Node, h: nat, devs: set<string>)
    requires InSync(n, devs) && Core(n) && LookupLinked(n.pv) && Current(n) && n.pv.lookups.Keys == {h}
    ensures InSync(DestroyExpired(n, h), devs)
  {
    hide ChannelGone, SetLookup, Friendly, Agree, Trusted, StatusOk, RecordOk, Shape, CurrentIn, LookupLinked, Usable;
    var l := n.pv.lookups[h].(armed := false);
    PendingChannel(n, h);
    PatchLookup(n, h, l);
    SetLookupFrame(n, h, l);
    if l.channel { ChannelGoneSync(SetLookup(n, h, l), h, devs); }
  }

  lemma ChannelGoneSync(n: Node, h: nat, devs: set<string>)
    requires InSync(n, devs) && Core(n) && n.pv.lookups.Keys == {h}
    ensures InSync(ChannelGone(n, h), devs)
  {
    hide Complete, SetLookup, Friendly, Agree, Trusted, StatusOk, RecordOk, Shape, Usable;
    if n.pv.lookups[h].pending {
      CompleteKeeps(n, h, Failure);
      CompleteSync(n, h, Failure, devs);
    }
    var n1 := DestroyChannel(n, h);
    SetLookupFrame(n1, h, Destroyed(n1.pv.lookups[h]));
  }

  lemma PendingChannel(n: Node, h: nat)
    requires Core(n) && h in n.pv.lookups
    ensures n.pv.lookups[h].pending ==> n.pv.lookups[h].channel
  {
    if n.pv.lookups[h].pending { PendingHasChannel(n, h); }
  }

  lemma LookupSync(n: Node, e: Event, devs: set<string>)
    requires Sound(n) && Active(n) && InSync(n, devs) && (e.LookupDone? || e.LookupSocket? || e.DnsTimer? || e.DestroyTimer? || e.StaleTimer?)
    ensures After(Handle(n, e), Breaks(n, e), devs)
  {
    hide Complete, DestroyExpired, LocalBad, Finds, ResultOf, Trusted, StatusOk, RecordOk, Shape, Friendly, Agree, KernelOk, QueriesLinked, Usable;
    match e
    case LookupDone(h, a) =>
      if h in n.pv.lookups && n.pv.lookups[h].pending { LookupHasChannel(n, h); CompleteSync(n, h, a, devs); NotEnabledNotBad(n); }
    case LookupSocket(_, _, _) =>
    case DnsTimer(_) =>
    case StaleTimer(_) =>
    case DestroyTimer(h) =>
      if h in n.pv.lookups && n.pv.lookups[h].armed { LookupHasChannel(n, h); DestroyExpiredSync(n, h, devs); }
  }

  lemma NotEnabledNotBad(n: Node)
    requires Live(n)
    ensures LocalBad(n) ==> n.dm.status == Enabled
    ensures Finds(n) ==> n.dm.status == Enabled
  {
    hide ResultOf, FailsOnClose;
  }

  lemma SubmitSync(n: Node, e: Event, devs: set<string>)
    requires Sound(n) && Active(n) && InSync(n, devs) && (e.SetName? || e.RetryTimer?)
    ensures After(Handle(n, e), Breaks(n, e), devs)
  {
    hide Resolve, NameChanged, Finds, Trusted, StatusOk, RecordOk, Shape, Friendly, Agree, KernelOk, QueriesLinked, CurrentIn, Usable;
    NotEnabledNotBad(n);
    match e
    case SetName(s) =>
      var n1 := n.(dm := n.dm.(endpointName := s));
      WriteKeeps(n, n1);
      NameChangedSync(n1, s, devs);
      SameFinds(n, n1);
    case RetryTimer(t) =>
      if t in n.pv.timers {
        TimerOwner(n, t);
        var n1 := n.(pv := n.pv.(timers := n.pv.timers[t := false]));
        LinkedLookup(n1.pv);
        ResolveSync(n1, n.dm.endpointName, devs);
        SameFinds(n, n1);
      }
  }

  lemma SameFinds(n: Node, m: Node)
    requires Live(n) && m == n.(dm := n.dm.(endpointName := m.dm.endpointName), pv := n.pv.(timers := m.pv.timers))
    ensures Finds(n) <==> Finds(m)
  {
    hide ResultOf;
  }

  lemma LinkedLookup(pv: Private)
    requires pv.priv in pv.heap && Linked(pv)
    ensures LookupLinked(pv)
  {
  }

  // ---- reports ------------------------------------------------------------------------

  lemma ReportNameSync(n: Node, q: nat, name: string, devs: set<string>)
    requires Sound(n) && Active(n) && InSync(n, devs)
    ensures After(Step(n, ReportName(q, name)), Breaks(n, ReportName(q, name)), devs)
  {
    hide Resolve, Disable, NameChanged, Finds, Trusted, StatusOk, RecordOk, Shape, Friendly, Agree, KernelOk, QueriesAre, CurrentIn, Usable, LookupLinked;
    NotEnabledNotBad(n);
    if q in n.pv.queries && n.pv.queries[q].kind == AftrName {
      QueryOwner(n, q);
      LinkedLookup(n.pv);
      DhcpCallbackKeeps(n, name);
      DhcpCallbackSync(n, name, devs);
      if name != n.dm.endpointName && Counts(name, n.dm.endpointName) {
        var n1 := n.(dm := n.dm.(endpointName := name));
        WriteKeeps(n, n1);
        NameChangedSync(n1, name, devs);
        SameFinds(n, n1);
        QueuedThenChanged(n, q, name);
      }
    }
  }

  lemma QueuedThenChanged(n: Node, q: nat, name: string)
    requires n.pv.queued.None? && n.pv.priv != NULL && Live(n) && q in n.pv.queries && n.pv.queries[q] == Query(AftrName, n.pv.priv)
    requires name != n.dm.endpointName && Counts(name, n.dm.endpointName)
    ensures Step(n, ReportName(q, name)) == NameChanged(n.(dm := n.dm.(endpointName := name)), name)
  {
    hide NameChanged;
    assert n.pv.(queued := Some(name)).(queued := None) == n.pv;
  }

  lemma ReportAddressSync(n: Node, q: nat, report: AddressReport, devs: set<string>)
    requires Sound(n) && Active(n) && InSync(n, devs) && KnownDevice(report, devs)
    ensures After(Handle(n, ReportAddress(q, report)), Breaks(n, ReportAddress(q, report)), devs)
  {
    hide AddressCallback, Finds, Trusted, StatusOk, RecordOk, Shape, Friendly, Agree, KernelOk, QueriesAre, CurrentIn, Usable, LookupLinked;
    if q in n.pv.queries && n.pv.queries[q].kind == Addresses { QueryOwner(n, q); AddressCallbackSync(n, report, devs); }
  }

  lemma SetAddressSync(n: Node, a: string, devs: set<string>)
    requires Sound(n) && Active(n) && InSync(n, devs)
    ensures After(Handle(n, SetAddress(a)), Breaks(n, SetAddress(a)), devs)
  {
    hide Proceed, GetRemote, Finds, Trusted, RecordOk, Shape, Friendly, Agree, KernelOk, Linked, CurrentIn;
    if MethodOf(n.dm) == StaticIPv6 && a != n.dm.endpointAddress && |a| <= ADDRLEN {
      var n1 := n.(dm := n.dm.(endpointAddress := a));
      WriteKeeps(n, n1);
      ProceedStaticSync(n1, devs);
      SetAddressIsProceed(n1);
    }
  }

  // ---- switching on and off -----------------------------------------------------------

  lemma EnableSync(n: Node, devs: set<string>)
    requires Friendly(n.env.o, devs) && NamesIps(n.dm) && Agree(false, n.env.kernel, n.env.services, devs)
    requires Trusted(n.env.o) && !n.pv.fault && StatusOk(n.dm) && n.pv.next != NULL && Nothing(n.pv)
    requires n.pv.queued.None? && n.dm.status != Enabled
    ensures var m := EnableInterface(n); InSync(m, devs) && (m.pv.queued.Some? ==> m.dm.status != Enabled)
  {
    hide OpenAddressQuery, Proceed, GetRemote, Disable, Linked, Agree, KernelOk, StatusOk, Trusted, RecordOk, Shape, Friendly, CurrentIn;
    CreateKeeps(n);
    var n1 := Create(n);
    assert InSync(n1, devs);
    OpenAddressKeeps(n1);
    var a := OpenAddressQuery(n1);
    if n.dm.wan != "" { OpenAddressSync(n1, devs); } else { NoWan(n1); }
    assert Mid(a.n) && a.n.pv.lookups == map[];
    CoreRecord(a.n);
    if a.rv == 0 {
      EnableProceeds(n);
      StillOff(a.n);
      FreshSync(a.n, devs);
    } else {
      DisableKeeps(a.n, Error);
      DisableSync(a.n, Error, devs);
      EnableFails(n);
    }
  }

  /** With no remote address yet, nothing has set the interface up. */
  lemma StillOff(n: Node)
    requires Live(n) && Shown(n) && StatusOk(n.dm) && Rec(n).remote == ""
    ensures n.dm.status != Enabled
  {
  }

  lemma FreshSync(n: Node, devs: set<string>)
    requires Mid(n) && InSync(n, devs) && n.dm.status != Enabled && n.pv.queued.None? && n.pv.lookups == map[]
    ensures var m := Proceed(GetRemote(n)); InSync(m, devs) && (m.pv.queued.Some? ==> m.dm.status != Enabled)
  {
    hide Proceed, GetRemote, Friendly, Agree, KernelOk, Mid, Proceeded, ResultOf;
    match MethodOf(n.dm)
    case StaticIPv6 => ProceedStatic(n); ProceedStaticSync(n, devs);
    case StaticFqdn => ProceedFqdn(n); ProceedFqdnSync(n, devs);
    case FromDhcp => FreshDhcpSync(n, devs);
  }

  lemma FreshDhcpSync(n: Node, devs: set<string>)
    requires Mid(n) && InSync(n, devs) && n.dm.status != Enabled && n.pv.queued.None? && MethodOf(n.dm) == FromDhcp
    ensures var m := Proceed(GetRemote(n)); InSync(m, devs) && (m.pv.queued.Some? ==> m.dm.status != Enabled)
  {
    hide OpenDhcpQuery, Disable, Agree, KernelOk, Trusted, StatusOk, Friendly, RecordOk, Shape, Linked, CurrentIn, ResultOf, AwakeIn, LeavesTimer;
    OpenDhcpKeeps(n);
    OpenDhcpSync(n, devs);
    var r := OpenDhcpQuery(n);
    CoreRecord(r.n);
    if r.rv != 0 { DisableKeeps(r.n, Error); DisableSync(r.n, Error, devs); }
    if r.n.pv.queued.Some? { NewNameQueued(n); }
  }

  lemma DisableInterfaceSync(n: Node, devs: set<string>)
    requires Mid(n) && InSync(n, devs)
    ensures var m := DisableInterface(n); Agree(m.dm.status == Enabled, m.env.kernel, m.env.services, devs)
  {
    hide Disable, Cleanup, StatusOk, Trusted, RecordOk, Friendly, Agree, KernelOk, Shape, QueriesAre, Usable;
    DisableKeeps(n, Disabled);
    CoreRecord(n);
    DisableSync(n, Disabled, devs);
    CleanupSync(Disable(n, Disabled), devs);
  }

  lemma CleanupSync(n: Node, devs: set<string>)
    requires Core(n) && Linked(n.pv) && InSync(n, devs)
    ensures var m := Cleanup(n); Agree(m.dm.status == Enabled, m.env.kernel, m.env.services, devs)
  {
    hide DeleteAresTimers, CloseLookup, CloseQuery, StatusOk, Trusted, RecordOk, Friendly, Agree, KernelOk, Shape, QueriesAre, Usable;
    var r := Rec(n);
    NextIsNew(n);
    Relink(n.pv.queries, r.addrQuery, r.dhcpQuery, n.pv.next, n.pv.priv);
    CloseQueryKeeps(n, r.dhcpQuery);
    var n1 := CloseQuery(n, r.dhcpQuery);
    Relink(n1.pv.queries, r.addrQuery, NULL, n.pv.next, n.pv.priv);
    CloseQueryKeeps(n1, r.addrQuery);
    var n2 := CloseQuery(n1, r.addrQuery);
    DisarmKeeps(n2, r.dns);
    var n3 := DeleteAresTimers(n2, r.dns);
    CloseLookupSync(n3, r.dns, devs);
    CloseLookupKeeps(n3, r.dns);
  }

  // ---- one transition -----------------------------------------------------------------

  /** As InSync, for an interface that need not be active. */
  ghost predicate NodeSync(n: Node, devs: set<string>) {
    && Friendly(n.env.o, devs) && NamesIps(n.dm)
    && Agree(n.dm.status == Enabled, n.env.kernel, n.env.services, devs)
    && (Active(n) ==> InSync(n, devs))
  }

  /** Tunnel and service are left behind an active interface in Error, or all is well. */
  ghost predicate Outcome(m: Node, broken: bool, devs: set<string>) {
    if broken then Broken(m, devs) else NodeSync(m, devs)
  }

  lemma SetEnableSync(n: Node, b: bool, devs: set<string>)
    requires Sound(n) && NodeSync(n, devs)
    ensures var m := Handle(n, SetEnable(b)); NodeSync(m, devs) && (m.pv.queued.Some? ==> m.dm.status != Enabled)
  {
    hide EnableInterface, DisableInterface, Linked, Trusted, RecordOk, Shape, Friendly, Agree, KernelOk, CurrentIn, Usable;
    var n1 := n.(dm := n.dm.(enable := b));
    if b != n.dm.enable && n.on {
      if b {
        EnableKeeps(n1);
        EnableSync(n1, devs);
      } else {
        WriteKeeps(n, n1);
        DisableInterfaceKeeps(n1);
        DisableInterfaceSync(n1, devs);
      }
    }
  }

  /** Handling a queued name does not break anything when the interface is not Enabled. */
  lemma DrainSync(n: Node, devs: set<string>)
    requires Handled(n) && NodeSync(n, devs) && (n.pv.queued.Some? ==> n.dm.status != Enabled)
    ensures NodeSync(Drain(n), devs)
  {
    hide NameChanged, Linked, Trusted, RecordOk, Shape, Friendly, Agree, KernelOk, CurrentIn, Usable, ResultOf;
    if n.pv.queued.Some? {
      var n1 := n.(pv := n.pv.(queued := None));
      Dequeued(n);
      NameChangedKeeps(n1, n.pv.queued.value);
      NameChangedSync(n1, n.pv.queued.value, devs);
      NotEnabledNotBad(n1);
    }
  }

  lemma IdleSync(n: Node, e: Event, devs: set<string>)
    requires Sound(n) && NodeSync(n, devs) && !Active(n) && !e.SetEnable?
    ensures NodeSync(Handle(n, e), devs) && Handle(n, e).pv.queued.None?
  {
    hide Resolve, Trusted, Friendly, Agree;
  }

  lemma SetMethodSync(n: Node, e: Event, devs: set<string>)
    requires Sound(n) && Active(n) && InSync(n, devs) && (e.SetPrecedence? || e.SetAddressType?)
    ensures After(Step(n, e), Breaks(n, e), devs)
  {
    hide Proceed, GetRemote, ClearRemote, NameChanged, SwitchBreaks, Trusted, StatusOk, RecordOk, Shape, Friendly, Agree, KernelOk, Linked, CurrentIn, Usable;
    var n1 := if e.SetPrecedence? then n.(dm := n.dm.(precedence := e.precedence))
              else n.(dm := n.dm.(addressType := e.addressType));
    if n1 != n && !(e.SetAddressType? && MethodOf(n1.dm) == FromDhcp) { SwitchSync(n, n1, devs); }
  }

  /** An event of an active interface that stays active breaks the agreement or keeps it. */
  lemma ActiveSync(n: Node, e: Event, devs: set<string>)
    requires Sound(n) && Active(n) && InSync(n, devs) && Cooperative(e, devs) && !e.SetEnable?
    ensures After(Step(n, e), Breaks(n, e), devs)
  {
    hide Handle, Sound, After, InSync, Breaks, Drain;
    if e.SetPrecedence? || e.SetAddressType? {
      SetMethodSync(n, e, devs);
    } else if e.ReportName? {
      ReportNameSync(n, e.q, e.aftr, devs);
    } else {
      QueuesNothing(n, e);
      NothingQueued(Handle(n, e));
      if e.SetAddress? { SetAddressSync(n, e.address, devs); }
      else if e.SetWan? { WanEvent(n, e.wan, devs); }
      else if e.ReportAddress? { ReportAddressSync(n, e.q, e.report, devs); }
      else if e.SetName? || e.RetryTimer? { SubmitSync(n, e, devs); }
      else { LookupSync(n, e, devs); }
    }
  }

  lemma WanEvent(n: Node, w: string, devs: set<string>)
    requires Sound(n) && Active(n) && InSync(n, devs)
    ensures After(Handle(n, SetWan(w)), Breaks(n, SetWan(w)), devs)
  {
    hide WanChanged, Trusted, StatusOk, Mid, Friendly, Agree, KernelOk, Usable, WanBreaks, Finds;
    if w != n.dm.wan { SetWanSync(n, w, devs); }
  }

  /** Only DHCP reports queue anything. */
  lemma QueuesNothing(n: Node, e: Event)
    requires Sound(n) && Active(n) && !e.SetEnable? && !e.SetPrecedence? && !e.SetAddressType? && !e.ReportName?
    ensures Handle(n, e).pv.queued.None?
  {
    hide Handle, Sound;
    if e.SetAddress? { SetAddressStale(n, e.address); }
    else if e.SetWan? { SetWanStale(n, e.wan); }
    else if e.ReportAddress? { ReportAddressStale(n, e.q, e.report); }
    else if e.SetName? || e.RetryTimer? { ResolvesQuietly(n, e); }
    else if e.StaleTimer? { StaleIsQuiet(n, e); }
    else { LookupStale(n, e); }
  }

  lemma ResolvesQuietly(n: Node, e: Event)
    requires Sound(n) && Active(n) && (e.SetName? || e.RetryTimer?)
    ensures Handle(n, e).pv.queued.None?
  {
    hide Resolve, NameChanged, Trusted, StatusOk, RecordOk, Shape, QueriesAre, LookupLinked, CurrentIn, LeavesTimer, AwakeIn;
    match e
    case SetName(s) =>
      var n1 := n.(dm := n.dm.(endpointName := s));
      WriteKeeps(n, n1);
      NameChangedKeeps(n1, s);
    case RetryTimer(t) =>
      if t in n.pv.timers { TimerOwner(n, t); ResolveKeeps(n.(pv := n.pv.(timers := n.pv.timers[t := false])), n.dm.endpointName); }
  }

  lemma StaleIsQuiet(n: Node, e: Event)
    requires Sound(n) && e.StaleTimer?
    ensures Handle(n, e).pv.queued.None?
  {
    hide Trusted, Mid;
  }

  /** One transition of one interface: the agreement is broken by exactly the events that `Breaks` names. */
  lemma StepSync(n: Node, e: Event, devs: set<string>)
    requires Sound(n) && NodeSync(n, devs) && Cooperative(e, devs)
    ensures Outcome(Step(n, e), Breaks(n, e), devs)
  {
    hide Handle, Drain, Sound, Friendly, Agree, Breaks, InSync;
    HandleKeeps(n, e);
    BreaksActive(n, e);
    if e.SetEnable? {
      SetEnableSync(n, e.enable, devs);
      DrainSync(Handle(n, e), devs);
    } else if !Active(n) {
      IdleSync(n, e, devs);
      NothingQueued(Handle(n, e));
    } else {
      ActiveSync(n, e, devs);
      if !Breaks(n, e) { AfterInSync(Step(n, e), devs); ActiveIsNodeSync(Step(n, e), devs); }
    }
  }

  lemma BreaksActive(n: Node, e: Event)
    ensures Breaks(n, e) ==> Active(n) && !e.SetEnable?
  {
    hide SwitchBreaks, WanBreaks, Finds, Spoils, LocalBad;
  }

  lemma ActiveIsNodeSync(n: Node, devs: set<string>)
    requires InSync(n, devs)
    ensures NodeSync(n, devs)
  {
  }
}
