/** What writing WANInterface, the method or Enable achieves: queries are opened, and what they say at once counts. */
module Switching {
  import opened Basics
  import opened Model
  import opened Tunnel
  import opened Resolver
  import opened Netmodel
  import opened Interface
  import opened Events
  import opened Invariant
  import opened Keeps
  import opened Lifecycle
  import opened Sync
  import opened Breaking
  import opened Progress
  import opened World
  import opened Ownership

  // ---- the address query --------------------------------------------------------------

  /** The record once an address query has been opened as `q`, with what netmodel told inside the call. */
  function Greeted(r: Record, now: Option<AddressReport>, q: nat): Record {
    (if now.Some? && Tells(now.value) then Patched(r, now.value) else r).(addrQuery := q)
  }

  ghost predicate Introduced(now: Option<AddressReport>, devs: set<string>) {
    now.Some? && Tells(now.value) ==> KnownDevice(now.value, devs)
  }

  /** The handler of the address query: what it makes of the record, and what it may have done outside. */
  lemma CallbackOutcome(n: Node, report: AddressReport, devs: set<string>)
    requires Core(n) && Known(n)
    ensures var m := AddressCallback(n, n.pv.priv, report);
            && StatusOnly(n.(pv := m.pv), m) && Core(m)
            && m.pv == (if Tells(report) then SetRec(n, n.pv.priv, Patched(Rec(n), report)) else n).pv
            && (!Tells(report) ==> Lowered(n, m) && m.env.calls == DownCall(n, true))
            && (Tells(report) && Rec(n).remote == "" ==> m.dm == n.dm && m.env == n.env)
            && (Willing(n, Rec(n).netdev, devs) && Introduced(Some(report), devs) ==> KernelOk(m.env.kernel, devs))
  {
    hide Setup, Disable, Settled, Trusted, RecordOk, Shape, Accepting, KernelOk, IpCalls, StatusOk;
    if !Tells(report) {
      DisableOutcome(n, devs);
      DisableKeeps(n, Error);
    } else {
      PatchAddress(n, report);
      var n1 := SetRec(n, n.pv.priv, Patched(Rec(n), report));
      SetupKeeps(n1);
      if Willing(n, Rec(n).netdev, devs) && Introduced(Some(report), devs) { SetupOutcome(n1, devs); }
    }
  }

  /** What being told at once changes, if anything is told. */
  ghost predicate Replied(n: Node, m: Node, now: Option<AddressReport>, devs: set<string>)
    requires Live(n)
  {
    && (if now.Some? && !Tells(now.value) then Lowered(n, m) && m.env.calls == DownCall(n, true)
        else now.None? || Rec(n).remote == "" ==> m.dm == n.dm && m.env == n.env)
    && (Willing(n, Rec(n).netdev, devs) && Introduced(now, devs) ==> KernelOk(m.env.kernel, devs))
  }

  lemma SubscribeOutcome(n: Node, now: Option<AddressReport>, devs: set<string>)
    requires Core(n) && Known(n)
    ensures var m := SubscribeAddresses(n, now);
            && Core(m) && Replied(n, m, now, devs) && Rec(m) == Greeted(Rec(n), now, Rec(n).addrQuery)
  {
    hide AddressCallback, Trusted, StatusOk, RecordOk, Shape, Accepting, KernelOk, IpCalls;
    AddQueryKeeps(n, Addresses);
    var n1 := AddQuery(n, Addresses);
    SameIpCalls(n, n1, n.env.calls + 1);
    if now.Some? { CallbackOutcome(n1, now.value, devs); }
  }

  /** Opening the address query: refused, or open with what was told inside the call. */
  ghost predicate Asked(n: Node, r: Res, devs: set<string>)
    requires Live(n)
  {
    && Live(r.n)
    && match n.env.o.addresses(n.env.calls)
       case Refused =>
         r.rv == -1 && Rec(r.n) == Rec(n).(addrQuery := NULL) && r.n.dm == n.dm && r.n.env == NextCall(n).env
       case Opened(now) =>
         r.rv == 0 && Rec(r.n) == Greeted(Rec(n), now, n.pv.next) && Replied(NextCall(n), r.n, now, devs)
  }

  lemma AskOutcome(n: Node, devs: set<string>)
    requires Core(n) && Linked(n.pv) && Known(n) && n.dm.wan != ""
    ensures Asked(n, OpenAddressQuery(n), devs)
  {
    hide CloseQuery, SubscribeAddresses, Replied, Trusted, StatusOk, RecordOk, Shape, QueriesAre, ServedBy, Accepting, KernelOk, IpCalls;
    NextIsNew(n);
    Relink(n.pv.queries, Rec(n).addrQuery, Rec(n).dhcpQuery, n.pv.next, n.pv.priv);
    CloseQueryKeeps(n, Rec(n).addrQuery);
    var n1 := NextCall(CloseQuery(n, Rec(n).addrQuery));
    match n.env.o.addresses(n.env.calls)
    case Refused =>
    case Opened(now) =>
      SubscribeAddressesKeeps(n1, now);
      SubscribeOutcome(n1, now, devs);
      var m := SubscribeAddresses(n1, now);
      ToldElsewhere(NextCall(n), n1, m, StoreAddressQuery(m, n1.pv.next, 0).n, now, devs);
  }

  /** Queries do not matter to it. */
  lemma ToldElsewhere(n: Node, n1: Node, m: Node, m1: Node, now: Option<AddressReport>, devs: set<string>)
    requires Live(n) && Live(n1) && n1 == n.(pv := n1.pv) && Rec(n1) == Rec(n) && m1 == m.(pv := m1.pv)
    requires Replied(n1, m, now, devs)
    ensures Replied(n, m1, now, devs)
  {
    hide Accepting, KernelOk;
  }

  // ---- WANInterface -------------------------------------------------------------------

  /**
   WANInterface was written: emptied or refused, the interface went to Error; otherwise it was set up
   with the addresses it has by then, whatever the status was.
   */
  ghost predicate WanSet(n: Node, w: string, m: Node, devs: set<string>)
    requires Live(n)
  {
    if w == n.dm.wan then m == n
    else
      && Live(m) && SameSettings(n.(dm := n.dm.(wan := w)), m)
      && if w == "" then Lowered(n, m) && m.pv == n.pv
         else match n.env.o.addresses(n.env.calls)
              case Refused => Lowered(n, m) && Rec(m) == Rec(n).(addrQuery := NULL)
              case Opened(now) =>
                && Rec(m) == Greeted(Rec(n), now, n.pv.next) && m.dm.status != Disabled
                && (Willing(n, Rec(n).netdev, devs) && Introduced(now, devs) ==> Settled(m))
  }

  lemma SetWanOutcome(n: Node, w: string, devs: set<string>)
    requires Sound(n) && Active(n)
    ensures Live(n) && WanSet(n, w, Step(n, SetWan(w)), devs)
  {
    hide OpenAddressQuery, Setup, Disable, Settled, Linked, Trusted, RecordOk, Shape, Accepting, KernelOk, CurrentIn, StatusOk, IpCalls;
    var n1 := n.(dm := n.dm.(wan := w));
    WriteKeeps(n, n1);
    CoreRecord(n1);
    if w == n.dm.wan {
      NothingQueued(n);
    } else if w == "" {
      NoWan(n1);
      DisableOutcome(n1, devs);
      NothingQueued(Disable(n1, Error));
    } else {
      OpenAddressKeeps(n1);
      AskOutcome(n1, devs);
      var r := OpenAddressQuery(n1);
      match n.env.o.addresses(n.env.calls)
      case Refused =>
        DisableOutcome(r.n, devs);
        NothingQueued(Disable(r.n, Error));
      case Opened(now) =>
        SetupKeeps(r.n);
        if Willing(n, Rec(n).netdev, devs) && Introduced(now, devs) { SetupOutcome(r.n, devs); }
        NothingQueued(Setup(r.n));
    }
  }

  // ---- the remote address -------------------------------------------------------------

  /**
   The method in force obtains the remote address: a static one is missing, or copied and set up; a
   name is missing, or submitted once; DHCP is refused, or waited for, and a name that it tells at
   once and that counts is submitted once.
   */
  ghost predicate Obtained(n: Node, m: Node, b: Before, devs: set<string>) {
    && Live(m) && SameSettings(n, m) && Rec(m).local == b.local && Rec(m).netdev == b.netdev
    && match MethodOf(n.dm)
       case StaticIPv6 =>
         && m.pv.attempts == n.pv.attempts && m.pv.lookups == map[]
         && if n.dm.endpointAddress == "" then Lowered(n, m) && Rec(m).remote == b.remote
            else
              && Rec(m).remote == Trunc(n.dm.endpointAddress, ADDRLEN) && Rec(m).via == StaticIPv6 && m.dm.status != Disabled
              && (Willing(n, b.netdev, devs) ==> Settled(m))
       case StaticFqdn =>
         && m.dm.endpointName == n.dm.endpointName
         && if n.dm.endpointName == "" then Lowered(n, m) && Unasked(n, m, b)
            else Attempted(n, m, n.dm.endpointName, b, true, devs)
       case FromDhcp =>
         if n.dm.wan == "" || n.env.o.dhcp(b.call).Refused? then Lowered(n, m) && Unasked(n, m, b) && Rec(m).dhcpQuery == NULL
         else
           && Rec(m).dhcpQuery in m.pv.queries && m.pv.queries[Rec(m).dhcpQuery] == Query(AftrName, m.pv.priv)
           && var now := n.env.o.dhcp(b.call).now;
              if now.Some? && Counts(now.value, n.dm.endpointName) then
                m.dm.endpointName == now.value && Attempted(n, m, now.value, b.(call := b.call + 1), true, devs)
              else
                && Unasked(n, m, b) && m.dm.endpointName == n.dm.endpointName
                && (if b.failed then Lowered(n, m) else SameService(n, m))
  }

  /** No name was submitted. */
  ghost predicate Unasked(n: Node, m: Node, b: Before)
    requires Live(m)
  {
    m.pv.attempts == n.pv.attempts && m.pv.lookups == map[] && Rec(m).remote == b.remote
  }

  lemma ObtainedSince(n: Node, c: Node, m: Node, was: Before, b: Before, devs: set<string>)
    requires Obtained(c, m, was, devs)
    requires SameSettings(n, c) && c.dm.endpointName == n.dm.endpointName && c.pv.attempts == n.pv.attempts
    requires Willing(n, b.netdev, devs) ==> Willing(c, b.netdev, devs)
    requires !was.failed && b == was.(failed := b.failed) && (if b.failed then Lowered(n, c) else SameService(n, c))
    ensures Obtained(n, m, b, devs)
  {
    hide Attempted, Settled, Willing;
    if MethodOf(n.dm) == StaticFqdn && n.dm.endpointName != "" {
      AttemptSince(n, c, m, n.dm.endpointName, was, b, true, devs);
    } else if MethodOf(n.dm) == FromDhcp && n.dm.wan != "" && n.env.o.dhcp(b.call).Opened? {
      var now := n.env.o.dhcp(b.call).now;
      if now.Some? && Counts(now.value, n.dm.endpointName) {
        AttemptSince(n, c, m, now.value, was.(call := was.call + 1), b.(call := b.call + 1), true, devs);
      }
    }
  }

  /** Nothing has been done about the remote address yet. */
  ghost predicate Bare(n: Node) {
    && Mid(n) && Active(n) && n.pv.queued.None? && n.pv.lookups == map[]
    && Rec(n).dhcpQuery == NULL && Rec(n).dns == NULL
  }

  lemma MethodOutcome(n: Node, devs: set<string>)
    requires Bare(n)
    ensures Obtained(n, Drain(Proceed(GetRemote(n))), AsIs(n), devs)
  {
    hide Proceed, GetRemote, Obtained, AsIs, Trusted, StatusOk, RecordOk, Shape, Linked, CurrentIn;
    match MethodOf(n.dm)
    case StaticIPv6 => StaticMethod(n, devs);
    case StaticFqdn => FqdnMethod(n, devs);
    case FromDhcp => DhcpMethod(n, devs);
  }

  lemma StaticMethod(n: Node, devs: set<string>)
    requires Bare(n) && MethodOf(n.dm) == StaticIPv6
    ensures Obtained(n, Drain(Proceed(GetRemote(n))), AsIs(n), devs)
  {
    hide Proceed, GetRemote, Settled, Willing, Trusted, StatusOk, RecordOk, Shape, Linked, CurrentIn, DownCall;
    StaticOutcome(n, devs);
    NothingQueued(Proceed(GetRemote(n)));
  }

  lemma FqdnMethod(n: Node, devs: set<string>)
    requires Bare(n) && MethodOf(n.dm) == StaticFqdn
    ensures Obtained(n, Drain(Proceed(GetRemote(n))), AsIs(n), devs)
  {
    hide Resolve, Disable, Attempted, Trusted, StatusOk, RecordOk, Shape, Linked, CurrentIn, DownCall, Abandoned, AwakeIn;
    ProceedFqdn(n);
    NothingQueued(Proceed(GetRemote(n)));
    if n.dm.endpointName == "" {
      NoName(n);
      DisableOutcome(n, devs);
    } else {
      NameChangedOutcome(n, n.dm.endpointName, devs);
      AttemptParts(n, NameChanged(n, n.dm.endpointName), n.dm.endpointName, AsIs(n), true, devs);
    }
  }

  lemma NoName(n: Node)
    ensures Resolve(n, "") == Res(n, -1)
  {
  }

  lemma AttemptParts(n: Node, m: Node, host: string, b: Before, strict: bool, devs: set<string>)
    requires Attempted(n, m, host, b, strict, devs)
    ensures Live(m) && SameSettings(n, m) && Rec(m).local == b.local && Rec(m).netdev == b.netdev
  {
    hide Settled, Willing, ResultOf;
  }

  lemma DhcpMethod(n: Node, devs: set<string>)
    requires Bare(n) && MethodOf(n.dm) == FromDhcp
    ensures Obtained(n, Drain(Proceed(GetRemote(n))), AsIs(n), devs)
  {
    hide OpenDhcpQuery, Obtained, Disable, Drain, AsIs, Bare, Told;
    BareParts(n);
    if n.dm.wan == "" || n.env.o.dhcp(n.env.calls).Refused? {
      NoDhcp(n, devs);
    } else {
      var now := n.env.o.dhcp(n.env.calls).now;
      if now.Some? && Counts(now.value, n.dm.endpointName) {
        if now.value == n.dm.endpointName { ToldAgainOutcome(n, devs); } else { ToldNewOutcome(n, devs); }
      } else {
        DhcpWaits(n, devs);
      }
    }
  }

  lemma BareParts(n: Node)
    requires Bare(n)
    ensures AsIs(n) == Before(Rec(n).local, Rec(n).netdev, Rec(n).remote, false, false, n.env.calls)
    ensures Core(n) && Linked(n.pv) && Known(n)
  {
    hide Trusted, StatusOk, RecordOk, Shape, QueriesAre;
  }

  lemma NoDhcp(n: Node, devs: set<string>)
    requires Bare(n) && MethodOf(n.dm) == FromDhcp && (n.dm.wan == "" || n.env.o.dhcp(n.env.calls).Refused?)
    ensures Obtained(n, Drain(Proceed(GetRemote(n))), AsIs(n), devs)
  {
    hide Disable, Willing, Trusted, StatusOk, RecordOk, Shape, Linked, CurrentIn;
    BareParts(n);
    var r := OpenDhcpQuery(n);
    if n.dm.wan != "" { StoreQuery(NextCall(n), Rec(n).addrQuery, NULL); }
    DisableOutcome(r.n, devs);
    NothingQueued(Disable(r.n, Error));
  }

  /** The query as it was stored. */
  lemma DhcpOpened(n: Node)
    requires Bare(n) && MethodOf(n.dm) == FromDhcp && n.dm.wan != "" && n.env.o.dhcp(n.env.calls).Opened?
    ensures var n1 := NextCall(n); var s := SubscribeAftr(n1, n.env.o.dhcp(n.env.calls).now);
            && Live(s) && s.pv.priv == n.pv.priv && Proceed(GetRemote(n)) == SetRec(s, n.pv.priv, Rec(s).(dhcpQuery := n.pv.next))
            && s.pv.queries == n.pv.queries[n.pv.next := Query(AftrName, n.pv.priv)]
            && Core(AddQuery(n1, AftrName)) && LookupLinked(AddQuery(n1, AftrName).pv) && Known(AddQuery(n1, AftrName))
  {
    hide SubscribeAftr, OpenDhcpQuery, Trusted, StatusOk, RecordOk, Shape, QueriesLinked, CurrentIn, AwakeIn, Told, Abandons;
    BareParts(n);
    var n1 := NextCall(n);
    AddQueryKeeps(n1, AftrName);
    SubscribeAftrKeeps(n1, n.env.o.dhcp(n.env.calls).now);
    DhcpStored(n);
  }

  lemma DhcpStored(n: Node)
    requires Live(n) && n.pv.priv != NULL && MethodOf(n.dm) == FromDhcp && n.dm.wan != "" && Rec(n).dhcpQuery == NULL
    requires n.env.o.dhcp(n.env.calls).Opened? && Live(SubscribeAftr(NextCall(n), n.env.o.dhcp(n.env.calls).now))
    ensures var s := SubscribeAftr(NextCall(n), n.env.o.dhcp(n.env.calls).now);
            Proceed(GetRemote(n)) == SetRec(s, s.pv.priv, Rec(s).(dhcpQuery := n.pv.next))
  {
    hide SubscribeAftr;
  }

  lemma DhcpWaits(n: Node, devs: set<string>)
    requires Bare(n) && MethodOf(n.dm) == FromDhcp && n.dm.wan != "" && n.env.o.dhcp(n.env.calls).Opened?
    requires var now := n.env.o.dhcp(n.env.calls).now; !(now.Some? && Counts(now.value, n.dm.endpointName))
    ensures Obtained(n, Drain(Proceed(GetRemote(n))), AsIs(n), devs)
  {
    hide Proceed, GetRemote, Trusted, StatusOk, RecordOk, Shape, Linked, CurrentIn, Attempted, Willing;
    BareParts(n);
    DhcpOpened(n);
    NothingQueued(Proceed(GetRemote(n)));
  }

  lemma ToldAgainOutcome(n: Node, devs: set<string>)
    requires Bare(n) && MethodOf(n.dm) == FromDhcp && n.dm.wan != "" && n.env.o.dhcp(n.env.calls).Opened?
    requires n.env.o.dhcp(n.env.calls).now == Some(n.dm.endpointName) && n.dm.endpointName != ""
    ensures Obtained(n, Drain(Proceed(GetRemote(n))), AsIs(n), devs)
  {
    hide Proceed, GetRemote, DhcpCallback, Trusted, StatusOk, RecordOk, Shape, QueriesAre, CurrentIn, Attempted, Accepting, KernelOk, AwakeIn, Abandons, Abandoned;
    var name := n.dm.endpointName;
    BareParts(n);
    DhcpOpened(n);
    var n1 := AddQuery(NextCall(n), AftrName);
    var s := DhcpCallback(n1, n1.pv.priv, name);
    DhcpCallbackKeeps(n1, name);
    AgainOutcome(n1, name, devs);
    var b := AsIs(n).(call := n.env.calls + 1);
    AttemptSince(n, n1, s, name, AsIs(n1), b, true, devs);
    AttemptParts(n, s, name, b, true, devs);
    StoredAttempt(n, s, n.pv.next, name, b, true, devs);
    NothingQueued(Proceed(GetRemote(n)));
  }

  lemma AgainOutcome(n: Node, name: string, devs: set<string>)
    requires Core(n) && LookupLinked(n.pv) && name == n.dm.endpointName != ""
    ensures Attempted(n, DhcpCallback(n, n.pv.priv, name), name, AsIs(n), true, devs)
  {
    hide Resolve, Disable, Attempted, Trusted, StatusOk, RecordOk, Shape, LookupLinked;
    ResolveKeeps(n, name);
    ResolveOutcome(n, name, devs);
    StrictOutcome(n, Resolve(n, name).n, name, AsIs(n), devs);
  }

  lemma StoredAttempt(n: Node, m: Node, q: nat, host: string, b: Before, strict: bool, devs: set<string>)
    requires Attempted(n, m, host, b, strict, devs)
    ensures Attempted(n, SetRec(m, m.pv.priv, Rec(m).(dhcpQuery := q)), host, b, strict, devs)
  {
    hide Stalled, InFlight, Answered, Willing, TimerIs, Lowered, SameService, ResultOf;
    StoredStart(n, m, q, host, b, strict, devs);
  }

  lemma StoredStart(n: Node, m: Node, q: nat, host: string, b: Before, strict: bool, devs: set<string>)
    requires Live(m)
    ensures var m1 := SetRec(m, m.pv.priv, Rec(m).(dhcpQuery := q));
            && (Stalled(n, m, b, strict) ==> Stalled(n, m1, b, strict)) && (InFlight(n, m, host, b) ==> InFlight(n, m1, host, b))
            && (forall running :: TimerIs(m, running) ==> TimerIs(m1, running))
            && forall result :: Answered(n, m, host, b, result, devs) ==> Answered(n, m1, host, b, result, devs)
  {
    hide Settled, Willing, Obedient, Withdrawn;
    if Settled(m) { SettledRecord(m, SetRec(m, m.pv.priv, Rec(m).(dhcpQuery := q))); }
  }

  lemma ToldNewOutcome(n: Node, devs: set<string>)
    requires Bare(n) && MethodOf(n.dm) == FromDhcp && n.dm.wan != "" && n.env.o.dhcp(n.env.calls).Opened?
    requires var now := n.env.o.dhcp(n.env.calls).now; now.Some? && Counts(now.value, n.dm.endpointName) && now.value != n.dm.endpointName
    ensures Obtained(n, Drain(Proceed(GetRemote(n))), AsIs(n), devs)
  {
    hide NameChanged, OpenDhcpQuery, Trusted, StatusOk, RecordOk, Shape, Linked, CurrentIn, Attempted, Accepting, KernelOk, AwakeIn, Abandoned;
    var name := n.env.o.dhcp(n.env.calls).now.value;
    BareParts(n);
    NewNameQueued(n);
    ProceedKeeps(n);
    var p := Proceed(GetRemote(n));
    DhcpOpened(n);
    Dequeued(p);
    var n1 := p.(pv := p.pv.(queued := None));
    NameKeepsQuery(n1, name);
    NameChangedOutcome(n1, name, devs);
    var b := AsIs(n).(call := n.env.calls + 1);
    AttemptSince(n, n1, NameChanged(n1, name), name, AsIs(n1), b, true, devs);
    AttemptParts(n, NameChanged(n1, name), name, b, true, devs);
  }

  lemma NameKeepsQuery(n: Node, name: string)
    requires Mid(n)
    ensures var m := NameChanged(n, name);
            Live(m) && m.pv.queries == n.pv.queries && m.pv.priv == n.pv.priv && Rec(m).dhcpQuery == Rec(n).dhcpQuery
            && m.dm.endpointName == n.dm.endpointName
  {
    hide Resolve, Disable, Trusted, StatusOk, RecordOk, Shape, QueriesAre, CurrentIn, AwakeIn, Abandoned;
    ResolveKeeps(n, name);
    if Resolve(n, name).rv != 0 { DisableKeeps(Resolve(n, name).n, Error); }
  }

  // ---- a change of method -------------------------------------------------------------

  /** What is left to start from: a lookup in flight fails, and the remote address is gone. */
  ghost function Unsettled(n: Node): Before
    requires Live(n)
  {
    Before(Rec(n).local, Rec(n).netdev, "", Outstanding(n.pv), false, DownCall(n, Outstanding(n.pv)))
  }

  lemma DropOutcome(n: Node, devs: set<string>)
    requires Core(n) && Linked(n.pv)
    ensures var m := DropSources(n);
            && Live(m) && Rec(m).netdev == Rec(n).netdev && m.env.calls == DownCall(n, Outstanding(n.pv))
            && (Outstanding(n.pv) ==> Lowered(n, m)) && (Willing(n, Rec(n).netdev, devs) ==> KernelOk(m.env.kernel, devs))
  {
    hide QueriesAre, CloseQuery, DeleteAresTimers, CloseLookup, DropRetry, ServedBy, StatusOk, Trusted, RecordOk, Shape, Accepting, KernelOk, IpCalls;
    var r := Rec(n);
    NextIsNew(n);
    Relink(n.pv.queries, r.addrQuery, r.dhcpQuery, n.pv.next, n.pv.priv);
    CloseQueryKeeps(n, r.dhcpQuery);
    var n1 := CloseQuery(n, r.dhcpQuery);
    StoreQuery(n1, r.addrQuery, NULL);
    var n2 := SetRec(n1, n.pv.priv, Rec(n1).(dhcpQuery := NULL));
    DisarmKeeps(n2, r.dns);
    var n3 := DeleteAresTimers(n2, r.dns);
    CloseLookupKeeps(n3, r.dns);
    CloseOutcome(n3, r.dns, devs);
    SameIpCalls(n, n3, n.env.calls + 1);
    var n4 := CloseLookup(n3, r.dns);
    StoreNoLookup(n4);
    DropRetryKeeps(SetRec(n4, n.pv.priv, Rec(n4).(dns := NULL)));
  }

  lemma ClearOutcome(n: Node, m: Node, devs: set<string>)
    requires Mid(n) && Active(n) && n.pv.queued.None?
    requires m == n.(dm := n.dm.(precedence := m.dm.precedence, addressType := m.dm.addressType))
    ensures var c := ClearRemote(m);
            && Live(n) && Live(c) && Bare(c) && AsIs(c) == Unsettled(n).(failed := false) && SameSettings(m, c) && c.pv.attempts == m.pv.attempts
            && c.dm.endpointName == m.dm.endpointName
            && (if Outstanding(n.pv) then Lowered(n, c) else SameService(m, c))
            && (Willing(m, Rec(n).netdev, devs) ==> Willing(c, Rec(n).netdev, devs))
  {
    hide DropSources, Trusted, Linked, Shape, StatusOk, RecordOk, CurrentIn, Accepting, KernelOk, AwakeIn;
    SwitchKeeps(n, m);
    BlankKeeps(n, m);
    DropOutcome(Blank(m), devs);
    SameIpCalls(n, m, n.env.calls + 1);
    BareParts(ClearRemote(m));
  }

  lemma SwitchObtains(n: Node, m: Node, devs: set<string>)
    requires Mid(n) && Active(n) && n.pv.queued.None?
    requires m == n.(dm := n.dm.(precedence := m.dm.precedence, addressType := m.dm.addressType))
    ensures Live(n) && Obtained(m, Drain(Proceed(GetRemote(ClearRemote(m)))), Unsettled(n), devs)
  {
    hide Proceed, GetRemote, ClearRemote, Obtained, Bare, AsIs, Willing, Trusted, StatusOk, Core, Linked, CurrentIn, Outstanding, IpCalls;
    ClearOutcome(n, m, devs);
    var c := ClearRemote(m);
    MethodOutcome(c, devs);
    ObtainedSince(m, c, Drain(Proceed(GetRemote(c))), AsIs(c), Unsettled(n), devs);
  }

  /** Precedence or address type was written, which makes it `n1`: the remote address was obtained anew, by the new method. */
  ghost predicate MethodSet(n: Node, n1: Node, typed: bool, m: Node, devs: set<string>)
    requires Live(n)
  {
    if n1 == n || (typed && n.dm.precedence == DHCPv6) then m == n1 else Obtained(n1, m, Unsettled(n), devs)
  }

  lemma SwitchOutcome(n: Node, e: Event, devs: set<string>)
    requires Sound(n) && Active(n) && (e.SetPrecedence? || e.SetAddressType?)
    ensures var n1 := n.(dm := if e.SetPrecedence? then n.dm.(precedence := e.precedence) else n.dm.(addressType := e.addressType));
            Live(n) && MethodSet(n, n1, e.SetAddressType?, Step(n, e), devs)
  {
    hide Proceed, GetRemote, ClearRemote, Obtained, Unsettled, Trusted, StatusOk, RecordOk, Shape, Linked, CurrentIn;
    var n1 := n.(dm := if e.SetPrecedence? then n.dm.(precedence := e.precedence) else n.dm.(addressType := e.addressType));
    if n1 == n || (e.SetAddressType? && n.dm.precedence == DHCPv6) {
      NothingQueued(n1);
    } else {
      SwitchObtains(n, n1, devs);
    }
  }

  // ---- switching on -------------------------------------------------------------------

  /** What is known when the address query has just been opened. */
  function Introduction(n: Node): Before {
    match Greeting(n)
    case None => Before("", None, "", false, false, n.env.calls + 1)
    case Some(report) =>
      if Tells(report) then Before(Trunc(report.address, ADDRLEN), Some(report.netdev), "", false, false, n.env.calls + 1)
      else Before("", None, "", true, false, n.env.calls + 1)
  }

  /** Without a WAN interface, or refused, it goes to Error; otherwise the remote address is obtained. */
  ghost predicate SwitchedOn(n: Node, m: Node, devs: set<string>) {
    if n.dm.wan == "" || n.env.o.addresses(n.env.calls).Refused? then
      Live(m) && Lowered(n, m) && m.pv.attempts == n.pv.attempts && m.pv.lookups == map[]
    else Obtained(n, m, Introduction(n), devs)
  }

  lemma Introduces(n: Node, devs: set<string>)
    requires Trusted(n.env.o) && !n.pv.fault && StatusOk(n.dm) && n.pv.next != NULL && Nothing(n.pv)
    requires n.pv.queued.None? && n.dm.status != Enabled && Active(n)
    requires n.dm.wan != "" && n.env.o.addresses(n.env.calls).Opened?
    ensures var a := OpenAddressQuery(Create(n));
            && a.rv == 0 && Bare(a.n) && AsIs(a.n) == Introduction(n).(failed := false)
            && SameSettings(n, a.n) && a.n.dm.endpointName == n.dm.endpointName && a.n.pv.attempts == n.pv.attempts
            && (if Introduction(n).failed then Lowered(n, a.n) else SameService(n, a.n))
            && (Willing(n, Introduction(n).netdev, devs) ==> Willing(a.n, Introduction(n).netdev, devs))
  {
    hide Create, OpenAddressQuery, Linked, Trusted, StatusOk, RecordOk, Shape, Accepting, KernelOk, CurrentIn, IpCalls, AwakeIn;
    CreateKeeps(n);
    Created(n);
    var n1 := Create(n);
    OpenAddressKeeps(n1);
    AskOutcome(n1, devs);
    BareParts(OpenAddressQuery(n1).n);
  }

  lemma AskRefused(n: Node, r: Res, devs: set<string>)
    requires Live(n) && Asked(n, r, devs) && n.env.o.addresses(n.env.calls).Refused?
    ensures r.rv != 0 && r.n.dm == n.dm && r.n.env == NextCall(n).env
  {
  }

  lemma Created(n: Node)
    requires n.pv.next != NULL
    ensures Live(Create(n))
    ensures Rec(Create(n)) == Record("", "", None, NULL, NULL, NULL, NULL, MethodOf(n.dm), false, false)
  {
  }

  lemma EnableOutcome(n: Node, devs: set<string>)
    requires Trusted(n.env.o) && !n.pv.fault && StatusOk(n.dm) && n.pv.next != NULL && Nothing(n.pv)
    requires n.pv.queued.None? && n.dm.status != Enabled && Active(n)
    ensures SwitchedOn(n, Drain(EnableInterface(n)), devs)
  {
    hide Create, OpenAddressQuery, Proceed, GetRemote, Disable, Obtained, Asked, Drain, Linked, Trusted, StatusOk, RecordOk, Shape, Accepting, KernelOk, CurrentIn;
    CreateKeeps(n);
    var n1 := Create(n);
    OpenAddressKeeps(n1);
    var a := OpenAddressQuery(n1);
    if n.dm.wan == "" || n.env.o.addresses(n.env.calls).Refused? {
      if n.dm.wan == "" { NoWan(n1); } else { AskOutcome(n1, devs); AskRefused(n1, a, devs); }
      EnableFails(n);
      DisableOutcome(a.n, devs);
      NothingQueued(Disable(a.n, Error));
    } else {
      Introduces(n, devs);
      EnableProceeds(n);
      MethodOutcome(a.n, devs);
      ObtainedSince(n, a.n, Drain(EnableInterface(n)), AsIs(a.n), Introduction(n), devs);
    }
  }

  /** Enable is written while DSLite is on. */
  lemma SetEnableOutcome(n: Node, devs: set<string>)
    requires Sound(n) && n.on && !n.dm.enable
    ensures SwitchedOn(n.(dm := n.dm.(enable := true)), Step(n, SetEnable(true)), devs)
  {
    hide EnableInterface, SwitchedOn, Trusted;
    EnableOutcome(n.(dm := n.dm.(enable := true)), devs);
  }

  /** DSLite.Enable is written: the one instance that is enabled is switched on, the others stay as they are. */
  lemma DsliteOutcome(w: World, k: nat, devs: set<string>)
    requires AllSound(w) && !w.on && k < |w.ifs| && w.ifs[k].dm.enable
    requires forall j: nat :: j < |w.ifs| && j != k ==> !w.ifs[j].dm.enable
    ensures var n := At(w.(on := true), k); var w1 := WorldStep(w, SetDslite(true));
            k < |w1.ifs| && w1 == Put(w.(on := true), k, At(w1, k)) && SwitchedOn(n, At(w1, k), devs)
  {
    hide EnableInterface, Drain, SwitchedOn, Trusted, StatusOk, Sound, ToggleFrom, DrainFrom;
    var w0 := w.(on := true);
    var n := At(w0, k);
    OneToggles(w0, 0, k);
    ReadyToEnable(At(w, k));
    var m := EnableInterface(n);
    var w2 := Put(w0, k, m);
    forall j: nat | j < |w.ifs| && j != k ensures w2.ifs[j].pv.queued.None? { SoundQueue(At(w, j)); }
    OneDrains(w2, 0, k);
    EnableOutcome(n, devs);
    EnabledIsOn(n);
    assert At(w2, k) == m;
  }

  lemma ReadyToEnable(n: Node)
    requires Sound(n) && !n.on
    ensures Trusted(n.env.o) && !n.pv.fault && StatusOk(n.dm) && n.pv.next != NULL && Nothing(n.pv)
    ensures n.pv.queued.None? && n.dm.status != Enabled
  {
    hide Trusted, StatusOk;
  }

  lemma SoundQueue(n: Node)
    requires Sound(n)
    ensures n.pv.queued.None?
  {
  }

  lemma EnabledIsOn(n: Node)
    requires Trusted(n.env.o) && !n.pv.fault && StatusOk(n.dm) && n.pv.next != NULL && Nothing(n.pv)
    requires n.pv.queued.None? && Active(n)
    ensures EnableInterface(n).on && Drain(EnableInterface(n)).on
  {
    hide EnableInterface, Drain, Trusted, StatusOk, Linked, RecordOk, Shape;
    EnableKeeps(n);
    DrainKeeps(EnableInterface(n));
  }

  lemma {:induction false} OneToggles(w: World, i: nat, k: nat)
    requires i <= |w.ifs| && k < |w.ifs|
    requires forall j: nat :: i <= j < |w.ifs| && j != k ==> !w.ifs[j].dm.enable
    ensures ToggleFrom(w, i) == if i <= k then Put(w, k, Toggled(At(w, k))) else w
    decreases |w.ifs| - i
  {
    hide Toggled;
    if i < |w.ifs| {
      if i != k { NotToggled(w, i); }
      OneToggles(Put(w, i, Toggled(At(w, i))), i + 1, k);
    }
  }

  lemma NotToggled(w: World, i: nat)
    requires i < |w.ifs| && !w.ifs[i].dm.enable
    ensures Put(w, i, Toggled(At(w, i))) == w
  {
  }

  lemma {:induction false} OneDrains(w: World, i: nat, k: nat)
    requires i <= |w.ifs| && k < |w.ifs|
    requires forall j: nat :: i <= j < |w.ifs| && j != k ==> w.ifs[j].pv.queued.None?
    ensures DrainFrom(w, i) == if i <= k then Put(w, k, Drain(At(w, k))) else w
    decreases |w.ifs| - i
  {
    hide Drain;
    if i < |w.ifs| {
      if i != k { NotDrained(w, i); }
      OneDrains(Put(w, i, Drain(At(w, i))), i + 1, k);
    }
  }

  lemma NotDrained(w: World, i: nat)
    requires i < |w.ifs| && w.ifs[i].pv.queued.None?
    ensures Put(w, i, Drain(At(w, i))) == w
  {
    hide NameChanged;
  }

  // ---- switching off ------------------------------------------------------------------

  /** What was up is withdrawn, and nothing else happens outside. */
  ghost predicate Left(n: Node, m: Node) {
    && m.dm.origin == m.dm.precedence
    && if n.dm.status == Enabled then Obedient(n.env.o, n.dm) ==> Withdrawn(n.dm, m.env.services, m.env.ip)
       else m.env.kernel == n.env.kernel && m.env.services == n.env.services && m.env.ip == n.env.ip
  }

  /** Enable is cleared while DSLite is on. */
  lemma SwitchOffOutcome(n: Node)
    requires Sound(n) && Active(n)
    ensures Left(n, Step(n, SetEnable(false)))
  {
    hide Cleanup, Disable, Trusted, StatusOk, RecordOk, Shape, Linked, CurrentIn;
    var n1 := n.(dm := n.dm.(enable := false));
    WriteKeeps(n, n1);
    DisableKeeps(n1, Disabled);
    if n.dm.status == Enabled && Obedient(n.env.o, n.dm) { Withdraws(n1, Disabled); }
    CleanupOutcome(Disable(n1, Disabled));
    DisableInterfaceKeeps(n1);
    NothingQueued(DisableInterface(n1));
  }

  lemma CleanupOutcome(n: Node)
    requires Core(n) && Linked(n.pv) && n.dm.status == Disabled && n.dm.origin == n.dm.precedence
    ensures Left(n, Cleanup(n))
  {
    hide DeleteAresTimers, CloseLookup, CloseQuery, StatusOk, Trusted, RecordOk, Shape, QueriesAre, KernelOk, Accepting, IpCalls, Obedient, Withdrawn;
    var r := Rec(n);
    NextIsNew(n);
    Relink(n.pv.queries, r.addrQuery, r.dhcpQuery, n.pv.next, n.pv.priv);
    CloseQueryKeeps(n, r.dhcpQuery);
    var n1 := CloseQuery(n, r.dhcpQuery);
    Relink(n1.pv.queries, r.addrQuery, NULL, n.pv.next, n.pv.priv);
    CloseQueryKeeps(n1, r.addrQuery);
    var n2 := CloseQuery(n1, r.addrQuery);
    DisarmKeeps(n2, r.dns);
    var n3 := DeleteAresTimers(n2, r.dns);
    CloseLookupKeeps(n3, r.dns);
    CloseOutcome(n3, r.dns, {});
  }
}
