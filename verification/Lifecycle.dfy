/** Handlers as a whole: from one quiet moment to the next. */
module Lifecycle {
  import opened Basics
  import opened Model
  import opened Tunnel
  import opened Resolver
  import opened Netmodel
  import opened Interface
  import opened Events
  import opened Invariant
  import opened Keeps

  /** A lookup for this interface has been started and has not completed. */
  ghost predicate Outstanding(pv: Private) {
    exists h :: h in pv.lookups && pv.lookups[h].pending
  }

  /** Nothing exists on behalf of the interface. */
  ghost predicate Nothing(pv: Private) {
    && pv.heap == map[] && pv.queries == map[] && pv.lookups == map[] && pv.timers == map[]
    && pv.queriesOpened == pv.queriesClosed
  }

  lemma DisarmKeeps(n: Node, h: nat)
    requires Core(n) && n.pv.lookups.Keys == Keys(h)
    ensures var m := DeleteAresTimers(n, h);
            && Core(m) && m == n.(pv := n.pv.(lookups := m.pv.lookups)) && m.pv.lookups.Keys == Keys(h)
            && (h != NULL ==> m.pv.lookups[h] == n.pv.lookups[h].(armed := false, ticking := false, timed := false))
            && (Outstanding(n.pv) <==> h != NULL && n.pv.lookups[h].pending)
  {
    hide StatusOk, Trusted, RecordOk;
    assert h != NULL ==> h in n.pv.lookups;
  }

  /** Delete the timers, then close: always destroys the channel, and no timer is left. */
  lemma DisarmAndClose(n: Node, h: nat)
    requires Core(n) && n.pv.lookups.Keys == Keys(h)
    ensures var m := CloseLookup(DeleteAresTimers(n, h), h);
            && Core(m) && Serves(n, m) && CallbackFrame(n, m) && m.pv.lookups == map[] && m.pv.stale == n.pv.stale && m.pv.wild == n.pv.wild
            && Rec(m) == Rec(n).(answered := Rec(m).answered)
            && (if Outstanding(n.pv) then m.dm.status == Error else m == n.(pv := m.pv))
  {
    hide DeleteAresTimers, CloseLookup, StatusOk, Trusted, RecordOk, ServedBy, Shape;
    DisarmKeeps(n, h);
    CloseLookupKeeps(DeleteAresTimers(n, h), h);
  }

  lemma DropRetryKeeps(n: Node)
    requires Core(n) && n.pv.lookups == map[]
    ensures var m := DropRetry(n, n.pv.priv);
            && Core(m) && m == n.(pv := n.pv.(heap := m.pv.heap, timers := map[])) && Rec(m) == Rec(n).(retry := NULL)
  {
    hide StatusOk, Trusted;
    assert n.pv.timers - {Rec(n).retry} == map[];
  }

  lemma StoreNoLookup(n: Node)
    requires Core(n)
    ensures Core(SetRec(n, n.pv.priv, Rec(n).(dns := NULL)))
  {
    hide StatusOk, Trusted;
  }

  /** What clearing and cleaning up leave alone. */
  ghost predicate ClearFrame(n: Node, m: Node)
    requires Live(n)
  {
    && m.on == n.on && m.env.o == n.env.o && Live(m) && m.pv.priv == n.pv.priv && m.pv.next == n.pv.next
    && m.pv.queued == n.pv.queued && m.pv.attempts == n.pv.attempts && m.pv.stale == n.pv.stale && m.pv.wild == n.pv.wild
    && Rec(m) == Rec(n).(dhcpQuery := NULL, dns := NULL, retry := NULL, answered := Rec(m).answered)
    && m.pv.lookups == map[] && m.pv.timers == map[]
    && m.dm == n.dm.(status := m.dm.status, inUse := m.dm.inUse, localAddress := m.dm.localAddress,
                     origin := m.dm.origin, usedVia := m.dm.usedVia)
  }

  lemma DropSourcesKeeps(n: Node)
    requires Core(n) && Linked(n.pv)
    ensures var m := DropSources(n);
            && Core(m) && Serves(n, m) && Linked(m.pv) && ClearFrame(n, m)
            && (m.dm.status == n.dm.status || m.dm.status != Disabled)
            && (if Outstanding(n.pv) then m.dm.status == Error else m == n.(pv := m.pv))
  {
    hide QueriesAre, CloseQuery, DeleteAresTimers, CloseLookup, DropRetry, ServedBy, StatusOk, Trusted, RecordOk, Shape;
    var r := Rec(n);
    NextIsNew(n);
    Relink(n.pv.queries, r.addrQuery, r.dhcpQuery, n.pv.next, n.pv.priv);
    CloseQueryKeeps(n, r.dhcpQuery);
    var n1 := CloseQuery(n, r.dhcpQuery);
    StoreQuery(n1, r.addrQuery, NULL);
    var n2 := SetRec(n1, n.pv.priv, Rec(n1).(dhcpQuery := NULL));
    DisarmAndClose(n2, r.dns);
    var n3 := CloseLookup(DeleteAresTimers(n2, r.dns), r.dns);
    StoreNoLookup(n3);
    DropRetryKeeps(SetRec(n3, n.pv.priv, Rec(n3).(dns := NULL)));
  }

  /** After cleaning up, nothing is left; an outstanding lookup turns the status into Error. */
  lemma CleanupKeeps(n: Node)
    requires Core(n) && Linked(n.pv)
    ensures var m := Cleanup(n);
            && Nothing(m.pv) && !m.pv.fault && m.pv.priv == n.pv.priv && m.pv.next == n.pv.next
            && m.pv.queued == n.pv.queued && m.pv.attempts == n.pv.attempts && m.pv.stale == n.pv.stale && m.pv.wild == n.pv.wild
            && m.on == n.on && m.env.o == n.env.o && StatusOk(m.dm) && Serves(n, m)
            && m.dm == n.dm.(status := m.dm.status, inUse := m.dm.inUse, localAddress := m.dm.localAddress,
                             origin := m.dm.origin, usedVia := m.dm.usedVia)
            && m.dm.status == (if Outstanding(n.pv) then Error else n.dm.status)
  {
    hide QueriesAre, CloseQuery, DeleteAresTimers, CloseLookup, DropRetry, ServedBy, StatusOk, Trusted, RecordOk, Shape;
    var r := Rec(n);
    NextIsNew(n);
    Relink(n.pv.queries, r.addrQuery, r.dhcpQuery, n.pv.next, n.pv.priv);
    CloseQueryKeeps(n, r.dhcpQuery);
    var n1 := CloseQuery(n, r.dhcpQuery);
    Relink(n1.pv.queries, r.addrQuery, NULL, n.pv.next, n.pv.priv);
    CloseQueryKeeps(n1, r.addrQuery);
    var n2 := CloseQuery(n1, r.addrQuery);
    NoQueries(n2);
    DisarmAndClose(n2, r.dns);
    var n3 := CloseLookup(DeleteAresTimers(n2, r.dns), r.dns);
    DropRetryKeeps(n3);
    OneRecord(DropRetry(n3, n.pv.priv).pv);
  }

  lemma NoQueries(n: Node)
    requires Core(n) && QueriesAre(n.pv.queries, NULL, NULL)
    ensures n.pv.queries == map[] && n.pv.queriesOpened == n.pv.queriesClosed
  {
    hide StatusOk, Trusted, RecordOk;
  }

  lemma OneRecord(pv: Private)
    requires Shape(pv)
    ensures pv.heap - {pv.priv} == map[] && !pv.fault
  {
  }

  /** A static address needs no lookup, no DHCP query and no retry timer. */
  ghost predicate MethodOk(n: Node)
    requires Live(n)
  {
    && (MethodOf(n.dm) == StaticIPv6 ==> Rec(n).dns == NULL && Rec(n).retry == NULL)
    && (Rec(n).dhcpQuery != NULL ==> MethodOf(n.dm) == FromDhcp)
  }

  /** Holds between the parts of a handler. */
  ghost predicate Mid(n: Node) {
    Core(n) && Linked(n.pv) && Known(n) && MethodOk(n) && Current(n)
  }

  /**
   A static address never leaves an active interface Disabled; Enabled shows the address of the
   record, which is EndpointAddress unless that has been emptied since.
   */
  ghost predicate Decided(n: Node)
    requires Live(n)
  {
    MethodOf(n.dm) == StaticIPv6 ==>
      && n.dm.status != Disabled && Shown(n)
      && (Rec(n).remote == "" || n.dm.endpointAddress == "" || Rec(n).remote == Trunc(n.dm.endpointAddress, ADDRLEN))
  }

  /** Only a DHCP report queues a name, which is by then the value of EndpointName. */
  ghost predicate QueueOk(n: Node) {
    n.pv.queued.Some? ==> MethodOf(n.dm) == FromDhcp && n.pv.queued == Some(n.dm.endpointName) && n.dm.endpointName != ""
  }

  ghost predicate DnsOpens(n: Node) {
    forall c :: n.env.o.dns(c).Opened?
  }

  /** No parameter that an administrator sets has changed, EndpointName excepted. */
  ghost predicate SameSettings(n: Node, m: Node) {
    && m.on == n.on && m.env.o == n.env.o
    && m.dm == n.dm.(status := m.dm.status, inUse := m.dm.inUse, localAddress := m.dm.localAddress,
                     origin := m.dm.origin, usedVia := m.dm.usedVia, endpointName := m.dm.endpointName)
  }

  lemma StaticRemoteKeeps(n: Node)
    requires Core(n)
    ensures var p := SetStaticRemote(n);
            && Core(p.n) && p.st == (if n.dm.endpointAddress == "" then Missing else Ready)
            && p.n == n.(pv := n.pv.(heap := p.n.pv.heap))
            && Rec(p.n) == Rec(n).(remote := Rec(p.n).remote, via := Rec(p.n).via)
            && Rec(p.n).remote == (if p.st == Missing then Rec(n).remote else Trunc(n.dm.endpointAddress, ADDRLEN))
            && (p.st == Missing ==> p.n == n)
  {
    hide StatusOk, Trusted, Shape;
    var r := Rec(n).(remote := Trunc(n.dm.endpointAddress, ADDRLEN), via := MethodOf(n.dm));
    OwnTimer(n.pv);
    PatchShape(n.pv, r, n.pv.timers, n.pv.next);
  }

  /** What asking for the remote address and acting on the answer keeps, whatever the method. */
  ghost predicate Proceeded(n: Node, m: Node) {
    && Mid(m) && Serves(n, m) && SameSettings(n, m) && Decided(m) && m.pv.wild == n.pv.wild
    && (m.dm.status == n.dm.status || m.dm.status != Disabled)
    && Live(n) && (Awake(n) && DnsOpens(n) ==> Awake(m))
  }

  /** A static address is copied, or missing. */
  lemma ProceedStatic(n: Node)
    requires Mid(n) && MethodOf(n.dm) == StaticIPv6
    ensures var m := Proceed(GetRemote(n));
            && Proceeded(n, m)
            && m.pv == n.pv.(heap := m.pv.heap) && m.dm.endpointName == n.dm.endpointName
            && Rec(m).remote == (if n.dm.endpointAddress == "" then Rec(n).remote else Trunc(n.dm.endpointAddress, ADDRLEN))
    ensures GetRemote(n) == SetStaticRemote(n)
  {
    hide QueriesAre, SetStaticRemote, Setup, Disable, ServedBy, StatusOk, Trusted, RecordOk, Shape;
    StaticRemoteKeeps(n);
    NoLookup(n);
    var p := GetRemote(n);
    assert p == SetStaticRemote(n);
    if p.st == Ready { SetupKeeps(p.n); } else { DisableKeeps(p.n, Error); }
  }

  lemma ProceedFqdn(n: Node)
    requires Mid(n) && MethodOf(n.dm) == StaticFqdn
    ensures var m := Proceed(GetRemote(n));
            && Proceeded(n, m)
            && m.pv.queued == n.pv.queued && m.dm.endpointName == n.dm.endpointName
            && m.pv.attempts == n.pv.attempts + (if n.dm.endpointName == "" then [] else [n.dm.endpointName])
            && m.pv.stale == n.pv.stale + (if n.dm.endpointName == "" then {} else Abandoned(n.pv))
  {
    hide QueriesAre, Resolve, Disable, ServedBy, StatusOk, Trusted, RecordOk, Shape, Abandoned, AwakeIn;
    ResolveKeeps(n, n.dm.endpointName);
    var p := GetRemote(n);
    if p.st == Missing { DisableKeeps(p.n, Error); }
    assert n.pv.attempts + [] == n.pv.attempts;
  }

  lemma ProceedDhcp(n: Node)
    requires Mid(n) && MethodOf(n.dm) == FromDhcp
    ensures var m := Proceed(GetRemote(n));
            && Proceeded(n, m) && Told(n, m, Prompt(n)) && Abandons(n, m, Prompt(n))
  {
    hide QueriesAre, OpenDhcpQuery, Disable, ServedBy, StatusOk, Trusted, RecordOk, Shape, Abandoned, AwakeIn;
    OpenDhcpKeeps(n);
    var p := GetRemote(n);
    if p.st == Missing { DisableKeeps(p.n, Error); }
  }

  /** Asking for the remote address and acting on the answer. */
  lemma ProceedKeeps(n: Node)
    requires Mid(n) && n.pv.queued.None?
    ensures var m := Proceed(GetRemote(n)); Proceeded(n, m) && QueueOk(m)
  {
    hide Proceed, GetRemote, Proceeded;
    match MethodOf(n.dm)
    case StaticIPv6 => ProceedStatic(n);
    case StaticFqdn => ProceedFqdn(n);
    case FromDhcp => ProceedDhcp(n); ProceededMethod(n, Proceed(GetRemote(n)));
  }

  lemma ProceededMethod(n: Node, m: Node)
    requires Proceeded(n, m)
    ensures MethodOf(m.dm) == MethodOf(n.dm)
  {
    hide Mid, Serves, Decided, AwakeIn;
  }

  lemma NoLookup(n: Node)
    requires Core(n) && LookupLinked(n.pv) && Rec(n).dns == NULL
    ensures NULL !in n.pv.lookups && n.pv.lookups == map[]
  {
    hide StatusOk, Trusted, RecordOk;
  }

  /** The event hands a name to `resolve_endpoint_name` while the interface may have a lookup. */
  predicate Submits(n: Node, e: Event) {
    && Active(n)
    && match e
       case SetName(s) => MethodOf(n.dm) != StaticIPv6 && s != "" && s != n.dm.endpointName && |s| <= NAMELEN
       case ReportName(q, s) => q in n.pv.queries && n.pv.queries[q].kind == AftrName && Counts(s, n.dm.endpointName)
       case RetryTimer(t) => t in n.pv.timers && n.pv.timers[t] && n.dm.endpointName != ""
       case _ => false
  }

  // ---- from one quiet moment to the next ----------------------------------------------

  /** What holds of every interface, active or not, whenever no handler runs. */
  ghost predicate Sound(n: Node) {
    && Trusted(n.env.o) && n.pv.queued.None? && StatusOk(n.dm)
    && (if Active(n) then Mid(n) && Decided(n) else Nothing(n.pv) && !n.pv.fault && n.pv.next != NULL && n.dm.status != Enabled)
  }

  /** The end of a handler: its name report, if any, is still queued. */
  ghost predicate Handled(n: Node) {
    && Trusted(n.env.o) && StatusOk(n.dm)
    && (if Active(n) then Mid(n) && Decided(n) && QueueOk(n)
        else Nothing(n.pv) && !n.pv.fault && n.pv.next != NULL && n.dm.status != Enabled && n.pv.queued.None?)
  }

  /** Retrying goes on, as long as queries can be opened. */
  ghost predicate StaysAwake(n: Node, m: Node) {
    && (Active(n) ==> Live(n)) && (Active(m) ==> Live(m))
    && ((Active(n) ==> Awake(n)) && DnsOpens(n) ==> (Active(m) ==> Awake(m)))
  }

  lemma CreateKeeps(n: Node)
    requires Trusted(n.env.o) && !n.pv.fault && StatusOk(n.dm) && n.pv.next != NULL && Nothing(n.pv)
    ensures var m := Create(n);
            && Mid(m) && Serves(n, m) && m == n.(pv := m.pv) && m.pv.queued == n.pv.queued && Awake(m)
            && m.pv.attempts == n.pv.attempts && m.pv.stale == n.pv.stale && m.pv.wild == n.pv.wild && m.pv.lookups == map[]
            && Rec(m).remote == "" && (n.dm.status != Enabled ==> Shown(m))
  {
    hide Trusted;
  }

  lemma EnableKeeps(n: Node)
    requires Trusted(n.env.o) && !n.pv.fault && StatusOk(n.dm) && n.pv.next != NULL && Nothing(n.pv)
    requires n.pv.queued.None?
    ensures var m := EnableInterface(n);
            && Mid(m) && Serves(n, m) && SameSettings(n, m) && QueueOk(m) && Decided(m)
            && (DnsOpens(n) ==> Awake(m))
  {
    hide Create, OpenAddressQuery, GetRemote, Proceed, Disable, Linked, ServedBy, StatusOk, Trusted, RecordOk, Shape;
    CreateKeeps(n);
    OpenAddressKeeps(Create(n));
    var a := OpenAddressQuery(Create(n));
    assert Mid(a.n);
    if a.rv == 0 {
      ProceedKeeps(a.n);
    } else {
      DisableKeeps(a.n, Error);
      EnableFails(n);
    }
  }

  lemma EnableFails(n: Node)
    requires OpenAddressQuery(Create(n)).rv != 0
    ensures EnableInterface(n) == Disable(OpenAddressQuery(Create(n)).n, Error)
  {
    hide Create, OpenAddressQuery, Disable;
  }

  lemma EnableProceeds(n: Node)
    requires OpenAddressQuery(Create(n)).rv == 0
    ensures EnableInterface(n) == Proceed(GetRemote(OpenAddressQuery(Create(n)).n))
  {
    hide Create, OpenAddressQuery, Proceed, GetRemote;
  }

  /** Writing a parameter that the record does not depend on, or DSLite.Enable. */
  lemma WriteKeeps(n: Node, m: Node)
    requires Mid(n) && m == n.(on := m.on, dm := m.dm) && MethodOf(m.dm) == MethodOf(n.dm)
    requires m.dm == n.dm.(enable := m.dm.enable, endpointAddress := m.dm.endpointAddress,
                           endpointName := m.dm.endpointName, wan := m.dm.wan, addressType := m.dm.addressType)
    ensures Mid(m) && Serves(n, m) && (Awake(n) <==> Awake(m))
  {
    hide Trusted, RecordOk, Linked, Shape;
  }

  /** Writing a parameter that selects the method, followed by clearing: nothing of the old method is left. */
  lemma SwitchKeeps(n: Node, m: Node)
    requires Mid(n)
    requires m == n.(dm := n.dm.(precedence := m.dm.precedence, addressType := m.dm.addressType))
    ensures var c := ClearRemote(m);
            && Mid(c) && Serves(n, c) && c.pv.queued == n.pv.queued && Awake(c)
            && SameSettings(m, c) && c.dm.endpointName == n.dm.endpointName
            && Rec(c).remote == "" && Rec(c).dns == NULL && Rec(c).dhcpQuery == NULL && Rec(c).retry == NULL
            && c.pv.lookups == map[] && c.pv.timers == map[]
            && c.pv.attempts == n.pv.attempts && c.pv.stale == n.pv.stale && c.pv.wild == n.pv.wild
            && Rec(c).local == Rec(n).local && (if Outstanding(n.pv) then c.dm.status == Error else c == m.(pv := c.pv))
  {
    hide DropSources, Trusted, Linked, Shape, StatusOk;
    var b := Blank(m);
    BlankKeeps(n, m);
    DropSourcesKeeps(b);
    ClearedKnown(b);
  }

  lemma BlankKeeps(n: Node, m: Node)
    requires Mid(n) && m == n.(dm := n.dm.(precedence := m.dm.precedence, addressType := m.dm.addressType))
    ensures var b := Blank(m); Core(b) && Serves(n, b) && Linked(b.pv)
  {
    hide Trusted, Shape, QueriesAre;
    OwnTimer(n.pv);
    PatchShape(n.pv, Rec(n).(remote := "", asked := false, answered := false), n.pv.timers, n.pv.next);
  }

  lemma ClearedKnown(n: Node)
    requires Core(n) && Linked(n.pv) && Rec(n).remote == "" && !Rec(n).asked
    ensures var c := DropSources(n); Live(c) && Known(c) && MethodOk(c) && Awake(c) && Current(c)
  {
    hide DropSources, Trusted, Linked, Shape, StatusOk, RecordOk;
    DropSourcesKeeps(n);
  }

  lemma DisableInterfaceKeeps(n: Node)
    requires Mid(n)
    ensures var m := DisableInterface(n);
            && Nothing(m.pv) && !m.pv.fault && m.pv.next != NULL && m.pv.queued == n.pv.queued
            && StatusOk(m.dm) && Serves(n, m) && SameSettings(n, m)
            && m.dm.endpointName == n.dm.endpointName && m.pv.attempts == n.pv.attempts && m.pv.stale == n.pv.stale && m.pv.wild == n.pv.wild
            && m.dm.status == (if Outstanding(n.pv) then Error else Disabled)
  {
    hide Cleanup, Disable, Linked, ServedBy, StatusOk, Trusted, RecordOk;
    DisableKeeps(n, Disabled);
    CleanupKeeps(Disable(n, Disabled));
  }

  // ---- one event ----------------------------------------------------------------------

  /** What handling one event achieves. */
  ghost predicate Good(n: Node, m: Node) {
    Handled(m) && Serves(n, m) && m.env.o == n.env.o && m.on == n.on
  }

  /** An event that changes nothing. */
  lemma SoundIsGood(n: Node)
    requires Sound(n)
    ensures Good(n, n) && StaysAwake(n, n)
  {
    hide Trusted, RecordOk, StatusOk, Shape, Linked, CurrentIn;
  }

  lemma SetEnableKeeps(n: Node, b: bool)
    requires Sound(n)
    ensures Good(n, Handle(n, SetEnable(b))) && StaysAwake(n, Handle(n, SetEnable(b)))
  {
    hide EnableInterface, DisableInterface, Linked, Trusted, RecordOk, Shape;
    var n1 := n.(dm := n.dm.(enable := b));
    if b != n.dm.enable && n.on {
      if b {
        EnableKeeps(n1);
      } else {
        WriteKeeps(n, n1);
        DisableInterfaceKeeps(n1);
      }
    }
  }

  lemma SetAddressKeeps(n: Node, a: string)
    requires Sound(n)
    ensures Good(n, Handle(n, SetAddress(a))) && StaysAwake(n, Handle(n, SetAddress(a)))
  {
    hide GetRemote, SetStaticRemote, Setup, Disable, Linked, Trusted, RecordOk, Shape;
    var n1 := n.(dm := n.dm.(endpointAddress := a));
    if Active(n) {
      WriteKeeps(n, n1);
      if MethodOf(n.dm) == StaticIPv6 {
        ProceedKeeps(n1);
        SetAddressIsProceed(n1);
      }
    }
  }

  /** A static address is never waited for. */
  lemma SetAddressIsProceed(n: Node)
    requires Active(n) && MethodOf(n.dm) == StaticIPv6
    ensures AddressChanged(n) == Proceed(GetRemote(n))
  {
    hide CloseLookup, Setup, Disable;
  }

  lemma SetMethodKeeps(n: Node, e: Event)
    requires Sound(n) && (e.SetPrecedence? || e.SetAddressType?)
    ensures Good(n, Handle(n, e)) && StaysAwake(n, Handle(n, e))
  {
    hide GetRemote, Proceed, ClearRemote, Linked, Trusted, RecordOk, Shape;
    var n1 := if e.SetPrecedence? then n.(dm := n.dm.(precedence := e.precedence))
              else n.(dm := n.dm.(addressType := e.addressType));
    if n1 != n && Active(n) {
      if e.SetAddressType? && MethodOf(n1.dm) == FromDhcp {
        WriteKeeps(n, n1);
      } else {
        SwitchKeeps(n, n1);
        ProceedKeeps(ClearRemote(n1));
      }
    }
  }

  /** A name that changed, whoever changed it. */
  lemma NameChangedKeeps(n: Node, name: string)
    requires Mid(n) && Active(n) && Decided(n) && n.pv.queued.None?
    ensures var m := NameChanged(n, name);
            && Mid(m) && Serves(n, m) && SameSettings(n, m) && Decided(m) && m.pv.queued.None? && m.pv.wild == n.pv.wild
            && m.dm.endpointName == n.dm.endpointName
            && (Awake(n) && DnsOpens(n) ==> Awake(m))
            && m.pv.attempts == n.pv.attempts + (if name == "" || MethodOf(n.dm) == StaticIPv6 then [] else [name])
            && m.pv.stale == n.pv.stale + (if name == "" || MethodOf(n.dm) == StaticIPv6 then {} else Abandoned(n.pv))
  {
    hide Resolve, Disable, ServedBy, Trusted, RecordOk, Shape, Abandoned, AwakeIn, StatusOk;
    if name != "" && MethodOf(n.dm) != StaticIPv6 {
      ResolveKeeps(n, name);
      var r := Resolve(n, name);
      if r.rv != 0 { DisableKeeps(r.n, Error); }
    } else {
      assert n.pv.attempts + [] == n.pv.attempts;
    }
  }

  lemma SetNameKeeps(n: Node, s: string)
    requires Sound(n)
    ensures Good(n, Handle(n, SetName(s))) && StaysAwake(n, Handle(n, SetName(s)))
  {
    hide NameChanged, Linked, Trusted, RecordOk, Shape;
    var n1 := n.(dm := n.dm.(endpointName := s));
    if Active(n) {
      WriteKeeps(n, n1);
      NameChangedKeeps(n1, s);
    } else {
      Unchanged(n1, s);
    }
  }

  lemma Unchanged(n: Node, s: string)
    requires !Active(n)
    ensures NameChanged(n, s) == n
  {
  }

  lemma SetWanKeeps(n: Node, w: string)
    requires Sound(n)
    ensures Good(n, Handle(n, SetWan(w))) && StaysAwake(n, Handle(n, SetWan(w)))
  {
    hide OpenAddressQuery, Setup, Disable, Linked, Trusted, RecordOk, Shape;
    var n1 := n.(dm := n.dm.(wan := w));
    if Active(n) {
      WriteKeeps(n, n1);
      OpenAddressKeeps(n1);
      var r := OpenAddressQuery(n1);
      if r.rv != 0 { DisableKeeps(r.n, Error); } else { SetupKeeps(r.n); }
    }
  }

  lemma QueryOwner(n: Node, q: nat)
    requires Mid(n) && q in n.pv.queries
    ensures n.pv.queries[q].rec == n.pv.priv
    ensures if n.pv.queries[q].kind == AftrName then q == Rec(n).dhcpQuery && MethodOf(n.dm) == FromDhcp
            else q == Rec(n).addrQuery
  {
    hide Trusted, RecordOk, StatusOk;
  }

  lemma QueryPresent(n: Node)
    requires Mid(n) && Rec(n).addrQuery != NULL
    ensures var q := Rec(n).addrQuery; q in n.pv.queries && n.pv.queries[q] == Query(Addresses, n.pv.priv)
  {
    hide Trusted, StatusOk, RecordOk;
    QueryOwner(n, Rec(n).addrQuery);
  }

  lemma ReportAddressKeeps(n: Node, q: nat, report: AddressReport)
    requires Sound(n)
    ensures Good(n, Handle(n, ReportAddress(q, report))) && StaysAwake(n, Handle(n, ReportAddress(q, report)))
  {
    hide AddressCallback, Trusted, RecordOk, Shape, StatusOk;
    if q in n.pv.queries {
      QueryOwner(n, q);
      AddressCallbackKeeps(n, report);
    }
  }

  lemma ReportNameKeeps(n: Node, q: nat, name: string)
    requires Sound(n)
    ensures Good(n, Handle(n, ReportName(q, name))) && StaysAwake(n, Handle(n, ReportName(q, name)))
  {
    hide DhcpCallback, Trusted, RecordOk, Shape, StatusOk, QueriesAre;
    if q in n.pv.queries {
      QueryOwner(n, q);
      DhcpCallbackKeeps(n, name);
    }
  }

  // ---- lookups and timers -------------------------------------------------------------

  lemma LookupOwner(n: Node, h: nat)
    requires Core(n) && LookupLinked(n.pv) && h in n.pv.lookups
    ensures h != NULL && n.pv.lookups.Keys == {h} && h == Rec(n).dns && n.pv.lookups[h].rec == n.pv.priv
  {
    hide Trusted, RecordOk, StatusOk;
  }

  lemma LookupDoneKeeps(n: Node, h: nat, answer: Answer)
    requires Sound(n)
    ensures Good(n, Handle(n, LookupDone(h, answer))) && StaysAwake(n, Handle(n, LookupDone(h, answer)))
  {
    hide Complete, Trusted, RecordOk, Shape, StatusOk, QueriesAre, LookupLinked, CurrentIn;
    if h in n.pv.lookups && n.pv.lookups[h].pending {
      LookupHasChannel(n, h);
      CompleteKeeps(n, h, answer);
      CompletedStays(n, h, answer);
    }
  }

  /** What may change in a lookup without anything else noticing. */
  predicate SameLookup(l: Lookup, l1: Lookup) {
    l1 == l.(pending := l1.pending, channel := l1.channel, armed := l1.armed, ticking := l1.ticking, timed := l1.timed, socks := l1.socks)
  }

  lemma PatchLookup(n: Node, h: nat, l: Lookup)
    requires Core(n) && LookupLinked(n.pv) && h in n.pv.lookups
    requires SameLookup(n.pv.lookups[h], l) && (l.pending ==> l.channel && n.pv.lookups[h].pending)
    ensures var m := SetLookup(n, h, l);
            && Core(m) && LookupLinked(m.pv) && (Current(n) ==> Current(m)) && Serves(n, m)
            && (Awake(n) && l.pending == n.pv.lookups[h].pending ==> Awake(m))
  {
    hide Trusted, RecordOk, StatusOk, Shape, ServedBy;
    var ls := n.pv.lookups[h := l];
    LookupOwner(n, h);
    assert ls.Keys == n.pv.lookups.Keys;
    PatchedOk(n.pv, h, l);
    LookupsShape(n.pv, ls, n.pv.next, n.pv.stale);
    assert l.pending ==> h in ls && ls[h].pending;
  }

  lemma SetLookupFrame(n: Node, h: nat, l: Lookup)
    requires Live(n) && h in n.pv.lookups
    ensures var m := SetLookup(n, h, l);
            && Live(m) && Rec(m) == Rec(n) && m.dm == n.dm && m.env == n.env && m.on == n.on
            && CallbackFrame(n, m) && m.pv.stale == n.pv.stale && m.pv.wild == n.pv.wild && m.pv.priv == n.pv.priv
            && m.pv.lookups == n.pv.lookups[h := l] && m.pv.lookups.Keys == n.pv.lookups.Keys && m.pv.lookups[h] == l
  {
    assert n.pv.lookups[h := l].Keys == n.pv.lookups.Keys;
  }

  lemma PatchedOk(pv: Private, h: nat, l: Lookup)
    requires Shape(pv) && h in pv.lookups
    requires SameLookup(pv.lookups[h], l) && (l.pending ==> l.channel && pv.lookups[h].pending)
    ensures LookupsOk(pv.lookups[h := l], pv.priv, pv.next, pv.heap[pv.priv].local != "", pv.heap[pv.priv].retry != NULL)
  {
    hide QueriesOk;
  }

  /** A socket comes or goes, or a timer of the lookup expires: nobody else notices. */
  lemma QuietLookup(n: Node, h: nat, l: Lookup)
    requires Sound(n) && h in n.pv.lookups
    requires SameLookup(n.pv.lookups[h], l) && l.pending == n.pv.lookups[h].pending && l.channel == n.pv.lookups[h].channel
    ensures var m := SetLookup(n, h, l); Good(n, m) && StaysAwake(n, m) && m.pv.queued.None?
  {
    hide Trusted, RecordOk, Shape, StatusOk, QueriesAre, LookupLinked, CurrentIn, AwakeIn;
    LookupHasChannel(n, h);
    PatchLookup(n, h, l);
  }

  lemma LookupHasChannel(n: Node, h: nat)
    requires Sound(n) && h in n.pv.lookups
    ensures Active(n) && MethodOf(n.dm) != StaticIPv6 && n.pv.lookups.Keys == {h} && LookupLinked(n.pv)
    ensures n.pv.lookups[h].pending ==> n.pv.lookups[h].channel
    ensures n.pv.lookups[h].via == MethodOf(n.dm)
  {
    hide Trusted, RecordOk, StatusOk, QueriesAre, QueriesOk;
    LookupOwner(n, h);
  }

  lemma LookupSocketKeeps(n: Node, h: nat, fd: int, used: bool)
    requires Sound(n)
    ensures Good(n, Handle(n, LookupSocket(h, fd, used))) && StaysAwake(n, Handle(n, LookupSocket(h, fd, used)))
  {
    hide Trusted, Mid, StatusOk, AwakeIn;
    if h in n.pv.lookups && n.pv.lookups[h].channel { QuietLookup(n, h, SocketChanged(n.pv.lookups[h], fd, used)); }
    else { SoundIsGood(n); }
  }

  lemma DnsTimerKeeps(n: Node, h: nat)
    requires Sound(n)
    ensures Good(n, Handle(n, DnsTimer(h))) && StaysAwake(n, Handle(n, DnsTimer(h)))
  {
    hide Trusted, Mid, StatusOk, AwakeIn;
    SoundIsGood(n);
    if h in n.pv.lookups { QuietLookup(n, h, n.pv.lookups[h].(ticking := false)); }
  }

  /** What a step of the lookup machinery keeps that finds no address. */
  ghost predicate LookupKeeps(n: Node, m: Node)
    requires Live(n)
  {
    && Core(m) && LookupLinked(m.pv) && Current(m) && Serves(n, m) && CallbackFrame(n, m) && m.pv.stale == n.pv.stale
    && (Awake(n) ==> Awake(m))
    && (m.dm.status == n.dm.status || m.dm.status != Disabled) && Rec(m).remote == Rec(n).remote
  }

  lemma LookupKeepsOn(n: Node, k: Node, m: Node)
    requires Live(n) && LookupKeeps(n, k) && LookupKeeps(k, m)
    ensures LookupKeeps(n, m)
  {
    hide Trusted, RecordOk, Shape, StatusOk, ServedBy, LookupLinked, CurrentIn, AwakeIn;
  }

  lemma PatchKeeps(n: Node, h: nat, l: Lookup)
    requires Core(n) && LookupLinked(n.pv) && Current(n) && h in n.pv.lookups
    requires SameLookup(n.pv.lookups[h], l) && l.pending == n.pv.lookups[h].pending && (l.pending ==> l.channel)
    ensures LookupKeeps(n, SetLookup(n, h, l))
  {
    hide SetLookup, Trusted, RecordOk, Shape, StatusOk, ServedBy, LookupLinked, CurrentIn, AwakeIn;
    PatchLookup(n, h, l);
    SetLookupFrame(n, h, l);
  }

  lemma FailureKeeps(n: Node, h: nat)
    requires Core(n) && LookupLinked(n.pv) && Current(n) && n.pv.lookups.Keys == {h} && n.pv.lookups[h].pending
    ensures var m := Complete(n, h, Failure);
            LookupKeeps(n, m) && m.pv.lookups.Keys == {h} && !m.pv.lookups[h].pending
  {
    hide Complete, Trusted, RecordOk, Shape, StatusOk, ServedBy, LookupLinked, CurrentIn, AwakeIn;
    CompleteKeeps(n, h, Failure);
    CompletedStays(n, h, Failure);
  }

  /** The destroy timer of the lookup expires: `ares_destroy` fails a lookup that is still outstanding. */
  lemma DestroyExpiredKeeps(n: Node, h: nat)
    requires Core(n) && LookupLinked(n.pv) && Current(n) && n.pv.lookups.Keys == {h}
    requires n.pv.lookups[h].pending ==> n.pv.lookups[h].channel
    ensures LookupKeeps(n, DestroyExpired(n, h))
  {
    hide ChannelGone, SetLookup, LookupKeeps, CurrentIn, LookupLinked, RecordOk, Shape, StatusOk, Trusted;
    var l := n.pv.lookups[h].(armed := false);
    PatchKeeps(n, h, l);
    SetLookupFrame(n, h, l);
    var n0 := SetLookup(n, h, l);
    if l.channel {
      KeptParts(n, n0);
      ChannelGoneKeeps(n0, h);
      LookupKeepsOn(n, n0, ChannelGone(n0, h));
    }
  }

  lemma KeptParts(n: Node, m: Node)
    requires Live(n) && LookupKeeps(n, m)
    ensures Core(m) && LookupLinked(m.pv) && Current(m)
  {
  }

  lemma ChannelGoneKeeps(n: Node, h: nat)
    requires Core(n) && LookupLinked(n.pv) && Current(n) && n.pv.lookups.Keys == {h}
    ensures LookupKeeps(n, ChannelGone(n, h))
  {
    hide Complete, SetLookup, LookupKeeps, LookupLinked, CurrentIn, RecordOk, Shape, StatusOk, Trusted;
    var n1 := DestroyChannel(n, h);
    if n.pv.lookups[h].pending {
      FailureKeeps(n, h);
      KeptParts(n, n1);
      PatchKeeps(n1, h, Destroyed(n1.pv.lookups[h]));
      LookupKeepsOn(n, n1, ChannelGone(n, h));
    } else {
      PatchKeeps(n1, h, Destroyed(n1.pv.lookups[h]));
    }
  }

  lemma DestroyTimerKeeps(n: Node, h: nat)
    requires Sound(n)
    ensures Good(n, Handle(n, DestroyTimer(h))) && StaysAwake(n, Handle(n, DestroyTimer(h)))
  {
    hide DestroyExpired, Trusted, RecordOk, Shape, StatusOk, ServedBy, QueriesAre, LookupLinked, CurrentIn, AwakeIn;
    SoundIsGood(n);
    if h in n.pv.lookups && n.pv.lookups[h].armed {
      LookupHasChannel(n, h);
      DestroyExpiredKeeps(n, h);
      NotStatic(DestroyExpired(n, h));
    }
  }

  lemma NotStatic(n: Node)
    requires Live(n) && MethodOf(n.dm) != StaticIPv6
    ensures Decided(n)
  {
  }

  /** A completion leaves its lookup linked and current. */
  lemma CompletedStays(n: Node, h: nat, a: Answer)
    requires Core(n) && LookupLinked(n.pv) && Current(n) && n.pv.lookups.Keys == {h} && n.pv.lookups[h].pending
    requires a.Nodes? ==> n.pv.lookups[h].via == MethodOf(n.dm)
    ensures var m := Complete(n, h, a); Live(m) && LookupLinked(m.pv) && Current(m)
  {
    hide Complete, Trusted, RecordOk, Shape, StatusOk, AwakeIn;
    CompleteKeeps(n, h, a);
    assert Complete(n, h, a).pv.lookups.Keys == n.pv.lookups.Keys;
  }

  /** The timer of a query that was freed: outside this model it reads freed memory. */
  lemma StaleTimerKeeps(n: Node, left: Leftover)
    requires Sound(n)
    ensures Good(n, Handle(n, StaleTimer(left))) && StaysAwake(n, Handle(n, StaleTimer(left)))
  {
    hide Trusted, RecordOk, StatusOk, LookupsOk, QueriesOk, QueriesAre;
  }

  lemma TimerOwner(n: Node, t: nat)
    requires Mid(n) && t in n.pv.timers
    ensures t == Rec(n).retry && MethodOf(n.dm) != StaticIPv6
    ensures var m := n.(pv := n.pv.(timers := n.pv.timers[t := false])); Core(m) && Linked(m.pv)
  {
    hide Trusted, RecordOk, StatusOk;
    assert n.pv.timers[t := false].Keys == n.pv.timers.Keys;
  }

  lemma RetryTimerKeeps(n: Node, t: nat)
    requires Sound(n)
    ensures Good(n, Handle(n, RetryTimer(t)))
    ensures n.dm.endpointName != "" ==> StaysAwake(n, Handle(n, RetryTimer(t)))
  {
    hide Resolve, Trusted, RecordOk, Shape, StatusOk, QueriesAre, AwakeIn;
    if t in n.pv.timers && n.pv.timers[t] {
      TimerOwner(n, t);
      ResolveKeeps(n.(pv := n.pv.(timers := n.pv.timers[t := false])), n.dm.endpointName);
    }
  }

  /** Every handler, whatever the event. */
  lemma HandleKeeps(n: Node, e: Event)
    requires Sound(n)
    ensures Good(n, Handle(n, e))
    ensures (e.RetryTimer? ==> n.dm.endpointName != "") ==> StaysAwake(n, Handle(n, e))
  {
    hide Handle, Good, StaysAwake, Sound;
    match e
    case SetEnable(b) => SetEnableKeeps(n, b);
    case SetAddress(a) => SetAddressKeeps(n, a);
    case SetPrecedence(_) => SetMethodKeeps(n, e);
    case SetAddressType(_) => SetMethodKeeps(n, e);
    case SetName(s) => SetNameKeeps(n, s);
    case SetWan(w) => SetWanKeeps(n, w);
    case ReportAddress(q, r) => ReportAddressKeeps(n, q, r);
    case ReportName(q, s) => ReportNameKeeps(n, q, s);
    case LookupDone(h, a) => LookupDoneKeeps(n, h, a);
    case LookupSocket(h, fd, used) => LookupSocketKeeps(n, h, fd, used);
    case DnsTimer(h) => DnsTimerKeeps(n, h);
    case DestroyTimer(h) => DestroyTimerKeeps(n, h);
    case StaleTimer(left) => StaleTimerKeeps(n, left);
    case RetryTimer(t) => RetryTimerKeeps(n, t);
  }

  /** Handling the queued name, if there is one. */
  lemma DrainKeeps(n: Node)
    requires Handled(n)
    ensures var m := Drain(n);
            && Sound(m) && Serves(n, m) && SameSettings(n, m) && StaysAwake(n, m)
  {
    hide NameChanged, Linked, ServedBy, Trusted, RecordOk, AwakeIn;
    if n.pv.queued.Some? {
      var n1 := n.(pv := n.pv.(queued := None));
      Dequeued(n);
      NameChangedKeeps(n1, n.pv.queued.value);
    }
  }

  lemma Dequeued(n: Node)
    requires Mid(n)
    ensures var m := n.(pv := n.pv.(queued := None)); Mid(m) && Serves(n, m) && (Awake(n) ==> Awake(m))
  {
    hide Trusted, RecordOk, StatusOk, QueriesAre, ServedBy;
  }

  /** One whole transition. */
  lemma StepKeeps(n: Node, e: Event)
    requires Sound(n)
    ensures var m := Step(n, e);
            && Sound(m) && Serves(n, m) && m.env.o == n.env.o && m.on == n.on
            && ((e.RetryTimer? ==> n.dm.endpointName != "") ==> StaysAwake(n, m))
  {
    hide Handle, Drain, Sound, Handled, AwakeIn, ServedBy;
    HandleKeeps(n, e);
    DrainKeeps(Handle(n, e));
  }

  /** An interface that is inactive before and after an event leaves the world alone. */
  lemma IdleStep(n: Node, e: Event)
    requires Sound(n) && !Active(n) && !Active(Step(n, e))
    ensures Step(n, e).env == n.env && Step(n, e).dm.status == n.dm.status
    ensures Step(n, e).dm.tunnelIf == n.dm.tunnelIf && Step(n, e).dm.tunneledIf == n.dm.tunneledIf
  {
    hide EnableInterface, DisableInterface, Resolve, Trusted;
    if e.SetEnable? && e.enable != n.dm.enable && n.on {
      EnableKeeps(n.(dm := n.dm.(enable := true)));
      HandleKeeps(n, e);
      DrainKeeps(Handle(n, e));
    }
  }
}
