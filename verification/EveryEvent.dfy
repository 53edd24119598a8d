/** One account of every event, whatever the state of the interface. */
module EveryEvent {
  import opened Model
  import opened Resolver
  import opened Events
  import opened Invariant
  import opened Keeps
  import opened Lifecycle
  import opened Progress
  import opened Switching
  import opened World
  import opened Ownership
  import Outcomes

  /** The settings after a write that passes its validator. */
  function Written(dm: Settings, e: Event): Settings {
    match e
    case SetEnable(b) => dm.(enable := b)
    case SetAddress(a) => if |a| <= 45 then dm.(endpointAddress := a) else dm
    case SetPrecedence(p) => dm.(precedence := p)
    case SetAddressType(t) => dm.(addressType := t)
    case SetName(s) => if |s| <= 256 then dm.(endpointName := s) else dm
    case SetWan(w) => dm.(wan := w)
    case _ => dm
  }

  /** An interface that is off takes writes, and a timer that was left behind calls back; nothing else happens. */
  ghost predicate Slept(n: Node, e: Event, m: Node, devs: set<string>) {
    if e.StaleTimer? then Recalled(n, e.left, m)
    else if e == SetEnable(true) && n.on && !n.dm.enable then SwitchedOn(n.(dm := Written(n.dm, e)), m, devs)
    else m == n.(dm := Written(n.dm, e))
  }

  /** A timer of a freed DNS query called back. */
  ghost predicate Recalled(n: Node, left: Leftover, m: Node) {
    m == if left in n.pv.stale then n.(pv := n.pv.(stale := n.pv.stale - {left}, wild := true)) else n
  }

  /** The interface was switched off: nothing is left, and a lookup in flight turns Disabled into Error. */
  ghost predicate SwitchedOff(n: Node, m: Node) {
    && Left(n, m) && Nothing(m.pv) && m.dm.inUse == "" && m.dm.localAddress == ""
    && m.dm.status == (if Outstanding(n.pv) then Error else Disabled)
  }

  /** What an event of an active interface achieves. */
  ghost predicate Acted(n: Node, e: Event, m: Node, devs: set<string>)
    requires Live(n)
  {
    match e
    case SetEnable(b) => if b then m == n else SwitchedOff(n, m)
    case SetAddress(a) => AddressSet(n, a, m, devs)
    case SetPrecedence(_) => MethodSet(n, n.(dm := Written(n.dm, e)), false, m, devs)
    case SetAddressType(_) => MethodSet(n, n.(dm := Written(n.dm, e)), true, m, devs)
    case SetName(s) => NameSet(n, s, m, devs)
    case SetWan(w) => WanSet(n, w, m, devs)
    case ReportAddress(q, report) =>
      if q in n.pv.queries && n.pv.queries[q].kind == Addresses then AddressTold(n, report, m, devs) else m == n
    case ReportName(q, name) =>
      if q in n.pv.queries && n.pv.queries[q].kind == AftrName then NameTold(n, name, m, devs) else m == n
    case LookupDone(h, a) => if h in n.pv.lookups && n.pv.lookups[h].pending then Found(n, m, h, a, devs) else m == n
    case LookupSocket(h, fd, used) =>
      if h in n.pv.lookups && n.pv.lookups[h].channel then m == SetLookup(n, h, SocketChanged(n.pv.lookups[h], fd, used)) else m == n
    case DnsTimer(h) => if h in n.pv.lookups then m == SetLookup(n, h, n.pv.lookups[h].(ticking := false)) else m == n
    case DestroyTimer(h) => if h in n.pv.lookups && n.pv.lookups[h].armed then Lapsed(n, m, h, devs) else m == n
    case StaleTimer(left) => Recalled(n, left, m)
    case RetryTimer(t) => if t in n.pv.timers && n.pv.timers[t] then Retried(n, m, devs) else m == n
  }

  ghost predicate Achieves(n: Node, e: Event, m: Node, devs: set<string>) {
    if Active(n) then Live(n) && Acted(n, e, m, devs) else Slept(n, e, m, devs)
  }

  lemma ActiveLives(n: Node)
    requires Sound(n) && Active(n)
    ensures Live(n) && n.pv.queued.None?
  {
    hide Trusted, StatusOk, RecordOk, Shape, Linked, CurrentIn;
  }

  lemma SleepsThrough(n: Node, e: Event, devs: set<string>)
    requires Sound(n) && !Active(n)
    ensures Slept(n, e, Step(n, e), devs)
  {
    hide SwitchedOn, Resolve, Trusted;
    if e == SetEnable(true) && n.on { SetEnableOutcome(n, devs); }
  }

  lemma Ignores(n: Node, e: Event)
    requires Sound(n) && Active(n)
    requires match e
             case SetEnable(b) => b
             case ReportAddress(q, _) => q !in n.pv.queries || n.pv.queries[q].kind != Addresses
             case ReportName(q, _) => q !in n.pv.queries || n.pv.queries[q].kind != AftrName
             case LookupDone(h, _) => h !in n.pv.lookups || !n.pv.lookups[h].pending
             case DestroyTimer(h) => h !in n.pv.lookups || !n.pv.lookups[h].armed
             case RetryTimer(t) => t !in n.pv.timers || !n.pv.timers[t]
             case _ => false
    ensures Step(n, e) == n
  {
    hide Trusted, Mid, Decided, StatusOk;
  }

  lemma Notes(n: Node, e: Event)
    requires Sound(n) && Active(n) && Live(n) && (e.LookupSocket? || e.DnsTimer? || e.StaleTimer?)
    ensures Acted(n, e, Step(n, e), {})
  {
    hide Trusted, Mid, Decided, StatusOk, NameChanged;
    if e.DnsTimer? && e.h in n.pv.lookups && !n.pv.lookups[e.h].ticking {
      assert n.pv.lookups[e.h := n.pv.lookups[e.h]] == n.pv.lookups;
    }
  }

  /** Main result: every event of every sound interface achieves what `Achieves` says of it. */
  lemma EveryEventAchieves(n: Node, e: Event, devs: set<string>)
    requires Sound(n)
    ensures Achieves(n, e, Step(n, e), devs)
  {
    hide Step, Sound, Slept, SwitchedOff, AddressSet, MethodSet, NameSet, WanSet, AddressTold, NameTold, Found, Lapsed, Retried, Outstanding;
    if !Active(n) {
      SleepsThrough(n, e, devs);
    } else {
      ActiveLives(n);
      match e
      case SetEnable(b) => if b { Ignores(n, e); } else { SwitchesOff(n); }
      case SetAddress(a) => SetAddressOutcome(n, a, devs);
      case SetPrecedence(_) => SwitchOutcome(n, e, devs);
      case SetAddressType(_) => SwitchOutcome(n, e, devs);
      case SetName(s) => SetNameOutcome(n, s, devs);
      case SetWan(w) => SetWanOutcome(n, w, devs);
      case ReportAddress(q, report) =>
        if q in n.pv.queries && n.pv.queries[q].kind == Addresses { ReportAddressOutcome(n, q, report, devs); } else { Ignores(n, e); }
      case ReportName(q, name) =>
        if q in n.pv.queries && n.pv.queries[q].kind == AftrName { ReportNameOutcome(n, q, name, devs); } else { Ignores(n, e); }
      case LookupDone(h, a) =>
        if h in n.pv.lookups && n.pv.lookups[h].pending { LookupDoneOutcome(n, h, a, devs); } else { Ignores(n, e); }
      case LookupSocket(_, _, _) => Notes(n, e);
      case DnsTimer(_) => Notes(n, e);
      case DestroyTimer(h) =>
        if h in n.pv.lookups && n.pv.lookups[h].armed { DestroyTimerOutcome(n, h, devs); } else { Ignores(n, e); }
      case StaleTimer(_) => Notes(n, e);
      case RetryTimer(t) =>
        if t in n.pv.timers && n.pv.timers[t] { RetryOutcome(n, t, devs); } else { Ignores(n, e); }
    }
  }

  lemma SwitchesOff(n: Node)
    requires Sound(n) && Active(n)
    ensures SwitchedOff(n, Step(n, SetEnable(false)))
  {
    hide Step, Sound, Left, Nothing;
    SwitchOffOutcome(n);
    Outcomes.SwitchOff(n);
  }

  /** A new instance stores what it was given and waits to be switched on. */
  lemma AddedWaits(env: Env, es: seq<WorldEvent>, dm: Settings)
    ensures var w, w1 := Run(Start(env), es), Run(Start(env), es + [Add(dm)]); var k := |w.ifs|;
            && w1.ifs == w.ifs + [w1.ifs[k]] && w1.env == w.env && w1.on == w.on
            && Nothing(w1.ifs[k].pv) && w1.ifs[k].pv.priv == NULL && w1.ifs[k].pv.attempts == []
            && w1.ifs[k].dm == dm.(status := Disabled, inUse := "", localAddress := "", origin := DHCPv6)
  {
    var all := es + [Add(dm)];
    assert all[..|all| - 1] == es;
  }

  /** Main result, over runs: whatever has happened before, an event of an instance achieves that, and leaves the others as they are. */
  lemma EveryRunAchieves(env: Env, es: seq<WorldEvent>, k: nat, e: Event, devs: set<string>)
    requires Trusted(env.o) && Guarded(Start(env), es) && k < |Run(Start(env), es).ifs|
    ensures var w, w1 := Run(Start(env), es), Run(Start(env), es + [On(k, e)]);
            && |w1.ifs| == |w.ifs| && Achieves(At(w, k), e, At(w1, k), devs)
            && forall j: nat :: j < |w.ifs| && j != k ==> w1.ifs[j] == w.ifs[j]
  {
    hide Step, Sound, Trusted, Achieves;
    RunKeeps(Start(env), es);
    var w, all := Run(Start(env), es), es + [On(k, e)];
    assert all[..|all| - 1] == es;
    EveryEventAchieves(At(w, k), e, devs);
    StepKeeps(At(w, k), e);
  }
}
