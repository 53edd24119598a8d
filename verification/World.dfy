/** All interface instances together: `_toggle_dslite`, `_interface_added`, and whole runs. */
module World {
  import opened Basics
  import opened Model
  import opened Interface
  import opened Events

  datatype Instance = Instance(dm: Settings, pv: Private)

  datatype World = World(on: bool, ifs: seq<Instance>, env: Env)

  datatype WorldEvent = SetDslite(enable: bool) | Add(dm: Settings) | On(k: nat, e: Event)

  function At(w: World, k: nat): Node
    requires k < |w.ifs|
  {
    Node(w.on, w.ifs[k].dm, w.ifs[k].pv, w.env)
  }

  function InstanceOf(n: Node): Instance {
    Instance(n.dm, n.pv)
  }

  function Put(w: World, k: nat, n: Node): World
    requires k < |w.ifs|
  {
    w.(ifs := w.ifs[k := InstanceOf(n)], env := n.env)
  }

  /** The body of the loop in `_toggle_dslite`. */
  function Toggled(n: Node): Node {
    if !n.dm.enable then n else if n.on then EnableInterface(n) else DisableInterface(n)
  }

  function ToggleFrom(w: World, k: nat): World
    requires k <= |w.ifs|
    decreases |w.ifs| - k
  {
    if k == |w.ifs| then w else ToggleFrom(Put(w, k, Toggled(At(w, k))), k + 1)
  }

  /** Events that the loop queued are handled after it, in order. */
  function DrainFrom(w: World, k: nat): World
    requires k <= |w.ifs|
    decreases |w.ifs| - k
  {
    if k == |w.ifs| then w else DrainFrom(Put(w, k, Drain(At(w, k))), k + 1)
  }

  /** `_toggle_dslite`, for a world whose DSLite.Enable has just been written. */
  function ToggleDslite(w: World): World {
    var t := ToggleFrom(w, 0);
    DrainFrom(t, 0)
  }

  /** A new instance: its read-only parameters start at their defaults, it has no record. */
  function NewInstance(dm: Settings): Instance {
    Instance(dm.(status := Disabled, inUse := "", localAddress := "", origin := DHCPv6),
             Private(NULL, map[], map[], map[], map[], 1, None, false, {}, false, 0, 0, []))
  }

  function WorldStep(w: World, e: WorldEvent): World {
    match e
    case SetDslite(b) => if b == w.on then w else ToggleDslite(w.(on := b))
    case Add(dm) => w.(ifs := w.ifs + [NewInstance(dm)])
    case On(k, ev) => if k < |w.ifs| then Put(w, k, Step(At(w, k), ev)) else w
  }

  function Start(env: Env): World {
    World(false, [], env)
  }

  function Run(w: World, es: seq<WorldEvent>): World {
    if es == [] then w else WorldStep(Run(w, es[..|es| - 1]), es[|es| - 1])
  }
}
