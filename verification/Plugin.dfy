/** The whole plugin: DSLite.Enable, the table of interface objects, and the loop over it. */
module Plugin {
  import opened Model
  import opened PluginObjects
  import W = World
  import opened Ownership
  import opened Service
  import Events
  import EveryEvent

  /**
   What every entry point keeps of a sound plugin: it stays sound, no pointer to nothing has been
   followed, records are allocated exactly for the active interfaces, and, with one of them at a
   time, Enabled interfaces stay served by kernel tunnel and IP interfaces.
   */
  ghost predicate Kept(w: W.World, w1: W.World) {
    AllSound(w) ==>
      && AllSound(w1)
      && (forall k: nat :: k < |w1.ifs| ==>
            && !w1.ifs[k].pv.fault
            && w1.ifs[k].pv.heap.Keys == if Active(W.At(w1, k)) then {w1.ifs[k].pv.priv} else {})
      && (AllServed(w) && AtMostOneActive(w) && AtMostOneActive(w1) ==> AllServed(w1))
  }

  lemma StepIsKept(w: W.World, e: W.WorldEvent)
    requires Guard(w, e)
    ensures Kept(w, W.WorldStep(w, e))
  {
    hide AllServed, AtMostOneActive, W.WorldStep, Guard;
    if AllSound(w) {
      WorldStepKeeps(w, e);
      if AllServed(w) && AtMostOneActive(w) && AtMostOneActive(W.WorldStep(w, e)) { WorldStepServes(w, e); }
      HeapsExact(W.WorldStep(w, e));
    }
  }

  lemma HeapsExact(w: W.World)
    requires AllSound(w)
    ensures forall k: nat :: k < |w.ifs| ==>
              !w.ifs[k].pv.fault && w.ifs[k].pv.heap.Keys == if Active(W.At(w, k)) then {w.ifs[k].pv.priv} else {}
  {
    forall k: nat | k < |w.ifs|
      ensures !w.ifs[k].pv.fault && w.ifs[k].pv.heap.Keys == if Active(W.At(w, k)) then {w.ifs[k].pv.priv} else {}
    {
      SoundHeap(W.At(w, k));
    }
  }

  class Dslite {
    const root: Root
    const env: Surroundings
    var instances: seq<InterfaceObject>

    ghost predicate Valid()
      reads this
    {
      && (forall i :: 0 <= i < |instances| ==> instances[i].root == root && instances[i].env == env)
      && (forall i, j :: 0 <= i < j < |instances| ==> instances[i] != instances[j])
    }

    ghost function InstanceViews(): (s: seq<W.Instance>)
      reads this, instances
      ensures |s| == |instances|
      ensures forall i :: 0 <= i < |s| ==> s[i] == W.Instance(instances[i].dm, instances[i].PrivateView())
    {
      seq(|instances|, i requires 0 <= i < |instances| reads this, instances =>
        W.Instance(instances[i].dm, instances[i].PrivateView()))
    }

    ghost function View(): W.World
      reads this, root, env, instances
    {
      W.World(root.enable, InstanceViews(), env.View())
    }

    constructor (env: Surroundings)
      ensures Valid() && this.env == env && fresh(root) && View() == W.Start(env.View())
    {
      this.env := env;
      root := new Root();
      instances := [];
    }

    /** `_interface_added`: the new instance is not switched on, whatever its Enable says. */
    method AddInstance(dm: Settings)
      requires Valid()
      modifies this
      ensures Valid() && View() == W.WorldStep(old(View()), W.Add(dm))
      ensures !(root.enable && dm.enable) ==> Kept(old(View()), View())
    {
      hide Kept;
      var i := new InterfaceObject(root, env, dm);
      instances := instances + [i];
      assert InstanceViews() == old(InstanceViews()) + [W.NewInstance(dm)];
      if !(root.enable && dm.enable) { StepIsKept(old(View()), W.Add(dm)); }
    }

    /** The body of the loop in `_toggle_dslite`. */
    method ToggleOne(k: nat)
      requires Valid() && k < |instances|
      modifies instances, env
      ensures Valid() && View() == W.Put(old(View()), k, W.Toggled(W.At(old(View()), k)))
    {
      var i := instances[k];
      assert i.View() == W.At(View(), k);
      if i.dm.enable {
        if root.enable {
          i.EnableInterface();
        } else {
          i.DisableInterface();
        }
      }
      assert i.View() == W.Toggled(W.At(old(View()), k));
      assert InstanceViews() == old(InstanceViews())[k := W.Instance(i.dm, i.PrivateView())];
    }

    method DrainOne(k: nat)
      requires Valid() && k < |instances|
      modifies instances, env
      ensures Valid() && View() == W.Put(old(View()), k, Events.Drain(W.At(old(View()), k)))
    {
      hide Events.Drain;
      var i := instances[k];
      assert i.View() == W.At(View(), k);
      i.Drain();
      assert InstanceViews() == old(InstanceViews())[k := W.Instance(i.dm, i.PrivateView())];
    }

    /** `_toggle_dslite`, once DSLite.Enable has been written. */
    method ToggleAll()
      requires Valid()
      modifies instances, env
      ensures Valid() && View() == W.ToggleFrom(old(View()), 0)
    {
      hide W.Toggled;
      var k := 0;
      while k < |instances|
        invariant Valid() && 0 <= k <= |instances| && W.ToggleFrom(View(), k) == W.ToggleFrom(old(View()), 0)
      {
        ToggleOne(k);
        k := k + 1;
      }
    }

    /** The event loop gets round to whatever the handler queued. */
    method DrainAll()
      requires Valid()
      modifies instances, env
      ensures Valid() && View() == W.DrainFrom(old(View()), 0)
    {
      hide Events.Drain;
      var k := 0;
      while k < |instances|
        invariant Valid() && 0 <= k <= |instances| && W.DrainFrom(View(), k) == W.DrainFrom(old(View()), 0)
      {
        DrainOne(k);
        k := k + 1;
      }
    }

    /** A write of DSLite.Enable: `_toggle_dslite`, then whatever events it queued. */
    method SetEnable(b: bool)
      requires Valid()
      modifies root, instances, env
      ensures Valid() && View() == W.WorldStep(old(View()), W.SetDslite(b))
      ensures Kept(old(View()), View())
    {
      hide Kept, W.ToggleFrom, W.DrainFrom;
      StepIsKept(View(), W.SetDslite(b));
      if b == root.enable {
        return;
      }
      root.enable := b;
      assert InstanceViews() == old(InstanceViews());
      ToggleAll();
      DrainAll();
    }

    /** An event of one instance. */
    method Dispatch(k: nat, e: Events.Event)
      requires Valid()
      modifies instances, env
      ensures Valid() && View() == W.WorldStep(old(View()), W.On(k, e))
      ensures Kept(old(View()), View())
      ensures k < |instances| && AllSound(old(View())) ==>
                forall devs :: EveryEvent.Achieves(old(W.At(View(), k)), e, W.At(View(), k), devs)
    {
      hide Events.Step, Kept, EveryEvent.Achieves;
      StepIsKept(View(), W.On(k, e));
      if k < |instances| {
        var i := instances[k];
        assert i.View() == W.At(View(), k);
        i.Dispatch(e);
        assert InstanceViews() == old(InstanceViews())[k := W.Instance(i.dm, i.PrivateView())];
      }
    }
  }
}
