/** The objects of `RipInterface` perform runs of the state machine of `Node`:
    what holds of all its runs holds of them. */
module Instance {
  import opened Addressing
  import opened Rip
  import opened RipProperties
  import opened Node
  import R = RipInterface

  /** The tables of the objects are those of the state. */
  ghost predicate Mirrors(rip: R.RipInterface, n: Node)
    reads rip, (set k | k in rip.rib :: rip.rib[k])
    reads (set k | k in rip.learned :: rip.learned[k]), (set k | k in rip.redistributed :: rip.redistributed[k])
  {
    R.View(rip.learned) == n.learned && R.View(rip.redistributed) == n.redistributed && R.View(rip.rib) == n.rib
  }

  lemma RunExtends(config: Config, nodes: seq<Node>, events: seq<Event>, e: Event, n: Node)
    requires IsRun(config, nodes, events) && Step(config, nodes[|nodes| - 1], e, n)
    ensures IsRun(config, nodes + [n], events + [e])
  {
    hide Step;
  }

  class Instance {
    const rip: R.RipInterface
    /** What has happened so far. */
    ghost var nodes: seq<Node>
    ghost var events: seq<Event>

    ghost predicate Valid()
      reads this, rip, (set k | k in rip.rib :: rip.rib[k])
      reads (set k | k in rip.learned :: rip.learned[k]), (set k | k in rip.redistributed :: rip.redistributed[k])
    {
      && rip.Valid()
      && nodes != [] && IsRun(rip.config, nodes, events)
      && Mirrors(rip, nodes[|nodes| - 1])
    }

    ghost function Now(): Node
      requires nodes != []
      reads this
    {
      nodes[|nodes| - 1]
    }

    constructor (config: Config)
      ensures Valid() && fresh(rip) && rip.config == config && events == []
    {
      rip := new R.RipInterface(config);
      nodes, events := [START], [];
    }

    ghost method Record(e: Event, n: Node)
      requires rip.Valid() && IsRun(rip.config, nodes, events)
      requires Step(rip.config, nodes[|nodes| - 1], e, n) && Mirrors(rip, n)
      modifies this
      ensures Valid() && events == old(events) + [e]
    {
      hide R.View;
      hide R.RipInterface.Valid;
      hide Step;
      hide Mirrors;
      RunExtends(rip.config, nodes, events, e, n);
      hide IsRun;
      nodes, events := nodes + [n], events + [e];
    }

    /** A response arrives. */
    method Respond(entries: seq<Entry>, sender: Address, own: bool, now: real)
      requires Valid()
      modifies this, rip`learned
      ensures Valid() && events == old(events) + [Receive(entries, sender, own, now)]
    {
      hide R.View;
      hide R.Filed;
      hide R.FiledAsShown;
      hide Decode;
      hide Learn;
      hide IsRun;
      ghost var e := Receive(entries, sender, own, now);
      ghost var before := nodes[|nodes| - 1];
      var accepted := rip.HandleResponse(entries, sender, own, now);
      Record(e, Receiving(rip.config, before, e));
    }

    /** A refresh runs, awaited or requested. */
    method Refresh(ghost cause: Cause, now: real)
      requires Valid() && CanRefresh(Now(), cause)
      modifies this, rip`rib
      ensures Valid() && events == old(events) + [Event.Refresh(cause, R.View(rip.rib), now)]
    {
      hide R.View;
      hide R.Filed;
      hide R.FiledAsShown;
      hide IsRefresh;
      hide IsRun;
      ghost var before := nodes[|nodes| - 1];
      rip.RefreshRib(now);
      ghost var e := Event.Refresh(cause, R.View(rip.rib), now);
      Record(e, Refreshing(rip.config, before, cause, R.View(rip.rib), now));
    }

    /** A housekeeping pass. */
    method Housekeep(clock: Clock)
      requires Valid()
      modifies this, rip`learned, R.Members(rip.learned)
      ensures Valid() && events == old(events) + [Housekeeping(clock)]
    {
      hide R.View;
      hide R.Filed;
      hide R.FiledAsShown;
      hide Sweep;
      hide IsRun;
      ghost var before := nodes[|nodes| - 1];
      var changed := rip.CheckRoutes(clock);
      Record(Housekeeping(clock), Sweeping(rip.config, before, clock));
    }

    /** The control plane redistributes in. */
    method RedistributeInto(specs: seq<RouteSpec>, now: real)
      requires Valid()
      modifies this, rip`redistributed
      ensures Valid() && events == old(events) + [Event.RedistributeInto(specs, now)]
    {
      hide R.View;
      hide R.Filed;
      hide R.FiledAsShown;
      hide Rip.RedistributeIn;
      hide ImportsUpTo;
      hide IsRun;
      ghost var before := nodes[|nodes| - 1];
      var ok := rip.RedistributeIn(specs, now);
      Record(Event.RedistributeInto(specs, now), Redistributing(rip.config, before, specs, now));
    }
  }

  /** So the objects, too, keep what every run keeps. */
  lemma ObjectsKeepInvariant(i: Instance)
    requires i.Valid()
    ensures Invariant(i.rip.config, i.Now())
    ensures LearnedInvariant(R.View(i.rip.learned))
    ensures RedistributedInvariant(i.rip.config, R.View(i.rip.redistributed))
  {
    EveryRunKeepsInvariant(i.rip.config, i.nodes, i.events, |i.nodes| - 1);
  }
}
