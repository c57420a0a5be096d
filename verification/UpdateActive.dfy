// internal/app/active_nodes.go, calcActiveNodes and updateActiveNodes: which hosts
// ought to be active, and the transition to them.

module UpdateActive {
  import opened Quorum
  import opened HostStates
  import LostMode
  import ActiveNodes

  /** What the manager knows: its own probes, the health records of the DCS, and the hosts
      whose failure is younger than the inactivation delay. */
  datatype View = View(snap: LostMode.Snapshot, healthy: set<Host>, recentlyFailed: set<Host>)

  predicate MasterStable(v: View, master: Host) {
    master in v.snap.states && v.snap.states[master].pingOk && v.snap.states[master].pingStable
  }

  /** The hosts other than the master that ought to be active. A silent host only stays
      active while the DCS has it healthy or its failure is recent; an answering one has
      to be a replica, and behind a stable master one with a live link to it. */
  ghost function Wanted(v: View, old_: seq<Host>, master: Host): set<Host> {
    set h | h in v.snap.states && h != master
            && if !v.snap.states[h].pingOk then
                 h in old_ && (h in v.healthy || h in v.recentlyFailed)
               else
                 && v.snap.states[h].replica.Some?
                 && (master in v.snap.states && v.snap.states[master].pingOk && v.snap.states[master].pingStable ==>
                       && v.snap.states[h].replica.value.linkUp
                       && (h in v.snap.states[master].connectedReplicas
                           || (master in v.snap.names && v.snap.states[h].replica.value.masterHost in v.snap.names[master])))
  }

  /** For every order of the map: the list has no duplicates, the master is on it exactly
      if it is a host of the shard, and the others are the wanted ones. */
  method CalcActiveNodes(v: View, old_: seq<Host>, master: Host) returns (nodes: seq<Host>)
    ensures NoDup(nodes) && (master in nodes <==> master in v.snap.states)
    ensures SetOf(nodes) - {master} == Wanted(v, old_, master)
    // a silent host
    ensures forall h :: h in v.snap.states && h != master && !v.snap.states[h].pingOk ==>
                          (h in nodes <==> h in old_ && (h in v.healthy || h in v.recentlyFailed))
    // an answering host behind a stable master
    ensures forall h :: h in v.snap.states && h != master && v.snap.states[h].pingOk
                        && master in v.snap.states && v.snap.states[master].pingOk && v.snap.states[master].pingStable ==>
                          (h in nodes <==>
                             && v.snap.states[h].replica.Some? && v.snap.states[h].replica.value.linkUp
                             && (h in v.snap.states[master].connectedReplicas
                                 || (master in v.snap.names && v.snap.states[h].replica.value.masterHost in v.snap.names[master])))
    // an answering host behind a master that is not
    ensures forall h :: h in v.snap.states && h != master && v.snap.states[h].pingOk
                        && !(master in v.snap.states && v.snap.states[master].pingOk && v.snap.states[master].pingStable) ==>
                          (h in nodes <==> v.snap.states[h].replica.Some?)
  {
    nodes := [];
    var todo := v.snap.states.Keys;
    if master in v.snap.states {
      nodes := [master];
    }
    while todo != {}
      invariant todo <= v.snap.states.Keys
      invariant NoDup(nodes)
      invariant forall h :: h in nodes <==> (h == master && master in v.snap.states) || (h in Wanted(v, old_, master) && h !in todo)
    {
      var host :| host in todo;
      todo := todo - {host};
      if host == master {
        continue;
      }
      if !v.snap.states[host].pingOk {
        if host in v.healthy || host in v.recentlyFailed {
          if host in old_ {
            nodes := nodes + [host];
          }
        }
        continue;
      }
      if v.snap.states[host].replica.None? {
        continue;
      }
      if MasterStable(v, master) && !LostMode.Replicates(v.snap, host, master) {
        continue;
      }
      nodes := nodes + [host];
    }
    assert SetOf(nodes) - {master} == Wanted(v, old_, master);
  }

  /** updateActiveNodes: the next step of the shard towards what has been computed. */
  method UpdateActiveNodes(shard: ActiveNodes.Shard, v: View, answering: bool) returns (ok: bool)
    requires shard.master in v.snap.states
    modifies shard
    ensures answering ==> ok
    ensures ok ==> exists target ::
                && NoDup(target) && SetOf(target) == Wanted(v, old(shard.active), shard.master) + {shard.master}
                && ActiveNodes.Settled(shard.State(), shard.master, target)
    ensures old(ActiveNodes.EnoughAcks(shard.State())) ==> ActiveNodes.EnoughAcks(shard.State())
  {
    var target := CalcActiveNodes(v, shard.active, shard.master);
    ghost var passed;
    assert SetOf(target) == Wanted(v, shard.active, shard.master) + {shard.master};
    ok, passed := shard.ApplyTransition(target, answering);
  }
}
