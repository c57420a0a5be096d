// internal/app/lost.go and checks.go: what a node does when it has lost the DCS, and
// why at most one master stays open.

module LostMode {
  import opened Wrappers
  import opened Quorum
  import opened HostStates

  /** What every process sees: one state per shard host, and the names and addresses
      each host answers to. */
  datatype Snapshot = Snapshot(states: map<Host, HostState>, names: map<Host, set<string>>)

  /** replicates without allowSync: the link is up, and either side names the other. */
  predicate Replicates(snap: Snapshot, replica: Host, master: Host)
    requires replica in snap.states && master in snap.states
  {
    && snap.states[replica].replica.Some? && snap.states[replica].replica.value.linkUp
    && (replica in snap.states[master].connectedReplicas
        || (master in snap.names && snap.states[replica].replica.value.masterHost in snap.names[master]))
  }

  /** The replicas a host may rely on: answering, no masters, with a live link, and named
      by the host or naming it. */
  ghost function Counted(snap: Snapshot, master: Host): set<Host>
    requires master in snap.states
  {
    set h | h in snap.states && snap.states[h].pingOk && !snap.states[h].isMaster
            && snap.states[h].replica.Some? && snap.states[h].replica.value.linkUp
            && (h in snap.states[master].connectedReplicas
                || (master in snap.names && snap.states[h].replica.value.masterHost in snap.names[master]))
  }

  predicate Counts(snap: Snapshot, h: Host, master: Host)
    requires h in snap.states && master in snap.states
  {
    snap.states[h].pingOk && !snap.states[h].isMaster && Replicates(snap, h, master)
  }

  ghost predicate Passes(snap: Snapshot, local: Host) {
    |snap.states| == 1 || (local in snap.states && |Counted(snap, local)| >= |snap.states| / 2)
  }

  /** Visiting one more host adds it to the counted ones seen, or adds nothing. */
  lemma VisitOne(counted: set<Host>, todo: set<Host>, host: Host)
    requires host in todo
    ensures |counted - (todo - {host})| == |counted - todo| + if host in counted then 1 else 0
  {
    if host in counted {
      assert counted - (todo - {host}) == (counted - todo) + {host};
    } else {
      assert counted - (todo - {host}) == counted - todo;
    }
  }

  /** checkHAReplicasRunning. Hosts that are ahead are only reported. */
  method CheckHAReplicasRunning(snap: Snapshot, local: Host, failed: bool) returns (ok: bool, aheadHosts: nat)
    ensures ok <==> |snap.states| == 1 || (!failed && Passes(snap, local))
    ensures ok && |snap.states| != 1 ==>
              exists live: set<Host> ::
                && |live| >= |snap.states| / 2
                && forall h :: h in live ==>
                     && h in snap.states && local in snap.states && snap.states[h].pingOk && !snap.states[h].isMaster
                     && snap.states[h].replica.Some? && snap.states[h].replica.value.linkUp
                     && (h in snap.states[local].connectedReplicas
                         || (local in snap.names && snap.states[h].replica.value.masterHost in snap.names[local]))
  {
    aheadHosts := 0;
    if |snap.states| == 1 {
      return true, aheadHosts;
    }
    if failed || local !in snap.states {
      return false, aheadHosts;
    }
    var availableReplicas;
    aheadHosts, availableReplicas := CountReplicas(snap, local);
    return availableReplicas >= |snap.states| / 2, aheadHosts;
  }

  method CountReplicas(snap: Snapshot, local: Host) returns (aheadHosts: nat, availableReplicas: nat)
    requires local in snap.states
    ensures availableReplicas == |Counted(snap, local)|
  {
    var baseOffset := GetOffset(Some(snap.states[local]));
    aheadHosts, availableReplicas := 0, 0;
    ghost var counted := Counted(snap, local);
    var todo := snap.states.Keys;
    assert counted - todo == {};
    while todo != {}
      invariant todo <= snap.states.Keys && availableReplicas == |counted - todo|
    {
      var host :| host in todo;
      VisitOne(counted, todo, host);
      todo := todo - {host};
      if GetOffset(Some(snap.states[host])) > baseOffset {
        aheadHosts := aheadHosts + 1;
      }
      if Counts(snap, host, local) {
        availableReplicas := availableReplicas + 1;
      }
    }
    assert counted - todo == counted;
  }

  /** On a shard of several hosts, a master none of whose replicas reports a live link
      never passes. */
  lemma NoLiveLinkNoPass(snap: Snapshot, local: Host)
    requires |snap.states| > 1
    requires forall h :: h in snap.states && snap.states[h].replica.Some? ==> !snap.states[h].replica.value.linkUp
    ensures !Passes(snap, local)
  {
    if local in snap.states {
      assert Counted(snap, local) == {};
    }
  }

  /** Two masters pass on one snapshot only if some replica counts for both of them. */
  lemma TwoPassOnlyByDoubleCounting(snap: Snapshot, a: Host, b: Host)
    requires a in snap.states && b in snap.states && a != b && |snap.states| > 1
    requires snap.states[a].isMaster && snap.states[b].isMaster
    requires Passes(snap, a) && Passes(snap, b)
    ensures Counted(snap, a) * Counted(snap, b) != {}
  {
    var hosts := snap.states.Keys;
    var mine, yours := Counted(snap, a) + {a}, Counted(snap, b) + {b};
    assert |hosts| == |snap.states|;
    assert a !in Counted(snap, a) && b !in Counted(snap, b) && b !in Counted(snap, a) && a !in Counted(snap, b);
    Pigeonhole(hosts, mine, yours);
  }

  /** Who a replica says it follows, and who says it is followed, agree; and no name
      stands for two hosts. */
  ghost predicate Consistent(snap: Snapshot) {
    && (forall r, m :: r in snap.states && m in snap.states && r in Counted(snap, m) ==>
          m in snap.names && snap.states[r].replica.value.masterHost in snap.names[m])
    && (forall a, b :: a in snap.names && b in snap.names && a != b ==> snap.names[a] * snap.names[b] == {})
  }

  lemma CountedOnce(snap: Snapshot, a: Host, b: Host)
    requires Consistent(snap) && a in snap.states && b in snap.states && a != b
    ensures Counted(snap, a) * Counted(snap, b) == {}
  {
    forall r | r in Counted(snap, a) ensures r !in Counted(snap, b) {
      var name := snap.states[r].replica.value.masterHost;
      assert name in snap.names[a];
      assert b in snap.names ==> name !in snap.names[a] * snap.names[b];
    }
  }

  /** Split-brain bound: on a consistent snapshot at most one master passes. */
  lemma AtMostOnePasses(snap: Snapshot, a: Host, b: Host)
    requires Consistent(snap) && |snap.states| > 1
    requires a in snap.states && b in snap.states && snap.states[a].isMaster && snap.states[b].isMaster
    requires Passes(snap, a) && Passes(snap, b)
    ensures a == b
  {
    if a != b {
      TwoPassOnlyByDoubleCounting(snap, a, b);
      CountedOnce(snap, a, b);
      assert false;
    }
  }

  /** Consistency is needed: a master that has not yet noticed its replica's departure
      and the master it has gone to both pass. */
  lemma StaleListSplits(a: Host, b: Host, r: Host) returns (snap: Snapshot)
    requires a != b && a != r && b != r
    ensures snap.states.Keys == {a, b, r} && snap.states[a].isMaster && snap.states[b].isMaster
    ensures Passes(snap, a) && Passes(snap, b)
  {
    var master := HostState(true, true, true, false, false, [], None, 0, "", "", 0, 0, 0, "", "", None, "");
    var replica := master.(isMaster := false, replica := Some(ReplicaState(b, true, 0, 0)));
    snap := Snapshot(map[a := master.(connectedReplicas := [r]), b := master, r := replica],
                     map[a := {a}, b := {b}, r := {r}]);
    assert |snap.states.Keys| == |{a, b, r}| == 3;
    assert r in Counted(snap, a) && r in Counted(snap, b);
    SubsetSize({r}, Counted(snap, a));
    SubsetSize({r}, Counted(snap, b));
  }

  // ----- the state handler -----

  datatype Next = StateLost | StateCandidate

  class Node {
    const host: Host
    var offline: bool

    constructor (host: Host, offline: bool)
      ensures this.host == host && this.offline == offline
    {
      this.host, this.offline := host, offline;
    }

    /** A node command; one that is not answered may have been applied. */
    method SetOffline(value: bool, answering: bool)
      modifies this
      ensures answering ==> offline == value
      ensures offline == value || offline == old(offline)
    {
      var applied: bool := *;
      if answering || applied {
        offline := value;
      }
    }

    /** stateLost. If every probe and command of this pass is answered, a master of a
        multi-host shard ends up closed exactly when it does not pass, and a replica exactly
        when its replication is not healthy. */
    method StateLostHandler(connected: bool, reconnectDue: bool, snap: Snapshot, isMaster: bool, stale: bool, answering: bool)
      returns (next: Next)
      modifies this
      ensures next == StateCandidate <==> connected
      ensures connected || reconnectDue || |snap.states| == 1 ==> offline == old(offline)
      ensures !connected && !reconnectDue && |snap.states| != 1 && answering ==>
                offline == !(if isMaster then Passes(snap, host) else Healthy(snap, host, stale))
    {
      next := if connected then StateCandidate else StateLost;
      if connected || reconnectDue || |snap.states| == 1 {
        return;
      }
      var seen: bool, asked: bool := *, *;
      var keepOpen := false;
      if isMaster {
        var ahead;
        keepOpen, ahead := CheckHAReplicasRunning(snap, host, !seen && !answering);
      } else if seen || answering {
        keepOpen := CheckReplica(snap, host, stale);
      } else {
        return;
      }
      if !asked && !answering {
        return;
      }
      if keepOpen {
        if offline {
          SetOffline(false, answering);
        }
        return;
      }
      if offline {
        return;
      }
      SetOffline(true, answering);
    }
  }

  /** A replica with a live link to the only master that answers, which is stable, and
      that does not lag. */
  ghost predicate Healthy(snap: Snapshot, local: Host, stale: bool) {
    && !stale && local in snap.states && snap.states[local].replica.Some? && snap.states[local].replica.value.linkUp
    && exists m ::
         && m in snap.states && snap.states[m].pingOk && snap.states[m].isMaster && snap.states[m].pingStable
         && (forall k :: k in snap.states && snap.states[k].pingOk && snap.states[k].isMaster ==> k == m)
         && (local in snap.states[m].connectedReplicas
             || (m in snap.names && snap.states[local].replica.value.masterHost in snap.names[m]))
  }

  /** The replica's half of stateLost, outside cluster mode. */
  method CheckReplica(snap: Snapshot, local: Host, stale: bool) returns (ok: bool)
    ensures ok <==> Healthy(snap, local, stale)
  {
    var masters := GetMasters(snap);
    if |masters| != 1 || local !in snap.states {
      if |masters| > 1 {
        assert masters[0] in masters && masters[1] in masters;
      }
      return false;
    }
    var master := masters[0];
    assert master in masters;
    return snap.states[master].pingOk && snap.states[master].pingStable && Replicates(snap, local, master) && !stale;
  }

  /** The first half of getMasterHost. */
  method GetMasters(snap: Snapshot) returns (masters: seq<Host>)
    ensures NoDup(masters)
    ensures forall h :: h in masters <==> h in snap.states && snap.states[h].pingOk && snap.states[h].isMaster
  {
    masters := [];
    var todo := snap.states.Keys;
    while todo != {}
      invariant todo <= snap.states.Keys && NoDup(masters)
      invariant forall h :: h in masters <==> h in snap.states && h !in todo && snap.states[h].pingOk && snap.states[h].isMaster
    {
      var host :| host in todo;
      todo := todo - {host};
      if snap.states[host].pingOk && snap.states[host].isMaster {
        masters := masters + [host];
      }
    }
  }

  /** Every host of the shard has lost the DCS and has run the handler on the same
      snapshot. Of the masters whose commands are answered, at most one is open. */
  method AllLost(nodes: seq<Node>, snap: Snapshot, stale: set<Host>, answering: set<Host>)
    requires Consistent(snap) && |snap.states| > 1 && NoDup(nodes)
    requires forall n :: n in nodes ==> n.host in snap.states
    requires forall i, j :: 0 <= i < j < |nodes| ==> nodes[i].host != nodes[j].host
    modifies nodes
    ensures forall i, j :: 0 <= i < j < |nodes| && Obeys(snap, answering, nodes[i]) && Obeys(snap, answering, nodes[j]) ==>
                             nodes[i].offline || nodes[j].offline
    ensures forall n :: n in nodes && Obeys(snap, answering, n) ==> n.offline == !Passes(snap, n.host)
  {
    for i := 0 to |nodes|
      invariant forall k :: 0 <= k < i && Obeys(snap, answering, nodes[k]) ==>
                              nodes[k].offline == !Passes(snap, nodes[k].host)
    {
      var node := nodes[i];
      assert node in nodes;
      var next := node.StateLostHandler(false, false, snap, snap.states[node.host].isMaster,
                                        node.host in stale, node.host in answering);
    }
    forall i, j | 0 <= i < j < |nodes| && Obeys(snap, answering, nodes[i]) && Obeys(snap, answering, nodes[j])
      ensures nodes[i].offline || nodes[j].offline
    {
      if Passes(snap, nodes[i].host) && Passes(snap, nodes[j].host) {
        AtMostOnePasses(snap, nodes[i].host, nodes[j].host);
        assert false;
      }
    }
  }

  /** A master whose commands are answered. */
  ghost predicate Obeys(snap: Snapshot, answering: set<Host>, n: Node) {
    n.host in snap.states && snap.states[n.host].isMaster && n.host in answering
  }
}
