// internal/app/active_nodes.go: moving the active-node list, the master's quorum
// replicas and its quorum size from one set of hosts to another, one failing
// operation at a time.

module ActiveNodes {
  import opened Quorum

  type Host = string

  /** What a failover and a WAITQUORUM look at: the DCS list, the master's quorum
      replica set and its quorum-replicas-to-write. */
  datatype Config = Config(active: seq<Host>, quorum: set<Host>, toWrite: nat)

  ghost predicate AckSet(c: Config, acks: set<Host>) {
    acks <= c.quorum && |acks| >= c.toWrite
  }

  ghost predicate FailoverSet(c: Config, master: Host, stopped: set<Host>) {
    stopped <= SetOf(c.active) - {master} && |stopped| >= FailoverQuorum(|c.active|)
  }

  /** No acknowledged write can be missed by a failover. */
  ghost predicate Safe(c: Config, master: Host) {
    forall acks, stopped :: AckSet(c, acks) && FailoverSet(c, master, stopped) ==> acks * stopped != {}
  }

  ghost predicate EnoughAcks(c: Config) {
    c.toWrite >= NumReplicasToWrite(|c.active|)
  }

  /** The configuration the transition is heading for. */
  ghost predicate Settled(c: Config, master: Host, target: seq<Host>) {
    && NoDup(c.active) && SetOf(c.active) == SetOf(target)
    && c.quorum == SetOf(target) - {master}
    && c.toWrite == NumReplicasToWrite(|target|)
  }

  /** The state a transition is safe from: the quorum replicas are active, and enough of them must answer. */
  ghost predicate Inside(c: Config, master: Host) {
    EnoughAcks(c) && c.quorum <= SetOf(c.active) - {master} && (master in c.active || c.active == [])
  }

  lemma InsideIsSafe(c: Config, master: Host)
    ensures Inside(c, master) ==> Safe(c, master)
  {
    if Inside(c, master) {
      ListSize(c.active);
      var others := SetOf(c.active) - {master};
      forall acks, stopped | AckSet(c, acks) && FailoverSet(c, master, stopped) ensures acks * stopped != {} {
        SubsetSize(stopped, others);
        if c.active != [] {
          Pigeonhole(others, acks, stopped);
        }
      }
    }
  }

  // ----- the set helpers of active_nodes.go -----

  method ActiveNodesSet(nodes: seq<Host>) returns (res: set<Host>)
    ensures res == SetOf(nodes)
  {
    res := {};
    for i := 0 to |nodes|
      invariant res == SetOf(nodes[..i])
    {
      assert nodes[..i + 1] == nodes[..i] + [nodes[i]];
      res := res + {nodes[i]};
    }
    assert nodes[..|nodes|] == nodes;
  }

  /** Up to the order in which sort.Strings leaves it. */
  method ActiveNodesIntersection(left: seq<Host>, right: seq<Host>) returns (res: seq<Host>)
    ensures SetOf(res) == SetOf(left) * SetOf(right)
    ensures NoDup(left) ==> NoDup(res)
  {
    var rightSet := ActiveNodesSet(right);
    res := [];
    for i := 0 to |left|
      invariant SetOf(res) == SetOf(left[..i]) * SetOf(right)
      invariant NoDup(left) ==> NoDup(res)
    {
      assert left[..i + 1] == left[..i] + [left[i]];
      if left[i] in rightSet {
        if NoDup(left) {
          assert left[i] !in left[..i];
          assert left[i] !in SetOf(res);
        }
        assert SetOf(res + [left[i]]) == SetOf(res) + {left[i]};
        res := res + [left[i]];
      }
      assert SetOf(left[..i + 1]) == SetOf(left[..i]) + {left[i]};
    }
    assert left[..|left|] == left;
  }

  /** A length test and a one-sided inclusion decide equality of the two lists as
      sets as soon as the right one has no duplicates. */
  method ActiveNodesEqual(left: seq<Host>, right: seq<Host>) returns (res: bool)
    ensures res <==> |left| == |right| && SetOf(right) <= SetOf(left)
    ensures NoDup(right) ==> (res <==> |left| == |right| && SetOf(left) == SetOf(right))
    ensures NoDup(right) && res ==> NoDup(left)
  {
    ghost var dupFree := NoDup(right);
    if dupFree {
      ListSize(left);
      ListSize(right);
    }
    if |left| != |right| {
      return false;
    }
    var leftSet := ActiveNodesSet(left);
    for i := 0 to |right|
      invariant SetOf(right[..i]) <= SetOf(left)
    {
      assert right[..i + 1] == right[..i] + [right[i]];
      if right[i] !in leftSet {
        assert right[i] in SetOf(right);
        return false;
      }
    }
    assert right[..|right|] == right;
    if dupFree {
      SubsetSameSize(SetOf(right), SetOf(left));
    }
    return true;
  }

  method HasAddedActiveNodes(old_: seq<Host>, target: seq<Host>) returns (res: bool)
    ensures res <==> !(SetOf(target) <= SetOf(old_))
  {
    var oldSet := ActiveNodesSet(old_);
    for i := 0 to |target|
      invariant SetOf(target[..i]) <= SetOf(old_)
    {
      assert target[..i + 1] == target[..i] + [target[i]];
      if target[i] !in oldSet {
        assert target[i] in SetOf(target);
        return true;
      }
    }
    assert target[..|target|] == target;
    return false;
  }

  /** Every configuration in the list demands at least half of its DCS list. */
  ghost predicate AllEnough(passed: seq<Config>) {
    forall i :: 0 <= i < |passed| ==> EnoughAcks(passed[i])
  }

  ghost predicate AllSafe(passed: seq<Config>, master: Host) {
    forall i :: 0 <= i < |passed| ==> Safe(passed[i], master)
  }

  ghost predicate AllSafeExcept(passed: seq<Config>, master: Host, window: Config) {
    forall i :: 0 <= i < |passed| ==> Safe(passed[i], master) || passed[i] == window
  }

  /** The DCS key and the two settings of the master that the transition moves.
      An operation that reports an error may or may not have taken effect, and one that is
      answered reports none. */
  class Shard {
    const master: Host
    var active: seq<Host>
    var quorum: set<Host>
    var toWrite: nat

    ghost function State(): Config
      reads this
    {
      Config(active, quorum, toWrite)
    }

    constructor (master: Host, active: seq<Host>, quorum: set<Host>, toWrite: nat)
      ensures this.master == master && State() == Config(active, quorum, toWrite)
    {
      this.master := master;
      this.active, this.quorum, this.toWrite := active, quorum, toWrite;
    }

    method SetQuorumReplicas(nodes: seq<Host>, answering: bool) returns (ok: bool)
      modifies this
      ensures State() == old(State()).(quorum := SetOf(nodes) - {master}) || (!ok && State() == old(State()))
      ensures answering ==> ok
    {
      ok := *;
      ok := ok || answering;
      var applied: bool := *;
      if ok || applied {
        quorum := set host | host in nodes && host != master;
        assert quorum == SetOf(nodes) - {master};
      }
    }

    method SetNumQuorumReplicas(value: nat, answering: bool) returns (ok: bool)
      modifies this
      ensures State() == old(State()).(toWrite := value) || (!ok && State() == old(State()))
      ensures answering ==> ok
    {
      ok := *;
      ok := ok || answering;
      var applied: bool := *;
      if ok || applied {
        toWrite := value;
      }
    }

    method SetActiveNodes(nodes: seq<Host>, answering: bool) returns (ok: bool)
      modifies this
      ensures State() == old(State()).(active := nodes) || (!ok && State() == old(State()))
      ensures answering ==> ok
    {
      ok := *;
      ok := ok || answering;
      var applied: bool := *;
      if ok || applied {
        active := nodes;
      }
    }

    /** applyActiveNodesTransition, with the stored list as oldActiveNodes and the
        half of the target list as expectedNumReplicas. `passed` collects the
        configuration left by each operation. */
    method ApplyTransition(target: seq<Host>, answering: bool) returns (ok: bool, ghost passed: seq<Config>)
      requires NoDup(target) && master in target
      modifies this
      // a completed transition has arrived, whatever it started from
      ensures ok ==> Settled(State(), master, target)
      // a settled shard is not disturbed by a repeat
      ensures old(Settled(State(), master, target)) ==>
                State() == old(State()) && forall i :: 0 <= i < |passed| ==> passed[i] == old(State())
      // the quorum size covers the DCS list after every operation
      ensures old(EnoughAcks(State())) ==> AllEnough(passed) && EnoughAcks(State())
      // no acknowledged write can be missed after any operation, except in the removal window
      ensures old(Inside(State(), master)) ==>
                AllSafeExcept(passed, master, old(State()).(active := target))
      ensures old(Inside(State(), master)) && !(SetOf(target) < SetOf(old(active))) ==> AllSafe(passed, master)
      ensures answering ==> ok
    {
      ListSize(target);
      ListSize(active);
      var equal := ActiveNodesEqual(active, target);
      if equal {
        ok, passed := SameNodes(target, answering);
        return;
      }
      var added := HasAddedActiveNodes(active, target);
      if added || NumReplicasToWrite(|target|) > toWrite {
        ok, passed := GrowNodes(target, answering);
        return;
      }
      ok, passed := RemoveNodes(target, answering);
    }

    /** The first branch: the DCS list already is the target. */
    method SameNodes(target: seq<Host>, answering: bool) returns (ok: bool, ghost passed: seq<Config>)
      requires NoDup(target) && master in target
      requires |active| == |target| && NoDup(active) && SetOf(active) == SetOf(target)
      modifies this
      ensures ok ==> Settled(State(), master, target)
      ensures old(Settled(State(), master, target)) ==>
                State() == old(State()) && forall i :: 0 <= i < |passed| ==> passed[i] == old(State())
      ensures old(EnoughAcks(State())) ==> AllEnough(passed) && EnoughAcks(State())
      ensures old(Inside(State(), master)) ==> AllSafe(passed, master)
      ensures answering ==> ok
    {
      var actual, expected := toWrite, NumReplicasToWrite(|target|);
      passed := [];
      if actual < expected {
        ok := SetNumQuorumReplicas(expected, answering);
        InsideIsSafe(State(), master);
        passed := passed + [State()];
        if !ok {
          return;
        }
      }
      ok := SetQuorumReplicas(target, answering);
      InsideIsSafe(State(), master);
      passed := passed + [State()];
      if !ok {
        return;
      }
      if actual > expected {
        ok := SetNumQuorumReplicas(expected, answering);
        InsideIsSafe(State(), master);
        passed := passed + [State()];
      }
    }

    /** The second branch: hosts are added, or the quorum size must rise first. */
    method GrowNodes(target: seq<Host>, answering: bool) returns (ok: bool, ghost passed: seq<Config>)
      requires NoDup(target) && master in target
      modifies this
      ensures ok ==> State() == Config(target, SetOf(target) - {master}, NumReplicasToWrite(|target|))
      ensures old(EnoughAcks(State())) ==> AllEnough(passed) && EnoughAcks(State())
      ensures old(Inside(State(), master)) ==> AllSafe(passed, master)
      ensures answering ==> ok
    {
      var actual, expected := toWrite, NumReplicasToWrite(|target|);
      var common := ActiveNodesIntersection(active, target);
      ok := SetQuorumReplicas(common, answering);
      InsideIsSafe(State(), master);
      passed := [State()];
      if !ok {
        return;
      }
      if actual < expected {
        ok := SetNumQuorumReplicas(expected, answering);
        InsideIsSafe(State(), master);
        passed := passed + [State()];
        if !ok {
          return;
        }
      }
      ghost var more;
      ok, more := ArriveAt(target, actual, expected, answering);
      passed := passed + more;
    }

    /** The end of the second branch: the quorum replicas are on both lists by now. */
    method ArriveAt(target: seq<Host>, actual: nat, expected: nat, answering: bool) returns (ok: bool, ghost passed: seq<Config>)
      requires NoDup(target) && master in target && expected == NumReplicasToWrite(|target|)
      requires quorum <= SetOf(target) - {master} && toWrite == if actual < expected then expected else actual
      modifies this
      ensures ok ==> State() == Config(target, SetOf(target) - {master}, expected)
      ensures old(EnoughAcks(State())) ==> AllEnough(passed) && EnoughAcks(State())
      ensures old(Inside(State(), master)) ==> AllSafe(passed, master)
      ensures answering ==> ok
    {
      ok := SetActiveNodes(target, answering);
      InsideIsSafe(State(), master);
      passed := [State()];
      if !ok {
        return;
      }
      ok := SetQuorumReplicas(target, answering);
      InsideIsSafe(State(), master);
      passed := passed + [State()];
      if !ok {
        return;
      }
      if actual > expected {
        ok := SetNumQuorumReplicas(expected, answering);
        InsideIsSafe(State(), master);
        passed := passed + [State()];
      }
    }

    /** The third branch: hosts are only removed; the list moves first. */
    method RemoveNodes(target: seq<Host>, answering: bool) returns (ok: bool, ghost passed: seq<Config>)
      requires NoDup(target) && master in target
      requires SetOf(target) <= SetOf(active) && NumReplicasToWrite(|target|) <= toWrite
      modifies this
      ensures ok ==> State() == Config(target, SetOf(target) - {master}, NumReplicasToWrite(|target|))
      ensures old(EnoughAcks(State())) ==> AllEnough(passed) && EnoughAcks(State())
      ensures old(Inside(State(), master)) ==> AllSafeExcept(passed, master, old(State()).(active := target))
      ensures old(Inside(State(), master)) && SetOf(target) == SetOf(old(active)) ==> AllSafe(passed, master)
      ensures answering ==> ok
    {
      var actual, expected := toWrite, NumReplicasToWrite(|target|);
      ok := SetActiveNodes(target, answering);
      InsideIsSafe(State(), master);
      passed := [State()];
      if !ok {
        return;
      }
      ok := SetQuorumReplicas(target, answering);
      InsideIsSafe(State(), master);
      passed := passed + [State()];
      if !ok {
        return;
      }
      if actual != expected {
        ok := SetNumQuorumReplicas(expected, answering);
        InsideIsSafe(State(), master);
        passed := passed + [State()];
      }
    }

    /** A run of manager ticks, each free to fail half-way, over changing targets. */
    method Ticks(targets: seq<seq<Host>>, answering: seq<bool>) returns (done: seq<bool>, ghost passed: seq<Config>)
      requires |answering| == |targets|
      requires forall i :: 0 <= i < |targets| ==> NoDup(targets[i]) && master in targets[i]
      modifies this
      ensures |done| == |targets| && forall i :: 0 <= i < |targets| && answering[i] ==> done[i]
      ensures targets != [] && done[|done| - 1] ==> Settled(State(), master, targets[|targets| - 1])
      ensures old(EnoughAcks(State())) ==> AllEnough(passed) && EnoughAcks(State())
    {
      done, passed := [], [];
      for i := 0 to |targets|
        invariant |done| == i && forall j :: 0 <= j < i && answering[j] ==> done[j]
        invariant i > 0 && done[i - 1] ==> Settled(State(), master, targets[i - 1])
        invariant old(EnoughAcks(State())) ==> AllEnough(passed) && EnoughAcks(State())
      {
        ghost var more;
        var ok;
        ok, more := ApplyTransition(targets[i], answering[i]);
        done, passed := done + [ok], passed + more;
      }
    }
  }

  // ----- the removal window: the list is already the target, the quorum still old -----

  /** How many of the toWrite acknowledgements must still come from the target list. */
  function InsideAcks(c: Config, target: set<Host>): nat {
    var lost := |c.quorum - target|;
    if c.toWrite > lost then c.toWrite - lost else 0
  }

  lemma RemovalWindowSafe(c: Config, master: Host)
    requires NoDup(c.active) && master in c.active && master !in c.quorum
    requires InsideAcks(c, SetOf(c.active)) >= NumReplicasToWrite(|c.active|)
    ensures Safe(c, master)
  {
    ListSize(c.active);
    var target := SetOf(c.active);
    forall acks, stopped | AckSet(c, acks) && FailoverSet(c, master, stopped) ensures acks * stopped != {} {
      SplitSize(acks, target);
      SubsetSize(acks - target, c.quorum - target);
      AckMeetsFailover(target, master, acks * target, stopped);
      var x :| x in (acks * target) * stopped;
      assert x in acks * stopped;
    }
  }

  /** When too few acknowledgements must come from inside, a failover can miss them all. */
  lemma RemovalWindowMissed(c: Config, master: Host) returns (acks: set<Host>, stopped: set<Host>)
    requires NoDup(c.active) && master in c.active && master !in c.quorum
    requires |c.quorum| >= c.toWrite && InsideAcks(c, SetOf(c.active)) < NumReplicasToWrite(|c.active|)
    ensures AckSet(c, acks) && FailoverSet(c, master, stopped) && acks * stopped == {}
  {
    ListSize(c.active);
    var target := SetOf(c.active);
    var n := InsideAcks(c, target);
    SplitSize(c.quorum, target);
    var inner := SubsetOfSize(c.quorum * target, n);
    acks := (c.quorum - target) + inner;
    assert |acks| == |c.quorum - target| + n;
    stopped := AvoidInner(target, master, inner, FailoverQuorum(|c.active|));
  }

  /** A failover set that avoids a small set of acknowledging hosts. */
  lemma AvoidInner(target: set<Host>, master: Host, inner: set<Host>, needed: nat) returns (stopped: set<Host>)
    requires master in target && inner <= target - {master} && |inner| + needed < |target|
    ensures stopped <= target - {master} && |stopped| == needed && inner * stopped == {} && stopped <= target
  {
    var others := target - {master};
    assert |others| == |target| - 1;
    SplitSize(others, inner);
    assert others * inner == inner;
    stopped := SubsetOfSize(others - inner, needed);
  }

  /** The window is harmless exactly when enough acknowledgements must come from inside. */
  lemma RemovalWindowExact(c: Config, master: Host)
    requires NoDup(c.active) && master in c.active && master !in c.quorum
    requires |c.quorum| >= c.toWrite
    ensures Safe(c, master) <==> InsideAcks(c, SetOf(c.active)) >= NumReplicasToWrite(|c.active|)
  {
    if InsideAcks(c, SetOf(c.active)) >= NumReplicasToWrite(|c.active|) {
      RemovalWindowSafe(c, master);
    } else {
      var acks, stopped := RemovalWindowMissed(c, master);
      assert AckSet(c, acks) && FailoverSet(c, master, stopped);
    }
  }

  /** Dropping one host from a settled shard: the window is safe for an even number
      of active hosts and unsafe for an odd one. */
  lemma DropOneHost(old_: seq<Host>, target: seq<Host>, master: Host, dropped: Host)
    requires NoDup(old_) && NoDup(target) && master in target && dropped in old_
    requires SetOf(target) == SetOf(old_) - {dropped} && dropped != master
    ensures Safe(Config(target, SetOf(old_) - {master}, NumReplicasToWrite(|old_|)), master) <==> |old_| % 2 == 0
  {
    var c := Config(target, SetOf(old_) - {master}, NumReplicasToWrite(|old_|));
    ListSize(old_);
    ListSize(target);
    assert SetOf(old_) == SetOf(target) + {dropped};
    assert |old_| == |target| + 1;
    assert |c.quorum| == |old_| - 1;
    assert c.quorum - SetOf(target) == {dropped};
    RemovalWindowExact(c, master);
  }

  /** The next operation of the removal branch closes the window. */
  lemma RemovalWindowCloses(c: Config, master: Host)
    requires NoDup(c.active) && master in c.active && EnoughAcks(c)
    ensures Safe(c.(quorum := SetOf(c.active) - {master}), master)
  {
    InsideIsSafe(c.(quorum := SetOf(c.active) - {master}), master);
  }
}
