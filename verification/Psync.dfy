// Replication ids, and why isPartialSyncPossible (internal/app/lag.go) can be trusted:
// a model of what valkey nodes do to their logs, ids and backlogs.

module Psync {
  import opened Wrappers
  import opened HostStates

  type Id = string
  type Byte = int

  datatype Node = Node(
    log: seq<Byte>,
    replid: Id,
    replid2: Id, secondOffset: nat,   // the id shared before a promotion, and where it ended
    backlogStart: Option<nat>,        // the first offset still in the backlog; it reaches to the end of the log
    isMaster: bool)

  /** history[id] is what has ever been written under that id, with what it grew out of. */
  datatype World = World(history: map<Id, seq<Byte>>, nodes: map<Host, Node>, streams: map<Host, Host>)

  /** What INFO says about a node. */
  function View(n: Node): HostState {
    HostState(true, true, n.isMaster, false, false, [],
    if n.isMaster then None else Some(ReplicaState("", true, 0, |n.log|)), |n.log|,
    n.replid, n.replid2, n.secondOffset,
    if n.backlogStart.Some? then n.backlogStart.value else 0,
    if n.backlogStart.Some? then |n.log| + 1 - n.backlogStart.value else 0, "", "", None, "")
  }

  ghost predicate CanPsync(r: Node, m: Node) {
    IsPartialSyncPossible(Some(View(r)), Some(View(m)))
  }

  ghost predicate GoodNode(history: map<Id, seq<Byte>>, n: Node) {
    && n.replid in history && n.log <= history[n.replid]
    && (n.isMaster ==> n.log == history[n.replid])
    && (n.replid2 != "" ==>
          && n.replid2 in history && 1 <= n.secondOffset <= |n.log| + 1
          && n.log[..n.secondOffset - 1] <= history[n.replid2])
    && (n.backlogStart.Some? ==> 1 <= n.backlogStart.value <= |n.log| + 1)
  }

  ghost predicate GoodNodes(history: map<Id, seq<Byte>>, nodes: map<Host, Node>) {
    "" !in history && forall h :: h in nodes ==> GoodNode(history, nodes[h])
  }

  /** Every id has at most one master writing under it. */
  ghost predicate OneOwner(nodes: map<Host, Node>) {
    forall h, k :: h in nodes && k in nodes && h != k && nodes[h].isMaster && nodes[k].isMaster ==>
                     nodes[h].replid != nodes[k].replid
  }

  ghost predicate GoodStreams(nodes: map<Host, Node>, streams: map<Host, Host>) {
    forall r :: r in streams ==>
                  && r in nodes && streams[r] in nodes && !nodes[r].isMaster
                  && nodes[r].replid == nodes[streams[r]].replid && nodes[r].log <= nodes[streams[r]].log
  }

  ghost predicate Inv(w: World) {
    GoodNodes(w.history, w.nodes) && OneOwner(w.nodes) && GoodStreams(w.nodes, w.streams)
  }

  datatype Step =
    | Write(h: Host, b: Byte)
    | Stream(r: Host, n: nat)
    | Continue(r: Host, m: Host)
    | FullSync(r: Host, m: Host)
    | Promote(h: Host, id: Id)
    | Demote(h: Host)
    | Disconnect(r: Host)
    | Trim(h: Host, start: Option<nat>)

  ghost predicate Enabled(w: World, s: Step) {
    match s
    case Write(h, _) => h in w.nodes && w.nodes[h].isMaster
    case Stream(r, n) =>
      && r in w.streams && r in w.nodes && w.streams[r] in w.nodes
      && |w.nodes[r].log| <= n <= |w.nodes[w.streams[r]].log|
    case Continue(r, m) =>
      r in w.nodes && m in w.nodes && r != m && !w.nodes[r].isMaster && CanPsync(w.nodes[r], w.nodes[m])
    case FullSync(r, m) => r in w.nodes && m in w.nodes && r != m && !w.nodes[r].isMaster
    case Promote(h, id) => h in w.nodes && !w.nodes[h].isMaster && id != "" && id !in w.history
    case Demote(h) => h in w.nodes
    case Disconnect(_) => true
    case Trim(h, start) =>
      h in w.nodes && (start.Some? ==> 1 <= start.value <= |w.nodes[h].log| + 1)
  }

  /** The connections that survive when h changes what it serves. */
  ghost function Without(streams: map<Host, Host>, h: Host): map<Host, Host> {
    map r | r in streams && r != h && streams[r] != h :: streams[r]
  }

  ghost function Next(w: World, s: Step): World
    requires Enabled(w, s)
  {
    match s
    case Write(h, b) =>
      var n := w.nodes[h];
      w.(nodes := w.nodes[h := n.(log := n.log + [b])], history := w.history[n.replid := n.log + [b]])
    case Stream(r, n) =>
      w.(nodes := w.nodes[r := w.nodes[r].(log := w.nodes[w.streams[r]].log[..n])])
    case Continue(r, m) =>
      var n := w.nodes[r];
      var n' := if n.replid == w.nodes[m].replid then n
                else n.(replid := w.nodes[m].replid, replid2 := n.replid, secondOffset := |n.log| + 1);
      w.(nodes := w.nodes[r := n'], streams := Without(w.streams, r)[r := m])
    case FullSync(r, m) =>
      var n := w.nodes[m];
      w.(nodes := w.nodes[r := Node(n.log, n.replid, "", 0, None, false)], streams := Without(w.streams, r)[r := m])
    case Promote(h, id) =>
      var n := w.nodes[h];
      w.(nodes := w.nodes[h := n.(replid := id, replid2 := n.replid, secondOffset := |n.log| + 1, isMaster := true)],
      history := w.history[id := n.log], streams := Without(w.streams, h))
    case Demote(h) => w.(nodes := w.nodes[h := w.nodes[h].(isMaster := false)], streams := Without(w.streams, h))
    case Disconnect(r) => w.(streams := Without(w.streams, r))
    case Trim(h, start) => w.(nodes := w.nodes[h := w.nodes[h].(backlogStart := start)])
  }

  /** Ids are never reused, and what was written under one is never rewritten. */
  ghost predicate Extends(old_: map<Id, seq<Byte>>, new_: map<Id, seq<Byte>>) {
    forall id :: id in old_ ==> id in new_ && old_[id] <= new_[id]
  }

  ghost predicate Runs(w: World, steps: seq<Step>)
    decreases |steps|
  {
    steps == [] || (Enabled(w, steps[0]) && Runs(Next(w, steps[0]), steps[1..]))
  }

  ghost function After(w: World, steps: seq<Step>): World
    requires Runs(w, steps)
    decreases |steps|
  {
    if steps == [] then w else After(Next(w, steps[0]), steps[1..])
  }

  lemma PrefixesCompare(a: seq<Byte>, b: seq<Byte>, whole: seq<Byte>)
    requires a <= whole && b <= whole && |a| <= |b|
    ensures a <= b
  {
    assert a == whole[..|a|] && b == whole[..|b|];
  }

  /** What the answer of isPartialSyncPossible means for two nodes seen at any two
      moments: the histories of one moment extend those of the other. */
  lemma CanPsyncIsPrefix(early: map<Id, seq<Byte>>, late: map<Id, seq<Byte>>, r: Node, m: Node)
    requires Extends(early, late) && "" !in late
    requires (GoodNode(early, r) && GoodNode(late, m)) || (GoodNode(late, r) && GoodNode(early, m))
    requires CanPsync(r, m)
    ensures r.log <= m.log
  {
    assert r.log <= late[r.replid];
    if m.replid == r.replid {
      assert m.log <= late[r.replid];
      PrefixesCompare(r.log, m.log, late[r.replid]);
    } else {
      var shared := m.log[..m.secondOffset - 1];
      assert shared <= late[r.replid];
      PrefixesCompare(r.log, shared, late[r.replid]);
      assert shared <= m.log;
    }
  }

  /** Within one replication id the answer is exact: the log is a prefix, and what is
      missing is still in the backlog. */
  lemma CanPsyncExact(history: map<Id, seq<Byte>>, r: Node, m: Node)
    requires GoodNode(history, r) && GoodNode(history, m) && "" !in history
    requires r.replid == m.replid
    ensures CanPsync(r, m) <==>
            !r.isMaster && r.log <= m.log && m.backlogStart.Some? && m.backlogStart.value <= |r.log| + 1
  {
    if CanPsync(r, m) {
      CanPsyncIsPrefix(history, history, r, m);
    }
  }

  /** Across a promotion it is exact as well: the log is a prefix of what the two ids
      share. Under any other id there is no partial resync. */
  lemma CanPsyncAcross(history: map<Id, seq<Byte>>, r: Node, m: Node)
    requires GoodNode(history, r) && GoodNode(history, m) && "" !in history
    requires r.replid != m.replid
    ensures CanPsync(r, m) <==>
            && !r.isMaster && r.replid == m.replid2 && r.log <= m.log[..m.secondOffset - 1]
            && m.backlogStart.Some? && m.backlogStart.value <= |r.log| + 1
  {
    if r.replid == m.replid2 {
      var shared := m.log[..m.secondOffset - 1];
      if |r.log| <= |shared| {
        PrefixesCompare(r.log, shared, history[r.replid]);
      }
    }
  }

  lemma GoodNodeStays(old_: map<Id, seq<Byte>>, new_: map<Id, seq<Byte>>, n: Node)
    requires GoodNode(old_, n) && Extends(old_, new_) && (n.isMaster ==> new_[n.replid] == old_[n.replid])
    ensures GoodNode(new_, n)
  {
  }

  lemma WriteKeeps(w: World, h: Host, b: Byte)
    requires Inv(w) && Enabled(w, Write(h, b))
    ensures Inv(Next(w, Write(h, b))) && Extends(w.history, Next(w, Write(h, b)).history)
  {
    var w' := Next(w, Write(h, b));
    forall k | k in w'.nodes ensures GoodNode(w'.history, w'.nodes[k]) {
      if k != h {
        GoodNodeStays(w.history, w'.history, w.nodes[k]);
      }
    }
  }

  lemma StreamKeeps(w: World, r: Host, n: nat)
    requires Inv(w) && Enabled(w, Stream(r, n))
    ensures Inv(Next(w, Stream(r, n))) && Extends(w.history, Next(w, Stream(r, n)).history)
  {
    var n', before := Next(w, Stream(r, n)).nodes[r], w.nodes[r];
    assert before.log <= n'.log <= w.nodes[w.streams[r]].log;
    assert n'.replid2 != "" ==> n'.log[..n'.secondOffset - 1] == before.log[..n'.secondOffset - 1];
    assert GoodNode(w.history, n');
  }

  /** What the others can see of a node is its log, its id and its role. */
  ghost predicate LooksLike(n: Node, n': Node) {
    n'.log == n.log && n'.replid == n.replid && n'.isMaster == n.isMaster
  }

  /** One node is replaced; the connections that remain do not touch it, or it looks the
      same, or it is the new end of its own connection. */
  lemma ReplaceNode(w: World, h: Host, n': Node, streams': map<Host, Host>)
    requires Inv(w) && h in w.nodes && GoodNode(w.history, n')
    requires n'.isMaster ==> w.nodes[h].isMaster && n'.replid == w.nodes[h].replid
    requires forall r :: r in streams' ==>
               if r == h && !(r in w.streams && LooksLike(w.nodes[h], n')) then
                 && streams'[r] != h && streams'[r] in w.nodes && !n'.isMaster
                 && n'.replid == w.nodes[streams'[r]].replid && n'.log <= w.nodes[streams'[r]].log
               else
                 r in w.streams && streams'[r] == w.streams[r] && (streams'[r] != h || LooksLike(w.nodes[h], n'))
    ensures Inv(w.(nodes := w.nodes[h := n'], streams := streams'))
  {
    hide GoodNode;
    var nodes' := w.nodes[h := n'];
    forall a, b | a in nodes' && b in nodes' && a != b && nodes'[a].isMaster && nodes'[b].isMaster
      ensures nodes'[a].replid != nodes'[b].replid
    {
      assert w.nodes[a].replid != w.nodes[b].replid;
    }
  }

  lemma ContinueKeeps(w: World, r: Host, m: Host)
    requires Inv(w) && Enabled(w, Continue(r, m))
    ensures Inv(Next(w, Continue(r, m))) && Extends(w.history, Next(w, Continue(r, m)).history)
  {
    CanPsyncIsPrefix(w.history, w.history, w.nodes[r], w.nodes[m]);
    var w' := Next(w, Continue(r, m));
    assert w'.nodes[r].log == w.nodes[r].log && w'.nodes[r].log[..|w.nodes[r].log|] == w.nodes[r].log;
    assert GoodNode(w.history, w'.nodes[r]);
    var dropped := w.(streams := Without(w.streams, r));
    hide GoodNode, CanPsync;
    ReplaceNode(dropped, r, w'.nodes[r], w'.streams);
  }

  lemma FullSyncKeeps(w: World, r: Host, m: Host)
    requires Inv(w) && Enabled(w, FullSync(r, m))
    ensures Inv(Next(w, FullSync(r, m))) && Extends(w.history, Next(w, FullSync(r, m)).history)
  {
    var w' := Next(w, FullSync(r, m));
    assert GoodNode(w.history, w'.nodes[r]);
    var dropped := w.(streams := Without(w.streams, r));
    hide GoodNode;
    ReplaceNode(dropped, r, w'.nodes[r], w'.streams);
  }

  lemma PromoteKeeps(w: World, h: Host, id: Id)
    requires Inv(w) && Enabled(w, Promote(h, id))
    ensures Inv(Next(w, Promote(h, id))) && Extends(w.history, Next(w, Promote(h, id)).history)
  {
    var w' := Next(w, Promote(h, id));
    forall k | k in w'.nodes ensures GoodNode(w'.history, w'.nodes[k]) {
      if k != h {
        GoodNodeStays(w.history, w'.history, w.nodes[k]);
      }
    }
  }

  lemma DemoteKeeps(w: World, h: Host)
    requires Inv(w) && Enabled(w, Demote(h))
    ensures Inv(Next(w, Demote(h))) && Extends(w.history, Next(w, Demote(h)).history)
  {
    var w' := Next(w, Demote(h));
    assert GoodNode(w.history, w'.nodes[h]);
    hide GoodNode;
    ReplaceNode(w.(streams := w'.streams), h, w'.nodes[h], w'.streams);
  }

  lemma TrimKeeps(w: World, h: Host, start: Option<nat>)
    requires Inv(w) && Enabled(w, Trim(h, start))
    ensures Inv(Next(w, Trim(h, start))) && Extends(w.history, Next(w, Trim(h, start)).history)
  {
    var w' := Next(w, Trim(h, start));
    assert GoodNode(w.history, w'.nodes[h]);
    hide GoodNode;
    ReplaceNode(w, h, w'.nodes[h], w'.streams);
  }

  lemma StepKeeps(w: World, s: Step)
    requires Inv(w) && Enabled(w, s)
    ensures Inv(Next(w, s)) && Extends(w.history, Next(w, s).history)
  {
    match s
    case Write(h, b) => WriteKeeps(w, h, b);
    case Stream(r, n) => StreamKeeps(w, r, n);
    case Continue(r, m) => ContinueKeeps(w, r, m);
    case FullSync(r, m) => FullSyncKeeps(w, r, m);
    case Promote(h, id) => PromoteKeeps(w, h, id);
    case Demote(h) => DemoteKeeps(w, h);
    case Disconnect(r) =>
    case Trim(h, start) => TrimKeeps(w, h, start);
  }

  lemma {:induction false} RunKeeps(w: World, steps: seq<Step>)
    requires Inv(w) && Runs(w, steps)
    ensures Inv(After(w, steps)) && Extends(w.history, After(w, steps).history)
    decreases |steps|
  {
    hide Inv, Enabled, Next;
    if steps != [] {
      StepKeeps(w, steps[0]);
      RunKeeps(Next(w, steps[0]), steps[1..]);
    }
  }

  /** Partial resync is sound over every run: if the answer is yes for a replica as seen
      at one moment and a master as seen at another, earlier or later, then the replica's
      log of its moment is a prefix of the master's log of the other. */
  lemma PsyncSound(w: World, steps: seq<Step>, r: Host, m: Host)
    requires Inv(w) && Runs(w, steps)
    requires r in w.nodes && m in w.nodes && r in After(w, steps).nodes && m in After(w, steps).nodes
    ensures CanPsync(w.nodes[r], After(w, steps).nodes[m]) ==> w.nodes[r].log <= After(w, steps).nodes[m].log
    ensures CanPsync(After(w, steps).nodes[r], w.nodes[m]) ==> After(w, steps).nodes[r].log <= w.nodes[m].log
  {
    RunKeeps(w, steps);
    var w' := After(w, steps);
    if CanPsync(w.nodes[r], w'.nodes[m]) {
      CanPsyncIsPrefix(w.history, w'.history, w.nodes[r], w'.nodes[m]);
    }
    if CanPsync(w'.nodes[r], w.nodes[m]) {
      CanPsyncIsPrefix(w.history, w'.history, w'.nodes[r], w.nodes[m]);
    }
  }

  /** A probe of the node: the fields a partial resync is judged by are those of INFO. */
  ghost predicate Reports(state: HostState, n: Node) {
    && state.replid == n.replid && state.replid2 == n.replid2 && state.secondOffset == n.secondOffset
    && state.backlogStart == View(n).backlogStart && state.backlogSize == View(n).backlogSize
    && (state.replica.Some? ==> !n.isMaster && state.replica.value.offset == |n.log|)
  }

  /** Only a master's own offset is that of its log; a replica reports it with its source. */
  ghost predicate ReportsRole(state: HostState, n: Node) {
    state.isMaster == n.isMaster && (n.isMaster ==> state.masterOffset == |n.log|)
  }

  /** isPartialSyncPossible on two probes of a shard that keeps the replication
      invariants: the replica is one, and its log is a prefix. */
  lemma ReportedPsyncIsPrefix(w: World, replica: HostState, master: HostState, r: Host, m: Host)
    requires Inv(w) && r in w.nodes && m in w.nodes
    requires Reports(replica, w.nodes[r]) && Reports(master, w.nodes[m])
    requires IsPartialSyncPossible(Some(replica), Some(master))
    ensures !w.nodes[r].isMaster && w.nodes[r].log <= w.nodes[m].log
  {
    CanPsyncIsPrefix(w.history, w.history, w.nodes[r], w.nodes[m]);
  }

  /** Of the replicas a host could take back before its promotion, it can take back
      exactly those that share its present id: the older one is given up. */
  lemma PromotionKeepsPsync(w: World, h: Host, id: Id, r: Host)
    requires Inv(w) && Enabled(w, Promote(h, id))
    requires r in w.nodes && r != h && !w.nodes[r].isMaster && CanPsync(w.nodes[r], w.nodes[h])
    ensures CanPsync(Next(w, Promote(h, id)).nodes[r], Next(w, Promote(h, id)).nodes[h]) <==>
            w.nodes[r].replid == w.nodes[h].replid
  {
    CanPsyncIsPrefix(w.history, w.history, w.nodes[r], w.nodes[h]);
  }

  /** A shard in which every host has an id of its own: what any logs may be part of. */
  ghost function Plain(logs: map<Host, seq<Byte>>, masters: set<Host>): World {
    World(map id | id in (set h | h in logs :: "#" + h) :: logs[id[1..]],
    map h | h in logs :: Node(logs[h], "#" + h, "", 0, None, h in masters), map[])
  }

  lemma PlainIsGood(logs: map<Host, seq<Byte>>, masters: set<Host>)
    ensures Inv(Plain(logs, masters))
  {
    var w := Plain(logs, masters);
    forall h | h in w.nodes ensures GoodNode(w.history, w.nodes[h]) {
      assert ("#" + h)[1..] == h;
    }
    forall h, k | h in w.nodes && k in w.nodes && h != k ensures w.nodes[h].replid != w.nodes[k].replid {
      assert ("#" + h)[1..] == h && ("#" + k)[1..] == k;
    }
  }
}
