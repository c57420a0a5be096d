// internal/app/switchover.go: performSwitchover, step by step. Every effect it has is
// an enabled action of the failover protocol, so whatever FailoverSafety proves of
// runs holds at every point of it.
//
// Each effect appends one action to `run` while the shard goes on acting around it. A
// manager that crashes is a run that stops after some effect and continues with
// Crash, which is always enabled.

module Switchover {
  import opened Quorum
  import opened Wrappers
  import opened FailoverProtocol
  import opened FailoverInvariant
  import opened FailoverSafety
  import opened HostStates
  import Psync
  import Selection

  // ----- what the shard can and cannot do around the manager -----

  /** Nothing the shard does by itself changes the log of this host. */
  ghost predicate Still(s: Sys, h: Host) {
    Stuck(s.links, h) && h in s.readOnly
  }

  ghost predicate Behind(s: Sys, h: Host, x: Host) {
    h in s.log && x in s.log && s.log[h] <= s.log[x]
  }

  /** The hosts x may be compared with or replicate to: stopped, or already its replicas. */
  ghost predicate Held(s: Sys, hosts: set<Host>, x: Host) {
    forall h :: h in hosts && h != x ==> h in s.readOnly && (Stuck(s.links, h) || FeedsFrom(s.links, h, x))
  }

  /** x does not follow anyone. */
  ghost predicate Leads(l: Links, x: Host) {
    x !in l.src || x in l.paused
  }

  /** h is behind x, and neither of them moves but by h following x. */
  ghost predicate Trails(s: Sys, h: Host, x: Host) {
    Behind(s, h, x) && Leads(s.links, x) && (Still(s, h) || FeedsFrom(s.links, h, x))
  }

  /** What only a manager changes. */
  ghost predicate Unmanaged(s: Sys, s': Sys) {
    && s'.mgr == s.mgr && s'.progress == s.progress && s'.plan == s.plan && s'.finished == s.finished
    && s'.readOnly == s.readOnly && s'.toWrite == s.toWrite && s'.dcsActive == s.dcsActive
  }

  /** How the shard can have moved the system on its own. */
  ghost predicate Drifts(s: Sys, s': Sys) {
    && Unmanaged(s, s')
    && s'.links.src.Keys == s.links.src.Keys && s.log.Keys == s'.log.Keys
    && s'.links.paused <= s.links.paused && s'.links.pinned <= s.links.pinned
    && (forall h :: h in ReliedOn(s) && Stuck(s.links, h) ==> Stuck(s'.links, h))
    && (forall h :: h in ReliedOn(s) && h in s.links.paused ==> h in s'.links.paused)
    && (forall h, x :: h in ReliedOn(s) && FeedsFrom(s.links, h, x) ==> FeedsFrom(s'.links, h, x))
    && (forall h, x :: h in ReliedOn(s) && x in ReliedOn(s) && Trails(s, h, x) ==> Behind(s', h, x))
  }

  /** What the invariant says of the hosts the manager relies on: it counts them in, and
      nobody has been let go. */
  ghost predicate Relies(s: Sys) {
    && s.sealed.None? && !Released(s) && CountedOn(s.mgr) <= ReliedOn(s)
    && (s.mgr.CatchingUp? || s.mgr.Promoting? || s.mgr.Turning? ==> s.mgr.newMaster in ReliedOn(s))
  }

  /** A log that has moved: a master's by a write, a replica's by following its source. */
  lemma LogDrifts(s: Sys, h: Host, copy: seq<Entry>)
    requires h in s.log && !Released(s)
    requires if h !in s.links.src then h !in s.readOnly && s.log[h] <= copy
             else Flows(s, h) && copy <= SourceLog(s, h) && (s.log[h] <= copy || copy == SourceLog(s, h))
    ensures Drifts(s, s.(log := s.log[h := copy]))
  {
    var s' := s.(log := s.log[h := copy]);
    assert s'.log.Keys == s.log.Keys && ReliedOn(s') == ReliedOn(s);
    forall r, x | r in ReliedOn(s) && x in ReliedOn(s) && Trails(s, r, x) ensures Behind(s', r, x) {
      if h == r && h in s.links.src {
        assert s.links.src[h] == x;
      }
    }
  }

  /** Links that have moved, except for hosts the manager relies on. */
  lemma LinkDrifts(c: Config, s: Sys, e: ShardAction)
    requires ShardEnabled(c, FullTrust, s, e) && !Released(s)
    requires e.LinkDown? || e.LinkUp? || e.SelfRepair?
    ensures Drifts(s, ShardApply(c, FullTrust, s, e))
  {
    hide Settled, ReplicasClosed;
    assert ReliedOn(ShardApply(c, FullTrust, s, e)) == ReliedOn(s);
  }

  lemma NothingDrifts(c: Config, s: Sys, e: ShardAction)
    requires ShardEnabled(c, FullTrust, s, e) && (e.Ack? || e.WaitQuorum? || e.FixDcsMaster?)
    ensures Drifts(s, ShardApply(c, FullTrust, s, e))
  {
    hide Drifts, ReliedOn;
    OnlyTold(s, ShardApply(c, FullTrust, s, e));
  }

  /** Acknowledgements and the master key do not matter. */
  lemma OnlyTold(s: Sys, s': Sys)
    requires s' == s.(ack := s'.ack, acked := s'.acked, dcsMaster := s'.dcsMaster)
    ensures Drifts(s, s')
  {
    assert ReliedOn(s') == ReliedOn(s);
  }

  lemma ShardDrifts(c: Config, s: Sys, e: ShardAction)
    requires ShardEnabled(c, FullTrust, s, e) && !Released(s)
    ensures Drifts(s, ShardApply(c, FullTrust, s, e))
  {
    hide Drifts, ReliedOn;
    match e
    case Write(h, x) => LogDrifts(s, h, s.log[h] + [x]);
    case Stream(h, n) => LogDrifts(s, h, SourceLog(s, h)[..n]);
    case Resync(h) => LogDrifts(s, h, SourceLog(s, h));
    case LinkDown(_) => LinkDrifts(c, s, e);
    case LinkUp(_) => LinkDrifts(c, s, e);
    case SelfRepair(_) => LinkDrifts(c, s, e);
    case _ => NothingDrifts(c, s, e);
  }

  lemma RelyingDrifts(c: Config, s: Sys, e: ShardAction)
    requires ShardEnabled(c, FullTrust, s, e) && Relies(s)
    ensures Drifts(s, ShardApply(c, FullTrust, s, e)) && ShardApply(c, FullTrust, s, e).links.pinned <= s.links.pinned
    ensures s.acked <= ShardApply(c, FullTrust, s, e).acked
  {
    ShardDrifts(c, s, e);
  }

  lemma InvRelies(c: Config, s: Sys)
    requires Inv(c, s) && s.sealed.None?
    ensures Relies(s)
  {
  }

  lemma DriftsTwice(s: Sys, m: Sys, s': Sys)
    requires Drifts(s, m) && Drifts(m, s')
    ensures Drifts(s, s')
  {
    assert ReliedOn(m) == ReliedOn(s);
  }

  // ----- what the phases hand to each other -----

  ghost predicate Running(s: Sys, phases: set<nat>) {
    s.progress.Some? && s.progress.value.phase in phases
  }

  /** A switchover record that no run has touched yet, or that the last run has reset. */
  predicate Fresh(c: Config, s: Sys) {
    s.progress.None? ==>
      Settled(s.links.src, s.log) && ReplicasClosed(c, s.readOnly) && s.dcsActive == c.active && !s.forked
  }

  /** States as INFO gives them: some world of replication ids and backlogs with these
      logs and these masters has reported them. Hosts that do not answer are absent. */
  ghost predicate Mirrors(s: Sys, states: map<Host, HostState>, w: Psync.World) {
    && Psync.Inv(w) && states.Keys <= s.log.Keys && s.log.Keys <= w.nodes.Keys
    && (forall h :: h in s.log ==> w.nodes[h].log == s.log[h] && (w.nodes[h].isMaster <==> h !in s.links.src))
    && forall h :: h in states ==> Psync.Reports(states[h], w.nodes[h])
  }

  /** A probe never reports anything else, in whatever state and moment. */
  ghost predicate Honest(probe: (Sys, nat) -> map<Host, HostState>) {
    forall s: Sys, moment: nat :: exists w :: Mirrors(s, probe(s, moment), w)
  }

  /** There are such states for any logs, so the premise is never void. */
  lemma SomethingMirrors(s: Sys) returns (states: map<Host, HostState>, w: Psync.World)
    ensures states.Keys == s.log.Keys && Mirrors(s, states, w)
  {
    hide Psync.Inv;
    var masters := set h | h in s.log && h !in s.links.src;
    w := Psync.Plain(s.log, masters);
    Psync.PlainIsGood(s.log, masters);
    states := PlainStates(w);
  }

  lemma PlainStates(w: Psync.World) returns (states: map<Host, HostState>)
    ensures states.Keys == w.nodes.Keys && forall h :: h in states ==> Psync.Reports(states[h], w.nodes[h])
  {
    states := map h | h in w.nodes :: Psync.View(w.nodes[h]);
  }

  /** isPartialSyncPossible on such states: the replica is one, and is behind. */
  lemma MirroredPsync(s: Sys, states: map<Host, HostState>, h: Host, x: Host)
    requires exists w :: Mirrors(s, states, w)
    requires IsPartialSyncPossible(Lookup(states, h), Lookup(states, x))
    ensures h in s.links.src && Behind(s, h, x)
  {
    var w :| Mirrors(s, states, w);
    Psync.ReportedPsyncIsPrefix(w, states[h], states[x], h, x);
  }

  /** Phases 1 and 2 are over: the hosts in `alive` are read-only and stand still. */
  ghost predicate AllStill(s: Sys, alive: set<Host>) {
    forall h :: h in alive ==> Still(s, h)
  }

  /** Everything a finished performSwitchover leaves behind. */
  ghost predicate Switched(c: Config, s: Sys) {
    && s.mgr.Turning? && s.plan.Some? && s.plan.value.committed && s.plan.value.newMaster == s.mgr.newMaster
    && Running(s, {6}) && s.mgr.newMaster !in s.links.src
    && s.mgr.psync == Some(s.dcsActive) && s.mgr.newMaster in s.dcsActive
  }

  /** How the hosts and the DCS answer one run. A host that fails on a command may have
      applied it all the same. */
  datatype Answers = Answers(
    pingOk: set<Host>,       // the hosts that answered the snapshot the run starts with
    linksUp: set<Host>,      // those that report their link up in it
    notClosing: set<Host>,   // those that fail on being made read-only
    notPausing: set<Host>,   // those that fail on having their replication paused
    notResuming: set<Host>,  // those that fail on having it resumed
    pills: bool,             // the poison pill can be read, cleared and issued
    desirable: Option<Host>, // the host the selection of phase 3 names, if it finds one
    reachable: set<Host>,    // the hosts that answer in phases 5 and 6
    obeying: bool,           // the new master and the hosts that answer obey every command of phases 4 to 6
    prompt: bool)            // the DCS takes every write, and what is waited for or probed comes in time

  /** The listed hosts that get through phases 1 and 2 without an error. */
  function Passing(activeNodes: seq<Host>, ans: Answers): set<Host> {
    SetOf(activeNodes) * ans.pingOk - ans.notClosing - ans.notPausing
  }

  /** An effect in the run, from some point on. */
  ghost predicate Did(run: seq<Action>, from: nat, a: Action) {
    exists i :: from <= i < |run| && run[i] == a
  }

  lemma DidStays(run: seq<Action>, longer: seq<Action>, from: nat, from': nat, a: Action)
    requires Did(run, from', a) && run <= longer && from <= from'
    ensures Did(longer, from, a)
  {
    var i :| from' <= i < |run| && run[i] == a;
    assert longer[i] == a;
  }

  class App {
    const c: Config
    const turnBefore: bool
    const to: Host
    const probe: (Sys, nat) -> map<Host, HostState>   // what a probe of the shard sees in a state
    var sys: Sys
    ghost var start: Sys
    ghost var run: seq<Action>

    constructor (c: Config, turnBefore: bool, to: Host, probe: (Sys, nat) -> map<Host, HostState>, sys: Sys)
      requires ValidConfig(c) && Init(c, sys) && Honest(probe)
      ensures Valid() && this.c == c && this.turnBefore == turnBefore && this.to == to && this.sys == sys
    {
      this.c, this.turnBefore, this.to, this.probe, this.sys := c, turnBefore, to, probe, sys;
      start, run := sys, [];
    }

    /** The present state is what a legal run has led to. */
    ghost predicate Valid() reads this {
      && ValidConfig(c) && Init(c, start) && Honest(probe)
      && Legal(c, FullTrust, start, run) && After(c, FullTrust, start, run) == sys
    }

    lemma Reached()
      requires Valid()
      ensures Inv(c, sys) && Relies(sys)
    {
      RunsOn(c, FullTrust, start, run);
      NeverSealed(c, FullTrust, start, run);
      InvRelies(c, sys);
    }

    /** One effect, on a host or in the DCS. */
    method Do(a: Action)
      requires Valid() && Enabled(c, FullTrust, sys, a)
      modifies this
      ensures Valid() && sys == Apply(c, FullTrust, old(sys), a)
      ensures start == old(start) && run == old(run) + [a]
    {
      Extend(c, FullTrust, start, run, a);
      sys := Apply(c, FullTrust, sys, a);
      run := run + [a];
    }

    /** The shard goes on: any number of its own actions. */
    method Interfere()
      requires Valid()
      modifies this
      ensures Valid() && Drifts(old(sys), sys) && Relies(old(sys)) && Relies(sys)
      ensures Unmanaged(old(sys), sys) && sys.links.pinned <= old(sys.links.pinned) && old(sys.acked) <= sys.acked
      ensures start == old(start) && old(run) <= run
    {
      hide Valid, Drifts, Init, Legal, After, Inv, Released, Relies;
      Reached();
      DriftsNowhere(sys);
      var steps: nat := *;
      while steps > 0
        invariant Valid() && Drifts(old(sys), sys) && Relies(sys) && Unmanaged(old(sys), sys)
        invariant start == old(start) && old(run) <= run
        invariant sys.links.pinned <= old(sys.links.pinned) && old(sys.acked) <= sys.acked
      {
        var e: ShardAction := *;
        if ShardEnabled(c, FullTrust, sys, e) {
          RelyingDrifts(c, sys, e);
          DriftsTwice(old(sys), sys, ShardApply(c, FullTrust, sys, e));
          Do(Shard(e));
          Reached();
        }
        steps := steps - 1;
      }
    }

    /** Phase 1: every listed host that answers is made read-only. The returned hosts
        are those whose command returned no error; the others may have applied it. */
    method CloseAll(activeNodes: seq<Host>, ans: Answers) returns (closed: set<Host>)
      requires Valid() && sys.mgr.Fencing? && sys.mgr.act == SetOf(activeNodes) && sys.mgr.closed == {}
      modifies this
      ensures Valid() && start == old(start) && old(run) <= run
      ensures sys.mgr == old(sys.mgr).(closed := closed) && sys.progress == old(sys.progress)
      ensures sys.plan == old(sys.plan) && sys.finished == old(sys.finished)
      ensures sys.links.pinned <= old(sys.links.pinned)
      ensures closed == SetOf(activeNodes) * ans.pingOk - ans.notClosing && closed <= sys.readOnly
    {
      hide Valid, Inv;
      closed := {};
      for i := 0 to |activeNodes|
        invariant Valid() && start == old(start) && old(run) <= run
        invariant sys.mgr == old(sys.mgr).(closed := closed) && sys.progress == old(sys.progress)
        invariant sys.plan == old(sys.plan) && sys.finished == old(sys.finished)
        invariant sys.links.pinned <= old(sys.links.pinned)
        invariant closed == SetOf(activeNodes[..i]) * ans.pingOk - ans.notClosing && closed <= sys.readOnly
      {
        var h := activeNodes[i];
        assert SetOf(activeNodes[..i + 1]) == SetOf(activeNodes[..i]) + {h};
        Interfere();
        var applied: bool := *;
        if h in ans.pingOk && (applied || h !in ans.notClosing) {
          Do(Fence(CloseWrites(h, h !in ans.notClosing)));
          closed := if h !in ans.notClosing then closed + {h} else closed;
        }
      }
      assert activeNodes[..|activeNodes|] == activeNodes;
    }

    /** Since then a pause has been skipped only on hosts whose link was not seen up. */
    ghost predicate Unskipped(then_: Sys, ans: Answers) reads this {
      forall h :: h in sys.links.pinned ==> h in then_.links.pinned || (!turnBefore && h !in ans.linksUp)
    }

    /** Phase 2: replication is paused on every listed host that answers, or skipped
        where the link is down already. */
    method StopAll(activeNodes: seq<Host>, ans: Answers) returns (stopped: set<Host>)
      requires Valid() && sys.mgr.Fencing? && sys.mgr.act == SetOf(activeNodes) && sys.mgr.stopped == {}
      modifies this
      ensures Valid() && start == old(start) && old(run) <= run
      ensures sys.mgr == old(sys.mgr).(stopped := stopped) && sys.progress == old(sys.progress)
      ensures sys.plan == old(sys.plan) && sys.finished == old(sys.finished) && sys.readOnly == old(sys.readOnly)
      ensures SetOf(activeNodes) * ans.pingOk - ans.notPausing <= stopped <= SetOf(activeNodes) * ans.pingOk
      ensures Unskipped(old(sys), ans)
      ensures forall h :: h in stopped ==> Stuck(sys.links, h)
    {
      hide Valid, Inv, Enabled, Apply, Drifts;
      stopped := {};
      for i := 0 to |activeNodes|
        invariant Valid() && start == old(start) && old(run) <= run
        invariant sys.mgr == old(sys.mgr).(stopped := stopped) && sys.progress == old(sys.progress)
        invariant sys.plan == old(sys.plan) && sys.finished == old(sys.finished) && sys.readOnly == old(sys.readOnly)
        invariant SetOf(activeNodes[..i]) * ans.pingOk - ans.notPausing <= stopped <= SetOf(activeNodes[..i]) * ans.pingOk
        invariant Unskipped(old(sys), ans)
        invariant AllStuck(sys.links, stopped)
      {
        var h := activeNodes[i];
        assert SetOf(activeNodes[..i + 1]) == SetOf(activeNodes[..i]) + {h};
        if h in ans.pingOk {
          stopped := StopOne(h, h !in ans.notPausing, h in ans.linksUp, stopped);
        }
      }
      assert activeNodes[..|activeNodes|] == activeNodes;
    }

    /** One host of phase 2. The link is taken to be down only if it is. */
    method StopOne(h: Host, obeys: bool, seenUp: bool, stopped: set<Host>) returns (stopped': set<Host>)
      requires Valid() && sys.mgr.Fencing? && h in sys.mgr.act && sys.mgr.stopped == stopped && AllStuck(sys.links, stopped)
      modifies this
      ensures Valid() && start == old(start) && old(run) <= run
      ensures sys.mgr == old(sys.mgr).(stopped := stopped') && sys.progress == old(sys.progress)
      ensures sys.plan == old(sys.plan) && sys.finished == old(sys.finished) && sys.readOnly == old(sys.readOnly)
      ensures stopped <= stopped' <= stopped + {h} && (obeys ==> h in stopped') && AllStuck(sys.links, stopped')
      ensures sys.links.pinned <= old(sys.links.pinned) + if turnBefore || seenUp then {} else {h}
    {
      hide Valid, Inv, ShardEnabled, DecideEnabled, CommitEnabled, ShardApply, DecideApply, CommitApply;
      stopped' := stopped;
      Interfere();
      var linkUp: bool, applied: bool := seenUp, *;
      if h in sys.links.src && h in sys.links.up {
        linkUp := true;
      }
      if !linkUp && !turnBefore {
        Do(Fence(SkipStop(h)));
        stopped' := stopped + {h};
      } else if obeys || applied {
        Do(Fence(StopReplication(h, obeys)));
        stopped' := if obeys then stopped + {h} else stopped;
      }
    }

    /** Phases 1 and 2 on the listed hosts; the hosts that passed both are alive. It
        succeeds whenever enough hosts obey, the old master is no answering host that
        cannot be closed, and the poison pill can be handled. */
    method FenceHosts(activeNodes: seq<Host>, ans: Answers, oldMaster: Host) returns (alive: seq<Host>, ok: bool)
      requires Valid() && sys.mgr.Fencing? && sys.mgr.act == SetOf(activeNodes) && NoDup(activeNodes)
      requires sys.mgr.closed == {} && sys.mgr.stopped == {}
      modifies this
      ensures Valid() && start == old(start) && old(run) <= run && !sys.mgr.Idle?
      ensures sys.progress == old(sys.progress) && sys.plan == old(sys.plan) && sys.finished == old(sys.finished)
      ensures ok ==> sys.mgr == Selecting(SetOf(alive)) && |alive| >= old(sys.mgr.needed)
      ensures ok ==> NoDup(alive) && AllStill(sys, SetOf(alive))
      ensures ok ==> Passing(activeNodes, ans) <= SetOf(alive) <= SetOf(activeNodes) * ans.pingOk - ans.notClosing
      ensures ok && oldMaster in activeNodes && oldMaster in ans.pingOk ==> oldMaster in sys.readOnly
      ensures Unskipped(old(sys), ans)
      ensures ok ==> ans.pills && !(oldMaster in activeNodes && oldMaster in ans.pingOk * ans.notClosing)
      ensures |Passing(activeNodes, ans)| >= old(sys.mgr.needed) && ans.pills && oldMaster !in ans.pingOk * ans.notClosing ==> ok
    {
      hide Valid, Inv, ShardEnabled, DecideEnabled, CommitEnabled, ShardApply, DecideApply, CommitApply;
      alive, ok := [], false;
      var needed := sys.mgr.needed;
      var closed := CloseAll(activeNodes, ans);
      if oldMaster in activeNodes && oldMaster !in closed && oldMaster in ans.pingOk {
        return;
      }
      if !ans.pills {
        return;
      }
      var stopped := StopAll(activeNodes, ans);
      alive := PassedBoth(activeNodes, closed, stopped);
      ListSize(alive);
      SubsetSize(Passing(activeNodes, ans), SetOf(alive));
      if |alive| < needed {
        return;
      }
      Do(Fence(CountAlive));
      ok := true;
    }

    // ----- phase 3 -----

    /** The snapshot phase 3 decides on: true for the hosts that stand still and possibly
        an old value for any other. Where it would give the two hosts of the record the
        same offset, the most recent one's is true. */
    method TakeSnapshot(alive: set<Host>, prompt: bool) returns (offsets: map<Host, nat>, ok: bool)
      requires Valid() && sys.mgr == Selecting(alive) && sys.progress.Some? && AllStill(sys, alive)
      modifies this
      ensures Valid() && start == old(start) && old(run) <= run && !sys.mgr.Idle?
      ensures sys.progress == old(sys.progress) && sys.plan == old(sys.plan) && sys.finished == old(sys.finished)
      ensures ok ==> sys.mgr == Snapped(alive, offsets) && offsets.Keys == c.hosts && AllStill(sys, alive)
      ensures sys.links.pinned <= old(sys.links.pinned) && (prompt ==> ok)
    {
      hide Valid, Inv, ShardEnabled, DecideEnabled, CommitEnabled, ShardApply, DecideApply, CommitApply;
      Interfere();
      offsets := map[];
      ok := *;
      ok := ok || prompt;
      if !ok {
        return;
      }
      var todo := c.hosts;
      while todo != {}
        invariant todo <= c.hosts && offsets.Keys == c.hosts - todo
        invariant OffsetsBehind(offsets, sys.log) && OffsetsTrue(offsets, sys.log, alive)
      {
        var h :| h in todo;
        todo := todo - {h};
        var offset: nat := *;
        if h in alive || offset > LogLen(sys.log, h) {
          offset := LogLen(sys.log, h);
        }
        offsets := offsets[h := offset];
      }
      RecordedIsHost();
      var p := sys.progress.value;
      if p.newMaster != p.mostRecent && OffsetOf(offsets, p.newMaster) == OffsetOf(offsets, p.mostRecent) && p.mostRecent in c.hosts {
        offsets := offsets[p.mostRecent := LogLen(sys.log, p.mostRecent)];
      }
      Do(Fence(Snapshot(offsets)));
    }

    /** Only the offsets of hosts are read; the rest of the record is read as zero. */
    lemma RecordedIsHost()
      requires Valid() && sys.progress.Some?
      ensures sys.progress.value.mostRecent !in c.hosts ==> LogLen(sys.log, sys.progress.value.mostRecent) == 0
    {
      Reached();
    }

    /** A resumed run keeps what the record says. A first run takes the host with the
        largest offset for the most recent one, and for the new master the requested
        host, else one the selection picks, else the most recent one; if the selection
        finds none, the fenced hosts are resumed. */
    method SelectHosts(activeNodes: seq<Host>, ans: Answers, alive: set<Host>, offsets: map<Host, nat>) returns (ok: bool)
      requires offsets.Keys == c.hosts
      requires Valid() && sys.mgr == Snapped(alive, offsets) && sys.progress.Some? && AllStill(sys, alive)
      modifies this
      ensures Valid() && start == old(start) && old(run) <= run && !sys.mgr.Idle? && sys.progress.Some?
      ensures sys.finished == old(sys.finished)
      ensures old(sys.progress.value.phase) >= 3 ==> sys.progress == old(sys.progress)
      ensures ok ==> Running(sys, {3, 5, 6}) && AllStill(sys, alive) && sys.progress.value.newMaster in c.hosts
      ensures ok && sys.progress.value.phase == 3 ==>
                sys.mgr == CatchingUp(alive, offsets, sys.progress.value.mostRecent, sys.progress.value.newMaster, None, None)
      ensures ok && sys.progress.value.phase != 3 ==> sys.mgr == Promoting(alive, sys.progress.value.newMaster, false, false)
      ensures sys.mgr.Abandoning? ==> sys.links.paused * (SetOf(activeNodes) * ans.pingOk - ans.notResuming) == {}
      ensures ok && old(sys.progress.value.phase) < 3 ==> sys.progress.value.phase == 3
      ensures sys.links.pinned <= old(sys.links.pinned)
      ensures ok && old(sys.progress.value.phase) < 3 ==>
                sys.progress.value.mostRecent in c.hosts || SameOffset(offsets, sys.progress.value.newMaster, sys.progress.value.mostRecent)
      ensures old(sys.progress.value.phase) >= 3 ==> ok
      ensures old(sys.progress.value.phase) < 3 && ans.prompt && (to != "" || old(sys.acked) > 0) ==>
                forall h :: Picks(h, ans) ==> ok && sys.progress.value.newMaster == h
    {
      hide Valid, Inv, ShardEnabled, FenceEnabled, CommitEnabled, ShardApply, FenceApply, CommitApply, Drifts, AllStill;
      ok := false;
      Interfere();
      StillDrifts(old(sys), sys, alive);
      if sys.progress.value.phase >= 3 {
        OnRecord();
        StillManaged(sys, alive);
        Do(Decide(Recall));
        ok := true;
        return;
      }
      ok := ChooseHosts(activeNodes, ans, alive, offsets);
    }

    /** The choice of a first run. */
    method ChooseHosts(activeNodes: seq<Host>, ans: Answers, alive: set<Host>, offsets: map<Host, nat>) returns (ok: bool)
      requires offsets.Keys == c.hosts
      requires Valid() && sys.mgr == Snapped(alive, offsets) && sys.progress.Some? && AllStill(sys, alive)
      requires sys.progress.value.phase < 3
      modifies this
      ensures Valid() && start == old(start) && old(run) <= run && !sys.mgr.Idle? && sys.progress.Some?
      ensures sys.finished == old(sys.finished)
      ensures ok ==> sys.progress.value.phase == 3 && AllStill(sys, alive) && sys.progress.value.newMaster in c.hosts
      ensures ok ==>
                sys.mgr == CatchingUp(alive, offsets, sys.progress.value.mostRecent, sys.progress.value.newMaster, None, None)
      ensures ok ==> IsMostRecent(offsets, sys.progress.value.mostRecent) && (to != "" ==> sys.progress.value.newMaster == to)
      ensures sys.mgr.Abandoning? ==> sys.links.paused * (SetOf(activeNodes) * ans.pingOk - ans.notResuming) == {}
      ensures to == "" && c.from != "" && (forall h :: h in offsets ==> offsets[h] == 0) ==> sys.mgr.Abandoning?
      ensures sys.links.pinned <= old(sys.links.pinned)
      ensures ok ==>
                sys.progress.value.mostRecent in c.hosts || SameOffset(offsets, sys.progress.value.newMaster, sys.progress.value.mostRecent)
      ensures ans.prompt && (to != "" || old(sys.acked) > 0) ==>
                forall h :: Picks(h, ans) ==> ok && sys.progress.value.newMaster == h
    {
      hide Valid, Inv, Enabled, Apply, Drifts, AllStill, IsMostRecent;
      ok := false;
      var mostRecent, newMaster, found := LookAround(alive, offsets, ans);
      if !found {
        GiveUp(activeNodes, ans);
        return;
      }
      var applied: bool := *;
      if newMaster !in c.hosts || newMaster == c.master || (!applied && !ans.prompt) {
        return;
      }
      RecordChoice(alive, offsets, mostRecent, newMaster);
      ok := *;
      ok := ok || ans.prompt;
    }

    /** The decision, in the record. */
    method RecordChoice(alive: set<Host>, offsets: map<Host, nat>, mostRecent: Host, newMaster: Host)
      requires Valid() && sys.mgr == Snapped(alive, offsets) && sys.progress.Some? && sys.progress.value.phase < 3
      requires AllStill(sys, alive) && IsMostRecent(offsets, mostRecent) && newMaster in c.hosts && newMaster != c.master
      modifies this
      ensures Valid() && start == old(start) && old(run) <= run && sys.finished == old(sys.finished)
      ensures sys.progress == Some(Progress(3, mostRecent, newMaster)) && AllStill(sys, alive)
      ensures sys.mgr == CatchingUp(alive, offsets, mostRecent, newMaster, None, None) && sys.links == old(sys.links)
    {
      hide Valid, Inv, ShardEnabled, FenceEnabled, CommitEnabled, ShardApply, FenceApply, CommitApply, AllStill;
      StillManaged(sys, alive);
      Do(Decide(Choose(mostRecent, newMaster)));
    }

    /** Nobody can be chosen: the fenced hosts are resumed. */
    method GiveUp(activeNodes: seq<Host>, ans: Answers)
      requires Valid() && sys.mgr.Snapped? && sys.progress.Some? && sys.progress.value.phase < 3
      modifies this
      ensures Valid() && start == old(start) && old(run) <= run
      ensures sys.mgr.Abandoning? && sys.progress == old(sys.progress) && sys.finished == old(sys.finished)
      ensures sys.links.pinned <= old(sys.links.pinned)
      ensures sys.links.paused * (SetOf(activeNodes) * ans.pingOk - ans.notResuming) == {}
    {
      hide Valid, Inv, ShardEnabled, FenceEnabled, CommitEnabled, ShardApply, FenceApply, CommitApply;
      Do(Decide(Abandon));
      ResumeAll(activeNodes, ans);
    }

    /** What the snapshot suggests. */
    method LookAround(alive: set<Host>, offsets: map<Host, nat>, ans: Answers)
      returns (mostRecent: Host, newMaster: Host, found: bool)
      requires Valid() && sys.mgr == Snapped(alive, offsets) && offsets.Keys == c.hosts
      requires sys.progress.Some? && sys.progress.value.phase < 3
      ensures IsMostRecent(offsets, mostRecent)
      ensures mostRecent in c.hosts || SameOffset(offsets, newMaster, mostRecent)
      ensures to != "" ==> found && newMaster == to
      ensures to == "" && c.from != "" && (forall h :: h in offsets ==> offsets[h] == 0) ==> !found
      ensures to != "" || sys.acked > 0 ==> forall h :: Picks(h, ans) ==> found && newMaster == h
    {
      hide Valid, Inv;
      mostRecent := Selection.FindMostRecentNode(offsets);
      newMaster, found := PickMaster(mostRecent, ans.desirable);
      NobodyAhead(offsets, mostRecent, newMaster);
      if sys.acked > 0 && "" !in c.hosts {
        AcknowledgedIsSeen(mostRecent);
      }
    }

    /** The new master of a first run. Which host the selection names is an input; it names
        none when there is no most recent host to compare with. */
    method PickMaster(mostRecent: Host, desirable: Option<Host>) returns (newMaster: Host, found: bool)
      ensures to != "" ==> found && newMaster == to
      ensures to == "" && c.from == "" ==> found && newMaster == mostRecent
      ensures to == "" && c.from != "" ==>
                (found <==> desirable.Some? && mostRecent != "") && (found ==> newMaster == desirable.value)
    {
      newMaster, found := mostRecent, true;
      if to != "" {
        newMaster := to;
      } else if c.from != "" {
        found := desirable.Some? && mostRecent != "";
        newMaster := if desirable.Some? then desirable.value else "";
      }
    }

    /** The host a first run ends up with. */
    ghost predicate Picks(h: Host, ans: Answers) {
      "" !in c.hosts && h in c.hosts && h != c.master && if to != "" then h == to else c.from != "" && ans.desirable == Some(h)
    }

    /** Some stopped host holds what has been acknowledged, so there is a most recent one. */
    lemma AcknowledgedIsSeen(mostRecent: Host)
      requires Valid() && sys.mgr.Snapped? && sys.progress.Some? && sys.progress.value.phase < 3
      requires sys.acked > 0 && IsMostRecent(sys.mgr.offsets, mostRecent) && "" !in sys.mgr.offsets
      ensures mostRecent != ""
    {
      Reached();
      SnapshotBoundsAcked(c, sys, mostRecent);
    }

    lemma OnRecord()
      requires Valid() && sys.progress.Some? && sys.progress.value.phase >= 3
      ensures sys.progress.value.phase in {3, 5, 6} && sys.progress.value.newMaster in c.hosts
      ensures sys.plan.Some? && sys.plan.value.newMaster == sys.progress.value.newMaster
      ensures sys.progress.value.phase >= 5 ==> sys.plan.value.committed
      ensures sys.progress.value.phase == 6 ==> sys.progress.value.newMaster !in sys.links.src
    {
      Reached();
    }

    /** The listed hosts that answer and obey are resumed. */
    method ResumeAll(activeNodes: seq<Host>, ans: Answers)
      requires Valid() && sys.mgr.Abandoning?
      modifies this
      ensures Valid() && start == old(start) && old(run) <= run
      ensures sys.mgr.Abandoning? && sys.progress == old(sys.progress) && sys.finished == old(sys.finished)
      ensures sys.links.pinned <= old(sys.links.pinned)
      ensures sys.links.paused * (SetOf(activeNodes) * ans.pingOk - ans.notResuming) == {}
    {
      hide Valid, Inv, ShardEnabled, FenceEnabled, CommitEnabled, ShardApply, FenceApply, CommitApply;
      for i := 0 to |activeNodes|
        invariant Valid() && start == old(start) && old(run) <= run
        invariant sys.mgr.Abandoning? && sys.progress == old(sys.progress) && sys.finished == old(sys.finished)
        invariant sys.links.pinned <= old(sys.links.pinned)
        invariant sys.links.paused * (SetOf(activeNodes[..i]) * ans.pingOk - ans.notResuming) == {}
      {
        var h := activeNodes[i];
        assert SetOf(activeNodes[..i + 1]) == SetOf(activeNodes[..i]) + {h};
        Interfere();
        var applied: bool := *;
        if h in ans.pingOk && (applied || h !in ans.notResuming) {
          Do(Decide(ResumeOne(h)));
        }
      }
      assert activeNodes[..|activeNodes|] == activeNodes;
    }

    // ----- phase 4 -----

    /** Catching up is skipped when the snapshot gave both hosts the same offset. */
    method CatchUp(alive: set<Host>, offsets: map<Host, nat>, mostRecent: Host, newMaster: Host, smooth: bool) returns (ok: bool)
      requires Valid() && sys.mgr == CatchingUp(alive, offsets, mostRecent, newMaster, None, None)
      requires Held(sys, alive, newMaster)
      modifies this
      ensures Valid() && start == old(start) && old(run) <= run && !sys.mgr.Idle?
      ensures sys.progress == old(sys.progress) && sys.plan == old(sys.plan) && sys.finished == old(sys.finished)
      ensures ok ==> sys.mgr == Promoting(alive, newMaster, false, false) && Held(sys, alive, newMaster)
      ensures ok && !SameOffset(offsets, newMaster, mostRecent) ==>
                FeedsFrom(sys.links, newMaster, mostRecent) && Did(run, |old(run)|, Decide(PauseRecent))
      ensures smooth && newMaster !in old(sys).links.pinned && (mostRecent in c.hosts || SameOffset(offsets, newMaster, mostRecent)) ==> ok
    {
      hide Valid, Inv, ShardEnabled, FenceEnabled, CommitEnabled, ShardApply, FenceApply, CommitApply;
      ok := false;
      Interfere();
      if SameOffset(offsets, newMaster, mostRecent) {
        Do(Decide(SkipCatchUp));
        ok := true;
        return;
      }
      if mostRecent !in c.hosts {
        return;
      }
      ghost var before := run;
      ok := Try(Decide(PauseRecent), smooth);
      if !ok {
        return;
      }
      ghost var paused := run;
      ok := ChangeSource(alive, offsets, mostRecent, newMaster, smooth);
      if ok {
        HostsHaveLogs();
        ok := WaitForCatchup(alive, offsets, mostRecent, newMaster, smooth);
        DidStays(paused, run, |old(run)|, |before|, Decide(PauseRecent));
      }
    }

    /** changeMaster(newMaster, mostRecent): repair until the host replicates from its new source. */
    method ChangeSource(alive: set<Host>, offsets: map<Host, nat>, mostRecent: Host, newMaster: Host, smooth: bool) returns (ok: bool)
      requires Valid() && sys.mgr == CatchingUp(alive, offsets, mostRecent, newMaster, None, None)
      requires mostRecent in c.hosts && mostRecent != newMaster && Held(sys, alive, newMaster)
      modifies this
      ensures Valid() && start == old(start) && old(run) <= run
      ensures sys.mgr == old(sys.mgr) && sys.progress == old(sys.progress)
      ensures sys.plan == old(sys.plan) && sys.finished == old(sys.finished)
      ensures Held(sys, alive, newMaster)
      ensures ok ==> FeedsFrom(sys.links, newMaster, mostRecent)
      ensures sys.links.pinned <= old(sys.links.pinned)
      ensures smooth ==> ok && newMaster !in sys.links.paused
    {
      hide Valid, Inv, ShardEnabled, FenceEnabled, CommitEnabled, ShardApply, FenceApply, CommitApply;
      var tries: nat := *;
      if smooth && tries < 1 {
        tries := 1;
      }
      while tries > 0
        invariant Valid() && start == old(start) && old(run) <= run
        invariant sys.mgr == old(sys.mgr) && sys.progress == old(sys.progress)
        invariant sys.plan == old(sys.plan) && sys.finished == old(sys.finished)
        invariant Held(sys, alive, newMaster) && sys.links.pinned <= old(sys.links.pinned) && (smooth ==> tries > 0)
      {
        var died: bool := *;
        if died && !smooth {
          return false;
        }
        RepairReplica(alive, mostRecent, newMaster, smooth);
        Interfere();
        if FeedsFrom(sys.links, newMaster, mostRecent) && (smooth || newMaster in sys.links.up) {
          return true;
        }
        tries := tries - 1;
      }
      return false;
    }

    /** repairReplica: point the host at its new source unless it replicates from it,
        then resume it. Resuming a host that is still pointed elsewhere is left out by
        the hypothesis Trust.repointFirst. */
    method RepairReplica(alive: set<Host>, mostRecent: Host, newMaster: Host, smooth: bool)
      requires Valid() && sys.mgr.CatchingUp? && sys.mgr.mostRecent == mostRecent && sys.mgr.newMaster == newMaster
      requires sys.mgr.alive == alive
      requires mostRecent in c.hosts && mostRecent != newMaster && Held(sys, alive, newMaster)
      modifies this
      ensures Valid() && start == old(start) && old(run) <= run
      ensures sys.mgr == old(sys.mgr) && sys.progress == old(sys.progress)
      ensures sys.plan == old(sys.plan) && sys.finished == old(sys.finished)
      ensures Held(sys, alive, newMaster) && sys.links.pinned <= old(sys.links.pinned)
      ensures smooth ==> FeedsFrom(sys.links, newMaster, mostRecent) && newMaster !in sys.links.paused
    {
      hide Valid, Inv, Enabled, Apply, Held, Drifts;
      PointAtRecent(alive, mostRecent, newMaster, smooth);
      ResumePointed(alive, mostRecent, newMaster, smooth);
    }

    method PointAtRecent(alive: set<Host>, mostRecent: Host, newMaster: Host, smooth: bool)
      requires Valid() && sys.mgr.CatchingUp? && sys.mgr.mostRecent == mostRecent && sys.mgr.newMaster == newMaster
      requires sys.mgr.alive == alive
      requires mostRecent in c.hosts && mostRecent != newMaster && Held(sys, alive, newMaster)
      modifies this
      ensures Valid() && start == old(start) && old(run) <= run
      ensures sys.mgr == old(sys.mgr) && sys.progress == old(sys.progress)
      ensures sys.plan == old(sys.plan) && sys.finished == old(sys.finished)
      ensures Held(sys, alive, newMaster) && sys.links.pinned <= old(sys.links.pinned)
      ensures smooth ==> FeedsFrom(sys.links, newMaster, mostRecent)
    {
      hide Valid, Inv, ShardEnabled, FenceEnabled, CommitEnabled, ShardApply, FenceApply, CommitApply, Held, Drifts;
      Interfere();
      HeldDrifts(old(sys), sys, alive, newMaster);
      var applied: bool := *;
      if !FeedsFrom(sys.links, newMaster, mostRecent) && (applied || smooth) {
        HeldRelinked(sys, alive, newMaster, mostRecent);
        Do(Decide(Repoint));
      }
    }

    method ResumePointed(alive: set<Host>, mostRecent: Host, newMaster: Host, smooth: bool)
      requires Valid() && sys.mgr.CatchingUp? && sys.mgr.mostRecent == mostRecent && sys.mgr.newMaster == newMaster
      requires sys.mgr.alive == alive
      requires mostRecent in c.hosts && mostRecent != newMaster && Held(sys, alive, newMaster)
      modifies this
      ensures Valid() && start == old(start) && old(run) <= run
      ensures sys.mgr == old(sys.mgr) && sys.progress == old(sys.progress)
      ensures sys.plan == old(sys.plan) && sys.finished == old(sys.finished)
      ensures Held(sys, alive, newMaster) && sys.links.pinned <= old(sys.links.pinned)
      ensures FeedsFrom(old(sys).links, newMaster, mostRecent) ==>
                FeedsFrom(sys.links, newMaster, mostRecent) && (smooth ==> newMaster !in sys.links.paused)
    {
      hide Valid, Inv, ShardEnabled, FenceEnabled, CommitEnabled, ShardApply, FenceApply, CommitApply, Held, Drifts;
      Interfere();
      HeldDrifts(old(sys), sys, alive, newMaster);
      var applied: bool := *;
      if newMaster in sys.links.paused && FeedsFrom(sys.links, newMaster, mostRecent) && (applied || smooth) {
        HeldRelinked(sys, alive, newMaster, mostRecent);
        Do(Decide(Resume));
      }
    }

    /** waitForCatchup: read the most recent host's offset, then compare the new master's
        with it. A host that does not answer the PING is read from what was cached before. */
    method WaitForCatchup(alive: set<Host>, offsets: map<Host, nat>, mostRecent: Host, newMaster: Host, smooth: bool) returns (ok: bool)
      requires Valid() && sys.mgr == CatchingUp(alive, offsets, mostRecent, newMaster, None, None)
      requires Held(sys, alive, newMaster)
      modifies this
      ensures Valid() && start == old(start) && old(run) <= run && !sys.mgr.Idle?
      ensures sys.progress == old(sys.progress) && sys.plan == old(sys.plan) && sys.finished == old(sys.finished)
      ensures ok ==> sys.mgr == Promoting(alive, newMaster, false, false) && Held(sys, alive, newMaster)
      ensures forall y :: FeedsFrom(old(sys).links, newMaster, y) ==> FeedsFrom(sys.links, newMaster, y)
      ensures smooth && FollowsFreely(old(sys), newMaster, mostRecent) ==> ok
    {
      hide Valid, Inv, Enabled, Apply, Drifts, Held, Relies;
      ok := false;
      var tries: nat := *;
      if smooth && tries < 1 {
        tries := 1;
      }
      while tries > 0 && !ok
        invariant Valid() && start == old(start) && old(run) <= run
        invariant sys.progress == old(sys.progress) && sys.plan == old(sys.plan) && sys.finished == old(sys.finished)
        invariant Held(sys, alive, newMaster)
        invariant forall y :: FeedsFrom(old(sys).links, newMaster, y) ==> FeedsFrom(sys.links, newMaster, y)
        invariant smooth && FollowsFreely(old(sys), newMaster, mostRecent) ==> ok || (tries > 0 && FollowsFreely(sys, newMaster, mostRecent))
        invariant if ok then sys.mgr == Promoting(alive, newMaster, false, false)
                  else sys.mgr.CatchingUp? && sys.mgr == old(sys.mgr).(goal := sys.mgr.goal, own := sys.mgr.own)
      {
        var died: bool := *;
        if died && !smooth {
          return;
        }
        ok := CompareOffsets(alive, newMaster, smooth);
        tries := tries - 1;
      }
    }

    /** One comparison; either offset may come from the cache once it has been read. */
    method CompareOffsets(alive: set<Host>, newMaster: Host, smooth: bool) returns (ok: bool)
      requires Valid() && sys.mgr.CatchingUp? && sys.mgr.alive == alive && sys.mgr.newMaster == newMaster
      requires Held(sys, alive, newMaster)
      modifies this
      ensures Valid() && start == old(start) && old(run) <= run
      ensures sys.progress == old(sys.progress) && sys.plan == old(sys.plan) && sys.finished == old(sys.finished)
      ensures Held(sys, alive, newMaster)
      ensures ok ==> sys.mgr == Promoting(alive, newMaster, false, false)
      ensures !ok ==> sys.mgr.CatchingUp? && sys.mgr == old(sys.mgr).(goal := sys.mgr.goal, own := sys.mgr.own)
      ensures forall y :: FeedsFrom(old(sys).links, newMaster, y) ==> FeedsFrom(sys.links, newMaster, y)
      ensures smooth && FollowsFreely(old(sys), newMaster, old(sys).mgr.mostRecent) ==> ok
    {
      hide Valid, Inv, ShardEnabled, FenceEnabled, CommitEnabled, ShardApply, FenceApply, CommitApply, Drifts, Held;
      var goal := ReadOffset(alive, newMaster, ReadGoal, smooth);
      if smooth && FollowsFreely(sys, newMaster, sys.mgr.mostRecent) {
        Stream(alive, newMaster, sys.mgr.mostRecent);
      }
      var own := ReadOffset(alive, newMaster, ReadOwn, smooth);
      ok := goal <= own;
      if ok {
        HeldManaged(sys, Promoting(alive, newMaster, false, false), alive, newMaster);
        Do(Decide(CaughtUp));
      }
    }

    lemma HostsHaveLogs()
      requires Valid() && sys.mgr.CatchingUp?
      ensures sys.log.Keys == c.hosts && sys.mgr.newMaster in c.hosts
    {
      Reached();
    }

    /** The shard copies what is missing, which is all that happens meanwhile. */
    method Stream(alive: set<Host>, newMaster: Host, mostRecent: Host)
      requires Valid() && sys.mgr.CatchingUp? && sys.mgr.alive == alive && sys.mgr.newMaster == newMaster
      requires Held(sys, alive, newMaster) && FollowsFreely(sys, newMaster, mostRecent)
      modifies this
      ensures Valid() && start == old(start) && old(run) <= run
      ensures sys.mgr == old(sys.mgr) && sys.progress == old(sys.progress) && sys.plan == old(sys.plan) && sys.finished == old(sys.finished)
      ensures Held(sys, alive, newMaster)
      ensures forall y :: FeedsFrom(old(sys).links, newMaster, y) ==> FeedsFrom(sys.links, newMaster, y)
      ensures LogLen(sys.log, newMaster) == LogLen(old(sys).log, mostRecent)
    {
      hide Valid, Inv, FenceEnabled, DecideEnabled, CommitEnabled, FenceApply, DecideApply, CommitApply;
      if newMaster !in sys.links.up {
        Do(Shard(LinkUp(newMaster)));
      }
      Do(Shard(Resync(newMaster)));
    }

    /** Reads the goal or the host's own offset, unless it is taken from the cache. */
    method ReadOffset(alive: set<Host>, newMaster: Host, read: DecideAction, smooth: bool) returns (offset: nat)
      requires Valid() && sys.mgr.CatchingUp? && sys.mgr.alive == alive && sys.mgr.newMaster == newMaster
      requires Held(sys, alive, newMaster) && (read.ReadGoal? || read.ReadOwn?)
      modifies this
      ensures Valid() && start == old(start) && old(run) <= run
      ensures sys.progress == old(sys.progress) && sys.plan == old(sys.plan) && sys.finished == old(sys.finished)
      ensures Held(sys, alive, newMaster)
      ensures sys.mgr == if read.ReadGoal? then old(sys.mgr).(goal := Some(offset)) else old(sys.mgr).(own := Some(offset))
      ensures forall y :: FeedsFrom(old(sys).links, newMaster, y) ==> FeedsFrom(sys.links, newMaster, y)
      ensures forall x :: FollowsFreely(old(sys), newMaster, x) ==> FollowsFreely(sys, newMaster, x)
      ensures smooth ==> offset == LogLen(sys.log, if read.ReadGoal? then sys.mgr.mostRecent else newMaster)
      ensures smooth && read.ReadOwn? ==> sys.log == old(sys.log)
    {
      hide Valid, Inv, ShardEnabled, FenceEnabled, CommitEnabled, ShardApply, FenceApply, CommitApply, Drifts, Held;
      if !smooth || read.ReadGoal? {
        Interfere();
        HeldDrifts(old(sys), sys, alive, newMaster);
        FreelyDrifts(old(sys), sys, newMaster);
      }
      var cached: bool := *;
      if !cached || smooth || (if read.ReadGoal? then sys.mgr.goal.None? else sys.mgr.own.None?) {
        HeldManaged(sys, DecideApply(c, FullTrust, sys, read).mgr, alive, newMaster);
        Do(Decide(read));
      }
      offset := if read.ReadGoal? then sys.mgr.goal.value else sys.mgr.own.value;
    }

    // ----- phase 5 -----

    /** The other alive hosts that can take a partial resync from x, by one probe of the
        shard. They are replicas behind x; the replaced master is never among them. */
    method PsyncHosts(alive: seq<Host>, x: Host) returns (psync: seq<Host>, states: map<Host, HostState>, ghost moment: nat)
      requires Valid() && Held(sys, SetOf(alive), x) && Leads(sys.links, x)
      requires SetOf(alive) <= CountedOn(sys.mgr) && (sys.mgr.Promoting? || sys.mgr.Turning?) && sys.mgr.newMaster == x
      ensures SetOf(psync) <= SetOf(alive) && Follows(c, sys, SetOf(psync), x)
      ensures states == probe(sys, moment)
      ensures forall h :: h in psync <==> h in alive && h != x && IsPartialSyncPossible(Lookup(states, h), Lookup(states, x))
    {
      hide Valid, Inv;
      Reached();
      MasterHasNoSource();
      psync := [];
      var now: nat := *;
      states, moment := probe(sys, now), now;
      for i := 0 to |alive|
        invariant SetOf(psync) <= SetOf(alive) && Follows(c, sys, SetOf(psync), x)
        invariant forall h :: h in psync <==>
                    h in alive[..i] && h != x && IsPartialSyncPossible(Lookup(states, h), Lookup(states, x))
      {
        var h := alive[i];
        if h != x && IsPartialSyncPossible(Lookup(states, h), Lookup(states, x)) {
          ProbedPsync(states, moment, h, x);
          assert SetOf(psync + [h]) == SetOf(psync) + {h};
          assert Follows(c, sys, {h}, x);
          psync := psync + [h];
        }
      }
    }

    lemma ProbedPsync(states: map<Host, HostState>, moment: nat, h: Host, x: Host)
      requires Valid() && states == probe(sys, moment)
      requires IsPartialSyncPossible(Lookup(states, h), Lookup(states, x))
      ensures h in sys.links.src && Behind(sys, h, x)
    {
      MirroredPsync(sys, states, h, x);
    }

    lemma MasterHasNoSource()
      requires Valid()
      ensures c.master !in sys.links.src
    {
      Reached();
    }

    /** changeMaster to x for every reachable host of the list. Where the hosts obey, every
        reachable one follows x afterwards, even if it is not seen to catch up in time. */
    method TurnReplicas(psync: seq<Host>, reachable: set<Host>, obeying: bool, prompt: bool, x: Host) returns (ok: bool)
      requires Valid() && Follows(c, sys, SetOf(psync), x) && MayTurn(sys.mgr, SetOf(psync), x)
      modifies this
      ensures Valid() && start == old(start) && old(run) <= run
      ensures Follows(c, sys, SetOf(psync), x) && OnlyTurned(old(sys), sys, x)
      ensures ok || obeying ==> forall h :: h in psync && h in reachable ==> FeedsFrom(sys.links, h, x)
      ensures obeying && prompt ==> ok
    {
      hide Valid, Inv, Apply, Drifts, Follows, Held, ReliedOn;
      FollowersRelied(c, sys, SetOf(psync), x);
      ok := true;
      for i := 0 to |psync|
        invariant Valid() && start == old(start) && old(run) <= run
        invariant Follows(c, sys, SetOf(psync), x) && OnlyTurned(old(sys), sys, x)
        invariant ok || obeying ==> forall h :: h in psync[..i] && h in reachable ==> FeedsFrom(sys.links, h, x)
        invariant obeying && prompt ==> ok
      {
        if psync[i] in reachable {
          var turned := TurnReplica(psync, psync[i], obeying, prompt, x);
          ok := ok && turned;
        }
      }
    }

    /** changeMaster: one repair, then more of them until the host is seen to replicate. */
    method TurnReplica(psync: seq<Host>, h: Host, obeying: bool, prompt: bool, x: Host) returns (ok: bool)
      requires Valid() && Follows(c, sys, SetOf(psync), x) && MayTurn(sys.mgr, SetOf(psync), x) && h in psync
      modifies this
      ensures Valid() && start == old(start) && old(run) <= run
      ensures Follows(c, sys, SetOf(psync), x) && OnlyTurned(old(sys), sys, x)
      ensures ok || obeying ==> FeedsFrom(sys.links, h, x)
      ensures obeying && prompt ==> ok
    {
      hide Valid, Inv, Apply, Drifts, Follows, Held, Enabled, ReliedOn;
      FollowersRelied(c, sys, SetOf(psync), x);
      ok := false;
      var tries: nat := *;
      if prompt && tries < 1 {
        tries := 1;
      }
      RepairTurned(psync, h, obeying, x);
      while tries > 0
        invariant Valid() && start == old(start) && old(run) <= run
        invariant Follows(c, sys, SetOf(psync), x) && OnlyTurned(old(sys), sys, x)
        invariant obeying ==> FeedsFrom(sys.links, h, x) && (prompt ==> tries > 0)
      {
        if FeedsFrom(sys.links, h, x) && (prompt || h in sys.links.up) {
          ok := true;
          return;
        }
        var died: bool := *;
        if died {
          return;
        }
        RepairTurned(psync, h, obeying, x);
        tries := tries - 1;
      }
    }

    /** repairReplica on a host that is to follow x. */
    method RepairTurned(psync: seq<Host>, h: Host, obeying: bool, x: Host)
      requires Valid() && Follows(c, sys, SetOf(psync), x) && MayTurn(sys.mgr, SetOf(psync), x) && h in psync
      modifies this
      ensures Valid() && start == old(start) && old(run) <= run
      ensures Follows(c, sys, SetOf(psync), x) && OnlyTurned(old(sys), sys, x)
      ensures obeying ==> FeedsFrom(sys.links, h, x)
    {
      hide Valid, Inv, Apply, Drifts, Follows, Held, Enabled;
      Interfere();
      DriftKeepsTurned(c, old(sys), sys, SetOf(psync), x);
      var applied: bool := *;
      if (!FeedsFrom(sys.links, h, x) || h in sys.links.paused) && (applied || obeying) {
        TurnKeepsTurned(c, sys, SetOf(psync), h, x);
        Do(Commit(Turn(h)));
      }
    }

    /** An effect that may fail; a failed one may nevertheless have been applied. */
    method Try(a: Action, obeying: bool) returns (ok: bool)
      requires Valid() && Enabled(c, FullTrust, sys, a)
      modifies this
      ensures Valid() && start == old(start) && old(run) <= run
      ensures sys == old(sys) || sys == Apply(c, FullTrust, old(sys), a)
      ensures ok ==> sys == Apply(c, FullTrust, old(sys), a) && Did(run, |old(run)|, a)
      ensures obeying ==> ok
    {
      var applied: bool, answered: bool := *, *;
      if applied || obeying {
        Do(a);
        assert run[|old(run)|] == a;
      }
      ok := (applied && answered) || obeying;
    }

    /** Phase 5 begins: the record and the master key name the new master. */
    method SaveAndName(alive: set<Host>, newMaster: Host, smooth: bool) returns (ok: bool)
      requires Valid() && sys.mgr == Promoting(alive, newMaster, false, false) && Running(sys, {3, 5})
      requires Held(sys, alive, newMaster)
      modifies this
      ensures Valid() && start == old(start) && old(run) <= run && !sys.mgr.Idle? && sys.finished == old(sys.finished)
      ensures sys.progress == old(sys.progress) || sys.progress == Some(old(sys.progress).value.(phase := 5))
      ensures ok ==> sys.mgr == Promoting(alive, newMaster, true, true) && Running(sys, {5})
      ensures ok ==> Held(sys, alive, newMaster) && sys.readOnly == old(sys.readOnly)
      ensures ok ==> Did(run, |old(run)|, Commit(SetDcsMaster(newMaster)))
      ensures smooth ==> ok
      ensures newMaster in old(sys).links.paused ==> newMaster in sys.links.paused
    {
      hide Valid, Inv, ShardEnabled, FenceEnabled, DecideEnabled, ShardApply, FenceApply, DecideApply, Drifts, Held;
      Interfere();
      HeldDrifts(old(sys), sys, alive, newMaster);
      FollowersDrift(old(sys), sys, alive, newMaster);
      HeldSaved(sys, alive, newMaster);
      ok := Try(Commit(SaveFive), smooth);
      if !ok {
        return;
      }
      label saved_:
      Interfere();
      HeldDrifts(old@saved_(sys), sys, alive, newMaster);
      FollowersDrift(old@saved_(sys), sys, alive, newMaster);
      HeldSaved(sys, alive, newMaster);
      ghost var before := run;
      ok := Try(Commit(SetDcsMaster(newMaster)), smooth);
      if ok {
        DidStays(run, run, |old(run)|, |before|, Commit(SetDcsMaster(newMaster)));
      }
    }

    /** The quorum size of the new master; a lone survivor is opened for writing first. */
    method LimitWrites(alive: seq<Host>, newMaster: Host, smooth: bool) returns (ok: bool)
      requires Valid() && sys.mgr == Promoting(SetOf(alive), newMaster, true, true) && Running(sys, {5})
      requires NoDup(alive) && Held(sys, SetOf(alive), newMaster)
      modifies this
      ensures Valid() && start == old(start) && old(run) <= run && sys.mgr == old(sys.mgr)
      ensures sys.progress == old(sys.progress) && sys.finished == old(sys.finished)
      ensures Held(sys, SetOf(alive), newMaster)
      ensures |alive| != 1 ==> sys.readOnly == old(sys.readOnly)
      ensures ok && |alive| == 1 ==> newMaster !in sys.readOnly
      ensures ok ==> sys.toWrite == NumReplicasToWrite(|alive|)
      ensures smooth ==> ok
      ensures newMaster in old(sys).links.paused ==> newMaster in sys.links.paused
    {
      hide Valid, Inv, ShardEnabled, FenceEnabled, DecideEnabled, ShardApply, FenceApply, DecideApply, Drifts, Held;
      ListSize(alive);
      ok := true;
      if |alive| == 1 {
        Interfere();
        HeldDrifts(old(sys), sys, SetOf(alive), newMaster);
        FollowersDrift(old(sys), sys, SetOf(alive), newMaster);
        HeldOpened(sys, SetOf(alive), newMaster);
        ok := Try(Commit(OpenEarly), smooth);
      }
      if !ok {
        return;
      }
      label opened_:
      Interfere();
      HeldDrifts(old@opened_(sys), sys, SetOf(alive), newMaster);
      FollowersDrift(old@opened_(sys), sys, SetOf(alive), newMaster);
      HeldOpened(sys, SetOf(alive), newMaster);
      ok := Try(Commit(SetToWrite(NumReplicasToWrite(|alive|))), smooth);
    }

    /** One request for the promotion, unless the host is a master already. */
    method AskToPromote(alive: set<Host>, newMaster: Host, smooth: bool) returns (ok: bool)
      requires Valid() && sys.mgr == Promoting(alive, newMaster, true, true) && Held(sys, alive, newMaster)
      modifies this
      ensures Valid() && start == old(start) && old(run) <= run && sys.mgr == old(sys.mgr)
      ensures sys.progress == old(sys.progress) && sys.finished == old(sys.finished)
      ensures sys.readOnly == old(sys.readOnly) && sys.toWrite == old(sys.toWrite)
      ensures Held(sys, alive, newMaster)
      ensures ok ==> newMaster !in sys.links.src
      ensures forall h :: h in alive && h != newMaster && FeedsFrom(old(sys).links, h, newMaster) ==> FeedsFrom(sys.links, h, newMaster)
      ensures smooth ==> ok
    {
      hide Valid, Inv, ShardEnabled, FenceEnabled, DecideEnabled, ShardApply, FenceApply, DecideApply, Drifts;
      Interfere();
      HeldDrifts(old(sys), sys, alive, newMaster);
      FollowersDrift(old(sys), sys, alive, newMaster);
      ok := true;
      if newMaster in sys.links.src {
        ok := Try(Commit(Promote(newMaster)), smooth);
      }
    }

    /** Asks for the promotion until the new master is seen to be a master. */
    method PromoteUntilMaster(alive: set<Host>, newMaster: Host, smooth: bool) returns (ok: bool)
      requires Valid() && sys.mgr == Promoting(alive, newMaster, true, true) && Held(sys, alive, newMaster)
      modifies this
      ensures Valid() && start == old(start) && old(run) <= run && sys.mgr == old(sys.mgr)
      ensures sys.progress == old(sys.progress) && sys.finished == old(sys.finished)
      ensures sys.readOnly == old(sys.readOnly) && sys.toWrite == old(sys.toWrite)
      ensures Held(sys, alive, newMaster)
      ensures ok ==> newMaster !in sys.links.src
      ensures forall h :: h in alive && h != newMaster && FeedsFrom(old(sys).links, h, newMaster) ==> FeedsFrom(sys.links, h, newMaster)
      ensures smooth ==> ok
    {
      hide Valid, Inv, Enabled, Apply, Held;
      ok := false;
      var tries: nat := *;
      if smooth && tries < 1 {
        tries := 1;
      }
      while tries > 0 && !ok
        invariant Valid() && start == old(start) && old(run) <= run && sys.mgr == old(sys.mgr)
        invariant sys.progress == old(sys.progress) && sys.finished == old(sys.finished)
        invariant sys.readOnly == old(sys.readOnly) && sys.toWrite == old(sys.toWrite)
        invariant forall h :: h in alive && h != newMaster && FeedsFrom(old(sys).links, h, newMaster) ==> FeedsFrom(sys.links, h, newMaster)
        invariant Held(sys, alive, newMaster) && (ok ==> newMaster !in sys.links.src) && (smooth ==> ok || tries > 0)
      {
        var asked := AskToPromote(alive, newMaster, smooth);
        if !asked {
          return;
        }
        label asked_:
        Interfere();
        HeldDrifts(old@asked_(sys), sys, alive, newMaster);
        FollowersDrift(old@asked_(sys), sys, alive, newMaster);
        var failed: bool := *;
        if failed && !smooth {
          return;
        }
        ok := newMaster !in sys.links.src;
        tries := tries - 1;
      }
    }

    /** Before the promotion, replicas that can take a partial resync from the still paused
        new master are turned to it. Whether they catch up does not matter. */
    method TurnEarly(alive: seq<Host>, newMaster: Host, ans: Answers) returns (states: map<Host, HostState>)
      requires Valid() && sys.mgr == Promoting(SetOf(alive), newMaster, true, true) && Running(sys, {5})
      requires newMaster in sys.links.paused && Held(sys, SetOf(alive), newMaster)
      modifies this
      ensures Valid() && start == old(start) && old(run) <= run && OnlyTurned(old(sys), sys, newMaster)
      ensures Held(sys, SetOf(alive), newMaster) && TurnedByProbe(states, SetOf(alive), newMaster, ans)
    {
      hide Valid, Inv, Enabled, Apply, Follows;
      var psync;
      ghost var moment;
      psync, states, moment := PsyncHosts(alive, newMaster);
      AliveRelied();
      ghost var seen := sys;
      var ok := TurnReplicas(psync, ans.reachable, ans.obeying, ans.prompt, newMaster);
      assert states == probe(seen, moment);
    }

    lemma AliveRelied()
      requires Valid() && sys.mgr.Promoting?
      ensures sys.mgr.alive <= ReliedOn(sys)
    {
      Reached();
    }

    /** The reachable hosts that one probe finds able to follow the new master follow it. */
    ghost predicate TurnedByProbe(states: map<Host, HostState>, alive: set<Host>, newMaster: Host, ans: Answers) reads this {
      && (exists seen: Sys, moment: nat :: states == probe(seen, moment))
      && (ans.obeying ==>
            forall h :: h in alive && h != newMaster && h in ans.reachable
                        && IsPartialSyncPossible(Lookup(states, h), Lookup(states, newMaster)) ==>
                          FeedsFrom(sys.links, h, newMaster))
    }

    method PromoteHost(alive: seq<Host>, newMaster: Host, ans: Answers) returns (ok: bool, states: map<Host, HostState>)
      requires Valid() && sys.mgr == Promoting(SetOf(alive), newMaster, false, false) && Running(sys, {3, 5})
      requires NoDup(alive) && Held(sys, SetOf(alive), newMaster)
      modifies this
      ensures Valid() && start == old(start) && old(run) <= run && !sys.mgr.Idle? && sys.finished == old(sys.finished)
      ensures sys.progress == old(sys.progress) || sys.progress == Some(old(sys.progress).value.(phase := 5))
      ensures ok ==> sys.mgr == Promoting(SetOf(alive), newMaster, true, true) && Running(sys, {5})
      ensures ok ==> newMaster !in sys.links.src && Held(sys, SetOf(alive), newMaster)
      ensures ok && |alive| != 1 ==> newMaster in old(sys).readOnly ==> newMaster in sys.readOnly
      ensures ok && |alive| == 1 ==> newMaster !in sys.readOnly
      ensures ok ==> sys.toWrite == NumReplicasToWrite(|alive|)
      ensures ok ==> Did(run, |old(run)|, Commit(SetDcsMaster(newMaster)))
      ensures ok && turnBefore && newMaster in old(sys).links.paused ==> TurnedByProbe(states, SetOf(alive), newMaster, ans)
      ensures ans.obeying && ans.prompt ==> ok
    {
      hide Valid, Inv, Enabled, Apply, Held;
      states := map[];
      ok := SaveAndName(SetOf(alive), newMaster, ans.obeying && ans.prompt);
      if !ok {
        return;
      }
      ghost var named := run;
      ok := *;
      ok := ok || (ans.obeying && ans.prompt);
      if !ok {
        return;
      }
      ok := LimitWrites(alive, newMaster, ans.obeying && ans.prompt);
      if !ok {
        return;
      }
      if turnBefore && newMaster in sys.links.paused {
        states := TurnEarly(alive, newMaster, ans);
      }
      ok := PromoteUntilMaster(SetOf(alive), newMaster, ans.obeying && ans.prompt);
      DidStays(named, run, |old(run)|, |old(run)|, Commit(SetDcsMaster(newMaster)));
    }

    // ----- phase 6 -----

    /** The first half of repairMaster: the quorum size is raised when it is too small. */
    method RaiseQuorum(newMaster: Host, ghost hosts: set<Host>, obeying: bool) returns (ok: bool)
      requires Valid() && OpensMaster(c, sys, hosts, newMaster)
      modifies this
      ensures Valid() && start == old(start) && old(run) <= run && OpensMaster(c, sys, hosts, newMaster)
      ensures sys.mgr == old(sys.mgr) && sys.progress == old(sys.progress) && sys.finished == old(sys.finished)
      ensures sys.readOnly == old(sys.readOnly) && sys.dcsActive == old(sys.dcsActive)
      ensures ok ==> sys.toWrite >= NumReplicasToWrite(|sys.dcsActive|)
      ensures obeying ==> ok
    {
      hide Valid, Inv, Enabled, Apply, Drifts, OpensMaster, Follows;
      DriftThenRepair(c, sys, hosts, newMaster);
      Interfere();
      RepairEffects(c, sys, hosts, newMaster);
      ok := *;
      ok := ok || obeying;
      if ok && NumReplicasToWrite(|sys.dcsActive|) > sys.toWrite {
        ok := Try(Commit(SetToWrite(NumReplicasToWrite(|sys.dcsActive|))), obeying);
      }
    }

    /** repairMaster: writes are opened only behind a large enough quorum, and a host that
        obeys is opened and its replication resumed. */
    method RepairMaster(newMaster: Host, ghost hosts: set<Host>, obeying: bool)
      requires Valid() && OpensMaster(c, sys, hosts, newMaster)
      modifies this
      ensures Valid() && start == old(start) && old(run) <= run && OpensMaster(c, sys, hosts, newMaster)
      ensures sys.mgr == old(sys.mgr) && sys.progress == old(sys.progress) && sys.finished == old(sys.finished)
      ensures sys.dcsActive == old(sys.dcsActive)
      ensures newMaster in old(sys).readOnly && newMaster !in sys.readOnly ==>
                sys.toWrite >= NumReplicasToWrite(|sys.dcsActive|)
      ensures obeying ==>
                && sys.toWrite >= NumReplicasToWrite(|sys.dcsActive|)
                && newMaster !in sys.readOnly && newMaster !in sys.links.paused
    {
      hide Valid, Inv, Enabled, Apply, Drifts, OpensMaster, Follows;
      var ok := RaiseQuorum(newMaster, hosts, obeying);
      if !ok {
        return;
      }
      RepairEffects(c, sys, hosts, newMaster);
      if newMaster in sys.readOnly {
        ok := Try(Commit(OpenWrites), obeying);
      }
      DriftThenRepair(c, sys, hosts, newMaster);
      Interfere();
      RepairEffects(c, sys, hosts, newMaster);
      if newMaster in sys.links.paused {
        ok := Try(Commit(ResumeMaster), obeying);
      }
    }

    /** The list of phase 6 is what one probe says of the alive hosts. */
    ghost predicate ListedByProbe(hosts: set<Host>, alive: set<Host>, newMaster: Host, states: map<Host, HostState>) {
      && (exists seen: Sys, moment: nat :: states == probe(seen, moment))
      && forall h :: h in hosts <==>
                       h == newMaster || (h in alive && IsPartialSyncPossible(Lookup(states, h), Lookup(states, newMaster)))
    }

    /** Phase 6 begins: the record, then the psync set as the active list. */
    method ListPsyncHosts(alive: seq<Host>, newMaster: Host, smooth: bool)
      returns (psync: seq<Host>, states: map<Host, HostState>, ok: bool)
      requires Valid() && sys.mgr.Promoting? && sys.mgr.alive == SetOf(alive) && sys.mgr.newMaster == newMaster
      requires Running(sys, {5, 6}) && (sys.mgr.named || Running(sys, {6}))
      requires newMaster !in sys.links.src && Held(sys, SetOf(alive), newMaster)
      modifies this
      ensures Valid() && start == old(start) && old(run) <= run && !sys.mgr.Idle? && sys.finished == old(sys.finished)
      ensures sys.progress == old(sys.progress) || sys.progress == Some(old(sys.progress).value.(phase := 6))
      ensures ok ==> Running(sys, {6}) && OpensMaster(c, sys, SetOf(psync), newMaster)
      ensures ok ==> sys.dcsActive == SetOf(psync) + {newMaster} && newMaster !in psync
      ensures ok ==> ListedByProbe(sys.dcsActive, SetOf(alive), newMaster, states)
      ensures smooth ==> ok
    {
      hide Valid, Inv, Enabled, Apply, Drifts, Held, Follows, OpensMaster;
      psync, states := [], map[];
      ok := SaveLast(SetOf(alive), newMaster, smooth);
      if !ok {
        return;
      }
      ghost var moment;
      psync, states, moment := PsyncHosts(alive, newMaster);
      ListedOpens(c, sys, SetOf(psync), newMaster);
      ok := Try(Commit(SetActive(SetOf(psync) + {newMaster})), smooth);
    }

    /** Phase 6 is on record. */
    method SaveLast(alive: set<Host>, newMaster: Host, smooth: bool) returns (ok: bool)
      requires Valid() && sys.mgr.Promoting? && sys.mgr.alive == alive && sys.mgr.newMaster == newMaster
      requires Running(sys, {5, 6}) && (sys.mgr.named || Running(sys, {6}))
      requires newMaster !in sys.links.src && Held(sys, alive, newMaster)
      modifies this
      ensures Valid() && start == old(start) && old(run) <= run && !sys.mgr.Idle? && sys.finished == old(sys.finished)
      ensures sys.progress == old(sys.progress) || sys.progress == Some(old(sys.progress).value.(phase := 6))
      ensures ok ==> Running(sys, {6}) && sys.mgr == Turning(alive, newMaster, None)
      ensures ok ==> newMaster !in sys.links.src && Held(sys, alive, newMaster)
      ensures smooth ==> ok
    {
      hide Valid, Inv, ShardEnabled, FenceEnabled, DecideEnabled, ShardApply, FenceApply, DecideApply, Held;
      Interfere();
      HeldDrifts(old(sys), sys, alive, newMaster);
      HeldSaved(sys, alive, newMaster);
      ok := Try(Commit(SaveSix), smooth);
    }

    /** Phase 6: the psync set becomes the active list, the new master is opened, and the
        hosts of the list are turned to it. */
    method TurnPhase(alive: seq<Host>, newMaster: Host, ans: Answers) returns (ok: bool, states: map<Host, HostState>)
      requires Valid() && sys.mgr.Promoting? && sys.mgr.alive == SetOf(alive) && sys.mgr.newMaster == newMaster
      requires Running(sys, {5, 6}) && (sys.mgr.named || Running(sys, {6}))
      requires newMaster !in sys.links.src && Held(sys, SetOf(alive), newMaster)
      modifies this
      ensures Valid() && start == old(start) && old(run) <= run && !sys.mgr.Idle? && sys.finished == old(sys.finished)
      ensures sys.progress == old(sys.progress) || sys.progress == Some(old(sys.progress).value.(phase := 6))
      ensures ok ==> Running(sys, {6}) && OpensMaster(c, sys, sys.dcsActive - {newMaster}, newMaster)
      ensures ok ==> ListedByProbe(sys.dcsActive, SetOf(alive), newMaster, states)
      ensures ok ==> forall h :: h in sys.dcsActive && h in ans.reachable && h != newMaster ==> FeedsFrom(sys.links, h, newMaster)
      ensures ok && ans.obeying ==> newMaster !in sys.readOnly && sys.toWrite >= NumReplicasToWrite(|sys.dcsActive|)
      ensures ans.obeying && ans.prompt ==> ok
    {
      hide Valid, Inv, Enabled, Apply, Drifts, Held, Follows;
      var psync;
      psync, states, ok := ListPsyncHosts(alive, newMaster, ans.obeying && ans.prompt);
      if !ok {
        return;
      }
      assert SetOf(psync) == sys.dcsActive - {newMaster};
      RepairMaster(newMaster, SetOf(psync), ans.obeying);
      ok := TurnReplicas(psync, ans.reachable, ans.obeying, ans.prompt, newMaster);
    }

    // ----- the whole procedure -----

    /** The hosts to fence. */
    function ToFence(activeNodes: seq<Host>, oldMaster: Host): set<Host> {
      SetOf(activeNodes) - if c.auto && c.from == oldMaster then {oldMaster} else {}
    }

    /** Phases 1 and 2 get through, and the requested host is on the list. */
    ghost predicate EnoughAnswer(activeNodes: seq<Host>, ans: Answers, oldMaster: Host) {
      && ans.pills && oldMaster !in ans.pingOk * ans.notClosing
      && |ToFence(activeNodes, oldMaster) * ans.pingOk - ans.notClosing - ans.notPausing| >= FailoverQuorum(|activeNodes|)
      && (to == "" || to in activeNodes)
    }

    /** The new master is on record or can be found, and its link can come up in phase 4. */
    ghost predicate Decidable(ans: Answers) reads this {
      || Running(sys, {5, 6})
      || (Running(sys, {3}) && sys.progress.value.mostRecent in c.hosts
          && Linked(sys.progress.value.newMaster, ans))
      || (!Running(sys, {3, 5, 6}) && (to != "" || sys.acked > 0) && exists h :: Picks(h, ans) && Linked(h, ans))
    }

    ghost predicate Linked(h: Host, ans: Answers) reads this {
      (turnBefore || h in ans.linksUp) && (sys.progress.None? || h !in sys.links.pinned)
    }

    /** Nothing is in the way of this run. */
    ghost predicate Unhindered(activeNodes: seq<Host>, ans: Answers, oldMaster: Host) reads this {
      EnoughAnswer(activeNodes, ans, oldMaster) && Decidable(ans) && ans.obeying && ans.prompt
    }

    ghost predicate CanCatchUp(offsets: map<Host, nat>)
      requires sys.progress.Some?
      reads this
    {
      && (sys.progress.value.mostRecent in c.hosts || SameOffset(offsets, sys.progress.value.newMaster, sys.progress.value.mostRecent))
      && sys.progress.value.newMaster !in sys.links.pinned
    }

    lemma Here()
      requires Valid()
      ensures Legal(c, FullTrust, start, run) && After(c, FullTrust, start, run) == sys
    {
    }

    /** What had been acknowledged at an earlier point of the run still is. */
    lemma AckedSince(was: Sys, before: seq<Action>)
      requires Valid() && before <= run
      requires Legal(c, FullTrust, start, before) && After(c, FullTrust, start, before) == was
      ensures was.acked <= sys.acked
    {
      InitStep(c, start);
      AckedAlong(c, start, before, run);
    }

    /** The beginning of performSwitchover: phases 1 and 2, and the snapshot. */
    method FenceAndMeasure(activeNodes: seq<Host>, ans: Answers, oldMaster: Host)
      returns (alive: seq<Host>, offsets: map<Host, nat>, ok: bool)
      requires Valid() && sys.mgr.Idle? && !sys.finished && Fresh(c, sys)
      requires NoDup(activeNodes) && SetOf(activeNodes) == sys.dcsActive && oldMaster == sys.dcsMaster
      modifies this
      ensures Valid() && start == old(start) && old(run) <= run && !sys.finished
      ensures sys.mgr.Idle? ==> sys.progress == old(sys.progress)
      ensures sys.progress == old(sys.progress) || (old(sys.progress).None? && sys.progress == Some(Progress(1, "", "")))
      ensures ok ==> sys.progress.Some? && sys.mgr == Snapped(SetOf(alive), offsets) && offsets.Keys == c.hosts
      ensures ok ==> NoDup(alive) && AllStill(sys, SetOf(alive))
      ensures ok ==> forall h :: old(Linked(h, ans)) ==> h !in sys.links.pinned
      ensures EnoughAnswer(activeNodes, ans, oldMaster) && ans.prompt ==> ok
    {
      hide Valid, Inv, Enabled, Apply, AllStill;
      alive, offsets, ok := [], map[], *;
      ok := ok || ans.prompt;
      if sys.progress.None? && !ok {
        return;
      }
      var targets := Start(activeNodes, oldMaster);
      ok := *;
      ok := ok || ans.prompt;
      if !ok || (to != "" && to !in activeNodes) {
        ok := false;
        return;
      }
      alive, ok := FenceHosts(targets, ans, oldMaster);
      if !ok {
        return;
      }
      offsets, ok := TakeSnapshot(SetOf(alive), ans.prompt);
    }

    /** The same, up to the point where it is decided which host is to be the new master. */
    method FenceAndSelect(activeNodes: seq<Host>, ans: Answers, oldMaster: Host)
      returns (alive: seq<Host>, offsets: map<Host, nat>, ok: bool)
      requires Valid() && sys.mgr.Idle? && !sys.finished && Fresh(c, sys)
      requires NoDup(activeNodes) && SetOf(activeNodes) == sys.dcsActive && oldMaster == sys.dcsMaster
      modifies this
      ensures Valid() && start == old(start) && old(run) <= run && !sys.finished
      ensures sys.mgr.Idle? ==> sys.progress == old(sys.progress)
      ensures old(sys.progress).Some? ==> sys.progress.Some?
      ensures old(sys.progress).Some? && old(sys.progress).value.phase >= 3 ==> sys.progress == old(sys.progress)
      ensures ok ==> Running(sys, {3, 5, 6}) && NoDup(alive) && Held(sys, SetOf(alive), sys.progress.value.newMaster)
      ensures ok && sys.progress.value.phase == 3 ==>
                sys.mgr == CatchingUp(SetOf(alive), offsets, sys.progress.value.mostRecent, sys.progress.value.newMaster, None, None)
      ensures ok && sys.progress.value.phase != 3 ==> sys.mgr == Promoting(SetOf(alive), sys.progress.value.newMaster, false, false)
      ensures ok && (old(sys.progress).None? || old(sys.progress).value.phase < 3) ==> sys.progress.value.phase == 3
      ensures old(EnoughAnswer(activeNodes, ans, oldMaster) && Decidable(ans)) && ans.prompt ==>
                ok && (sys.progress.value.phase == 3 ==> CanCatchUp(offsets))
    {
      hide Valid, Inv, Enabled, Apply, Held, AllStill, EnoughAnswer;
      ghost var before, was := run, sys;
      Here();
      alive, offsets, ok := FenceAndMeasure(activeNodes, ans, oldMaster);
      if !ok {
        return;
      }
      AckedSince(was, before);
      ok := SelectHosts(activeNodes, ans, SetOf(alive), offsets);
      if ok {
        StillIsHeld(sys, SetOf(alive), sys.progress.value.newMaster);
      }
    }

    /** performSwitchover. However far it gets, the present state is what a legal run has
        led to, and a record that names a new master goes on naming it. If it succeeds, the
        DCS has been told of the new master between phases 5 and 6; the active list is the
        new master and the alive hosts that can follow it, whose logs it extends; the
        reachable ones follow it; and if it obeys, it takes writes. */
    method PerformSwitchover(activeNodes: seq<Host>, ans: Answers, oldMaster: Host)
      returns (ok: bool, alive: seq<Host>, states: map<Host, HostState>)
      requires Valid() && sys.mgr.Idle? && !sys.finished && Fresh(c, sys)
      requires NoDup(activeNodes) && SetOf(activeNodes) == sys.dcsActive && oldMaster == sys.dcsMaster
      modifies this
      ensures Valid() && start == old(start) && old(run) <= run && !sys.finished
      ensures sys.mgr.Idle? ==> sys.progress == old(sys.progress)
      ensures old(sys.progress).Some? && old(sys.progress).value.phase >= 3 ==>
                sys.progress.Some? && sys.progress.value.newMaster == old(sys.progress).value.newMaster
      ensures ok ==> Switched(c, sys) && Follows(c, sys, sys.dcsActive - {sys.mgr.newMaster}, sys.mgr.newMaster)
      ensures ok ==> NamedInAttempt(run, sys.mgr.newMaster)
      ensures ok && (old(sys.progress).None? || old(sys.progress).value.phase < 6) ==>
                Did(run, |old(run)|, Commit(SetDcsMaster(sys.mgr.newMaster)))
      ensures ok ==> ListedByProbe(sys.dcsActive, SetOf(alive), sys.mgr.newMaster, states)
      ensures ok ==> forall h :: h in sys.dcsActive && h in ans.reachable && h != sys.mgr.newMaster ==>
                                  FeedsFrom(sys.links, h, sys.mgr.newMaster)
      ensures ok && ans.obeying ==>
                sys.mgr.newMaster !in sys.readOnly && sys.toWrite >= NumReplicasToWrite(|sys.dcsActive|)
      ensures old(Unhindered(activeNodes, ans, oldMaster)) ==> ok
    {
      hide Valid, Inv, Enabled, Apply, Held, OpensMaster, ListedByProbe, NamedInAttempt;
      var offsets;
      states := map[];
      alive, offsets, ok := FenceAndSelect(activeNodes, ans, oldMaster);
      if !ok {
        return;
      }
      var newMaster := sys.progress.value.newMaster;
      if sys.progress.value.phase < 5 {
        ok := CatchUp(SetOf(alive), offsets, sys.progress.value.mostRecent, newMaster, ans.obeying && ans.prompt);
        if !ok {
          return;
        }
      }
      ghost var before := run;
      ok, states := Conclude(alive, newMaster, ans);
      if ok && Did(run, |before|, Commit(SetDcsMaster(newMaster))) {
        DidStays(run, run, |old(run)|, |before|, Commit(SetDcsMaster(newMaster)));
      }
    }

    /** Phases 5 and 6, or phase 6 alone if the record is that far. */
    method Conclude(alive: seq<Host>, newMaster: Host, ans: Answers) returns (ok: bool, states: map<Host, HostState>)
      requires Valid() && sys.mgr == Promoting(SetOf(alive), newMaster, false, false) && NoDup(alive)
      requires Running(sys, {3, 5, 6}) && sys.progress.value.newMaster == newMaster && Held(sys, SetOf(alive), newMaster)
      modifies this
      ensures Valid() && start == old(start) && old(run) <= run && !sys.mgr.Idle? && sys.finished == old(sys.finished)
      ensures sys.progress.Some? && sys.progress.value.newMaster == newMaster
      ensures ok ==> Switched(c, sys) && sys.mgr.newMaster == newMaster && Follows(c, sys, sys.dcsActive - {newMaster}, newMaster)
      ensures ok ==> NamedInAttempt(run, newMaster)
      ensures ok && old(sys.progress).value.phase < 6 ==> Did(run, |old(run)|, Commit(SetDcsMaster(newMaster)))
      ensures ok ==> ListedByProbe(sys.dcsActive, SetOf(alive), newMaster, states)
      ensures ok ==> forall h :: h in sys.dcsActive && h in ans.reachable && h != newMaster ==> FeedsFrom(sys.links, h, newMaster)
      ensures ok && ans.obeying ==> newMaster !in sys.readOnly && sys.toWrite >= NumReplicasToWrite(|sys.dcsActive|)
      ensures ans.obeying && ans.prompt ==> ok
    {
      hide Valid, Inv, Enabled, Apply, Held, OpensMaster, ListedByProbe, NamedInAttempt;
      states := map[];
      ok := *;
      ok := ok || (ans.obeying && ans.prompt);
      if !ok {
        return;
      }
      ghost var naming := sys.progress.value.phase != 6;
      if sys.progress.value.phase != 6 {
        ok, states := PromoteHost(alive, newMaster, ans);
        if !ok {
          return;
        }
      } else {
        OnRecord();
      }
      ghost var promoted := run;
      ok, states := TurnPhase(alive, newMaster, ans);
      if ok {
        OnRecord();
        OpenedLeads(c, sys, sys.dcsActive - {newMaster}, newMaster);
        AttemptNamed();
        if naming {
          DidStays(promoted, run, |old(run)|, |old(run)|, Commit(SetDcsMaster(newMaster)));
        }
        NewMasterListed(states, SetOf(alive), newMaster);
      }
    }

    lemma NewMasterListed(states: map<Host, HostState>, alive: set<Host>, newMaster: Host)
      requires ListedByProbe(sys.dcsActive, alive, newMaster, states)
      ensures newMaster in sys.dcsActive
    {
    }

    /** The run tells that the attempt has named its new master, once phase 6 is on record. */
    lemma AttemptNamed()
      requires Valid() && Running(sys, {6})
      ensures NamedInAttempt(run, sys.progress.value.newMaster)
    {
      RunIsTold(c, FullTrust, start, run);
    }

    /** The switchover branch of stateManager. A finished switchover leaves a master that
        holds every acknowledged entry, which the DCS has been told of between phases 5
        and 6 of the attempt, and an active list of hosts whose logs it extends. */
    method Tick(activeNodes: seq<Host>, ans: Answers, oldMaster: Host)
      requires Valid() && sys.mgr.Idle? && !sys.finished && Fresh(c, sys)
      requires NoDup(activeNodes) && SetOf(activeNodes) == sys.dcsActive && oldMaster == sys.dcsMaster
      modifies this
      ensures Valid() && start == old(start) && old(run) <= run && sys.mgr.Idle?
      ensures sys.finished ==>
                && sys.plan.Some? && HoldsAcknowledged(c, sys, sys.plan.value.newMaster)
                && sys.plan.value.newMaster !in sys.links.src && sys.plan.value.newMaster in sys.dcsActive
                && forall h :: h in sys.dcsActive && h != sys.plan.value.newMaster ==> Behind(sys, h, sys.plan.value.newMaster)
      ensures sys.finished ==> run != [] && NamedInAttempt(run[..|run| - 1], sys.plan.value.newMaster)
      ensures sys.finished && (old(sys.progress).None? || old(sys.progress).value.phase < 6) ==>
                Did(run, |old(run)|, Commit(SetDcsMaster(sys.plan.value.newMaster)))
      ensures sys.finished && ans.obeying ==>
                && sys.plan.value.newMaster !in sys.readOnly && sys.toWrite >= NumReplicasToWrite(|sys.dcsActive|)
                && forall h :: h in sys.dcsActive && h in ans.reachable && h != sys.plan.value.newMaster ==>
                                 FeedsFrom(sys.links, h, sys.plan.value.newMaster)
      ensures old(Unhindered(activeNodes, ans, oldMaster)) ==> sys.finished
    {
      hide Valid, Inv, ShardEnabled, DecideEnabled, ShardApply, DecideApply, NamedInAttempt, EnoughAnswer, Decidable;
      var ok, alive, states := PerformSwitchover(activeNodes, ans, oldMaster);
      if sys.mgr.Idle? {
        return;
      }
      var written: bool := *;
      written := written || ans.prompt;
      if ok && written {
        Committed();
        ghost var x, switched := sys.plan.value.newMaster, run;
        forall h | h in sys.dcsActive && h != x ensures Behind(sys, h, x) {
          assert h in sys.dcsActive - {x};
        }
        Do(Commit(Finish));
        assert run[..|run| - 1] == switched;
        if Did(switched, |old(run)|, Commit(SetDcsMaster(x))) {
          DidStays(switched, run, |old(run)|, |old(run)|, Commit(SetDcsMaster(x)));
        }
      } else {
        Do(Fence(Fail(written)));
      }
    }

    lemma Committed()
      requires Valid() && sys.plan.Some? && sys.plan.value.committed
      ensures HoldsAcknowledged(c, sys, sys.plan.value.newMaster)
    {
      Reached();
      CommittedHolds(c, sys);
    }

    /** The record enters phase 1 unless it is further on already, and the hosts to fence
        are the active ones, without the failed master of an automatic failover. */
    method Start(activeNodes: seq<Host>, oldMaster: Host) returns (targets: seq<Host>)
      requires Valid() && sys.mgr.Idle? && !sys.finished && Fresh(c, sys)
      requires NoDup(activeNodes) && SetOf(activeNodes) == sys.dcsActive && oldMaster == sys.dcsMaster
      modifies this
      ensures Valid() && start == old(start) && old(run) <= run && !sys.finished
      ensures sys.progress == if old(sys.progress).None? then Some(Progress(1, "", "")) else old(sys.progress)
      ensures sys.mgr.Fencing? && sys.mgr.act == SetOf(targets) && NoDup(targets)
      ensures sys.mgr.closed == {} && sys.mgr.stopped == {} && sys.mgr.needed == FailoverQuorum(|activeNodes|)
      ensures SetOf(targets) == ToFence(activeNodes, oldMaster)
      ensures if old(sys.progress).None? then sys.links.pinned == {} else sys.links.pinned == old(sys.links).pinned
    {
      hide Valid, Inv, ShardEnabled, DecideEnabled, CommitEnabled, ShardApply, DecideApply, CommitApply;
      ListSize(activeNodes);
      targets := activeNodes;
      if c.auto && c.from == oldMaster {
        targets := FilterOut(activeNodes, [oldMaster]);
      }
      Do(FenceStart);
    }
  }

  const FenceStart := Fence(FenceAction.Start)

  method FilterOut(a: seq<Host>, b: seq<Host>) returns (res: seq<Host>)
    ensures SetOf(res) == SetOf(a) - SetOf(b)
    ensures NoDup(a) ==> NoDup(res)
  {
    res := [];
    for i := 0 to |a|
      invariant SetOf(res) == SetOf(a[..i]) - SetOf(b)
      invariant NoDup(a) ==> NoDup(res)
    {
      assert a[..i + 1] == a[..i] + [a[i]];
      assert SetOf(a[..i + 1]) == SetOf(a[..i]) + {a[i]};
      if a[i] !in b {
        if NoDup(a) {
          assert a[i] !in a[..i];
          assert a[i] !in SetOf(res);
        }
        assert SetOf(res + [a[i]]) == SetOf(res) + {a[i]};
        res := res + [a[i]];
      }
    }
    assert a[..|a|] == a;
  }

  lemma StillDrifts(s: Sys, s': Sys, hosts: set<Host>)
    requires AllStill(s, hosts) && Drifts(s, s') && hosts <= ReliedOn(s)
    ensures AllStill(s', hosts)
  {
  }

  /** h replicates from another host, and nothing keeps its link from being up. */
  predicate FollowsFreely(s: Sys, h: Host, x: Host) {
    && FeedsFrom(s.links, h, x) && h !in s.links.paused && h !in s.links.pinned
    && h in s.log && x in s.log && h != x
  }

  lemma FreelyDrifts(s: Sys, s': Sys, h: Host)
    requires Drifts(s, s') && h in ReliedOn(s)
    ensures forall x :: FollowsFreely(s, h, x) ==> FollowsFreely(s', h, x)
  {
  }

  lemma {:induction false} AckedAlong(c: Config, s: Sys, before: seq<Action>, run: seq<Action>)
    requires ValidConfig(c) && Inv(c, s) && before <= run
    requires Legal(c, FullTrust, s, before) && Legal(c, FullTrust, s, run)
    ensures After(c, FullTrust, s, before).acked <= After(c, FullTrust, s, run).acked
    decreases |run|
  {
    hide Inv, Enabled, Apply;
    if before == [] {
      AcknowledgedStaysRun(c, FullTrust, s, run);
    } else {
      assert before[0] == run[0];
      Step(c, FullTrust, s, run[0]);
      AckedAlong(c, Apply(c, FullTrust, s, run[0]), before[1..], run[1..]);
    }
  }

  /** Without a most recent host there is nothing to catch up with. */
  lemma NobodyAhead(offsets: map<Host, nat>, mostRecent: Host, newMaster: Host)
    requires IsMostRecent(offsets, mostRecent)
    ensures mostRecent in offsets || SameOffset(offsets, newMaster, mostRecent)
  {
  }

  lemma StillManaged(s: Sys, hosts: set<Host>)
    requires AllStill(s, hosts)
    ensures forall mgr, plan, progress :: AllStill(s.(mgr := mgr, plan := plan, progress := progress), hosts)
  {
  }

  lemma StillIsHeld(s: Sys, hosts: set<Host>, x: Host)
    requires AllStill(s, hosts)
    ensures Held(s, hosts, x)
  {
  }

  lemma OpenedLeads(c: Config, s: Sys, hosts: set<Host>, x: Host)
    requires OpensMaster(c, s, hosts, x)
    ensures s.mgr.Turning? && s.mgr.newMaster == x && s.mgr.psync == Some(s.dcsActive) && x !in s.links.src
    ensures Follows(c, s, hosts, x)
  {
  }

  /** Phase 6 after the DCS list has been written: x leads the hosts it lists. */
  ghost predicate OpensMaster(c: Config, s: Sys, hosts: set<Host>, x: Host) {
    && s.mgr.Turning? && s.mgr.newMaster == x && s.mgr.psync == Some(s.dcsActive)
    && x !in s.links.src && Follows(c, s, hosts, x)
  }

  lemma DriftThenRepair(c: Config, s: Sys, hosts: set<Host>, x: Host)
    requires OpensMaster(c, s, hosts, x)
    ensures forall s' :: Drifts(s, s') ==>
              && OpensMaster(c, s', hosts, x) && s'.mgr == s.mgr && s'.progress == s.progress
              && s'.finished == s.finished && s'.readOnly == s.readOnly && s'.toWrite == s.toWrite
  {
    forall s' | Drifts(s, s') ensures Follows(c, s', hosts, x) {
      DriftKeepsTurned(c, s, s', hosts, x);
    }
  }

  /** Writing the list of these followers and of x itself. */
  lemma ListedOpens(c: Config, s: Sys, hosts: set<Host>, x: Host)
    requires s.mgr.Turning? && s.mgr.newMaster == x && hosts <= s.mgr.alive
    requires x !in s.links.src && Follows(c, s, hosts, x)
    ensures x !in hosts
    ensures var list := Commit(SetActive(hosts + {x}));
            && Enabled(c, FullTrust, s, list)
            && var s' := Apply(c, FullTrust, s, list);
               && OpensMaster(c, s', hosts, x) && s'.dcsActive == hosts + {x}
               && s'.mgr == s.mgr.(psync := Some(hosts + {x})) && s'.progress == s.progress && s'.finished == s.finished
  {
    var s' := s.(dcsActive := hosts + {x}, mgr := s.mgr.(psync := Some(hosts + {x})));
    assert ReliedOn(s') == ReliedOn(s);
  }

  lemma RaiseEffect(c: Config, s: Sys, hosts: set<Host>, x: Host)
    requires OpensMaster(c, s, hosts, x) && NumReplicasToWrite(|s.dcsActive|) > s.toWrite
    ensures var raise := Commit(SetToWrite(NumReplicasToWrite(|s.dcsActive|)));
            && Enabled(c, FullTrust, s, raise) && OpensMaster(c, Apply(c, FullTrust, s, raise), hosts, x)
            && Apply(c, FullTrust, s, raise) == s.(toWrite := NumReplicasToWrite(|s.dcsActive|))
  {
    assert ReliedOn(s.(toWrite := NumReplicasToWrite(|s.dcsActive|))) == ReliedOn(s);
  }

  lemma OpenEffect(c: Config, s: Sys, hosts: set<Host>, x: Host)
    requires OpensMaster(c, s, hosts, x) && NumReplicasToWrite(|s.dcsActive|) <= s.toWrite
    ensures Enabled(c, FullTrust, s, Commit(OpenWrites))
    ensures OpensMaster(c, Apply(c, FullTrust, s, Commit(OpenWrites)), hosts, x)
    ensures Apply(c, FullTrust, s, Commit(OpenWrites)) == s.(readOnly := s.readOnly - {x}, forked := true)
  {
    assert ReliedOn(s.(readOnly := s.readOnly - {x}, forked := true)) == ReliedOn(s);
  }

  lemma ResumeEffect(c: Config, s: Sys, hosts: set<Host>, x: Host)
    requires OpensMaster(c, s, hosts, x)
    ensures Enabled(c, FullTrust, s, Commit(ResumeMaster))
    ensures OpensMaster(c, Apply(c, FullTrust, s, Commit(ResumeMaster)), hosts, x)
    ensures Apply(c, FullTrust, s, Commit(ResumeMaster)) == s.(links := ResumeLink(s.links, x))
  {
    assert ReliedOn(s.(links := ResumeLink(s.links, x))) == ReliedOn(s);
  }

  /** The three effects of repairMaster. */
  lemma RepairEffects(c: Config, s: Sys, hosts: set<Host>, x: Host)
    requires OpensMaster(c, s, hosts, x)
    ensures var raise := Commit(SetToWrite(NumReplicasToWrite(|s.dcsActive|)));
            NumReplicasToWrite(|s.dcsActive|) > s.toWrite ==>
              && Enabled(c, FullTrust, s, raise) && OpensMaster(c, Apply(c, FullTrust, s, raise), hosts, x)
              && Apply(c, FullTrust, s, raise) == s.(toWrite := NumReplicasToWrite(|s.dcsActive|))
    ensures NumReplicasToWrite(|s.dcsActive|) <= s.toWrite ==>
              && Enabled(c, FullTrust, s, Commit(OpenWrites))
              && OpensMaster(c, Apply(c, FullTrust, s, Commit(OpenWrites)), hosts, x)
              && Apply(c, FullTrust, s, Commit(OpenWrites)) == s.(readOnly := s.readOnly - {x}, forked := true)
    ensures Enabled(c, FullTrust, s, Commit(ResumeMaster))
    ensures OpensMaster(c, Apply(c, FullTrust, s, Commit(ResumeMaster)), hosts, x)
    ensures Apply(c, FullTrust, s, Commit(ResumeMaster)) == s.(links := ResumeLink(s.links, x))
  {
    hide Enabled, Apply, OpensMaster;
    if NumReplicasToWrite(|s.dcsActive|) > s.toWrite {
      RaiseEffect(c, s, hosts, x);
    } else {
      OpenEffect(c, s, hosts, x);
    }
    ResumeEffect(c, s, hosts, x);
  }

  /** Between s and s' hosts have been turned to x, and nothing else was done to them. */
  ghost predicate OnlyTurned(s: Sys, s': Sys, x: Host) {
    && s'.mgr == s.mgr && s'.progress == s.progress && s'.plan == s.plan && s'.finished == s.finished
    && s'.dcsActive == s.dcsActive && s'.toWrite == s.toWrite && s'.readOnly == s.readOnly
    && ReliedOn(s') == ReliedOn(s) && (x in s.links.src <==> x in s'.links.src)
    && (forall hosts :: hosts <= ReliedOn(s) && Held(s, hosts, x) ==> Held(s', hosts, x))
    && (forall h :: h in ReliedOn(s) && FeedsFrom(s.links, h, x) ==> FeedsFrom(s'.links, h, x))
  }

  lemma FollowersRelied(c: Config, s: Sys, hosts: set<Host>, x: Host)
    requires Follows(c, s, hosts, x)
    ensures hosts <= ReliedOn(s)
  {
  }

  lemma DriftKeepsTurned(c: Config, s: Sys, s': Sys, hosts: set<Host>, x: Host)
    requires Drifts(s, s') && Follows(c, s, hosts, x)
    ensures OnlyTurned(s, s', x) && Follows(c, s', hosts, x)
  {
  }

  lemma TurnKeepsTurned(c: Config, s: Sys, hosts: set<Host>, h: Host, x: Host)
    requires Follows(c, s, hosts, x) && MayTurn(s.mgr, hosts, x) && h in hosts
    ensures Enabled(c, FullTrust, s, Commit(Turn(h)))
    ensures OnlyTurned(s, Apply(c, FullTrust, s, Commit(Turn(h))), x)
    ensures Follows(c, Apply(c, FullTrust, s, Commit(Turn(h))), hosts, x)
    ensures FeedsFrom(Apply(c, FullTrust, s, Commit(Turn(h))).links, h, x)
  {
    assert Behind(s, h, x);
  }

  ghost predicate Follows(c: Config, s: Sys, hosts: set<Host>, x: Host) {
    && Leads(s.links, x) && hosts <= ReliedOn(s) && x in ReliedOn(s)
    && forall h :: h in hosts ==>
         h != x && h != c.master && Behind(s, h, x) && h in s.readOnly && (Stuck(s.links, h) || FeedsFrom(s.links, h, x))
  }

  /** The points at which hosts may be turned to x. */
  ghost predicate MayTurn(mgr: Manager, hosts: set<Host>, x: Host) {
    || (mgr.Promoting? && mgr.named && hosts <= mgr.alive && x == mgr.newMaster)
    || (mgr.Turning? && mgr.psync.Some? && hosts <= mgr.psync.value && x == mgr.newMaster)
  }

  /** The hosts that phases 1 and 2 both succeeded on, in the order of the list. */
  method PassedBoth(activeNodes: seq<Host>, closed: set<Host>, stopped: set<Host>) returns (alive: seq<Host>)
    requires NoDup(activeNodes) && closed <= SetOf(activeNodes) && stopped <= SetOf(activeNodes)
    ensures SetOf(alive) == closed * stopped && NoDup(alive)
  {
    alive := [];
    for i := 0 to |activeNodes|
      invariant SetOf(alive) == closed * stopped * SetOf(activeNodes[..i]) && NoDup(alive)
    {
      var h := activeNodes[i];
      assert activeNodes[..i + 1] == activeNodes[..i] + [h];
      assert SetOf(activeNodes[..i + 1]) == SetOf(activeNodes[..i]) + {h};
      if h in closed && h in stopped {
        assert h !in activeNodes[..i];
        assert h !in SetOf(alive);
        assert SetOf(alive + [h]) == SetOf(alive) + {h};
        alive := alive + [h];
      }
    }
    assert activeNodes[..|activeNodes|] == activeNodes;
  }

  lemma HeldDrifts(s: Sys, s': Sys, hosts: set<Host>, x: Host)
    requires Held(s, hosts, x) && Drifts(s, s') && hosts <= ReliedOn(s)
    ensures Held(s', hosts, x)
    ensures x in ReliedOn(s) ==> forall y :: FeedsFrom(s.links, x, y) ==> FeedsFrom(s'.links, x, y)
  {
  }

  lemma FollowersDrift(s: Sys, s': Sys, hosts: set<Host>, x: Host)
    requires Drifts(s, s') && hosts <= ReliedOn(s)
    ensures forall h :: h in hosts && FeedsFrom(s.links, h, x) ==> FeedsFrom(s'.links, h, x)
    ensures x in ReliedOn(s) && x in s.links.paused ==> x in s'.links.paused
  {
  }

  lemma HeldSaved(s: Sys, hosts: set<Host>, x: Host)
    requires Held(s, hosts, x)
    ensures forall mgr, plan, progress :: Held(s.(mgr := mgr, plan := plan, progress := progress), hosts, x)
    ensures forall mgr, h :: Held(s.(dcsMaster := h, mgr := mgr), hosts, x)
  {
  }

  lemma HeldOpened(s: Sys, hosts: set<Host>, x: Host)
    requires Held(s, hosts, x)
    ensures forall forked :: Held(s.(readOnly := s.readOnly - {x}, forked := forked), hosts, x)
    ensures forall n :: Held(s.(toWrite := n), hosts, x)
  {
  }

  lemma HeldManaged(s: Sys, mgr: Manager, hosts: set<Host>, x: Host)
    requires Held(s, hosts, x)
    ensures Held(s.(mgr := mgr), hosts, x)
  {
  }

  /** What is done to x itself does not concern the hosts held for it. */
  lemma HeldRelinked(s: Sys, hosts: set<Host>, x: Host, source: Host)
    requires Held(s, hosts, x)
    ensures forall ack :: Held(s.(links := Attach(s.links, x, source), ack := ack), hosts, x)
    ensures Held(s.(links := ResumeLink(s.links, x)), hosts, x)
  {
  }

  lemma DriftsNowhere(s: Sys)
    ensures Drifts(s, s)
  {
  }
}
