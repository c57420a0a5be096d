// Runs that lose an acknowledged write: one for each thing the code relies on
// without checking it. In each of them exactly one field of Trust is given up.

module FailoverCounterexamples {
  import opened Quorum
  import opened Wrappers
  import opened FailoverProtocol

  /** A legal run after which the manager may promote a host that lacks an entry a
      WAITQUORUM has returned for. */
  ghost predicate Loses(c: Config, t: Trust, init: Sys, run: seq<Action>, h: Host) {
    && ValidConfig(c) && Init(c, init) && Legal(c, t, init, run)
    && CommitEnabled(c, t, After(c, t, init, run), Promote(h))
    && !HoldsAcknowledged(c, After(c, t, init, run), h)
  }

  /** A point of a run: where it started, what has been done and where that led. */
  datatype Point = Point(init: Sys, run: seq<Action>, now: Sys)

  ghost predicate At(c: Config, t: Trust, p: Point) {
    Legal(c, t, p.init, p.run) && After(c, t, p.init, p.run) == p.now
  }

  lemma Begin(c: Config, t: Trust, init: Sys) returns (p: Point)
    ensures At(c, t, p) && p.init == init && p.now == init
  {
    p := Point(init, [], init);
  }

  /** The manager is about to promote h, whose log is too short to hold what has been acknowledged. */
  lemma End(c: Config, t: Trust, p: Point, h: Host)
    requires ValidConfig(c) && Init(c, p.init) && At(c, t, p)
    requires p.now.mgr.Promoting? && p.now.mgr.named && p.now.mgr.newMaster == h
    requires LogLen(p.now.log, h) < p.now.acked
    ensures Loses(c, t, p.init, p.run, h)
  {
  }

  lemma Do(c: Config, t: Trust, p: Point, a: Action) returns (q: Point)
    requires At(c, t, p) && Enabled(c, t, p.now, a)
    ensures At(c, t, q) && q.init == p.init && q.now == Apply(c, t, p.now, a)
  {
    Extend(c, t, p.init, p.run, a);
    q := Point(p.init, p.run + [a], Apply(c, t, p.now, a));
  }

  /** All hosts active, the master m among them, all but m replicas of m. */
  ghost function Initial(c: Config, log: Logs, up: set<Host>): Sys {
    Sys(log, Links(map h | h in c.hosts && h != c.master :: c.master, up, {}, {}), c.hosts,
    map h | h in c.hosts :: 0, 0, 0, c.master, c.active, None, Idle, None, None, false, false)
  }

  lemma InitialIsInit(c: Config, log: Logs, up: set<Host>)
    requires c.master in c.hosts && log.Keys == c.hosts
    requires forall h :: h in log ==> log[h] <= log[c.master]
    ensures Init(c, Initial(c, log, up))
  {
  }

  /** r takes the master's first n entries and acknowledges them. */
  lemma Acknowledge(c: Config, t: Trust, p: Point, r: Host, n: nat) returns (q: Point)
    requires At(c, t, p) && r in p.now.ack && Flows(p.now, r) && FeedsFrom(p.now.links, r, c.master)
    requires p.now.log[r] <= p.now.log[c.master] && |p.now.log[r]| <= n <= |p.now.log[c.master]|
    ensures At(c, t, q) && q.init == p.init
    ensures q.now == p.now.(log := p.now.log[r := p.now.log[c.master][..n]], ack := p.now.ack[r := n])
  {
    hide At;
    q := Do(c, t, p, Shard(Stream(r, n)));
    q := Do(c, t, q, Shard(Ack(r, n)));
  }

  /** A WAITQUORUM for n returns, thanks to the hosts in rs. */
  lemma Return(c: Config, t: Trust, p: Point, rs: set<Host>, n: nat) returns (q: Point)
    requires At(c, t, p) && rs <= c.quorum && |rs| == c.toWrite && p.now.acked <= n <= LogLen(p.now.log, c.master)
    requires forall r :: r in rs ==> r in p.now.ack && p.now.ack[r] >= n
    ensures At(c, t, q) && q.init == p.init && q.now == p.now.(acked := n)
  {
    hide At;
    SubsetSize(rs, Acknowledging(c.quorum, p.now.ack, n));
    q := Do(c, t, p, Shard(WaitQuorum(n)));
  }

  ghost function SkipLink(t: Trust, l: Links, h: Host): Links {
    if t.linksStayDown then l.(pinned := l.pinned + {h}) else l
  }

  /** Phases 1 and 2 on two hosts: both closed, y stopped, x stopped or skipped. */
  lemma FenceTwo(c: Config, t: Trust, p: Point, x: Host, y: Host, skip: bool) returns (q: Point)
    requires At(c, t, p) && p.now.mgr.Fencing? && p.now.mgr.needed == 2 && x != y
    requires x in p.now.mgr.act && y in p.now.mgr.act && p.now.mgr.closed == {} && p.now.mgr.stopped == {}
    requires x in p.now.readOnly && y in p.now.readOnly
    requires skip ==> x !in p.now.links.up
    ensures At(c, t, q) && q.init == p.init
    ensures q.now == p.now.(mgr := Selecting({x, y}),
                            links := PauseLink(if skip then SkipLink(t, p.now.links, x) else PauseLink(p.now.links, x), y))
  {
    hide At;
    q := Do(c, t, p, Fence(CloseWrites(x, true)));
    q := Do(c, t, q, Fence(CloseWrites(y, true)));
    assert p.now.readOnly + {x} + {y} == p.now.readOnly;
    q := Do(c, t, q, Fence(if skip then SkipStop(x) else StopReplication(x, true)));
    q := Do(c, t, q, Fence(StopReplication(y, true)));
    assert q.now.mgr.closed * q.now.mgr.stopped == {x, y};
    q := Do(c, t, q, Fence(CountAlive));
  }

  /** Phase 3 of a first run: a is the most recent host, b the new master. */
  lemma Decides(c: Config, t: Trust, p: Point, offsets: map<Host, nat>, a: Host, b: Host) returns (q: Point)
    requires At(c, t, p) && p.now.mgr.Selecting? && offsets.Keys == c.hosts && OffsetsBehind(offsets, p.now.log)
    requires t.trueSnapshots ==> OffsetsTrue(offsets, p.now.log, p.now.mgr.alive)
    requires p.now.progress == Some(Progress(1, "", "")) && IsMostRecent(offsets, a) && b in c.hosts && b != c.master
    ensures At(c, t, q) && q.init == p.init
    ensures q.now == p.now.(mgr := CatchingUp(p.now.mgr.alive, offsets, a, b, None, None),
                            plan := Some(Plan(a, b, p.now.mgr.alive, OffsetOf(offsets, a), false, false)),
                            progress := Some(Progress(3, a, b)))
  {
    hide At;
    q := Do(c, t, p, Fence(Snapshot(offsets)));
    q := Do(c, t, q, Decide(Choose(a, b)));
  }

  /** Phase 4 is skipped and phase 5 begins. */
  lemma SkipAndSave(c: Config, t: Trust, p: Point) returns (q: Point)
    requires At(c, t, p) && p.now.mgr.CatchingUp? && p.now.progress.Some? && p.now.progress.value.phase == 3
    requires SameOffset(p.now.mgr.offsets, p.now.mgr.newMaster, p.now.mgr.mostRecent)
    ensures At(c, t, q) && q.init == p.init
    ensures q.now.log == p.now.log && q.now.acked == p.now.acked && q.now.ack == p.now.ack && q.now.links == p.now.links
    ensures q.now.plan == if p.now.plan.Some? then Some(p.now.plan.value.(committed := true)) else None
    ensures q.now.mgr == Promoting(p.now.mgr.alive, p.now.mgr.newMaster, true, true)
  {
    hide At;
    q := Do(c, t, p, Decide(SkipCatchUp));
    q := Do(c, t, q, Commit(SaveFive));
    q := Do(c, t, q, Commit(SetDcsMaster(q.now.mgr.newMaster)));
  }

  // ----- three hosts: one acknowledgement is enough, and two hosts must be stopped -----

  ghost function Three(m: Host, a: Host, b: Host): Config {
    Config({m, a, b}, m, {m, a, b}, {a, b}, 1, true, m)
  }

  lemma ThreeValid(m: Host, a: Host, b: Host)
    requires m != a && m != b && a != b
    ensures ValidConfig(Three(m, a, b))
  {
    assert |{m, a, b}| == 3;
  }

  /** An attempt starts, and a and b are fenced. */
  lemma FenceThree(t: Trust, p: Point, m: Host, a: Host, b: Host, skip: bool) returns (q: Point)
    requires m != a && m != b && a != b
    requires At(Three(m, a, b), t, p) && FenceEnabled(Three(m, a, b), t, p.now, Start)
    requires p.now.progress.None? && p.now.dcsMaster == m && p.now.dcsActive == {m, a, b}
    requires a in p.now.readOnly && b in p.now.readOnly
    requires skip ==> a !in p.now.links.up
    ensures At(Three(m, a, b), t, q) && q.init == p.init
    ensures q.now == p.now.(mgr := Selecting({a, b}), progress := Some(Progress(1, "", "")), plan := None,
                            links := p.now.links.(pinned := if skip && t.linksStayDown then {a} else {}, up := p.now.links.up - {a} - {b},
                            paused := if skip then p.now.links.paused + {b} else p.now.links.paused + {a} + {b}))
  {
    hide At;
    q := Do(Three(m, a, b), t, p, Fence(Start));
    assert {m, a, b} - {m} == {a, b} && |{m, a, b}| == 3;
    q := FenceTwo(Three(m, a, b), t, q, a, b, skip);
    assert p.now.links.up - {a} - {b} == q.now.links.up;
  }

  /** The run up to phase 3 when nothing has been acknowledged yet. */
  lemma UpToThree(t: Trust, log: Logs, up: set<Host>, m: Host, a: Host, b: Host, skip: bool) returns (q: Point)
    requires m != a && m != b && a != b && log.Keys == {m, a, b}
    requires forall h :: h in log ==> log[h] <= log[m]
    requires skip ==> a !in up
    ensures At(Three(m, a, b), t, q) && Init(Three(m, a, b), q.init)
    ensures q.now.log == log && q.now.acked == 0 && q.now.ack.Keys == {m, a, b}
    ensures q.now.links.src == map[a := m, b := m] && q.now.dcsMaster == m && q.now.readOnly == {m, a, b}
    ensures q.now.links.pinned == if skip && t.linksStayDown then {a} else {}
    ensures q.now.links.paused == if skip then {b} else {a, b}
    ensures q.now.mgr == Selecting({a, b}) && q.now.progress == Some(Progress(1, "", ""))
  {
    hide At, Init;
    var init := Initial(Three(m, a, b), log, up);
    InitialIsInit(Three(m, a, b), log, up);
    q := Begin(Three(m, a, b), t, init);
    q := FenceThree(t, q, m, a, b, skip);
  }

  /** The run up to phase 3 when a has acknowledged both of the master's entries. */
  lemma UpToThreeAcknowledged(t: Trust, m: Host, a: Host, b: Host) returns (q: Point)
    requires m != a && m != b && a != b
    ensures At(Three(m, a, b), t, q) && Init(Three(m, a, b), q.init)
    ensures q.now.log == map[m := [1, 2], a := [1, 2], b := [1]] && q.now.acked == 2
    ensures q.now.mgr == Selecting({a, b}) && q.now.progress == Some(Progress(1, "", ""))
  {
    hide At, Init;
    var init := Initial(Three(m, a, b), map[m := [1, 2], a := [1, 2], b := [1]], {a, b});
    InitialIsInit(Three(m, a, b), init.log, init.links.up);
    q := Begin(Three(m, a, b), t, init);
    q := Do(Three(m, a, b), t, q, Shard(Ack(a, 2)));
    q := Return(Three(m, a, b), t, q, {a}, 2);
    q := FenceThree(t, q, m, a, b, false);
  }

  /** Without true snapshots: phase 3 reads a stale offset of the only host that holds
      the acknowledged entry. */
  lemma StaleSnapshotLoses(m: Host, a: Host, b: Host) returns (init: Sys, run: seq<Action>)
    requires m != a && m != b && a != b
    ensures Loses(Three(m, a, b), FullTrust.(trueSnapshots := false), init, run, b)
  {
    hide At, Loses, Init, ValidConfig, Enabled, FenceEnabled, Apply;
    var c, t := Three(m, a, b), FullTrust.(trueSnapshots := false);
    ThreeValid(m, a, b);
    var p := UpToThreeAcknowledged(t, m, a, b);
    init := p.init;
    p := Decides(c, t, p, map[m := 0, a := 1, b := 1], b, b);
    p := SkipAndSave(c, t, p);
    End(c, t, p, b);
    run := p.run;
  }

  /** The run up to phase 4 when a and b hold the first of the master's two entries and b
      has been chosen; nothing has been acknowledged. */
  lemma UpToChoice(t: Trust, up: set<Host>, m: Host, a: Host, b: Host, skip: bool) returns (q: Point)
    requires m != a && m != b && a != b && (skip ==> a !in up)
    ensures At(Three(m, a, b), t, q) && Init(Three(m, a, b), q.init)
    ensures q.now.log.Keys == {m, a, b} && q.now.ack.Keys == {m, a, b} && q.now.acked == 0
    ensures q.now.log[m] == [1, 2] && q.now.log[a] == [1] && q.now.log[b] == [1]
    ensures FeedsFrom(q.now.links, a, m) && q.now.dcsMaster == m
    ensures a in q.now.links.paused <==> !skip
    ensures a in q.now.links.pinned <==> skip && t.linksStayDown
    ensures q.now.mgr == CatchingUp({a, b}, map[m := 0, a := 1, b := 1], b, b, None, None)
    ensures q.now.plan == Some(Plan(b, b, {a, b}, 1, false, false)) && q.now.progress == Some(Progress(3, b, b))
  {
    hide At, Init, ValidConfig, Enabled, FenceEnabled, Apply;
    q := UpToThree(t, map[m := [1, 2], a := [1], b := [1]], up, m, a, b, skip);
    q := Decides(Three(m, a, b), t, q, map[m := 0, a := 1, b := 1], b, b);
  }

  /** Without links staying down: a host whose pause was skipped gets its link back after
      the snapshot and acknowledges one more entry. */
  lemma ReturningLinkLoses(m: Host, a: Host, b: Host) returns (init: Sys, run: seq<Action>)
    requires m != a && m != b && a != b
    ensures Loses(Three(m, a, b), FullTrust.(linksStayDown := false), init, run, b)
  {
    hide At, Loses, Init, ValidConfig, Enabled, FenceEnabled, Apply;
    var c, t := Three(m, a, b), FullTrust.(linksStayDown := false);
    ThreeValid(m, a, b);
    var p := UpToChoice(t, {b}, m, a, b, true);
    init := p.init;
    p := LinkUpAndAcknowledge(c, t, p, a);
    p := SkipAndSave(c, t, p);
    End(c, t, p, b);
    run := p.run;
  }

  /** Without stopped hosts staying stopped: the daemon of a stopped host resumes it after
      the snapshot, and it acknowledges one more entry. */
  lemma SelfRepairLoses(m: Host, a: Host, b: Host) returns (init: Sys, run: seq<Action>)
    requires m != a && m != b && a != b
    ensures Loses(Three(m, a, b), FullTrust.(staysStopped := false), init, run, b)
  {
    hide At, Loses, Init, ValidConfig, Enabled, FenceEnabled, Apply;
    var c, t := Three(m, a, b), FullTrust.(staysStopped := false);
    ThreeValid(m, a, b);
    var p := UpToChoice(t, {a, b}, m, a, b, false);
    init := p.init;
    p := RepairSelf(c, t, p, a);
    p := LinkUpAndAcknowledge(c, t, p, a);
    p := SkipAndSave(c, t, p);
    End(c, t, p, b);
    run := p.run;
  }

  /** The daemon of h resumes it as a replica of the old master. */
  lemma RepairSelf(c: Config, t: Trust, p: Point, h: Host) returns (q: Point)
    requires At(c, t, p) && !t.staysStopped && h in p.now.ack
    requires FeedsFrom(p.now.links, h, c.master) && p.now.dcsMaster == c.master
    ensures At(c, t, q) && q.init == p.init && q.now == p.now.(links := ResumeLink(p.now.links, h))
  {
    hide At;
    q := Do(c, t, p, Shard(SelfRepair(h)));
  }

  /** A legal run that ends with a committed new master which lacks an entry a WAITQUORUM
      has returned for. */
  ghost predicate Misses(c: Config, t: Trust, init: Sys, run: seq<Action>, h: Host) {
    && ValidConfig(c) && Init(c, init) && Legal(c, t, init, run)
    && var end := After(c, t, init, run);
       end.plan.Some? && end.plan.value.committed && end.plan.value.newMaster == h && !HoldsAcknowledged(c, end, h)
  }

  /** Without quiet after the promotion: a host whose pause was skipped returns to the
      old master once the new one has been promoted, and acknowledges one more entry. */
  lemma LateLinkMisses(m: Host, a: Host, b: Host) returns (init: Sys, run: seq<Action>)
    requires m != a && m != b && a != b
    ensures Misses(Three(m, a, b), FullTrust.(quietAfterwards := false), init, run, b)
  {
    hide At, Misses, Init, ValidConfig, Enabled, FenceEnabled, Apply;
    var c, t := Three(m, a, b), FullTrust.(quietAfterwards := false);
    ThreeValid(m, a, b);
    var p := UpToChoice(t, {b}, m, a, b, true);
    init := p.init;
    p := SkipAndSave(c, t, p);
    p := Promoted(c, t, p, b);
    p := LinkUpAndAcknowledge(c, t, p, a);
    Missed(c, t, p, b);
    run := p.run;
  }

  /** The promotion of a closed host. */
  lemma Promoted(c: Config, t: Trust, p: Point, h: Host) returns (q: Point)
    requires At(c, t, p) && !t.quietAfterwards && p.now.mgr.Promoting? && p.now.mgr.named && p.now.mgr.newMaster == h
    requires p.now.plan.Some? && p.now.plan.value.committed && p.now.plan.value.newMaster == h
    ensures At(c, t, q) && q.init == p.init
    ensures q.now.log == p.now.log && q.now.ack == p.now.ack && q.now.acked == p.now.acked && q.now.mgr == p.now.mgr
    ensures q.now.links == Detach(p.now.links, h) && q.now.plan == Some(p.now.plan.value.(released := true))
  {
    hide At;
    q := Do(c, t, p, Commit(Promote(h)));
  }

  lemma Missed(c: Config, t: Trust, p: Point, h: Host)
    requires ValidConfig(c) && Init(c, p.init) && At(c, t, p)
    requires p.now.plan.Some? && p.now.plan.value.committed && p.now.plan.value.newMaster == h
    requires LogLen(p.now.log, h) < p.now.acked
    ensures Misses(c, t, p.init, p.run, h)
  {
  }

  /** Without repointing first: the chosen host is resumed although pointing it at the
      most recent host has failed, follows the old master to an entry that is then
      acknowledged, and is cut back by the resync that the next attempt to point it brings. */
  lemma BlindResumeLoses(m: Host, a: Host, b: Host) returns (init: Sys, run: seq<Action>)
    requires m != a && m != b && a != b
    ensures Loses(Three(m, a, b), FullTrust.(repointFirst := false), init, run, b)
  {
    hide At, Loses, Init, ValidConfig, Enabled, FenceEnabled, Apply;
    var c, t := Three(m, a, b), FullTrust.(repointFirst := false);
    ThreeValid(m, a, b);
    var p := UpToThree(t, map[m := [1, 2], a := [1], b := []], {a, b}, m, a, b, false);
    init := p.init;
    p := Decides(c, t, p, map[m := 0, a := 1, b := 0], a, b);
    p := ResumeAndAcknowledge(c, t, p, b);
    p := CatchUpByResync(c, t, p, a, b);
    End(c, t, p, b);
    run := p.run;
  }

  /** The link of r to the old master comes up and r acknowledges all the master has. */
  lemma LinkUpAndAcknowledge(c: Config, t: Trust, p: Point, r: Host) returns (q: Point)
    requires At(c, t, p) && c.toWrite == 1 && r in c.quorum && r in p.now.ack
    requires c.master in p.now.log && r in p.now.log && p.now.log[r] <= p.now.log[c.master]
    requires FeedsFrom(p.now.links, r, c.master) && (r !in p.now.links.pinned || Released(p.now)) && r !in p.now.links.paused
    requires p.now.acked <= |p.now.log[c.master]|
    ensures At(c, t, q) && q.init == p.init && r !in q.now.links.paused
    ensures q.now.log.Keys == p.now.log.Keys
    ensures forall h :: h in p.now.log && h != r ==> q.now.log[h] == p.now.log[h]
    ensures q.now.acked == |p.now.log[c.master]| && q.now.mgr == p.now.mgr && q.now.progress == p.now.progress && q.now.plan == p.now.plan
  {
    hide At;
    q := Do(c, t, p, Shard(LinkUp(r)));
    q := Acknowledge(c, t, q, r, |p.now.log[c.master]|);
    q := Return(c, t, q, {r}, |p.now.log[c.master]|);
  }

  /** b, still a replica of the old master, is resumed and acknowledges all the master has. */
  lemma ResumeAndAcknowledge(c: Config, t: Trust, p: Point, b: Host) returns (q: Point)
    requires At(c, t, p) && p.now.mgr.CatchingUp? && p.now.mgr.newMaster == b && !t.repointFirst
    requires c.toWrite == 1 && b in c.quorum && b in p.now.ack && c.master in p.now.log && b in p.now.log
    requires FeedsFrom(p.now.links, b, c.master) && b !in p.now.links.pinned && p.now.log[b] <= p.now.log[c.master]
    requires p.now.acked <= |p.now.log[c.master]|
    ensures At(c, t, q) && q.init == p.init && b !in q.now.links.paused
    ensures q.now.log.Keys == p.now.log.Keys
    ensures forall h :: h in p.now.log && h != b ==> q.now.log[h] == p.now.log[h]
    ensures q.now.acked == |p.now.log[c.master]| && q.now.mgr == p.now.mgr && q.now.progress == p.now.progress
  {
    hide At;
    q := Do(c, t, p, Decide(Resume));
    q := LinkUpAndAcknowledge(c, t, q, b);
  }

  /** b is pointed at a, resynchronised from it and declared caught up. */
  lemma CatchUpByResync(c: Config, t: Trust, p: Point, a: Host, b: Host) returns (q: Point)
    requires At(c, t, p) && p.now.mgr.CatchingUp? && p.now.mgr.mostRecent == a && p.now.mgr.newMaster == b
    requires a != b && a in c.hosts && a in p.now.log && b in p.now.log && b !in p.now.links.paused
    requires p.now.progress.Some? && p.now.progress.value.phase == 3
    ensures At(c, t, q) && q.init == p.init
    ensures q.now.log == p.now.log[b := p.now.log[a]] && q.now.acked == p.now.acked
    ensures q.now.mgr == Promoting(p.now.mgr.alive, b, true, true)
  {
    hide At;
    q := Do(c, t, p, Decide(Repoint));
    q := Do(c, t, q, Shard(LinkUp(b)));
    q := Do(c, t, q, Shard(Resync(b)));
    q := Do(c, t, q, Decide(ReadGoal));
    q := Do(c, t, q, Decide(ReadOwn));
    q := Do(c, t, q, Decide(CaughtUp));
    q := Do(c, t, q, Commit(SaveFive));
    q := Do(c, t, q, Commit(SetDcsMaster(q.now.mgr.newMaster)));
  }

  // ----- four hosts: two acknowledgements are enough, and two hosts must be stopped -----

  ghost function Four(m: Host, a: Host, b: Host, d: Host): Config {
    Config({m, a, b, d}, m, {m, a, b, d}, {a, b, d}, 2, true, m)
  }

  ghost predicate Distinct(m: Host, a: Host, b: Host, d: Host) {
    m != a && m != b && m != d && a != b && a != d && b != d
  }

  ghost function FourLogs(m: Host, a: Host, b: Host, d: Host): Logs {
    map[m := [1], a := [1], b := [], d := [1]]
  }

  lemma FourValid(m: Host, a: Host, b: Host, d: Host)
    requires Distinct(m, a, b, d)
    ensures ValidConfig(Four(m, a, b, d)) && |{m, a, b, d}| == 4 && {m, a, b, d} - {m} == {a, b, d}
  {
    assert |{m, a, b, d}| == 4;
  }

  /** a and d hold the master's only entry, acknowledge it, and a WAITQUORUM returns. */
  lemma AcknowledgeBoth(t: Trust, m: Host, a: Host, b: Host, d: Host) returns (q: Point)
    requires Distinct(m, a, b, d)
    ensures var c := Four(m, a, b, d);
            var init := Initial(c, FourLogs(m, a, b, d), {a, b, d});
            && At(c, t, q) && q.init == init
            && q.now == init.(ack := init.ack[a := 1][d := 1], acked := 1)
  {
    hide At, Init, ValidConfig;
    var c := Four(m, a, b, d);
    q := Begin(c, t, Initial(c, FourLogs(m, a, b, d), {a, b, d}));
    q := Do(c, t, q, Shard(Ack(a, 1)));
    q := Do(c, t, q, Shard(Ack(d, 1)));
    assert |{a, d}| == 2;
    q := Return(c, t, q, {a, d}, 1);
  }

  /** The same, and then an attempt starts. */
  lemma AcknowledgeAndStart(t: Trust, m: Host, a: Host, b: Host, d: Host) returns (q: Point)
    requires Distinct(m, a, b, d)
    ensures At(Four(m, a, b, d), t, q) && Init(Four(m, a, b, d), q.init)
    ensures q.now.log == FourLogs(m, a, b, d) && q.now.acked == 1 && q.now.readOnly == {m, a, b, d}
    ensures q.now.dcsMaster == m && q.now.dcsActive == {m, a, b, d} && !q.now.finished
    ensures q.now.progress == Some(Progress(1, "", "")) && q.now.mgr == Fencing({a, b, d}, 2, {}, {})
  {
    hide At, Init, ValidConfig;
    var c := Four(m, a, b, d);
    q := AcknowledgeBoth(t, m, a, b, d);
    InitialIsInit(c, q.init.log, q.init.links.up);
    q := Do(c, t, q, Fence(Start));
    FourValid(m, a, b, d);
  }

  /** b and d are fenced by a second run, which recalls that a was the most recent host
      and b is to be the new master. */
  lemma CrashAndRecall(t: Trust, p: Point, m: Host, a: Host, b: Host, d: Host) returns (q: Point)
    requires Distinct(m, a, b, d) && At(Four(m, a, b, d), t, p)
    requires p.now.log == FourLogs(m, a, b, d) && p.now.readOnly == {m, a, b, d} && !t.recentAnswers
    requires p.now.dcsMaster == m && p.now.dcsActive == {m, a, b, d} && !p.now.finished
    requires p.now.progress == Some(Progress(3, a, b))
    ensures At(Four(m, a, b, d), t, q) && q.init == p.init
    ensures q.now.log == p.now.log && q.now.acked == p.now.acked && q.now.progress == p.now.progress
    ensures q.now.mgr == CatchingUp({b, d}, map[m := 0, a := 0, b := 0, d := 1], a, b, None, None)
  {
    hide At, Init, ValidConfig, ShardEnabled, ShardApply, CommitEnabled, CommitApply;
    var c := Four(m, a, b, d);
    q := Do(c, t, p, Fence(Crash));
    q := Do(c, t, q, Fence(Start));
    FourValid(m, a, b, d);
    q := FenceTwo(c, t, q, b, d, false);
    q := Do(c, t, q, Fence(Snapshot(map[m := 0, a := 0, b := 0, d := 1])));
    q := Do(c, t, q, Decide(Recall));
  }

  /** Without an answer from the recorded most recent host: the manager crashes right
      after phase 3; the resumed run reaches neither that host nor anything newer of the
      chosen one, sees two equal zero offsets and skips the catch-up. */
  lemma UnreachableRecentLoses(m: Host, a: Host, b: Host, d: Host) returns (init: Sys, run: seq<Action>)
    requires Distinct(m, a, b, d)
    ensures Loses(Four(m, a, b, d), FullTrust.(recentAnswers := false), init, run, b)
  {
    hide At, Loses, Init, ValidConfig, Enabled, FenceEnabled, Apply;
    var c, t := Four(m, a, b, d), FullTrust.(recentAnswers := false);
    FourValid(m, a, b, d);
    var p := AcknowledgeAndStart(t, m, a, b, d);
    init := p.init;
    p := FenceTwo(c, t, p, a, b, false);
    p := Decides(c, t, p, map[m := 0, a := 1, b := 0, d := 0], a, b);
    p := CrashAndRecall(t, p, m, a, b, d);
    p := SkipAndSave(c, t, p);
    End(c, t, p, b);
    run := p.run;
  }
}
