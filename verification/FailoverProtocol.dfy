// The failover protocol as a state machine: the old master and its replicas keep
// writing, replicating and acknowledging while the manager walks through the
// phases of performSwitchover, crashes, resumes, fails and starts over.
//
// One epoch is modelled: c.master is the master the switchover replaces, c.active
// the DCS list it is judged by, and every log starts as a prefix of its log.

module FailoverProtocol {
  import opened Quorum
  import opened Wrappers

  type Host = string
  type Entry = int

  datatype Config = Config(
    hosts: set<Host>, master: Host, active: set<Host>,
    quorum: set<Host>, toWrite: nat,        // quorum-replicas and quorum-replicas-to-write of the master
    auto: bool, from: Host)                 // the switchover record

  ghost predicate ValidConfig(c: Config) {
    && c.master in c.active && c.active <= c.hosts
    && c.quorum <= c.active - {c.master}
    && c.toWrite >= NumReplicasToWrite(|c.active|)
  }

  /** What the code relies on without checking it. Dropping any one of them loses
      acknowledged writes; FailoverCounterexamples shows how. The second and the third
      are needed until the promotion; with `quietAfterwards` they go on to hold after it. */
  datatype Trust = Trust(
    trueSnapshots: bool,     // phase 3 reads the true offset of every host it has just stopped
    linksStayDown: bool,     // a host whose pause was skipped does not get its link back
    staysStopped: bool,      // no daemon repairs a host that the attempt counts as stopped
    repointFirst: bool,      // the manager resumes a stopped host only after its new source is in place
    recentAnswers: bool,     // a resumed run that sees equal offsets has seen a true most recent one
    quietAfterwards: bool)   // links stay down and hosts stay stopped after the promotion as well

  const FullTrust := Trust(true, true, true, true, true, true)

  /** Everything but the last: what is needed up to the promotion. */
  ghost predicate Trusted(t: Trust) {
    t.trueSnapshots && t.linksStayDown && t.staysStopped && t.repointFirst && t.recentAnswers
  }

  datatype Progress = Progress(phase: nat, mostRecent: Host, newMaster: Host)

  /** What phase 3 decided on: a ghost record that outlives crashes. It is released when
      its new master has been promoted and the stopped hosts may do as they like again. */
  datatype Plan = Plan(mostRecent: Host, newMaster: Host, frozen: set<Host>, floor: nat, committed: bool, released: bool)

  /** The manager's local variables, by the point it has reached. */
  datatype Manager =
    | Idle
    | Fencing(act: set<Host>, needed: nat, closed: set<Host>, stopped: set<Host>)
    | Selecting(alive: set<Host>)
    | Snapped(alive: set<Host>, offsets: map<Host, nat>)
    | Abandoning
    | CatchingUp(alive: set<Host>, offsets: map<Host, nat>, mostRecent: Host, newMaster: Host,
                 goal: Option<nat>, own: Option<nat>)
    | Promoting(alive: set<Host>, newMaster: Host, saved: bool, named: bool)   // phase 5 on record; in the DCS
    | Turning(alive: set<Host>, newMaster: Host, psync: Option<set<Host>>)

  datatype Links = Links(
    src: map<Host, Host>,       // the host a replica replicates from; masters are absent
    up: set<Host>,              // replicas whose link to their source is up
    paused: set<Host>,
    pinned: set<Host>)          // hosts whose pause was skipped because their link was down

  datatype Sys = Sys(
    log: map<Host, seq<Entry>>,
    links: Links,
    readOnly: set<Host>,
    ack: map<Host, nat>,        // the offset the old master has seen acknowledged
    acked: nat,                 // the highest offset a WAITQUORUM has returned for
    toWrite: nat,               // quorum-replicas-to-write of the new master
    dcsMaster: Host,
    dcsActive: set<Host>,
    progress: Option<Progress>,
    mgr: Manager,
    plan: Option<Plan>,
    sealed: Option<nat>,        // what had been acknowledged when the first plan was released
    forked: bool,               // a host other than the old master may have written
    finished: bool)

  predicate FeedsFrom(l: Links, h: Host, x: Host) {
    h in l.src && l.src[h] == x
  }

  /** Nothing can be added to the log of this replica. */
  predicate Stuck(l: Links, h: Host) {
    h !in l.src || h in l.paused || (h in l.pinned && h !in l.up)
  }

  predicate Flows(s: Sys, h: Host) {
    && h in s.links.src && s.links.src[h] in s.log && h in s.log
    && h in s.links.up && h !in s.links.paused
  }

  function SourceLog(s: Sys, h: Host): seq<Entry>
    requires Flows(s, h)
  {
    s.log[s.links.src[h]]
  }

  function LogLen(log: map<Host, seq<Entry>>, h: Host): nat {
    if h in log then |log[h]| else 0
  }

  function OffsetOf(offsets: map<Host, nat>, h: Host): nat {
    if h in offsets then offsets[h] else 0
  }

  /** findMostRecentNode: a host with the largest offset, or no host when all are zero. */
  predicate IsMostRecent(offsets: map<Host, nat>, h: Host) {
    && (h != "" ==> OffsetOf(offsets, h) > 0)
    && forall x :: x in offsets ==> offsets[x] <= OffsetOf(offsets, h)
  }

  /** The hosts that the manager takes for stopped at this point. */
  function CountedOn(mgr: Manager): set<Host> {
    match mgr
    case Idle => {}
    case Fencing(_, _, _, stopped) => stopped
    case Selecting(alive) => alive
    case Snapped(alive, _) => alive
    case Abandoning => {}
    case CatchingUp(alive, _, _, _, _, _) => alive
    case Promoting(alive, _, _, _) => alive
    case Turning(alive, _, _) => alive
  }

  /** What a new master owes its clients: everything acknowledged so far, or by the first
      promotion if the hosts it had stopped have been let go since. */
  function Due(s: Sys): nat {
    if s.sealed.Some? then s.sealed.value else s.acked
  }

  predicate Released(s: Sys) {
    s.plan.Some? && s.plan.value.released
  }

  /** The hosts whose standstill the attempt, or the plan it left behind, depends on. */
  function ReliedOn(s: Sys): set<Host> {
    if Released(s) then {}
    else CountedOn(s.mgr) + if s.plan.Some? then s.plan.value.frozen + {s.plan.value.newMaster} else {}
  }

  function Acknowledging(quorum: set<Host>, ack: map<Host, nat>, offset: nat): set<Host> {
    set r | r in quorum && r in ack && ack[r] >= offset
  }

  /** No replica is ahead of the host it replicates from. */
  predicate Settled(src: map<Host, Host>, log: map<Host, seq<Entry>>) {
    forall h :: h in src && h in log && src[h] in log ==> log[h] <= log[src[h]]
  }

  /** Every host but the old master is read-only. */
  predicate ReplicasClosed(c: Config, readOnly: set<Host>) {
    forall h :: h in c.hosts && h != c.master ==> h in readOnly
  }

  /** What the hosts do on their own, and the one DCS write other ticks can make. */
  datatype ShardAction =
    | Write(h: Host, e: Entry)
    | Stream(h: Host, n: nat)
    | Resync(h: Host)
    | Ack(h: Host, n: nat)
    | WaitQuorum(w: nat)
    | LinkDown(h: Host)
    | LinkUp(h: Host)
    | SelfRepair(h: Host)
    | FixDcsMaster(h: Host)

  /** Starting, phases 1 and 2, the phase 3 snapshot, and every way to stop. */
  datatype FenceAction =
    | Crash
    | Start
    | CloseWrites(h: Host, ok: bool)
    | StopReplication(h: Host, ok: bool)
    | SkipStop(h: Host)
    | CountAlive
    | Snapshot(offsets: map<Host, nat>)
    | Fail(reset: bool)

  /** Phase 3 and phase 4. */
  datatype DecideAction =
    | Choose(mostRecent: Host, newMaster: Host)
    | Recall
    | Abandon
    | ResumeOne(h: Host)
    | PauseRecent
    | Repoint
    | Resume
    | ReadGoal
    | ReadOwn
    | CaughtUp
    | SkipCatchUp

  /** Phase 5 and phase 6. */
  datatype CommitAction =
    | SaveFive
    | SetDcsMaster(h: Host)
    | SetToWrite(v: nat)
    | OpenEarly
    | Turn(h: Host)
    | BlindTurn(h: Host)
    | Promote(h: Host)
    | SaveSix
    | SetActive(psync: set<Host>)
    | OpenWrites
    | ResumeMaster
    | Finish

  datatype Action = Shard(e: ShardAction) | Fence(f: FenceAction) | Decide(d: DecideAction) | Commit(x: CommitAction)

  predicate ShardEnabled(c: Config, t: Trust, s: Sys, a: ShardAction) {
    match a
    case Write(h, _) => h in c.hosts && h in s.log && h !in s.links.src && h !in s.readOnly
    case Stream(h, n) => Flows(s, h) && s.log[h] <= SourceLog(s, h) && |s.log[h]| <= n <= |SourceLog(s, h)|
    case Resync(h) => Flows(s, h)
    case Ack(h, n) => FeedsFrom(s.links, h, c.master) && h in s.ack && n <= LogLen(s.log, h)
    case WaitQuorum(w) => w <= LogLen(s.log, c.master) && |Acknowledging(c.quorum, s.ack, w)| >= c.toWrite
    case LinkDown(h) => true
    case LinkUp(h) => h in s.links.src && (h !in s.links.pinned || Released(s)) && h !in s.links.paused
    case SelfRepair(h) =>
      && h in s.links.src && h in s.ack && (t.staysStopped ==> h !in ReliedOn(s))
      && (s.dcsMaster == c.master || (Released(s) && s.dcsMaster == s.plan.value.newMaster && h != s.dcsMaster))
    case FixDcsMaster(h) => h in c.hosts && h !in s.links.src
  }

  predicate FenceEnabled(c: Config, t: Trust, s: Sys, a: FenceAction) {
    match a
    case Crash => true
    case Start =>
      && s.mgr.Idle? && !s.finished
      && (s.progress.None? ==>
            Settled(s.links.src, s.log) && ReplicasClosed(c, s.readOnly) && s.dcsActive == c.active && !s.forked)
    case CloseWrites(h, _) => s.mgr.Fencing? && h in s.mgr.act
    case StopReplication(h, _) => s.mgr.Fencing? && h in s.mgr.act
    case SkipStop(h) => s.mgr.Fencing? && h in s.mgr.act && (h !in s.links.src || h !in s.links.up)
    case CountAlive => s.mgr.Fencing? && |s.mgr.closed * s.mgr.stopped| >= s.mgr.needed
    case Snapshot(offsets) =>
      && s.mgr.Selecting? && s.progress.Some?
      && offsets.Keys == c.hosts
      && (forall h :: h in offsets ==> offsets[h] <= LogLen(s.log, h))
      && (t.trueSnapshots ==> forall h :: h in s.mgr.alive && h in offsets ==> offsets[h] == LogLen(s.log, h))
      && (t.recentAnswers && s.progress.value.phase == 3 && s.progress.value.newMaster != s.progress.value.mostRecent
          && OffsetOf(offsets, s.progress.value.newMaster) == OffsetOf(offsets, s.progress.value.mostRecent) ==>
            OffsetOf(offsets, s.progress.value.mostRecent) == LogLen(s.log, s.progress.value.mostRecent))
    case Fail(_) => !s.mgr.Idle?
  }

  predicate DecideEnabled(c: Config, t: Trust, s: Sys, a: DecideAction) {
    match a
    case Choose(mostRecent, newMaster) =>
      && s.mgr.Snapped? && s.progress.Some? && s.progress.value.phase < 3
      && IsMostRecent(s.mgr.offsets, mostRecent)
      && newMaster in c.hosts && newMaster != c.master
    case Recall => s.mgr.Snapped? && s.progress.Some? && s.progress.value.phase >= 3
    case Abandon => s.mgr.Snapped? && s.progress.Some? && s.progress.value.phase < 3
    case ResumeOne(h) => s.mgr.Abandoning?
    case PauseRecent => s.mgr.CatchingUp?
    case Repoint => s.mgr.CatchingUp? && s.mgr.mostRecent in c.hosts && s.mgr.mostRecent != s.mgr.newMaster
    case Resume => s.mgr.CatchingUp? && (t.repointFirst ==> FeedsFrom(s.links, s.mgr.newMaster, s.mgr.mostRecent))
    case ReadGoal => s.mgr.CatchingUp?
    case ReadOwn => s.mgr.CatchingUp?
    case CaughtUp => s.mgr.CatchingUp? && s.mgr.goal.Some? && s.mgr.own.Some? && s.mgr.goal.value <= s.mgr.own.value
    case SkipCatchUp => s.mgr.CatchingUp? && SameOffset(s.mgr.offsets, s.mgr.newMaster, s.mgr.mostRecent)
  }

  predicate CommitEnabled(c: Config, t: Trust, s: Sys, a: CommitAction) {
    match a
    case SaveFive => s.mgr.Promoting? && !s.mgr.saved && s.progress.Some? && s.progress.value.phase != 6
    case SetDcsMaster(h) => s.mgr.Promoting? && s.mgr.saved && h == s.mgr.newMaster
    case SetToWrite(v) =>
      || (s.mgr.Promoting? && s.mgr.named && v == NumReplicasToWrite(|s.mgr.alive|))
      || (s.mgr.Turning? && s.mgr.psync.Some? && v == NumReplicasToWrite(|s.mgr.psync.value|) && v > s.toWrite)
    case OpenEarly => s.mgr.Promoting? && s.mgr.named && |s.mgr.alive| == 1
    case Turn(h) =>
      && ((s.mgr.Promoting? && s.mgr.named && h in s.mgr.alive)
          || (s.mgr.Turning? && s.mgr.psync.Some? && h in s.mgr.psync.value))
      && h != s.mgr.newMaster && h != c.master && h in s.log && s.mgr.newMaster in s.log
      && (s.log[h] <= s.log[s.mgr.newMaster] || Released(s))
    case BlindTurn(h) => s.mgr.Promoting? && s.mgr.named && h in s.mgr.alive && !t.repointFirst
    case Promote(h) => s.mgr.Promoting? && s.mgr.named && h == s.mgr.newMaster
    case SaveSix =>
      && s.mgr.Promoting? && s.mgr.newMaster !in s.links.src && s.progress.Some?
      && (s.mgr.named || s.progress.value.phase == 6)
    case SetActive(psync) =>
      && s.mgr.Turning? && s.mgr.newMaster in psync && psync <= s.mgr.alive + {s.mgr.newMaster}
    case OpenWrites =>
      && s.mgr.Turning? && s.mgr.psync.Some? && s.dcsActive == s.mgr.psync.value
      && s.toWrite >= NumReplicasToWrite(|s.dcsActive|)
    case ResumeMaster => s.mgr.Turning?
    case Finish => s.mgr.Turning?
  }

  predicate Enabled(c: Config, t: Trust, s: Sys, a: Action) {
    match a
    case Shard(a) => ShardEnabled(c, t, s, a)
    case Fence(a) => FenceEnabled(c, t, s, a)
    case Decide(a) => DecideEnabled(c, t, s, a)
    case Commit(a) => CommitEnabled(c, t, s, a)
  }

  predicate SameOffset(offsets: map<Host, nat>, newMaster: Host, mostRecent: Host) {
    newMaster == mostRecent || OffsetOf(offsets, newMaster) == OffsetOf(offsets, mostRecent)
  }

  function PauseLink(l: Links, h: Host): Links {
    l.(paused := l.paused + {h}, up := l.up - {h})
  }

  function ResumeLink(l: Links, h: Host): Links {
    l.(paused := l.paused - {h})
  }

  /** Attaching h to a new source drops its old connection. */
  function Attach(l: Links, h: Host, x: Host): Links {
    l.(src := l.src[h := x], up := l.up - {h}, pinned := l.pinned - {h})
  }

  function Detach(l: Links, h: Host): Links {
    l.(src := l.src - {h}, up := l.up - {h})
  }

  function ShardApply(c: Config, t: Trust, s: Sys, a: ShardAction): Sys
    requires ShardEnabled(c, t, s, a)
  {
    match a
    case Write(h, e) => s.(log := s.log[h := s.log[h] + [e]])
    case Stream(h, n) => s.(log := s.log[h := SourceLog(s, h)[..n]])
    case Resync(h) => s.(log := s.log[h := SourceLog(s, h)])
    case Ack(h, n) => s.(ack := s.ack[h := n])
    case WaitQuorum(w) => s.(acked := if w > s.acked then w else s.acked)
    case LinkDown(h) => s.(links := s.links.(up := s.links.up - {h}))
    case LinkUp(h) => s.(links := s.links.(up := s.links.up + {h}))
    case SelfRepair(h) =>
      if FeedsFrom(s.links, h, s.dcsMaster) then s.(links := ResumeLink(s.links, h))
      else s.(links := ResumeLink(Attach(s.links, h, s.dcsMaster), h), ack := s.ack[h := 0])
    case FixDcsMaster(h) => s.(dcsMaster := h)
  }

  function FenceApply(c: Config, t: Trust, s: Sys, a: FenceAction): Sys
    requires FenceEnabled(c, t, s, a)
  {
    match a
    case Crash => s.(mgr := Idle)
    case Start =>
      var act := if c.auto && c.from == s.dcsMaster then s.dcsActive - {s.dcsMaster} else s.dcsActive;
      var s' := s.(mgr := Fencing(act, FailoverQuorum(|s.dcsActive|), {}, {}));
      if s.progress.None? then
        s'.(progress := Some(Progress(1, "", "")), plan := None, links := s.links.(pinned := {}))
      else s'
    case CloseWrites(h, ok) =>
      s.(readOnly := s.readOnly + {h}, mgr := s.mgr.(closed := if ok then s.mgr.closed + {h} else s.mgr.closed))
    case StopReplication(h, ok) =>
      s.(links := PauseLink(s.links, h),
      mgr := s.mgr.(stopped := if ok then s.mgr.stopped + {h} else s.mgr.stopped))
    case SkipStop(h) =>
      s.(links := if t.linksStayDown then s.links.(pinned := s.links.pinned + {h}) else s.links,
      mgr := s.mgr.(stopped := s.mgr.stopped + {h}))
    case CountAlive => s.(mgr := Selecting(s.mgr.closed * s.mgr.stopped))
    case Snapshot(offsets) => s.(mgr := Snapped(s.mgr.alive, offsets))
    case Fail(reset) => s.(mgr := Idle, progress := if reset then None else s.progress)
  }

  function DecideApply(c: Config, t: Trust, s: Sys, a: DecideAction): Sys
    requires DecideEnabled(c, t, s, a)
  {
    match a
    case Choose(mostRecent, newMaster) =>
      s.(progress := Some(Progress(3, mostRecent, newMaster)),
      plan := Some(Plan(mostRecent, newMaster, s.mgr.alive, OffsetOf(s.mgr.offsets, mostRecent), false, false)),
      mgr := CatchingUp(s.mgr.alive, s.mgr.offsets, mostRecent, newMaster, None, None))
    case Recall =>
      var p := s.progress.value;
      if p.phase < 5 then
        s.(mgr := CatchingUp(s.mgr.alive, s.mgr.offsets, p.mostRecent, p.newMaster, None, None))
      else
        s.(mgr := Promoting(s.mgr.alive, p.newMaster, false, false))
    case Abandon => s.(mgr := Abandoning)
    case ResumeOne(h) => s.(links := ResumeLink(s.links, h))
    case PauseRecent => s.(links := PauseLink(s.links, s.mgr.mostRecent))
    case Repoint =>
      s.(links := Attach(s.links, s.mgr.newMaster, s.mgr.mostRecent), ack := s.ack[s.mgr.newMaster := 0])
    case Resume => s.(links := ResumeLink(s.links, s.mgr.newMaster))
    case ReadGoal => s.(mgr := s.mgr.(goal := Some(LogLen(s.log, s.mgr.mostRecent))))
    case ReadOwn => s.(mgr := s.mgr.(own := Some(LogLen(s.log, s.mgr.newMaster))))
    case CaughtUp => s.(mgr := Promoting(s.mgr.alive, s.mgr.newMaster, false, false))
    case SkipCatchUp => s.(mgr := Promoting(s.mgr.alive, s.mgr.newMaster, false, false))
  }

  function CommitApply(c: Config, t: Trust, s: Sys, a: CommitAction): Sys
    requires CommitEnabled(c, t, s, a)
  {
    match a
    case SaveFive =>
      s.(progress := Some(s.progress.value.(phase := 5)), mgr := s.mgr.(saved := true),
      plan := if s.plan.Some? then Some(s.plan.value.(committed := true)) else s.plan)
    case SetDcsMaster(h) => s.(dcsMaster := h, mgr := s.mgr.(named := true))
    case SetToWrite(v) => s.(toWrite := v)
    case OpenEarly =>
      s.(readOnly := s.readOnly - {s.mgr.newMaster}, forked := s.forked || s.mgr.newMaster !in s.links.src)
    case Turn(h) =>
      s.(links := ResumeLink(Attach(s.links, h, s.mgr.newMaster), h), ack := s.ack[h := 0])
    case BlindTurn(h) => s.(links := ResumeLink(s.links, h))
    case Promote(h) =>
      var s' := s.(links := Detach(s.links, h), forked := s.forked || h !in s.readOnly);
      if t.quietAfterwards || s.plan.None? then s'
      else s'.(sealed := Some(Due(s)), plan := Some(s.plan.value.(released := true)))
    case SaveSix =>
      s.(progress := Some(s.progress.value.(phase := 6)), mgr := Turning(s.mgr.alive, s.mgr.newMaster, None))
    case SetActive(psync) => s.(dcsActive := psync, mgr := s.mgr.(psync := Some(psync)))
    case OpenWrites => s.(readOnly := s.readOnly - {s.mgr.newMaster}, forked := true)
    case ResumeMaster => s.(links := ResumeLink(s.links, s.mgr.newMaster))
    case Finish => s.(mgr := Idle, progress := None, finished := true)
  }

  function Apply(c: Config, t: Trust, s: Sys, a: Action): Sys
    requires Enabled(c, t, s, a)
  {
    match a
    case Shard(a) => ShardApply(c, t, s, a)
    case Fence(a) => FenceApply(c, t, s, a)
    case Decide(a) => DecideApply(c, t, s, a)
    case Commit(a) => CommitApply(c, t, s, a)
  }

  ghost predicate Init(c: Config, s: Sys) {
    && c.master in c.hosts && s.log.Keys == c.hosts && s.ack.Keys == c.hosts
    && s.links.src.Keys == c.hosts - {c.master}
    && (forall h :: h in s.links.src ==> s.links.src[h] == c.master && s.log[h] <= s.log[c.master])
    && (forall h :: h in s.ack ==> s.ack[h] <= LogLen(s.log, h))
    && s.acked == 0 && s.sealed == None && s.links.pinned == {} && !s.forked && !s.finished
    && s.dcsMaster == c.master && s.dcsActive == c.active
    && s.progress == None && s.plan == None && s.mgr == Idle
    && ReplicasClosed(c, s.readOnly)
  }

  ghost predicate Legal(c: Config, t: Trust, s: Sys, run: seq<Action>)
    decreases |run|
  {
    run == [] || (Enabled(c, t, s, run[0]) && Legal(c, t, Apply(c, t, s, run[0]), run[1..]))
  }

  ghost function After(c: Config, t: Trust, s: Sys, run: seq<Action>): Sys
    requires Legal(c, t, s, run)
    decreases |run|
  {
    if run == [] then s else After(c, t, Apply(c, t, s, run[0]), run[1..])
  }

  lemma {:induction false} Extend(c: Config, t: Trust, init: Sys, run: seq<Action>, a: Action)
    requires Legal(c, t, init, run) && Enabled(c, t, After(c, t, init, run), a)
    ensures Legal(c, t, init, run + [a])
    ensures After(c, t, init, run + [a]) == Apply(c, t, After(c, t, init, run), a)
    decreases |run|
  {
    if run == [] {
      assert ([a])[1..] == [];
    } else {
      var next := Apply(c, t, init, run[0]);
      Extend(c, t, next, run[1..], a);
      assert (run + [a])[1..] == run[1..] + [a];
    }
  }

  lemma {:induction false} Shorten(c: Config, t: Trust, init: Sys, run: seq<Action>, a: Action)
    requires Legal(c, t, init, run + [a])
    ensures Legal(c, t, init, run) && Enabled(c, t, After(c, t, init, run), a)
    ensures After(c, t, init, run + [a]) == Apply(c, t, After(c, t, init, run), a)
    decreases |run|
  {
    if run == [] {
      assert (run + [a])[0] == a && (run + [a])[1..] == [];
    } else {
      assert (run + [a])[0] == run[0] && (run + [a])[1..] == run[1..] + [a];
      Shorten(c, t, Apply(c, t, init, run[0]), run[1..], a);
    }
  }

  /** The first n entries of log a are the first n entries of log b. */
  ghost predicate Covered(a: seq<Entry>, b: seq<Entry>, n: nat) {
    n <= |a| && n <= |b| && a[..n] == b[..n]
  }

  /** The old master's first n entries are in the log of host h. */
  ghost predicate Holds(c: Config, s: Sys, h: Host, n: nat) {
    c.master in s.log && h in s.log && Covered(s.log[c.master], s.log[h], n)
  }

  /** Every entry a WAITQUORUM has returned for is in the log of host h. */
  ghost predicate HoldsAcknowledged(c: Config, s: Sys, h: Host) {
    Holds(c, s, h, s.acked)
  }

  // ----- the invariant, over the parts of the state it depends on -----

  type Logs = map<Host, seq<Entry>>

  ghost predicate Shape(c: Config, log: Logs, ackers: set<Host>, src: map<Host, Host>) {
    && log.Keys == c.hosts && ackers == c.hosts && src.Keys <= c.hosts
    && (forall h :: h in src ==> src[h] in c.hosts)
    && c.master !in src
  }

  ghost predicate OneHistory(c: Config, log: Logs) {
    c.master in log && forall h :: h in log ==> log[h] <= log[c.master]
  }

  /** No host but the old master can accept a write. */
  ghost predicate OneWriter(c: Config, src: map<Host, Host>, readOnly: set<Host>) {
    forall h :: h in c.hosts && h != c.master && h !in readOnly ==> h in src
  }

  ghost predicate AcksReceived(c: Config, ack: map<Host, nat>, log: Logs, src: map<Host, Host>) {
    forall h :: h in ack ==> ack[h] <= LogLen(log, h) && (h in src && src[h] != c.master ==> ack[h] == 0)
  }

  /** The replicas that hold every acknowledged write. */
  ghost function Holders(replicas: set<Host>, log: Logs, acked: nat): set<Host> {
    set r | r in replicas && LogLen(log, r) >= acked
  }

  ghost predicate EnoughHolders(c: Config, log: Logs, acked: nat) {
    |Holders(c.active - {c.master}, log, acked)| >= NumReplicasToWrite(|c.active|)
  }

  /** A replica may be ahead of its source, but only of a source with at least n entries. */
  ghost predicate SettledAbove(src: map<Host, Host>, log: Logs, n: nat) {
    forall h :: h in src && h in log && src[h] in log ==> log[h] <= log[src[h]] || n <= |log[src[h]]|
  }

  ghost predicate AllStuck(l: Links, hosts: set<Host>) {
    forall h :: h in hosts ==> Stuck(l, h)
  }

  ghost predicate GoodAlive(c: Config, l: Links, readOnly: set<Host>, alive: set<Host>) {
    && alive <= c.active && |alive| >= FailoverQuorum(|c.active|)
    && AllStuck(l, alive)
    && (c.master in alive ==> c.master in readOnly)
  }

  ghost predicate OffsetsBehind(offsets: map<Host, nat>, log: Logs) {
    forall h :: h in offsets ==> offsets[h] <= LogLen(log, h)
  }

  ghost predicate OffsetsTrue(offsets: map<Host, nat>, log: Logs, hosts: set<Host>) {
    forall h :: h in hosts && h in offsets ==> offsets[h] == LogLen(log, h)
  }

  /** Where the manager can be before phase 3 has decided. */
  ghost predicate Undecided(c: Config, mgr: Manager, log: Logs, l: Links, readOnly: set<Host>) {
    match mgr
    case Idle => true
    case Fencing(act, needed, closed, stopped) =>
      && act <= c.active && needed == FailoverQuorum(|c.active|)
      && closed <= act && stopped <= act && closed <= readOnly
      && AllStuck(l, stopped)
    case Selecting(alive) => GoodAlive(c, l, readOnly, alive)
    case Snapped(alive, offsets) =>
      && GoodAlive(c, l, readOnly, alive) && offsets.Keys == c.hosts
      && OffsetsBehind(offsets, log) && OffsetsTrue(offsets, log, alive)
    case Abandoning => true
    case _ => false
  }

  ghost predicate GoodPlan(c: Config, p: Plan) {
    && p.frozen <= c.active && |p.frozen| >= FailoverQuorum(|c.active|)
    && p.newMaster in c.hosts && p.newMaster != c.master
  }

  /** What the frozen hosts keep true for as long as the plan lives. */
  ghost predicate FrozenQuiet(c: Config, p: Plan, ack: map<Host, nat>, log: Logs, l: Links) {
    forall h :: h in p.frozen && h != c.master && h != p.newMaster && h in ack ==>
                  ack[h] <= p.floor && (FeedsFrom(l, h, c.master) ==> Stuck(l, h) && LogLen(log, h) <= p.floor)
  }

  ghost predicate FrozenMaster(c: Config, p: Plan, log: Logs, readOnly: set<Host>) {
    c.master in p.frozen ==> c.master in readOnly && LogLen(log, c.master) <= p.floor
  }

  /** How the persisted progress and the manager's variables agree with the plan. */
  ghost predicate OnPlan(p: Plan, progress: Option<Progress>, mgr: Manager, promoted: bool, finished: bool) {
    && (progress.Some? ==>
          && progress.value.phase in {3, 5, 6}
          && progress.value.mostRecent == p.mostRecent && progress.value.newMaster == p.newMaster
          && (progress.value.phase >= 5 ==> p.committed)
          && (progress.value.phase == 6 ==> promoted))
    && (!mgr.Idle? ==> progress.Some?)
    && (finished ==> p.committed && mgr.Idle?)
    && (match mgr
        case Abandoning => false
        case CatchingUp(_, _, mostRecent, newMaster, _, _) =>
          mostRecent == p.mostRecent && newMaster == p.newMaster && progress.value.phase == 3
        case Promoting(_, newMaster, saved, named) =>
          newMaster == p.newMaster && (saved ==> progress.value.phase == 5) && (named ==> saved)
        case Turning(_, newMaster, psync) =>
          && newMaster == p.newMaster && progress.value.phase == 6
          && (psync.Some? ==> newMaster in psync.value)
        case _ => true)
  }

  /** Where the new master stands while all logs are prefixes of the old master's. */
  ghost predicate NewMasterOrder(p: Plan, log: Logs, l: Links, due: nat) {
    if p.released then
      SettledAbove(l.src, log, due) && due <= LogLen(log, p.newMaster)
    else if p.newMaster in p.frozen then
      Settled(l.src, log) && (due <= p.floor || due <= LogLen(log, p.newMaster))
    else
      SettledAbove(l.src, log, p.floor) && due <= p.floor
  }

  /** During phase 3 and 4 a frozen new master either replicates from the most recent host or not at all. */
  ghost predicate NewMasterHeld(p: Plan, log: Logs, l: Links) {
    p.newMaster in p.frozen ==>
      FeedsFrom(l, p.newMaster, p.mostRecent) || (Stuck(l, p.newMaster) && LogLen(log, p.newMaster) <= p.floor)
  }

  ghost predicate Reached(p: Plan, log: Logs) {
    p.floor <= LogLen(log, p.newMaster)
  }

  ghost predicate CatchUpSound(p: Plan, log: Logs, progress: Option<Progress>, mgr: Manager) {
    && (p.committed ==> Reached(p, log))
    && (match mgr
        case Snapped(_, offsets) =>
          progress.Some? && progress.value.phase == 3 && SameOffset(offsets, p.newMaster, p.mostRecent) ==> Reached(p, log)
        case CatchingUp(_, offsets, _, _, goal, own) =>
          && (SameOffset(offsets, p.newMaster, p.mostRecent) ==> Reached(p, log))
          && (goal.Some? ==> p.floor <= goal.value)
          && (own.Some? && p.floor <= own.value ==> Reached(p, log))
        case Promoting(_, _, _, _) => Reached(p, log)
        case _ => true)
  }

  /** A released plan has been carried out: its new master follows nobody. */
  ghost predicate LetGo(p: Plan, l: Links, progress: Option<Progress>, sealed: Option<nat>) {
    && p.committed && p.newMaster !in l.src && sealed.Some?
    && (progress.Some? ==> progress.value.phase >= 5)
  }

  ghost predicate United(c: Config, s: Sys, p: Plan) {
    && (!p.released ==> p.floor <= LogLen(s.log, p.mostRecent))
    && NewMasterOrder(p, s.log, s.links, Due(s))
    && (s.progress.Some? && s.progress.value.phase == 3 ==> NewMasterHeld(p, s.log, s.links))
    && CatchUpSound(p, s.log, s.progress, s.mgr)
  }

  /** The plan once the new master writes its own history. */
  ghost predicate Forked(c: Config, s: Sys, p: Plan) {
    && p.committed && p.newMaster !in s.links.src
    && (s.progress.Some? ==> s.progress.value.phase >= 5)
    && c.master in s.log && p.newMaster in s.log && p.newMaster in s.ack
    && Covered(s.log[c.master], s.log[p.newMaster], p.floor)
    && Covered(s.log[c.master], s.log[p.newMaster], Due(s))
    && (!p.released && p.newMaster in p.frozen ==> Covered(s.log[c.master], s.log[p.newMaster], s.ack[p.newMaster]))
  }

  ghost predicate Inv(c: Config, s: Sys) {
    && Shape(c, s.log, s.ack.Keys, s.links.src)
    && s.acked <= LogLen(s.log, c.master) && Due(s) <= s.acked
    && (!s.forked ==>
          && OneHistory(c, s.log) && OneWriter(c, s.links.src, s.readOnly)
          && AcksReceived(c, s.ack, s.log, s.links.src) && EnoughHolders(c, s.log, Due(s)))
    && (match s.plan
        case None =>
          && !s.forked && !s.finished && s.dcsActive == c.active && Settled(s.links.src, s.log)
          && (s.progress.Some? ==> s.progress.value.phase == 1)
          && Undecided(c, s.mgr, s.log, s.links, s.readOnly)
        case Some(p) =>
          && GoodPlan(c, p)
          && (if p.released then LetGo(p, s.links, s.progress, s.sealed)
              else FrozenQuiet(c, p, s.ack, s.log, s.links) && FrozenMaster(c, p, s.log, s.readOnly))
          && OnPlan(p, s.progress, s.mgr, p.newMaster !in s.links.src, s.finished)
          && if s.forked then Forked(c, s, p) else United(c, s, p))
  }
}
