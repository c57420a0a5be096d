// What holds over every run of the failover protocol.

module FailoverSafety {
  import opened Quorum
  import opened Wrappers
  import opened FailoverProtocol
  import opened FailoverInvariant

  // ----- actions that move no log and no acknowledgement -----

  lemma LinkDownStep(c: Config, t: Trust, s: Sys, a: ShardAction)
    requires Trusted(t)
    requires ValidConfig(c) && Inv(c, s) && a.LinkDown? && ShardEnabled(c, t, s, a)
    ensures Inv(c, ShardApply(c, t, s, a))
  {
  }

  lemma LinkUpStep(c: Config, t: Trust, s: Sys, a: ShardAction)
    requires Trusted(t)
    requires ValidConfig(c) && Inv(c, s) && a.LinkUp? && ShardEnabled(c, t, s, a)
    ensures Inv(c, ShardApply(c, t, s, a))
  {
    hide OneHistory, OneWriter, AcksReceived, EnoughHolders, Settled, SettledAbove, CatchUpSound, Covered, GoodPlan, FrozenMaster, OnPlan, Shape;
    match s.plan
    case None =>
    case Some(p) =>
      if s.forked {
      }
  }

  /** Every host but h stands and follows as before. */
  ghost predicate OnlyMoved(l: Links, l': Links, h: Host) {
    && (forall x :: x != h && Stuck(l, x) ==> Stuck(l', x))
    && (forall x, y :: x != h ==> (FeedsFrom(l', x, y) <==> FeedsFrom(l, x, y)))
  }

  lemma RelinkMovesOne(l: Links, h: Host, x: Host)
    requires h in l.src
    ensures OnlyMoved(l, ResumeLink(l, h), h) && OnlyMoved(l, Attach(l, h, x), h)
    ensures Attach(l, h, x).src.Keys == l.src.Keys
  {
  }

  /** The same replicas, still below known hosts. */
  ghost predicate SameReplicas(c: Config, s: Sys, links: Links, ack: map<Host, nat>) {
    && links.src.Keys == s.links.src.Keys && ack.Keys == s.ack.Keys
    && forall h :: h in links.src ==> links.src[h] in c.hosts
  }

  /** The invariant after links have moved that no attempt relies on, from its parts. */
  lemma RelinkedUndecided(c: Config, s: Sys, links: Links, ack: map<Host, nat>)
    requires Inv(c, s) && s.plan.None? && SameReplicas(c, s, links, ack)
    requires Settled(links.src, s.log) && AcksReceived(c, ack, s.log, links.src)
    requires forall h :: h in CountedOn(s.mgr) && Stuck(s.links, h) ==> Stuck(links, h)
    ensures Inv(c, s.(links := links, ack := ack))
  {
    hide Settled, AcksReceived, EnoughHolders, OneHistory, Stuck;
    assert Due(s.(links := links, ack := ack)) == Due(s);
  }

  lemma RelinkedOnPlan(c: Config, s: Sys, p: Plan, links: Links, ack: map<Host, nat>)
    requires Inv(c, s) && s.plan == Some(p) && SameReplicas(c, s, links, ack)
    requires !s.forked ==> AcksReceived(c, ack, s.log, links.src) && NewMasterOrder(p, s.log, links, Due(s))
    requires !p.released ==> FrozenQuiet(c, p, ack, s.log, links)
    requires !p.released && p.newMaster in s.ack ==> ack[p.newMaster] == s.ack[p.newMaster]
    requires NewMasterHeld(p, s.log, s.links) ==> NewMasterHeld(p, s.log, links)
    ensures Inv(c, s.(links := links, ack := ack))
  {
    hide AcksReceived, EnoughHolders, OneHistory, NewMasterOrder, FrozenQuiet, FrozenMaster, NewMasterHeld, CatchUpSound, GoodPlan, Covered;
    assert Due(s.(links := links, ack := ack)) == Due(s);
  }

  /** The links of h have changed, and no attempt relies on h. */
  lemma SelfRelinked(c: Config, s: Sys, h: Host, links: Links, ack: map<Host, nat>)
    requires ValidConfig(c) && Inv(c, s) && SameReplicas(c, s, links, ack) && h !in ReliedOn(s)
    requires OnlyMoved(s.links, links, h)
    requires forall x :: x != h && x in s.ack ==> ack[x] == s.ack[x]
    requires !s.forked ==> AcksReceived(c, ack, s.log, links.src)
    requires !s.forked && s.plan.None? ==> Settled(links.src, s.log)
    requires !s.forked && s.plan.Some? ==> NewMasterOrder(s.plan.value, s.log, links, Due(s))
    ensures Inv(c, s.(links := links, ack := ack))
  {
    hide AcksReceived, Settled, NewMasterOrder;
    match s.plan
    case None => RelinkedUndecided(c, s, links, ack);
    case Some(p) =>
      if !p.released {
        SelfQuiet(c, s, p, h, links, ack);
      }
      RelinkedOnPlan(c, s, p, links, ack);
  }

  lemma SelfQuiet(c: Config, s: Sys, p: Plan, h: Host, links: Links, ack: map<Host, nat>)
    requires FrozenQuiet(c, p, s.ack, s.log, s.links) && h !in p.frozen && h != p.newMaster && ack.Keys == s.ack.Keys
    requires OnlyMoved(s.links, links, h)
    requires forall x :: x != h && x in s.ack ==> ack[x] == s.ack[x]
    ensures FrozenQuiet(c, p, ack, s.log, links)
    ensures NewMasterHeld(p, s.log, s.links) ==> NewMasterHeld(p, s.log, links)
  {
  }

  /** A daemon resumes its own host. */
  lemma SelfResumed(c: Config, s: Sys, h: Host)
    requires ValidConfig(c) && Inv(c, s) && h !in ReliedOn(s) && h in s.links.src
    ensures Inv(c, s.(links := ResumeLink(s.links, h)))
  {
    RelinkMovesOne(s.links, h, h);
    SelfRelinked(c, s, h, ResumeLink(s.links, h), s.ack);
    assert s.(links := ResumeLink(s.links, h), ack := s.ack) == s.(links := ResumeLink(s.links, h));
  }

  /** A daemon points its own host at x: at the old master, or at a promoted new one. */
  lemma SelfAttached(c: Config, s: Sys, h: Host, x: Host)
    requires ValidConfig(c) && Inv(c, s) && h in s.links.src && h in s.ack && h !in ReliedOn(s)
    requires x == c.master || (Released(s) && x == s.plan.value.newMaster && h != x)
    ensures Inv(c, s.(links := Attach(s.links, h, x), ack := s.ack[h := 0]))
  {
    hide Inv, Attach, AcksReceived, Settled, NewMasterOrder, SameReplicas, OnlyMoved, ReliedOn, Due;
    SelfAttachedKnown(c, s, h, x);
    if !s.forked {
      SelfAttachedOrder(c, s, h, x);
    }
    RelinkMovesOne(s.links, h, x);
    SelfRelinked(c, s, h, Attach(s.links, h, x), s.ack[h := 0]);
  }

  lemma SelfAttachedKnown(c: Config, s: Sys, h: Host, x: Host)
    requires ValidConfig(c) && Inv(c, s) && h in s.links.src && h in s.ack
    requires x == c.master || (Released(s) && x == s.plan.value.newMaster)
    ensures SameReplicas(c, s, Attach(s.links, h, x), s.ack[h := 0]) && h in s.log && x in s.log
  {
    assert s.ack[h := 0].Keys == s.ack.Keys;
  }

  lemma SelfAttachedOrder(c: Config, s: Sys, h: Host, x: Host)
    requires Inv(c, s) && !s.forked && h in s.ack && h in s.log && x in s.log
    requires x == c.master || (Released(s) && x == s.plan.value.newMaster)
    ensures h in s.ack && AcksReceived(c, s.ack[h := 0], s.log, Attach(s.links, h, x).src)
    ensures s.plan.None? ==> Settled(Attach(s.links, h, x).src, s.log)
    ensures s.plan.Some? ==> NewMasterOrder(s.plan.value, s.log, Attach(s.links, h, x), Due(s))
  {
    AttachKeepsAcks(c, s, h, x);
    assert x == c.master ==> s.log[h] <= s.log[x];
  }

  lemma SelfRepairStep(c: Config, t: Trust, s: Sys, h: Host)
    requires Trusted(t)
    requires ValidConfig(c) && Inv(c, s) && ShardEnabled(c, t, s, SelfRepair(h))
    ensures Inv(c, ShardApply(c, t, s, SelfRepair(h)))
  {
    hide Inv;
    if FeedsFrom(s.links, h, s.dcsMaster) {
      SelfResumed(c, s, h);
    } else {
      SelfAttached(c, s, h, s.dcsMaster);
      SelfResumed(c, s.(links := Attach(s.links, h, s.dcsMaster), ack := s.ack[h := 0]), h);
    }
  }

  lemma FixDcsMasterStep(c: Config, t: Trust, s: Sys, a: ShardAction)
    requires Trusted(t)
    requires ValidConfig(c) && Inv(c, s) && a.FixDcsMaster? && ShardEnabled(c, t, s, a)
    ensures Inv(c, ShardApply(c, t, s, a))
  {
  }

  lemma CrashStep(c: Config, t: Trust, s: Sys, a: FenceAction)
    requires Trusted(t)
    requires ValidConfig(c) && Inv(c, s) && a.Crash? && FenceEnabled(c, t, s, a)
    ensures Inv(c, FenceApply(c, t, s, a))
  {
  }

  lemma StartStep(c: Config, t: Trust, s: Sys, a: FenceAction)
    requires Trusted(t)
    requires ValidConfig(c) && Inv(c, s) && a.Start? && FenceEnabled(c, t, s, a)
    ensures Inv(c, FenceApply(c, t, s, a))
  {
  }

  lemma CloseWritesStep(c: Config, t: Trust, s: Sys, a: FenceAction)
    requires Trusted(t)
    requires ValidConfig(c) && Inv(c, s) && a.CloseWrites? && FenceEnabled(c, t, s, a)
    ensures Inv(c, FenceApply(c, t, s, a))
  {
  }

  lemma StopReplicationStep(c: Config, t: Trust, s: Sys, a: FenceAction)
    requires Trusted(t)
    requires ValidConfig(c) && Inv(c, s) && a.StopReplication? && FenceEnabled(c, t, s, a)
    ensures Inv(c, FenceApply(c, t, s, a))
  {
  }

  lemma SkipStopStep(c: Config, t: Trust, s: Sys, a: FenceAction)
    requires Trusted(t)
    requires ValidConfig(c) && Inv(c, s) && a.SkipStop? && FenceEnabled(c, t, s, a)
    ensures Inv(c, FenceApply(c, t, s, a))
  {
    hide OneHistory, OneWriter, AcksReceived, EnoughHolders, Settled, SettledAbove, Covered, GoodPlan, FrozenMaster, Shape;
    match s.plan
    case None =>
    case Some(p) =>
      if s.forked {
      }
  }

  lemma CountAliveStep(c: Config, t: Trust, s: Sys, a: FenceAction)
    requires Trusted(t)
    requires ValidConfig(c) && Inv(c, s) && a.CountAlive? && FenceEnabled(c, t, s, a)
    ensures Inv(c, FenceApply(c, t, s, a))
  {
  }

  lemma SnapshotStep(c: Config, t: Trust, s: Sys, a: FenceAction)
    requires Trusted(t)
    requires ValidConfig(c) && Inv(c, s) && a.Snapshot? && FenceEnabled(c, t, s, a)
    ensures Inv(c, FenceApply(c, t, s, a))
  {
  }

  lemma FailStep(c: Config, t: Trust, s: Sys, a: FenceAction)
    requires Trusted(t)
    requires ValidConfig(c) && Inv(c, s) && a.Fail? && FenceEnabled(c, t, s, a)
    ensures Inv(c, FenceApply(c, t, s, a))
  {
  }

  lemma RecallStep(c: Config, t: Trust, s: Sys, a: DecideAction)
    requires Trusted(t)
    requires ValidConfig(c) && Inv(c, s) && a.Recall? && DecideEnabled(c, t, s, a)
    ensures Inv(c, DecideApply(c, t, s, a))
  {
    hide OneHistory, OneWriter, AcksReceived, EnoughHolders, Settled, SettledAbove, Covered, GoodPlan, FrozenMaster, FrozenQuiet, Shape, NewMasterOrder, NewMasterHeld;
  }

  lemma AbandonStep(c: Config, t: Trust, s: Sys, a: DecideAction)
    requires Trusted(t)
    requires ValidConfig(c) && Inv(c, s) && a.Abandon? && DecideEnabled(c, t, s, a)
    ensures Inv(c, DecideApply(c, t, s, a))
  {
  }

  lemma ResumeOneStep(c: Config, t: Trust, s: Sys, a: DecideAction)
    requires Trusted(t)
    requires ValidConfig(c) && Inv(c, s) && a.ResumeOne? && DecideEnabled(c, t, s, a)
    ensures Inv(c, DecideApply(c, t, s, a))
  {
  }

  lemma PauseRecentStep(c: Config, t: Trust, s: Sys, a: DecideAction)
    requires Trusted(t)
    requires ValidConfig(c) && Inv(c, s) && a.PauseRecent? && DecideEnabled(c, t, s, a)
    ensures Inv(c, DecideApply(c, t, s, a))
  {
  }

  lemma ResumeStep(c: Config, t: Trust, s: Sys, a: DecideAction)
    requires Trusted(t)
    requires ValidConfig(c) && Inv(c, s) && a.Resume? && DecideEnabled(c, t, s, a)
    ensures Inv(c, DecideApply(c, t, s, a))
  {
  }

  lemma ReadGoalStep(c: Config, t: Trust, s: Sys, a: DecideAction)
    requires Trusted(t)
    requires ValidConfig(c) && Inv(c, s) && a.ReadGoal? && DecideEnabled(c, t, s, a)
    ensures Inv(c, DecideApply(c, t, s, a))
  {
  }

  lemma ReadOwnStep(c: Config, t: Trust, s: Sys, a: DecideAction)
    requires Trusted(t)
    requires ValidConfig(c) && Inv(c, s) && a.ReadOwn? && DecideEnabled(c, t, s, a)
    ensures Inv(c, DecideApply(c, t, s, a))
  {
  }

  lemma CaughtUpStep(c: Config, t: Trust, s: Sys, a: DecideAction)
    requires Trusted(t)
    requires ValidConfig(c) && Inv(c, s) && a.CaughtUp? && DecideEnabled(c, t, s, a)
    ensures Inv(c, DecideApply(c, t, s, a))
  {
  }

  lemma SkipCatchUpStep(c: Config, t: Trust, s: Sys, a: DecideAction)
    requires Trusted(t)
    requires ValidConfig(c) && Inv(c, s) && a.SkipCatchUp? && DecideEnabled(c, t, s, a)
    ensures Inv(c, DecideApply(c, t, s, a))
  {
  }

  lemma SaveFiveStep(c: Config, t: Trust, s: Sys, a: CommitAction)
    requires Trusted(t)
    requires ValidConfig(c) && Inv(c, s) && a.SaveFive? && CommitEnabled(c, t, s, a)
    ensures Inv(c, CommitApply(c, t, s, a))
  {
  }

  lemma SetDcsMasterStep(c: Config, t: Trust, s: Sys, a: CommitAction)
    requires Trusted(t)
    requires ValidConfig(c) && Inv(c, s) && a.SetDcsMaster? && CommitEnabled(c, t, s, a)
    ensures Inv(c, CommitApply(c, t, s, a))
  {
  }

  lemma SetToWriteStep(c: Config, t: Trust, s: Sys, a: CommitAction)
    requires Trusted(t)
    requires ValidConfig(c) && Inv(c, s) && a.SetToWrite? && CommitEnabled(c, t, s, a)
    ensures Inv(c, CommitApply(c, t, s, a))
  {
  }

  lemma SaveSixStep(c: Config, t: Trust, s: Sys, a: CommitAction)
    requires Trusted(t)
    requires ValidConfig(c) && Inv(c, s) && a.SaveSix? && CommitEnabled(c, t, s, a)
    ensures Inv(c, CommitApply(c, t, s, a))
  {
  }

  lemma SetActiveStep(c: Config, t: Trust, s: Sys, a: CommitAction)
    requires Trusted(t)
    requires ValidConfig(c) && Inv(c, s) && a.SetActive? && CommitEnabled(c, t, s, a)
    ensures Inv(c, CommitApply(c, t, s, a))
  {
  }

  lemma ResumeMasterStep(c: Config, t: Trust, s: Sys, a: CommitAction)
    requires Trusted(t)
    requires ValidConfig(c) && Inv(c, s) && a.ResumeMaster? && CommitEnabled(c, t, s, a)
    ensures Inv(c, CommitApply(c, t, s, a))
  {
    hide OneHistory, OneWriter, AcksReceived, EnoughHolders, Settled, SettledAbove, Covered, GoodPlan, FrozenMaster, Shape;
  }

  lemma FinishStep(c: Config, t: Trust, s: Sys, a: CommitAction)
    requires Trusted(t)
    requires ValidConfig(c) && Inv(c, s) && a.Finish? && CommitEnabled(c, t, s, a)
    ensures Inv(c, CommitApply(c, t, s, a))
  {
  }

  lemma TurnStep(c: Config, t: Trust, s: Sys, h: Host)
    requires Trusted(t)
    requires ValidConfig(c) && Inv(c, s) && CommitEnabled(c, t, s, Turn(h))
    ensures Inv(c, CommitApply(c, t, s, Turn(h)))
  {
    if s.forked {
      TurnForked(c, t, s, h);
    } else {
      TurnUnited(c, t, s, h);
    }
  }

  lemma ShardStep(c: Config, t: Trust, s: Sys, a: ShardAction)
    requires Trusted(t)
    requires ValidConfig(c) && Inv(c, s) && ShardEnabled(c, t, s, a)
    ensures Inv(c, ShardApply(c, t, s, a))
  {
    hide Inv;
    match a
    case Write(h, e) => WriteStep(c, t, s, h, e);
    case Stream(h, n) => CopyStep(c, s, h, SourceLog(s, h)[..n]);
    case Resync(h) => CopyStep(c, s, h, SourceLog(s, h));
    case Ack(h, n) => AckStep(c, t, s, h, n);
    case WaitQuorum(w) => WaitQuorumStep(c, t, s, w);
    case LinkDown(_) => LinkDownStep(c, t, s, a);
    case LinkUp(_) => LinkUpStep(c, t, s, a);
    case SelfRepair(h) => SelfRepairStep(c, t, s, h);
    case FixDcsMaster(_) => FixDcsMasterStep(c, t, s, a);
  }

  lemma FenceStep(c: Config, t: Trust, s: Sys, a: FenceAction)
    requires Trusted(t)
    requires ValidConfig(c) && Inv(c, s) && FenceEnabled(c, t, s, a)
    ensures Inv(c, FenceApply(c, t, s, a))
  {
    hide Inv;
    match a
    case Crash => CrashStep(c, t, s, a);
    case Start => StartStep(c, t, s, a);
    case CloseWrites(_, _) => CloseWritesStep(c, t, s, a);
    case StopReplication(_, _) => StopReplicationStep(c, t, s, a);
    case SkipStop(_) => SkipStopStep(c, t, s, a);
    case CountAlive => CountAliveStep(c, t, s, a);
    case Snapshot(_) => SnapshotStep(c, t, s, a);
    case Fail(_) => FailStep(c, t, s, a);
  }

  lemma DecideStep(c: Config, t: Trust, s: Sys, a: DecideAction)
    requires Trusted(t)
    requires ValidConfig(c) && Inv(c, s) && DecideEnabled(c, t, s, a)
    ensures Inv(c, DecideApply(c, t, s, a))
  {
    hide Inv;
    match a
    case Choose(mostRecent, newMaster) => ChooseStep(c, t, s, mostRecent, newMaster);
    case Recall => RecallStep(c, t, s, a);
    case Abandon => AbandonStep(c, t, s, a);
    case ResumeOne(_) => ResumeOneStep(c, t, s, a);
    case PauseRecent => PauseRecentStep(c, t, s, a);
    case Repoint => RepointStep(c, t, s);
    case Resume => ResumeStep(c, t, s, a);
    case ReadGoal => ReadGoalStep(c, t, s, a);
    case ReadOwn => ReadOwnStep(c, t, s, a);
    case CaughtUp => CaughtUpStep(c, t, s, a);
    case SkipCatchUp => SkipCatchUpStep(c, t, s, a);
  }

  lemma CommitStep(c: Config, t: Trust, s: Sys, a: CommitAction)
    requires Trusted(t)
    requires ValidConfig(c) && Inv(c, s) && CommitEnabled(c, t, s, a)
    ensures Inv(c, CommitApply(c, t, s, a))
  {
    hide Inv;
    match a
    case SaveFive => SaveFiveStep(c, t, s, a);
    case SetDcsMaster(_) => SetDcsMasterStep(c, t, s, a);
    case SetToWrite(_) => SetToWriteStep(c, t, s, a);
    case OpenEarly => OpenEarlyStep(c, t, s);
    case Turn(h) => TurnStep(c, t, s, h);
    case BlindTurn(h) =>
    case Promote(h) => PromoteStep(c, t, s, h);
    case SaveSix => SaveSixStep(c, t, s, a);
    case SetActive(_) => SetActiveStep(c, t, s, a);
    case OpenWrites => OpenWritesStep(c, t, s);
    case ResumeMaster => ResumeMasterStep(c, t, s, a);
    case Finish => FinishStep(c, t, s, a);
  }

  lemma Step(c: Config, t: Trust, s: Sys, a: Action)
    requires Trusted(t)
    requires ValidConfig(c) && Inv(c, s) && Enabled(c, t, s, a)
    ensures Inv(c, Apply(c, t, s, a))
  {
    match a
    case Shard(a) => ShardStep(c, t, s, a);
    case Fence(a) => FenceStep(c, t, s, a);
    case Decide(a) => DecideStep(c, t, s, a);
    case Commit(a) => CommitStep(c, t, s, a);
  }

  lemma InitStep(c: Config, s: Sys)
    requires ValidConfig(c) && Init(c, s)
    ensures Inv(c, s)
  {
    assert Holders(c.active - {c.master}, s.log, 0) == c.active - {c.master};
    assert |c.active - {c.master}| == |c.active| - 1;
  }

  /** The invariant holds after every run, however it interleaves the shard, the
      manager, its crashes and its repeated attempts. */
  lemma {:induction false} InvariantHolds(c: Config, t: Trust, s: Sys, run: seq<Action>)
    requires Trusted(t)
    requires ValidConfig(c) && Inv(c, s) && Legal(c, t, s, run)
    ensures Inv(c, After(c, t, s, run))
    decreases |run|
  {
    hide Inv, Enabled, Apply;
    if run != [] {
      Step(c, t, s, run[0]);
      InvariantHolds(c, t, Apply(c, t, s, run[0]), run[1..]);
    }
  }

  // ----- durability -----

  lemma CommittedHolds(c: Config, s: Sys)
    requires ValidConfig(c) && Inv(c, s) && s.plan.Some? && s.plan.value.committed
    ensures Holds(c, s, s.plan.value.newMaster, Due(s))
  {
    if !s.forked {
      ForkPoint(c, s, s.plan.value);
    }
  }

  /** The old master's log and the acknowledged part of it only ever grow. */
  ghost predicate Grows(c: Config, s: Sys, s': Sys) {
    && c.master in s.log && c.master in s'.log && s.log[c.master] <= s'.log[c.master]
    && s.acked <= s'.acked && Due(s) <= Due(s')
  }

  lemma ShardGrows(c: Config, t: Trust, s: Sys, a: ShardAction)
    requires Trusted(t)
    requires c.master in s.log && c.master !in s.links.src
    requires ShardEnabled(c, t, s, a)
    ensures Grows(c, s, ShardApply(c, t, s, a))
  {
  }

  lemma FenceGrows(c: Config, t: Trust, s: Sys, a: FenceAction)
    requires Trusted(t)
    requires c.master in s.log && c.master !in s.links.src
    requires FenceEnabled(c, t, s, a)
    ensures Grows(c, s, FenceApply(c, t, s, a))
  {
  }

  lemma DecideGrows(c: Config, t: Trust, s: Sys, a: DecideAction)
    requires Trusted(t)
    requires c.master in s.log && c.master !in s.links.src
    requires DecideEnabled(c, t, s, a)
    ensures Grows(c, s, DecideApply(c, t, s, a))
  {
  }

  lemma CommitGrows(c: Config, t: Trust, s: Sys, a: CommitAction)
    requires Trusted(t)
    requires c.master in s.log && c.master !in s.links.src
    requires CommitEnabled(c, t, s, a)
    ensures Grows(c, s, CommitApply(c, t, s, a))
  {
  }

  lemma AcknowledgedStays(c: Config, t: Trust, s: Sys, a: Action)
    requires Trusted(t)
    requires c.master in s.log && c.master !in s.links.src && Enabled(c, t, s, a)
    ensures Grows(c, s, Apply(c, t, s, a))
  {
    match a
    case Shard(e) => ShardGrows(c, t, s, e);
    case Fence(f) => FenceGrows(c, t, s, f);
    case Decide(d) => DecideGrows(c, t, s, d);
    case Commit(x) => CommitGrows(c, t, s, x);
  }

  lemma {:induction false} AcknowledgedStaysRun(c: Config, t: Trust, s: Sys, run: seq<Action>)
    requires Trusted(t)
    requires ValidConfig(c) && Inv(c, s) && Legal(c, t, s, run)
    ensures Grows(c, s, After(c, t, s, run))
    decreases |run|
  {
    if run != [] {
      Step(c, t, s, run[0]);
      AcknowledgedStays(c, t, s, run[0]);
      AcknowledgedStaysRun(c, t, Apply(c, t, s, run[0]), run[1..]);
    }
  }

  lemma AcknowledgedInLog(c: Config, s: Sys)
    requires Inv(c, s) && ValidConfig(c)
    ensures c.master in s.log && Due(s) <= s.acked <= |s.log[c.master]|
  {
  }

  /** Nothing in this run lets the stopped hosts go: either they stay stopped after a
      promotion too, or there is no promotion in it. */
  ghost predicate NobodyLetGo(t: Trust, run: seq<Action>) {
    t.quietAfterwards || forall i :: 0 <= i < |run| ==> !(run[i].Commit? && run[i].x.Promote?)
  }

  lemma ShardStaysUnsealed(c: Config, t: Trust, s: Sys, a: ShardAction)
    requires ShardEnabled(c, t, s, a) && s.sealed.None?
    ensures ShardApply(c, t, s, a).sealed.None?
  {
  }

  lemma FenceStaysUnsealed(c: Config, t: Trust, s: Sys, a: FenceAction)
    requires FenceEnabled(c, t, s, a) && s.sealed.None?
    ensures FenceApply(c, t, s, a).sealed.None?
  {
  }

  lemma DecideStaysUnsealed(c: Config, t: Trust, s: Sys, a: DecideAction)
    requires DecideEnabled(c, t, s, a) && s.sealed.None?
    ensures DecideApply(c, t, s, a).sealed.None?
  {
  }

  lemma CommitStaysUnsealed(c: Config, t: Trust, s: Sys, a: CommitAction)
    requires CommitEnabled(c, t, s, a) && s.sealed.None? && (t.quietAfterwards || !a.Promote?)
    ensures CommitApply(c, t, s, a).sealed.None?
  {
  }

  lemma StaysUnsealed(c: Config, t: Trust, s: Sys, a: Action)
    requires Enabled(c, t, s, a) && s.sealed.None?
    requires t.quietAfterwards || !(a.Commit? && a.x.Promote?)
    ensures Apply(c, t, s, a).sealed.None?
  {
    hide ShardEnabled, FenceEnabled, DecideEnabled, CommitEnabled, ShardApply, FenceApply, DecideApply, CommitApply;
    match a
    case Shard(e) => ShardStaysUnsealed(c, t, s, e);
    case Fence(f) => FenceStaysUnsealed(c, t, s, f);
    case Decide(d) => DecideStaysUnsealed(c, t, s, d);
    case Commit(x) => CommitStaysUnsealed(c, t, s, x);
  }

  lemma {:induction false} NeverSealed(c: Config, t: Trust, s: Sys, run: seq<Action>)
    requires Legal(c, t, s, run) && s.sealed.None? && NobodyLetGo(t, run)
    ensures After(c, t, s, run).sealed.None? && Due(After(c, t, s, run)) == After(c, t, s, run).acked
    decreases |run|
  {
    hide Enabled, Apply;
    if run != [] {
      StaysUnsealed(c, t, s, run[0]);
      assert forall i :: 0 <= i < |run[1..]| ==> run[1..][i] == run[i + 1];
      NeverSealed(c, t, Apply(c, t, s, run[0]), run[1..]);
    }
  }

  /** What was due at one moment is in every log that holds what is due at a later one. */
  lemma DueStaysHeld(c: Config, mid: Sys, end: Sys, h: Host)
    requires Grows(c, mid, end) && Due(mid) <= |mid.log[c.master]| && Holds(c, end, h, Due(end))
    ensures mid.log[c.master][..Due(mid)] <= end.log[h]
  {
    var old_, new_ := end.log[c.master], end.log[h];
    CoveredLess(old_, new_, Due(end), Due(mid));
    assert mid.log[c.master][..Due(mid)] == old_[..Due(mid)] == new_[..Due(mid)];
  }

  /** Durability. Take any run up to some moment `mid` and any continuation of it. If the
      continuation ends with a committed new master, then every entry a WAITQUORUM had
      returned for at `mid` is in that master's log. `mid` may be any moment before the
      first promotion, and any moment at all if links stay down and hosts stay stopped
      after the promotion as well. */
  lemma Durability(c: Config, t: Trust, init: Sys, before: seq<Action>, after: seq<Action>)
    requires Trusted(t) && NobodyLetGo(t, before)
    requires ValidConfig(c) && Init(c, init) && Legal(c, t, init, before)
    requires Legal(c, t, After(c, t, init, before), after)
    ensures var mid := After(c, t, init, before);
            var end := After(c, t, mid, after);
            end.plan.Some? && end.plan.value.committed ==>
              && c.master in mid.log && end.plan.value.newMaster in end.log
              && mid.acked <= |mid.log[c.master]|
              && mid.log[c.master][..mid.acked] <= end.log[end.plan.value.newMaster]
  {
    hide Inv, Enabled, Apply;
    InitStep(c, init);
    InvariantHolds(c, t, init, before);
    var mid := After(c, t, init, before);
    InvariantHolds(c, t, mid, after);
    NeverSealed(c, t, init, before);
    AcknowledgedInLog(c, mid);
    AcknowledgedStaysRun(c, t, mid, after);
    var end := After(c, t, mid, after);
    if end.plan.Some? && end.plan.value.committed {
      CommittedHolds(c, end);
      DueStaysHeld(c, mid, end, end.plan.value.newMaster);
    }
  }

  lemma RunsOn(c: Config, t: Trust, init: Sys, run: seq<Action>)
    requires Trusted(t)
    requires ValidConfig(c) && Init(c, init) && Legal(c, t, init, run)
    ensures Inv(c, After(c, t, init, run))
  {
    InitStep(c, init);
    InvariantHolds(c, t, init, run);
  }

  lemma PromotesCommitted(c: Config, t: Trust, s: Sys, h: Host)
    requires Trusted(t)
    requires Inv(c, s) && CommitEnabled(c, t, s, Promote(h))
    ensures s.plan.Some? && s.plan.value.committed && s.plan.value.newMaster == h
  {
  }

  /** Every promotion call the manager makes is made on a host that holds every
      acknowledged entry. */
  lemma PromotionIsSafe(c: Config, t: Trust, init: Sys, run: seq<Action>, h: Host)
    requires Trusted(t) && NobodyLetGo(t, run)
    requires ValidConfig(c) && Init(c, init) && Legal(c, t, init, run)
    requires CommitEnabled(c, t, After(c, t, init, run), Promote(h))
    ensures HoldsAcknowledged(c, After(c, t, init, run), h)
  {
    hide Inv, CommitEnabled;
    RunsOn(c, t, init, run);
    NeverSealed(c, t, init, run);
    PromotesCommitted(c, t, After(c, t, init, run), h);
    CommittedHolds(c, After(c, t, init, run));
  }

  // ----- fencing -----

  lemma FencedShardStep(c: Config, t: Trust, s: Sys, e: ShardAction, alive: set<Host>)
    requires Trusted(t)
    requires ShardEnabled(c, t, s, e) && s.mgr == Selecting(alive) && s.plan.None?
    requires GoodAlive(c, s.links, s.readOnly, alive) && OneWriter(c, s.links.src, s.readOnly) && s.log.Keys <= c.hosts
    ensures ShardApply(c, t, s, e).plan.None? && ShardApply(c, t, s, e).mgr == Selecting(alive)
    ensures forall h :: h in alive && h in s.log ==>
                          h in ShardApply(c, t, s, e).log && ShardApply(c, t, s, e).log[h] == s.log[h]
  {
  }

  lemma FencedStep(c: Config, t: Trust, s: Sys, a: Action, alive: set<Host>)
    requires Trusted(t)
    requires ValidConfig(c) && Inv(c, s) && s.plan.None? && s.mgr == Selecting(alive)
    requires a.Shard? && Enabled(c, t, s, a)
    ensures Apply(c, t, s, a).plan.None? && Apply(c, t, s, a).mgr == Selecting(alive)
    ensures forall h :: h in alive && h in s.log ==>
                          h in Apply(c, t, s, a).log && Apply(c, t, s, a).log[h] == s.log[h]
  {
    hide FenceEnabled, DecideEnabled, CommitEnabled, FenceApply, DecideApply, CommitApply;
    assert GoodAlive(c, s.links, s.readOnly, alive);
    assert forall h :: h in alive ==> Stuck(s.links, h);
    FencedShardStep(c, t, s, a.e, alive);
  }

  lemma {:induction false} FencedRun(c: Config, t: Trust, s: Sys, run: seq<Action>, alive: set<Host>)
    requires Trusted(t)
    requires ValidConfig(c) && Inv(c, s) && s.plan.None? && s.mgr == Selecting(alive)
    requires Legal(c, t, s, run) && forall i :: 0 <= i < |run| ==> run[i].Shard?
    ensures var end := After(c, t, s, run);
            && Inv(c, end) && end.plan.None? && end.mgr == Selecting(alive)
            && forall h :: h in alive && h in s.log ==> h in end.log && end.log[h] == s.log[h]
    decreases |run|
  {
    if run != [] {
      FencedStep(c, t, s, run[0], alive);
      Step(c, t, s, run[0]);
      FencedRun(c, t, Apply(c, t, s, run[0]), run[1..], alive);
    }
  }

  /** Some stopped host holds everything due. */
  lemma FencedHolder(c: Config, s: Sys, alive: set<Host>)
    requires ValidConfig(c) && Inv(c, s) && s.plan.None? && s.mgr == Selecting(alive)
    ensures exists h :: h in alive && Due(s) <= LogLen(s.log, h)
  {
    if c.master in alive {
      assert Due(s) <= LogLen(s.log, c.master);
    } else {
      var holders := Holders(c.active - {c.master}, s.log, Due(s));
      AckMeetsFailover(c.active, c.master, holders, alive);
      var r :| r in holders * alive;
      assert Due(s) <= LogLen(s.log, r);
    }
  }

  /** Once phase 2 has stopped a failover quorum, the shard can go on as it likes: the
      logs of the stopped hosts stand still, and every WAITQUORUM, old or new, returns
      for no more than some one of them holds. */
  lemma Fencing(c: Config, t: Trust, init: Sys, run: seq<Action>, more: seq<Action>, alive: set<Host>)
    requires Trusted(t) && NobodyLetGo(t, run)
    requires ValidConfig(c) && Init(c, init) && Legal(c, t, init, run)
    requires After(c, t, init, run).plan.None? && After(c, t, init, run).mgr == Selecting(alive)
    requires Legal(c, t, After(c, t, init, run), more)
    requires forall i :: 0 <= i < |more| ==> more[i].Shard?
    ensures var fenced := After(c, t, init, run);
            var end := After(c, t, fenced, more);
            && (forall h :: h in alive ==> LogLen(end.log, h) == LogLen(fenced.log, h))
            && exists h :: h in alive && end.acked <= LogLen(fenced.log, h)
  {
    hide Inv, Enabled, Apply, Legal, After;
    RunsOn(c, t, init, run);
    NeverSealed(c, t, init, run);
    var fenced := After(c, t, init, run);
    FencedRun(c, t, fenced, more, alive);
    NeverSealed(c, t, fenced, more);
    var end := After(c, t, fenced, more);
    FencedHolder(c, end, alive);
    StoppedAreKnown(c, fenced, alive);
  }

  lemma StoppedAreKnown(c: Config, s: Sys, alive: set<Host>)
    requires ValidConfig(c) && Inv(c, s) && s.plan.None? && s.mgr == Selecting(alive)
    ensures alive <= s.log.Keys
  {
  }

  // ----- crash and resume -----

  /** No action in the run ends the attempt. */
  ghost predicate SameAttempt(run: seq<Action>) {
    forall i :: 0 <= i < |run| ==> run[i] != Fence(Fail(true)) && run[i] != Commit(Finish)
  }

  /** p' is p or a later point of the same attempt. */
  ghost predicate Continues(p: Option<Progress>, p': Option<Progress>) {
    && p.Some? && p'.Some? && p'.value.phase in {1, 3, 5, 6}
    && p.value.phase <= p'.value.phase
    && (p.value.phase >= 3 ==>
          p'.value.mostRecent == p.value.mostRecent && p'.value.newMaster == p.value.newMaster)
  }

  lemma ShardProgress(c: Config, t: Trust, s: Sys, a: ShardAction)
    requires Trusted(t)
    requires s.progress.Some? && s.progress.value.phase in {1, 3, 5, 6}
    requires ShardEnabled(c, t, s, a)
    ensures Continues(s.progress, ShardApply(c, t, s, a).progress)
  {
  }

  lemma FenceProgress(c: Config, t: Trust, s: Sys, a: FenceAction)
    requires Trusted(t)
    requires s.progress.Some? && s.progress.value.phase in {1, 3, 5, 6}
    requires FenceEnabled(c, t, s, a) && a != Fail(true)
    ensures Continues(s.progress, FenceApply(c, t, s, a).progress)
  {
  }

  lemma DecideProgress(c: Config, t: Trust, s: Sys, a: DecideAction)
    requires Trusted(t)
    requires s.progress.Some? && s.progress.value.phase in {1, 3, 5, 6}
    requires DecideEnabled(c, t, s, a)
    ensures Continues(s.progress, DecideApply(c, t, s, a).progress)
  {
  }

  lemma CommitProgress(c: Config, t: Trust, s: Sys, a: CommitAction)
    requires Trusted(t)
    requires s.progress.Some? && s.progress.value.phase in {1, 3, 5, 6}
    requires CommitEnabled(c, t, s, a) && a != Finish
    ensures Continues(s.progress, CommitApply(c, t, s, a).progress)
  {
  }

  lemma ProgressStep(c: Config, t: Trust, s: Sys, a: Action)
    requires Trusted(t)
    requires Enabled(c, t, s, a) && a != Fence(Fail(true)) && a != Commit(Finish)
    requires s.progress.Some? && s.progress.value.phase in {1, 3, 5, 6}
    ensures Continues(s.progress, Apply(c, t, s, a).progress)
  {
    match a
    case Shard(e) => ShardProgress(c, t, s, e);
    case Fence(f) => FenceProgress(c, t, s, f);
    case Decide(d) => DecideProgress(c, t, s, d);
    case Commit(x) => CommitProgress(c, t, s, x);
  }

  lemma PhasesOnly(c: Config, s: Sys)
    requires Inv(c, s) && s.progress.Some?
    ensures s.progress.value.phase in {1, 3, 5, 6}
  {
  }

  lemma SameAttemptTail(run: seq<Action>)
    requires run != [] && SameAttempt(run)
    ensures SameAttempt(run[1..]) && run[0] != Fence(Fail(true)) && run[0] != Commit(Finish)
  {
    forall i | 0 <= i < |run[1..]| ensures run[1..][i] != Fence(Fail(true)) && run[1..][i] != Commit(Finish) {
      assert run[1..][i] == run[i + 1];
    }
  }

  /** Within one attempt the persisted phase never goes back and the chosen hosts never
      change, across any number of crashes and resumed runs. */
  lemma {:induction false} ProgressOnly(c: Config, t: Trust, s: Sys, run: seq<Action>)
    requires Trusted(t)
    requires ValidConfig(c) && Inv(c, s) && Legal(c, t, s, run)
    requires s.progress.Some? && SameAttempt(run)
    ensures Continues(s.progress, After(c, t, s, run).progress)
    decreases |run|
  {
    hide Inv, Enabled, Apply;
    PhasesOnly(c, s);
    if run != [] {
      SameAttemptTail(run);
      ProgressStep(c, t, s, run[0]);
      Step(c, t, s, run[0]);
      ProgressOnly(c, t, Apply(c, t, s, run[0]), run[1..]);
    }
  }

  ghost predicate Names(a: Action, h: Host) {
    a == Commit(Promote(h)) || a == Commit(SetDcsMaster(h))
  }

  lemma NamedOnPlan(c: Config, t: Trust, s: Sys, a: Action, h: Host)
    requires Trusted(t)
    requires Inv(c, s) && Enabled(c, t, s, a) && Names(a, h)
    ensures s.progress.Some? && s.progress.value.newMaster == h && s.progress.value.phase >= 3
  {
  }

  /** Every promotion and every master key written in an attempt names one and the same
      host: the one the progress record names at the end of it. */
  lemma {:induction false} OneNewMaster(c: Config, t: Trust, s: Sys, run: seq<Action>, i: nat, h: Host)
    requires Trusted(t)
    requires ValidConfig(c) && Inv(c, s) && Legal(c, t, s, run)
    requires s.progress.Some? && SameAttempt(run)
    requires i < |run| && Names(run[i], h)
    ensures After(c, t, s, run).progress.Some?
    ensures After(c, t, s, run).progress.value.newMaster == h
    decreases |run|
  {
    hide Inv, Enabled, Apply;
    if i == 0 {
      NamedOnPlan(c, t, s, run[0], h);
      ProgressOnly(c, t, s, run);
    } else {
      SameAttemptTail(run);
      PhasesOnly(c, s);
      ProgressStep(c, t, s, run[0]);
      Step(c, t, s, run[0]);
      OneNewMaster(c, t, Apply(c, t, s, run[0]), run[1..], i - 1, h);
    }
  }

  // ----- the new master's name in the DCS -----

  /** Phase 5 has been put on record, and the record has not been reset since. */
  ghost predicate Recorded(run: seq<Action>) {
    exists i :: 0 <= i < |run| && run[i] == Commit(SaveFive) && SameAttempt(run[i..])
  }

  /** After that, h has been written to the DCS as the master. */
  ghost predicate RecordedAndNamed(run: seq<Action>, h: Host) {
    exists i, j :: 0 <= i < j < |run| && run[i] == Commit(SaveFive) && run[j] == Commit(SetDcsMaster(h)) && SameAttempt(run[i..])
  }

  /** And after that, phase 6 has been put on record. */
  ghost predicate NamedInAttempt(run: seq<Action>, h: Host) {
    exists i, j, k :: 0 <= i < j < k < |run| && run[i] == Commit(SaveFive) && run[j] == Commit(SetDcsMaster(h))
                      && run[k] == Commit(SaveSix) && SameAttempt(run[i..])
  }

  /** What the state tells of the run that led to it. */
  ghost predicate Tells(s: Sys, run: seq<Action>) {
    && (s.mgr.Promoting? && s.mgr.saved ==> Recorded(run))
    && (s.mgr.Promoting? && s.mgr.named ==> RecordedAndNamed(run, s.mgr.newMaster))
    && (s.progress.Some? && s.progress.value.phase == 6 ==> NamedInAttempt(run, s.progress.value.newMaster))
  }

  ghost predicate Ends(a: Action) {
    a == Fence(Fail(true)) || a == Commit(Finish)
  }

  lemma AttemptGoesOn(run: seq<Action>, i: nat, a: Action)
    requires i <= |run| && SameAttempt(run[i..]) && !Ends(a)
    ensures SameAttempt((run + [a])[i..])
  {
    assert (run + [a])[i..] == run[i..] + [a];
  }

  /** What has happened in an attempt has still happened after one more action of it. */
  lemma StillTold(run: seq<Action>, a: Action)
    requires !Ends(a)
    ensures Recorded(run) ==> Recorded(run + [a])
    ensures forall h :: RecordedAndNamed(run, h) ==> RecordedAndNamed(run + [a], h)
    ensures forall h :: NamedInAttempt(run, h) ==> NamedInAttempt(run + [a], h)
  {
    var more := run + [a];
    assert forall i :: 0 <= i < |run| ==> more[i] == run[i];
    if Recorded(run) {
      var i :| 0 <= i < |run| && run[i] == Commit(SaveFive) && SameAttempt(run[i..]);
      AttemptGoesOn(run, i, a);
      assert more[i] == Commit(SaveFive);
    }
    forall h | RecordedAndNamed(run, h) ensures RecordedAndNamed(more, h) {
      var i, j :| 0 <= i < j < |run| && run[i] == Commit(SaveFive) && run[j] == Commit(SetDcsMaster(h)) && SameAttempt(run[i..]);
      AttemptGoesOn(run, i, a);
      assert more[i] == Commit(SaveFive) && more[j] == Commit(SetDcsMaster(h));
    }
    forall h | NamedInAttempt(run, h) ensures NamedInAttempt(more, h) {
      var i, j, k :| 0 <= i < j < k < |run| && run[i] == Commit(SaveFive) && run[j] == Commit(SetDcsMaster(h))
                     && run[k] == Commit(SaveSix) && SameAttempt(run[i..]);
      AttemptGoesOn(run, i, a);
      assert more[i] == Commit(SaveFive) && more[j] == Commit(SetDcsMaster(h)) && more[k] == Commit(SaveSix);
    }
  }

  /** The three actions that tell something new. */
  lemma NewlyTold(run: seq<Action>, h: Host)
    ensures Recorded(run + [Commit(SaveFive)])
    ensures Recorded(run) ==> RecordedAndNamed(run + [Commit(SetDcsMaster(h))], h)
    ensures RecordedAndNamed(run, h) ==> NamedInAttempt(run + [Commit(SaveSix)], h)
  {
    var five := run + [Commit(SaveFive)];
    assert five[|run|] == Commit(SaveFive) && five[|run|..] == [Commit(SaveFive)];
    if Recorded(run) {
      var named := run + [Commit(SetDcsMaster(h))];
      var i :| 0 <= i < |run| && run[i] == Commit(SaveFive) && SameAttempt(run[i..]);
      AttemptGoesOn(run, i, Commit(SetDcsMaster(h)));
      assert named[i] == Commit(SaveFive) && named[|run|] == Commit(SetDcsMaster(h));
    }
    if RecordedAndNamed(run, h) {
      var six := run + [Commit(SaveSix)];
      var i, j :| 0 <= i < j < |run| && run[i] == Commit(SaveFive) && run[j] == Commit(SetDcsMaster(h)) && SameAttempt(run[i..]);
      AttemptGoesOn(run, i, Commit(SaveSix));
      assert six[i] == Commit(SaveFive) && six[j] == Commit(SetDcsMaster(h)) && six[|run|] == Commit(SaveSix);
    }
  }

  /** How one action moves what the state tells. */
  ghost predicate Moves(s: Sys, a: Action, s': Sys) {
    && (s'.mgr.Promoting? && s'.mgr.saved ==>
          a == Commit(SaveFive) || (s.mgr.Promoting? && s.mgr.saved))
    && (s'.mgr.Promoting? && s'.mgr.named ==>
          || (a == Commit(SetDcsMaster(s'.mgr.newMaster)) && s.mgr.Promoting? && s.mgr.saved)
          || (s.mgr.Promoting? && s.mgr.named && s.mgr.newMaster == s'.mgr.newMaster))
    && (s'.progress.Some? && s'.progress.value.phase == 6 ==>
          || (a == Commit(SaveSix) && s.mgr.Promoting? && s.mgr.named && s.mgr.newMaster == s'.progress.value.newMaster)
          || (s.progress == s'.progress))
    && (Ends(a) ==> !s'.mgr.Promoting? && s'.progress.None?)
  }

  lemma ShardMoves(c: Config, t: Trust, s: Sys, a: ShardAction)
    requires ShardEnabled(c, t, s, a)
    ensures Moves(s, Shard(a), ShardApply(c, t, s, a))
  {
  }

  lemma FenceMoves(c: Config, t: Trust, s: Sys, a: FenceAction)
    requires FenceEnabled(c, t, s, a)
    ensures Moves(s, Fence(a), FenceApply(c, t, s, a))
  {
  }

  lemma DecideMoves(c: Config, t: Trust, s: Sys, a: DecideAction)
    requires DecideEnabled(c, t, s, a)
    ensures Moves(s, Decide(a), DecideApply(c, t, s, a))
  {
  }

  lemma CommitMoves(c: Config, t: Trust, s: Sys, a: CommitAction)
    requires Inv(c, s) && CommitEnabled(c, t, s, a)
    ensures Moves(s, Commit(a), CommitApply(c, t, s, a))
  {
    hide United, Forked, FrozenQuiet, FrozenMaster, GoodPlan, EnoughHolders, OneHistory, OneWriter, AcksReceived, LetGo;
  }

  lemma ActionMoves(c: Config, t: Trust, s: Sys, a: Action)
    requires Inv(c, s) && Enabled(c, t, s, a)
    ensures Moves(s, a, Apply(c, t, s, a))
  {
    hide Inv, Moves, ShardEnabled, FenceEnabled, DecideEnabled, CommitEnabled;
    match a
    case Shard(e) => ShardMoves(c, t, s, e);
    case Fence(f) => FenceMoves(c, t, s, f);
    case Decide(d) => DecideMoves(c, t, s, d);
    case Commit(x) => CommitMoves(c, t, s, x);
  }

  lemma TellsMore(s: Sys, run: seq<Action>, a: Action, s': Sys)
    requires Tells(s, run) && Moves(s, a, s')
    ensures Tells(s', run + [a])
  {
    if !Ends(a) {
      hide Recorded, RecordedAndNamed, NamedInAttempt;
      StillTold(run, a);
      if s.mgr.Promoting? {
        NewlyTold(run, s.mgr.newMaster);
      }
      if s'.mgr.Promoting? {
        NewlyTold(run, s'.mgr.newMaster);
      }
      NewlyTold(run, "");
    }
  }

  lemma {:induction false} RunIsTold(c: Config, t: Trust, init: Sys, run: seq<Action>)
    requires Trusted(t)
    requires ValidConfig(c) && Init(c, init) && Legal(c, t, init, run)
    ensures Tells(After(c, t, init, run), run)
  {
    hide Enabled, Apply, Tells, Moves, Inv, Legal, After;
    if run == [] {
      NothingTold(c, t, init);
    } else {
      var before, a := run[..|run| - 1], run[|run| - 1];
      assert run == before + [a];
      Shorten(c, t, init, before, a);
      RunIsTold(c, t, init, before);
      RunsOn(c, t, init, before);
      var s := After(c, t, init, before);
      ActionMoves(c, t, s, a);
      TellsMore(s, before, a, Apply(c, t, s, a));
    }
  }

  lemma NothingTold(c: Config, t: Trust, init: Sys)
    requires Init(c, init)
    ensures Tells(After(c, t, init, []), [])
  {
  }

  /** An attempt that can be finished has, since it last began, put phase 5 on record,
      then written its new master to the DCS, and then put phase 6 on record. */
  lemma FinishedWasNamed(c: Config, t: Trust, init: Sys, run: seq<Action>)
    requires Trusted(t)
    requires ValidConfig(c) && Init(c, init) && Legal(c, t, init, run)
    requires CommitEnabled(c, t, After(c, t, init, run), Finish)
    ensures After(c, t, init, run).plan.Some?
    ensures NamedInAttempt(run, After(c, t, init, run).plan.value.newMaster)
  {
    RunsOn(c, t, init, run);
    RunIsTold(c, t, init, run);
    TurningIsLast(c, After(c, t, init, run));
  }

  lemma TurningIsLast(c: Config, s: Sys)
    requires Inv(c, s) && s.mgr.Turning?
    ensures s.plan.Some? && s.progress.Some? && s.progress.value.phase == 6
    ensures s.progress.value.newMaster == s.plan.value.newMaster
  {
  }

  /** The name stays in the DCS for as long as the attempt goes on, unless another tick
      finds a master of a different name and writes that. */
  lemma {:induction false} NameStays(c: Config, t: Trust, s: Sys, h: Host, run: seq<Action>)
    requires s.dcsMaster == h && Legal(c, t, s, run)
    requires forall i :: 0 <= i < |run| ==> !(run[i].Shard? && run[i].e.FixDcsMaster?)
    requires forall i :: 0 <= i < |run| && run[i].Commit? && run[i].x.SetDcsMaster? ==> run[i].x.h == h
    ensures After(c, t, s, run).dcsMaster == h
    decreases |run|
  {
    hide Enabled, Apply;
    if run != [] {
      assert forall i :: 0 <= i < |run[1..]| ==> run[1..][i] == run[i + 1];
      KeyKept(c, t, s, run[0]);
      NameStays(c, t, Apply(c, t, s, run[0]), h, run[1..]);
    }
  }

  lemma ShardKeyKept(c: Config, t: Trust, s: Sys, a: ShardAction)
    requires ShardEnabled(c, t, s, a) && !a.FixDcsMaster?
    ensures ShardApply(c, t, s, a).dcsMaster == s.dcsMaster
  {
  }

  lemma FenceKeyKept(c: Config, t: Trust, s: Sys, a: FenceAction)
    requires FenceEnabled(c, t, s, a)
    ensures FenceApply(c, t, s, a).dcsMaster == s.dcsMaster
  {
  }

  lemma DecideKeyKept(c: Config, t: Trust, s: Sys, a: DecideAction)
    requires DecideEnabled(c, t, s, a)
    ensures DecideApply(c, t, s, a).dcsMaster == s.dcsMaster
  {
  }

  lemma CommitKeyKept(c: Config, t: Trust, s: Sys, a: CommitAction)
    requires CommitEnabled(c, t, s, a)
    ensures CommitApply(c, t, s, a).dcsMaster == if a.SetDcsMaster? then a.h else s.dcsMaster
  {
  }

  lemma KeyKept(c: Config, t: Trust, s: Sys, a: Action)
    requires Enabled(c, t, s, a) && !(a.Shard? && a.e.FixDcsMaster?)
    ensures Apply(c, t, s, a).dcsMaster == if a.Commit? && a.x.SetDcsMaster? then a.x.h else s.dcsMaster
  {
    hide ShardEnabled, FenceEnabled, DecideEnabled, CommitEnabled, ShardApply, FenceApply, DecideApply, CommitApply;
    match a
    case Shard(e) => ShardKeyKept(c, t, s, e);
    case Fence(f) => FenceKeyKept(c, t, s, f);
    case Decide(d) => DecideKeyKept(c, t, s, d);
    case Commit(x) => CommitKeyKept(c, t, s, x);
  }

  // ----- the order in which writes are opened -----

  ghost predicate CanWrite(s: Sys, h: Host) {
    h !in s.links.src && h !in s.readOnly
  }

  /** What is true of the manager when it opens h, and how it does so. */
  ghost predicate OpensProperly(s: Sys, a: Action, h: Host) {
    || (a == Commit(OpenEarly) && s.mgr.Promoting? && |s.mgr.alive| == 1)
    || (a == Commit(Promote(h)) && h !in s.readOnly)
    || (a == Commit(OpenWrites) && s.mgr.Turning? && s.mgr.psync == Some(s.dcsActive)
        && s.toWrite >= NumReplicasToWrite(|s.dcsActive|))
  }

  /** Outside phases 5 and 6 nobody is promoted and nobody is opened. */
  ghost predicate OpensNobody(s: Sys, s': Sys) {
    s.links.src.Keys <= s'.links.src.Keys && s.readOnly <= s'.readOnly
  }

  lemma ShardOpensNobody(c: Config, t: Trust, s: Sys, a: ShardAction)
    requires Trusted(t)
    requires ShardEnabled(c, t, s, a)
    ensures OpensNobody(s, ShardApply(c, t, s, a))
  {
  }

  lemma FenceOpensNobody(c: Config, t: Trust, s: Sys, a: FenceAction)
    requires Trusted(t)
    requires FenceEnabled(c, t, s, a)
    ensures OpensNobody(s, FenceApply(c, t, s, a))
  {
  }

  lemma DecideOpensNobody(c: Config, t: Trust, s: Sys, a: DecideAction)
    requires Trusted(t)
    requires DecideEnabled(c, t, s, a)
    ensures OpensNobody(s, DecideApply(c, t, s, a))
  {
  }

  lemma OpeningCommit(c: Config, t: Trust, s: Sys, a: CommitAction, h: Host)
    requires Trusted(t)
    requires CommitEnabled(c, t, s, a)
    requires !CanWrite(s, h) && CanWrite(CommitApply(c, t, s, a), h)
    ensures OpensProperly(s, Commit(a), h) && (s.mgr.Promoting? || s.mgr.Turning?) && h == s.mgr.newMaster
    ensures s.mgr.Promoting? ==> s.mgr.named
  {
  }

  lemma OpeningActions(c: Config, t: Trust, s: Sys, a: Action, h: Host)
    requires Trusted(t)
    requires Enabled(c, t, s, a)
    requires !CanWrite(s, h) && CanWrite(Apply(c, t, s, a), h)
    ensures a.Commit? && OpensProperly(s, a, h) && (s.mgr.Promoting? || s.mgr.Turning?) && h == s.mgr.newMaster
    ensures s.mgr.Promoting? ==> s.mgr.named
  {
    match a
    case Shard(e) => ShardOpensNobody(c, t, s, e);
    case Fence(f) => FenceOpensNobody(c, t, s, f);
    case Decide(d) => DecideOpensNobody(c, t, s, d);
    case Commit(x) => OpeningCommit(c, t, s, x, h);
  }

  /** A second host becomes able to write only on a committed plan, and only in one of
      three ways: the attempt's single survivor is opened, a host that was opened or
      never closed is promoted, or phase 6 opens the new master after the DCS list is
      the set of hosts it may count on and its quorum size covers half of that list. */
  lemma WriteOpening(c: Config, t: Trust, s: Sys, a: Action, h: Host)
    requires Trusted(t)
    requires ValidConfig(c) && Inv(c, s) && Enabled(c, t, s, a) && h != c.master
    requires !CanWrite(s, h) && CanWrite(Apply(c, t, s, a), h)
    ensures OpensProperly(s, a, h)
    ensures a == Commit(OpenWrites) ==> h in s.dcsActive
    ensures s.plan.Some? && s.plan.value.committed && h == s.plan.value.newMaster && Holds(c, s, h, Due(s))
  {
    OpeningActions(c, t, s, a, h);
    CommittedHolds(c, s);
  }
}
