// The inductive invariant of the failover protocol, action by action.

module FailoverInvariant {
  import opened Quorum
  import opened Wrappers
  import opened FailoverProtocol

  // ----- prefixes -----

  lemma CoveredLess(a: seq<Entry>, b: seq<Entry>, n: nat, k: nat)
    requires Covered(a, b, n) && k <= n
    ensures Covered(a, b, k)
  {
    assert a[..k] == a[..n][..k] && b[..k] == b[..n][..k];
  }

  lemma CoveredLonger(a: seq<Entry>, b: seq<Entry>, a': seq<Entry>, b': seq<Entry>, n: nat)
    requires Covered(a, b, n) && a <= a' && b <= b'
    ensures Covered(a', b', n)
  {
    assert a'[..n] == a[..n] && b'[..n] == b[..n];
  }

  lemma PrefixesCompare(a: seq<Entry>, b: seq<Entry>, whole: seq<Entry>)
    requires a <= whole && b <= whole && |a| <= |b|
    ensures a <= b
  {
    assert a == whole[..|a|] == b[..|a|];
  }

  // ----- how the parts of the invariant move with one log -----

  type Srcs = map<Host, Host>

  /** The source of h still covers h when h grows. */
  lemma SettledGrow(src: Srcs, log: Logs, h: Host, copy: seq<Entry>)
    requires Settled(src, log) && h in log && log[h] <= copy
    requires h in src && src[h] in log ==> copy <= log[src[h]]
    ensures Settled(src, log[h := copy])
  {
    forall x | x in src && x in log && src[x] in log
      ensures log[h := copy][x] <= log[h := copy][src[x]]
    {
      assert log[x] <= log[src[x]];
    }
  }

  lemma SettledAboveMove(src: Srcs, log: Logs, h: Host, copy: seq<Entry>, n: nat)
    requires SettledAbove(src, log, n) && h in log && (log[h] <= copy || n <= |copy|)
    requires h in src && src[h] in log ==> copy <= log[src[h]]
    ensures SettledAbove(src, log[h := copy], n)
  {
    forall x | x in src && x in log && src[x] in log
      ensures log[h := copy][x] <= log[h := copy][src[x]] || n <= |log[h := copy][src[x]]|
    {
      assert log[x] <= log[src[x]] || n <= |log[src[x]]|;
    }
  }

  lemma HoldersStay(replicas: set<Host>, log: Logs, h: Host, copy: seq<Entry>, acked: nat)
    requires h in log && (log[h] <= copy || acked <= |copy|)
    ensures |Holders(replicas, log, acked)| <= |Holders(replicas, log[h := copy], acked)|
  {
    assert Holders(replicas, log, acked) <= Holders(replicas, log[h := copy], acked);
    SubsetSize(Holders(replicas, log, acked), Holders(replicas, log[h := copy], acked));
  }

  lemma HoldersKept(c: Config, log: Logs, h: Host, copy: seq<Entry>, acked: nat)
    requires EnoughHolders(c, log, acked) && h in log && (log[h] <= copy || acked <= |copy|)
    ensures EnoughHolders(c, log[h := copy], acked)
  {
    HoldersStay(c.active - {c.master}, log, h, copy, acked);
  }

  /** What every log move keeps: the logs of the plan's hosts are no shorter than
      anything measured before. */
  lemma MoveKeepsPlan(s: Sys, p: Plan, h: Host, copy: seq<Entry>)
    requires h in s.log && (s.log[h] <= copy || p.floor <= |copy| || (p.released && h != p.newMaster))
    requires CatchUpSound(p, s.log, s.progress, s.mgr) && (!p.released ==> p.floor <= LogLen(s.log, p.mostRecent))
    ensures CatchUpSound(p, s.log[h := copy], s.progress, s.mgr)
    ensures !p.released ==> p.floor <= LogLen(s.log[h := copy], p.mostRecent)
  {
    assert Reached(p, s.log) ==> Reached(p, s.log[h := copy]);
  }

  /** The invariant after a log move, from its parts. */
  lemma MovedUndecided(c: Config, s: Sys, log': Logs)
    requires Inv(c, s) && s.plan.None? && log'.Keys == s.log.Keys
    requires OneHistory(c, log') && AcksReceived(c, s.ack, log', s.links.src) && EnoughHolders(c, log', Due(s))
    requires Settled(s.links.src, log') && s.acked <= LogLen(log', c.master)
    requires s.mgr.Snapped? ==>
               OffsetsBehind(s.mgr.offsets, log') && OffsetsTrue(s.mgr.offsets, log', s.mgr.alive)
    ensures Inv(c, s.(log := log'))
  {
    assert Due(s.(log := log')) == Due(s);
  }

  lemma MovedOnPlan(c: Config, s: Sys, p: Plan, log': Logs)
    requires Inv(c, s) && s.plan == Some(p) && !s.forked && log'.Keys == s.log.Keys
    requires OneHistory(c, log') && AcksReceived(c, s.ack, log', s.links.src) && EnoughHolders(c, log', Due(s))
    requires s.acked <= LogLen(log', c.master)
    requires !p.released ==>
               && FrozenQuiet(c, p, s.ack, log', s.links) && FrozenMaster(c, p, log', s.readOnly)
               && p.floor <= LogLen(log', p.mostRecent)
    requires NewMasterOrder(p, log', s.links, Due(s))
    requires NewMasterHeld(p, s.log, s.links) ==> NewMasterHeld(p, log', s.links)
    requires CatchUpSound(p, log', s.progress, s.mgr)
    ensures Inv(c, s.(log := log'))
  {
    assert Due(s.(log := log')) == Due(s);
  }

  lemma QuietAfterMove(c: Config, s: Sys, p: Plan, h: Host, copy: seq<Entry>)
    requires FrozenQuiet(c, p, s.ack, s.log, s.links) && h in s.log
    requires h == c.master || !Stuck(s.links, h)
    ensures FrozenQuiet(c, p, s.ack, s.log[h := copy], s.links)
  {
  }

  lemma OrderAfterMove(p: Plan, s: Sys, h: Host, copy: seq<Entry>)
    requires NewMasterOrder(p, s.log, s.links, Due(s)) && h in s.log
    requires s.log[h] <= copy || (p.released && h != p.newMaster && Due(s) <= |copy|)
             || (!p.released && p.newMaster !in p.frozen && p.floor <= |copy|)
    requires h in s.links.src && s.links.src[h] in s.log ==> copy <= s.log[s.links.src[h]]
    ensures NewMasterOrder(p, s.log[h := copy], s.links, Due(s))
  {
    if p.released {
      SettledAboveMove(s.links.src, s.log, h, copy, Due(s));
    } else if p.newMaster in p.frozen {
      SettledGrow(s.links.src, s.log, h, copy);
    } else {
      SettledAboveMove(s.links.src, s.log, h, copy, p.floor);
    }
  }

  lemma AcksAfterMove(c: Config, s: Sys, h: Host, copy: seq<Entry>)
    requires AcksReceived(c, s.ack, s.log, s.links.src) && h in s.log
    requires s.log[h] <= copy || (h in s.links.src && s.links.src[h] != c.master)
    ensures AcksReceived(c, s.ack, s.log[h := copy], s.links.src)
  {
  }

  lemma OneHistoryAfterMove(c: Config, log: Logs, h: Host, copy: seq<Entry>)
    requires OneHistory(c, log) && h in log
    requires if h == c.master then log[h] <= copy else copy <= log[c.master]
    ensures OneHistory(c, log[h := copy])
  {
  }

  lemma HeldAfterMove(p: Plan, s: Sys, h: Host, copy: seq<Entry>)
    requires NewMasterHeld(p, s.log, s.links) && (!Stuck(s.links, h) || h != p.newMaster)
    ensures NewMasterHeld(p, s.log[h := copy], s.links)
  {
  }

  /** How the log of h may move while only the old master can write. */
  ghost predicate MoveAllowed(c: Config, s: Sys, h: Host, copy: seq<Entry>) {
    && h in s.log && c.master in s.log
    && (if h == c.master then h !in s.links.src && h !in s.readOnly && s.log[h] <= copy
        else !Stuck(s.links, h) && copy <= SourceLogOf(s, h) && copy <= s.log[c.master])
    && (s.log[h] <= copy
        || (s.links.src[h] != c.master && s.plan.Some? && Due(s) <= |copy| && ShorterAllowed(s.plan.value, h, |copy|)))
  }

  ghost predicate ShorterAllowed(p: Plan, h: Host, n: nat) {
    if p.released then h != p.newMaster else p.newMaster !in p.frozen && p.floor <= n
  }

  lemma UndecidedAfterMove(c: Config, s: Sys, h: Host, copy: seq<Entry>)
    requires Undecided(c, s.mgr, s.log, s.links, s.readOnly) && MoveAllowed(c, s, h, copy) && s.log[h] <= copy
    ensures s.mgr.Snapped? ==>
              && OffsetsBehind(s.mgr.offsets, s.log[h := copy])
              && OffsetsTrue(s.mgr.offsets, s.log[h := copy], s.mgr.alive)
  {
  }

  lemma MoveUndecided(c: Config, s: Sys, h: Host, copy: seq<Entry>)
    requires ValidConfig(c) && Inv(c, s) && s.plan.None? && MoveAllowed(c, s, h, copy)
    ensures Inv(c, s.(log := s.log[h := copy]))
  {
    hide OneHistory, AcksReceived, EnoughHolders, OneWriter, Settled, AllStuck;
    OneHistoryAfterMove(c, s.log, h, copy);
    AcksAfterMove(c, s, h, copy);
    HoldersKept(c, s.log, h, copy, Due(s));
    SettledGrow(s.links.src, s.log, h, copy);
    UndecidedAfterMove(c, s, h, copy);
    assert s.log[h := copy].Keys == s.log.Keys;
    MovedUndecided(c, s, s.log[h := copy]);
  }

  lemma MoveOnPlan(c: Config, s: Sys, h: Host, copy: seq<Entry>)
    requires ValidConfig(c) && Inv(c, s) && s.plan.Some? && !s.forked && MoveAllowed(c, s, h, copy)
    ensures Inv(c, s.(log := s.log[h := copy]))
  {
    hide OneHistory, AcksReceived, EnoughHolders, OneWriter, FrozenQuiet, NewMasterOrder, CatchUpSound, OnPlan;
    var p := s.plan.value;
    OneHistoryAfterMove(c, s.log, h, copy);
    AcksAfterMove(c, s, h, copy);
    HoldersKept(c, s.log, h, copy, Due(s));
    MoveKeepsPlan(s, p, h, copy);
    OrderAfterMove(p, s, h, copy);
    if !p.released {
      QuietAfterMove(c, s, p, h, copy);
    }
    if NewMasterHeld(p, s.log, s.links) {
      HeldAfterMove(p, s, h, copy);
    }
    assert s.log[h := copy].Keys == s.log.Keys;
    MovedOnPlan(c, s, p, s.log[h := copy]);
  }

  ghost function SourceLogOf(s: Sys, h: Host): seq<Entry> {
    if h in s.links.src && s.links.src[h] in s.log then s.log[s.links.src[h]] else []
  }

  lemma MoveUnited(c: Config, s: Sys, h: Host, copy: seq<Entry>)
    requires ValidConfig(c) && Inv(c, s) && !s.forked && MoveAllowed(c, s, h, copy)
    ensures Inv(c, s.(log := s.log[h := copy]))
  {
    if s.plan.None? {
      MoveUndecided(c, s, h, copy);
    } else {
      MoveOnPlan(c, s, h, copy);
    }
  }

  // ----- the shard's own actions -----

  /** Either side of the fork appends to its own log. */
  lemma WriteForked(c: Config, s: Sys, h: Host, copy: seq<Entry>)
    requires ValidConfig(c) && Inv(c, s) && s.forked && h !in s.links.src && h !in s.readOnly
    requires h in s.log && s.log[h] <= copy
    ensures Inv(c, s.(log := s.log[h := copy]))
  {
    var log' := s.log[h := copy];
    assert log'.Keys == s.log.Keys;
    var p := s.plan.value;
    var nm, m := p.newMaster, c.master;
    CoveredLonger(s.log[m], s.log[nm], log'[m], log'[nm], p.floor);
    CoveredLonger(s.log[m], s.log[nm], log'[m], log'[nm], Due(s));
    if !p.released {
      if nm in p.frozen {
        CoveredLonger(s.log[m], s.log[nm], log'[m], log'[nm], s.ack[nm]);
      }
      assert FrozenQuiet(c, p, s.ack, log', s.links);
    }
    assert Due(s.(log := log')) == Due(s);
  }

  lemma WriteStep(c: Config, t: Trust, s: Sys, h: Host, e: Entry)
    requires Trusted(t)
    requires ValidConfig(c) && Inv(c, s) && ShardEnabled(c, t, s, Write(h, e))
    ensures Inv(c, ShardApply(c, t, s, Write(h, e)))
  {
    if s.forked {
      WriteForked(c, s, h, s.log[h] + [e]);
    } else {
      assert h == c.master;
      MoveUnited(c, s, h, s.log[h] + [e]);
    }
  }

  /** A replica takes over `copy` from its source: either more of the source's log
      than it had, or, after a full resync, exactly the source's log. */
  lemma CopyStep(c: Config, s: Sys, h: Host, copy: seq<Entry>)
    requires ValidConfig(c) && Inv(c, s) && Flows(s, h)
    requires copy <= SourceLog(s, h) && (s.log[h] <= copy || copy == SourceLog(s, h))
    ensures Inv(c, s.(log := s.log[h := copy]))
  {
    if s.forked {
      assert s.log[h := copy].Keys == s.log.Keys;
      assert Due(s.(log := s.log[h := copy])) == Due(s);
      if !s.plan.value.released {
        QuietAfterMove(c, s, s.plan.value, h, copy);
      }
    } else {
      MoveUnited(c, s, h, copy);
    }
  }

  lemma AckStep(c: Config, t: Trust, s: Sys, h: Host, n: nat)
    requires Trusted(t)
    requires ValidConfig(c) && Inv(c, s) && ShardEnabled(c, t, s, Ack(h, n))
    ensures Inv(c, ShardApply(c, t, s, Ack(h, n)))
  {
    hide OneHistory, OneWriter, EnoughHolders, Settled, SettledAbove, CatchUpSound, Undecided, GoodPlan, FrozenMaster, OnPlan, NewMasterHeld, Shape;
    var s' := ShardApply(c, t, s, Ack(h, n));
    assert s'.ack.Keys == s.ack.Keys;
  }

  /** Fencing: whatever a WAITQUORUM still returns for after the plan has been made
      was held by a frozen host, or is held by the new master itself. */
  lemma AcknowledgedOnPlan(c: Config, t: Trust, s: Sys, w: nat)
    requires Trusted(t)
    requires ValidConfig(c) && Inv(c, s) && s.plan.Some? && !s.plan.value.released && ShardEnabled(c, t, s, WaitQuorum(w))
    ensures var p := s.plan.value;
            w <= p.floor || (p.newMaster in p.frozen && p.newMaster in s.ack && w <= s.ack[p.newMaster])
  {
    var p := s.plan.value;
    if c.master !in p.frozen {
      var acks := Acknowledging(c.quorum, s.ack, w);
      AckMeetsFailover(c.active, c.master, acks, p.frozen);
      var r :| r in acks * p.frozen;
    }
  }

  lemma WaitQuorumStep(c: Config, t: Trust, s: Sys, w: nat)
    requires Trusted(t)
    requires ValidConfig(c) && Inv(c, s) && ShardEnabled(c, t, s, WaitQuorum(w))
    ensures Inv(c, ShardApply(c, t, s, WaitQuorum(w)))
  {
    hide OneHistory, OneWriter, Settled, SettledAbove, CatchUpSound, Undecided, GoodPlan, FrozenMaster, FrozenQuiet, OnPlan, NewMasterHeld, Shape;
    if w > s.acked && s.sealed.None? {
      if !s.forked {
        var replicas := c.active - {c.master};
        assert Acknowledging(c.quorum, s.ack, w) <= Holders(replicas, s.log, w);
        SubsetSize(Acknowledging(c.quorum, s.ack, w), Holders(replicas, s.log, w));
      }
      if s.plan.Some? {
        AcknowledgedOnPlan(c, t, s, w);
        if s.forked {
          var p := s.plan.value;
          var known := if w <= p.floor then p.floor else s.ack[p.newMaster];
          CoveredLess(s.log[c.master], s.log[p.newMaster], known, w);
        }
      }
    }
  }

  // ----- the manager's decisive actions -----

  /** Phase 3: the most recent offset of the snapshot bounds every acknowledged write,
      because a stopped host holds it. */
  lemma SnapshotBoundsAcked(c: Config, s: Sys, mostRecent: Host)
    requires ValidConfig(c) && Inv(c, s) && s.plan.None? && s.mgr.Snapped?
    requires IsMostRecent(s.mgr.offsets, mostRecent)
    ensures Due(s) <= OffsetOf(s.mgr.offsets, mostRecent)
  {
    var alive := s.mgr.alive;
    if c.master in alive {
      assert s.mgr.offsets[c.master] == LogLen(s.log, c.master);
    } else {
      var holders := Holders(c.active - {c.master}, s.log, Due(s));
      AckMeetsFailover(c.active, c.master, holders, alive);
      var r :| r in holders * alive;
      assert s.mgr.offsets[r] == LogLen(s.log, r);
    }
  }

  lemma ChooseStep(c: Config, t: Trust, s: Sys, mostRecent: Host, newMaster: Host)
    requires Trusted(t)
    requires ValidConfig(c) && Inv(c, s) && DecideEnabled(c, t, s, Choose(mostRecent, newMaster))
    ensures Inv(c, DecideApply(c, t, s, Choose(mostRecent, newMaster)))
  {
    if s.plan.None? {
      SnapshotBoundsAcked(c, s, mostRecent);
      var s' := DecideApply(c, t, s, Choose(mostRecent, newMaster));
      var p := s'.plan.value;
      var offsets := s.mgr.offsets;
      assert forall h :: h in p.frozen ==> offsets[h] == LogLen(s.log, h);
      assert forall h :: h in p.frozen ==> LogLen(s.log, h) <= p.floor;
      assert FrozenQuiet(c, p, s'.ack, s'.log, s'.links);
      if mostRecent in offsets {
        assert offsets[mostRecent] <= LogLen(s.log, mostRecent);
      }
      if SameOffset(offsets, newMaster, mostRecent) {
        assert offsets[newMaster] <= LogLen(s.log, newMaster);
      }
    }
  }

  lemma SettledAttach(src: Srcs, log: Logs, h: Host, x: Host)
    requires Settled(src, log) && h in log && x in log && log[h] <= log[x]
    ensures Settled(src[h := x], log)
  {
  }

  lemma SettledAboveAttach(src: Srcs, log: Logs, h: Host, x: Host, n: nat)
    requires SettledAbove(src, log, n) && h in log && x in log && (log[h] <= log[x] || n <= |log[x]|)
    ensures SettledAbove(src[h := x], log, n)
  {
  }

  /** Attaching a replica elsewhere makes the old master forget its acknowledgement
      and leaves every other frozen host as it was. */
  lemma AttachKeepsQuiet(c: Config, s: Sys, p: Plan, h: Host, x: Host)
    requires FrozenQuiet(c, p, s.ack, s.log, s.links) && AcksReceived(c, s.ack, s.log, s.links.src) && h in s.ack
    requires h == p.newMaster || x != c.master
    ensures FrozenQuiet(c, p, s.ack[h := 0], s.log, Attach(s.links, h, x))
    ensures FrozenQuiet(c, p, s.ack[h := 0], s.log, ResumeLink(Attach(s.links, h, x), h))
    ensures AcksReceived(c, s.ack[h := 0], s.log, s.links.src[h := x])
    ensures s.ack[h := 0].Keys == s.ack.Keys
  {
  }

  lemma AttachKeepsAcks(c: Config, s: Sys, h: Host, x: Host)
    requires AcksReceived(c, s.ack, s.log, s.links.src) && h in s.ack
    ensures AcksReceived(c, s.ack[h := 0], s.log, s.links.src[h := x])
    ensures s.ack[h := 0].Keys == s.ack.Keys
  {
  }

  lemma AttachKeepsQuietForked(c: Config, s: Sys, p: Plan, h: Host, x: Host)
    requires FrozenQuiet(c, p, s.ack, s.log, s.links) && h in s.ack && x != c.master
    ensures FrozenQuiet(c, p, s.ack[h := 0], s.log, ResumeLink(Attach(s.links, h, x), h))
    ensures s.ack[h := 0].Keys == s.ack.Keys
  {
  }

  /** Phase 4: the new master starts to replicate from the most recent host. */
  lemma RepointStep(c: Config, t: Trust, s: Sys)
    requires Trusted(t)
    requires ValidConfig(c) && Inv(c, s) && DecideEnabled(c, t, s, Repoint)
    ensures Inv(c, DecideApply(c, t, s, Repoint))
  {
    hide OneHistory, EnoughHolders, Settled, SettledAbove, FrozenQuiet, FrozenMaster, AcksReceived, Covered, NewMasterOrder, Reached;
    var p := s.plan.value;
    RepointKeepsOrder(c, s, p);
    AttachKeepsQuiet(c, s, p, p.newMaster, p.mostRecent);
    assert Due(DecideApply(c, t, s, Repoint)) == Due(s);
  }

  lemma RepointKeepsOrder(c: Config, s: Sys, p: Plan)
    requires OneHistory(c, s.log) && NewMasterOrder(p, s.log, s.links, Due(s)) && NewMasterHeld(p, s.log, s.links)
    requires !p.released && p.newMaster in s.log && p.mostRecent in s.log && p.floor <= LogLen(s.log, p.mostRecent)
    ensures NewMasterOrder(p, s.log, Attach(s.links, p.newMaster, p.mostRecent), Due(s))
  {
    if p.newMaster in p.frozen {
      if !FeedsFrom(s.links, p.newMaster, p.mostRecent) {
        PrefixesCompare(s.log[p.newMaster], s.log[p.mostRecent], s.log[c.master]);
      }
      SettledAttach(s.links.src, s.log, p.newMaster, p.mostRecent);
    } else {
      SettledAboveAttach(s.links.src, s.log, p.newMaster, p.mostRecent, p.floor);
    }
  }

  lemma TurnForked(c: Config, t: Trust, s: Sys, h: Host)
    requires Trusted(t)
    requires ValidConfig(c) && Inv(c, s) && CommitEnabled(c, t, s, Turn(h)) && s.forked
    ensures Inv(c, CommitApply(c, t, s, Turn(h)))
  {
    var p := s.plan.value;
    if !p.released {
      AttachKeepsQuietForked(c, s, p, h, p.newMaster);
    }
  }

  /** Attaching a frozen or stopped replica behind the committed new master. */
  lemma TurnUnited(c: Config, t: Trust, s: Sys, h: Host)
    requires Trusted(t)
    requires ValidConfig(c) && Inv(c, s) && CommitEnabled(c, t, s, Turn(h)) && !s.forked
    ensures Inv(c, CommitApply(c, t, s, Turn(h)))
  {
    var p := s.plan.value;
    var links := ResumeLink(Attach(s.links, h, p.newMaster), h);
    AttachKeepsAcks(c, s, h, p.newMaster);
    if !p.released {
      AttachKeepsQuiet(c, s, p, h, p.newMaster);
    }
    TurnKeepsOrder(p, s, h);
    AttachedOnPlan(c, s, p, links, s.ack[h := 0], h);
  }

  lemma TurnKeepsOrder(p: Plan, s: Sys, h: Host)
    requires NewMasterOrder(p, s.log, s.links, Due(s))
    requires h in s.log && p.newMaster in s.log && (p.released || s.log[h] <= s.log[p.newMaster])
    ensures NewMasterOrder(p, s.log, ResumeLink(Attach(s.links, h, p.newMaster), h), Due(s))
  {
    if p.released {
      SettledAboveAttach(s.links.src, s.log, h, p.newMaster, Due(s));
    } else if p.newMaster in p.frozen {
      SettledAttach(s.links.src, s.log, h, p.newMaster);
    } else {
      SettledAboveAttach(s.links.src, s.log, h, p.newMaster, p.floor);
    }
  }

  lemma AttachedOnPlan(c: Config, s: Sys, p: Plan, links: Links, ack: map<Host, nat>, h: Host)
    requires Inv(c, s) && s.plan == Some(p) && !s.forked && p.committed && s.progress.Some?
    requires h in c.hosts && h != c.master && h != p.newMaster && s.progress.value.phase >= 5
    requires links.src == s.links.src[h := p.newMaster] && ack.Keys == s.ack.Keys
    requires AcksReceived(c, ack, s.log, links.src) && (!p.released ==> FrozenQuiet(c, p, ack, s.log, links))
    requires NewMasterOrder(p, s.log, links, Due(s))
    ensures Inv(c, s.(links := links, ack := ack))
  {
  }

  /** The moment the new master may write: all logs are still prefixes of the old
      master's, and everything acknowledged lies within the new master's. */
  lemma ForkPoint(c: Config, s: Sys, p: Plan)
    requires Inv(c, s) && !s.forked && s.plan == Some(p) && p.committed
    ensures Covered(s.log[c.master], s.log[p.newMaster], p.floor)
    ensures Covered(s.log[c.master], s.log[p.newMaster], Due(s)) && Due(s) <= LogLen(s.log, p.newMaster)
    ensures Covered(s.log[c.master], s.log[p.newMaster], s.ack[p.newMaster])
  {
    var old_, new_ := s.log[c.master], s.log[p.newMaster];
    assert new_ <= old_;
    assert Covered(old_, new_, |new_|);
    CoveredLess(old_, new_, |new_|, p.floor);
    CoveredLess(old_, new_, |new_|, Due(s));
    CoveredLess(old_, new_, |new_|, s.ack[p.newMaster]);
  }

  /** Cutting a host off its source leaves the frozen hosts quiet. */
  lemma DetachKeepsQuiet(c: Config, s: Sys, p: Plan, h: Host)
    requires FrozenQuiet(c, p, s.ack, s.log, s.links)
    ensures FrozenQuiet(c, p, s.ack, s.log, Detach(s.links, h))
  {
  }

  /** The new master stops following; the stopped hosts stay as they are. */
  lemma PromoteHolding(c: Config, t: Trust, s: Sys, h: Host)
    requires Trusted(t) && t.quietAfterwards
    requires ValidConfig(c) && Inv(c, s) && CommitEnabled(c, t, s, Promote(h))
    ensures Inv(c, CommitApply(c, t, s, Promote(h)))
  {
    hide OneHistory, EnoughHolders, Settled, SettledAbove, FrozenQuiet, FrozenMaster, Covered, NewMasterOrder;
    var p := s.plan.value;
    if !p.released {
      DetachKeepsQuiet(c, s, p, h);
    }
    if !s.forked {
      ForkPoint(c, s, p);
      LetGoKeepsOrder(p, s, h);
    }
    assert Due(CommitApply(c, t, s, Promote(h))) == Due(s);
  }

  /** The new master stops following, and the stopped hosts may move again. */
  lemma PromoteLettingGo(c: Config, t: Trust, s: Sys, h: Host)
    requires Trusted(t) && !t.quietAfterwards
    requires ValidConfig(c) && Inv(c, s) && CommitEnabled(c, t, s, Promote(h))
    ensures Inv(c, CommitApply(c, t, s, Promote(h)))
  {
    hide OneHistory, EnoughHolders, Settled, SettledAbove, FrozenQuiet, FrozenMaster, Covered, NewMasterOrder;
    var p := s.plan.value;
    if !s.forked {
      ForkPoint(c, s, p);
      LetGoKeepsOrder(p, s, h);
    }
    assert Due(CommitApply(c, t, s, Promote(h))) == Due(s);
  }

  lemma PromoteStep(c: Config, t: Trust, s: Sys, h: Host)
    requires Trusted(t)
    requires ValidConfig(c) && Inv(c, s) && CommitEnabled(c, t, s, Promote(h))
    ensures Inv(c, CommitApply(c, t, s, Promote(h)))
  {
    if t.quietAfterwards {
      PromoteHolding(c, t, s, h);
    } else {
      PromoteLettingGo(c, t, s, h);
    }
  }

  /** What the promotion leaves of the order of the logs, whether or not it lets the
      stopped hosts go. */
  lemma LetGoKeepsOrder(p: Plan, s: Sys, h: Host)
    requires NewMasterOrder(p, s.log, s.links, Due(s)) && Due(s) <= LogLen(s.log, p.newMaster)
    ensures NewMasterOrder(p, s.log, Detach(s.links, h), Due(s))
    ensures NewMasterOrder(p.(released := true), s.log, Detach(s.links, h), Due(s))
  {
  }

  lemma OpenEarlyStep(c: Config, t: Trust, s: Sys)
    requires Trusted(t)
    requires ValidConfig(c) && Inv(c, s) && CommitEnabled(c, t, s, OpenEarly)
    ensures Inv(c, CommitApply(c, t, s, OpenEarly))
  {
    if !s.forked {
      ForkPoint(c, s, s.plan.value);
    }
  }

  lemma OpenWritesStep(c: Config, t: Trust, s: Sys)
    requires Trusted(t)
    requires ValidConfig(c) && Inv(c, s) && CommitEnabled(c, t, s, OpenWrites)
    ensures Inv(c, CommitApply(c, t, s, OpenWrites))
  {
    if !s.forked {
      ForkPoint(c, s, s.plan.value);
    }
  }
}
