// Where the failover protocol gets its premises from: the transition of the active
// nodes leaves a configuration it is proved for, and an answer of the patched server is
// one of its acknowledgements.

module FailoverPremises {
  import opened Quorum
  import opened FailoverProtocol
  import FailoverSafety
  import ActiveNodes
  import WaitQuorum

  /** The protocol's view of a shard with this active list, quorum set and quorum size. */
  ghost function ConfigOf(hosts: set<Host>, master: Host, shard: ActiveNodes.Config, auto: bool, from: Host): Config {
    Config(hosts, master, SetOf(shard.active), shard.quorum, shard.toWrite, auto, from)
  }

  /** A duplicate-free list with the quorum replicas on it and enough of them to answer is
      what the failover protocol needs; a completed transition leaves one. */
  lemma InsideIsValid(hosts: set<Host>, master: Host, shard: ActiveNodes.Config, auto: bool, from: Host)
    requires SetOf(shard.active) <= hosts && NoDup(shard.active) && master in shard.active
    ensures ActiveNodes.Inside(shard, master) <==> ValidConfig(ConfigOf(hosts, master, shard, auto, from))
    ensures forall target :: NoDup(target) && ActiveNodes.Settled(shard, master, target) ==>
                               ValidConfig(ConfigOf(hosts, master, shard, auto, from))
  {
    ListSize(shard.active);
    forall target | NoDup(target) && ActiveNodes.Settled(shard, master, target)
      ensures ActiveNodes.Inside(shard, master)
    {
      ListSize(target);
    }
  }

  /** The connections of the old master show no more than what it has seen acknowledged. */
  ghost predicate Shows(s: Sys, links: seq<WaitQuorum.Link>) {
    forall link :: link in links && link.online ==> link.name in s.ack && link.ackOff <= s.ack[link.name]
  }

  /** The server answers WAITQUORUM at offset woff: at once, with enough acknowledgements,
      or by releasing the i-th of the blocked clients ws, which is not shadowed by a
      plain WAIT and was told to wait for no fewer. */
  datatype Reply = AtOnce | Release(ws: seq<WaitQuorum.Waiter>, i: nat)

  ghost predicate Replies(links: seq<WaitQuorum.Link>, toWrite: nat, woff: nat, reply: Reply) {
    match reply
    case AtOnce => WaitQuorum.Count(WaitQuorum.WaitQuorum, links, woff) >= toWrite
    case Release(ws, i) =>
      && i < |ws| && ws[i].kind.WaitQuorum? && ws[i].offset == woff && ws[i].needed >= toWrite
      && !WaitQuorum.Shadowed(ws, i) && WaitQuorum.ReleasedAt(links, ws, i)
  }

  ghost predicate Answers(c: Config, s: Sys, links: seq<WaitQuorum.Link>, woff: nat, reply: Reply) {
    && Shows(s, links) && WaitQuorum.Flagged(links, c.quorum) && WaitQuorum.DistinctNames(links)
    && woff <= LogLen(s.log, c.master) && Replies(links, c.toWrite, woff, reply)
  }

  /** Either answer is an acknowledgement the protocol allows. */
  lemma AnswerIsAcknowledgement(c: Config, t: Trust, s: Sys, links: seq<WaitQuorum.Link>, woff: nat, reply: Reply)
    requires Answers(c, s, links, woff, reply)
    ensures Enabled(c, t, s, Shard(WaitQuorum(woff)))
  {
    if reply.Release? {
      WaitQuorum.QuorumReleaseIsExact(links, reply.ws, reply.i);
    }
    WaitQuorum.CountedHosts(links, c.quorum, woff);
    SubsetSize(WaitQuorum.Acknowledged(links, c.quorum, woff), Acknowledging(c.quorum, s.ack, woff));
  }

  lemma WaitQuorumLeaves(c: Config, t: Trust, s: Sys, woff: nat)
    requires Enabled(c, t, s, Shard(WaitQuorum(woff)))
    ensures var s' := Apply(c, t, s, Shard(WaitQuorum(woff)));
            s'.log == s.log && s'.acked >= woff
  {
  }

  lemma NobodyLetGoYet(t: Trust, before: seq<Action>, woff: nat)
    requires FailoverSafety.NobodyLetGo(t, before)
    ensures FailoverSafety.NobodyLetGo(t, before + [Shard(WaitQuorum(woff))])
  {
  }

  /** From the server's answer to the new master's log: take a settled shard, a run of it,
      an answer given at the end of that run, and any continuation. A host the manager
      then promotes holds everything up to the answered offset, if nobody had been let
      go when the answer was given. */
  lemma AnsweredSurvives(c: Config, t: Trust, shard: ActiveNodes.Config, init: Sys, before: seq<Action>,
                         links: seq<WaitQuorum.Link>, woff: nat, reply: Reply, after: seq<Action>, h: Host)
    requires c == ConfigOf(c.hosts, c.master, shard, c.auto, c.from) && c.active <= c.hosts
    requires NoDup(shard.active) && c.master in shard.active && ActiveNodes.Inside(shard, c.master)
    requires Trusted(t) && FailoverSafety.NobodyLetGo(t, before)
    requires Init(c, init) && Legal(c, t, init, before) && Answers(c, After(c, t, init, before), links, woff, reply)
    requires Legal(c, t, init, before + [Shard(WaitQuorum(woff))])
    requires var answered := After(c, t, init, before + [Shard(WaitQuorum(woff))]);
             && Legal(c, t, answered, after)
             && CommitEnabled(c, t, After(c, t, answered, after), Promote(h))
    ensures var mid := After(c, t, init, before);
            var end := After(c, t, After(c, t, init, before + [Shard(WaitQuorum(woff))]), after);
            && c.master in mid.log && h in end.log
            && woff <= |mid.log[c.master]| && mid.log[c.master][..woff] <= end.log[h]
  {
    hide Enabled, Apply, CommitEnabled, Init, Shows, ActiveNodes.Inside, WaitQuorum.Count, Legal, After, Inv, Replies;
    hide ActiveNodes.Settled, WaitQuorum.Flagged, WaitQuorum.DistinctNames, NoDup, ValidConfig, FailoverSafety.NobodyLetGo;
    NobodyLetGoYet(t, before, woff);
    InsideIsValid(c.hosts, c.master, shard, c.auto, c.from);
    var mid := After(c, t, init, before);
    AnswerIsAcknowledgement(c, t, mid, links, woff, reply);
    Extend(c, t, init, before, Shard(WaitQuorum(woff)));
    WaitQuorumLeaves(c, t, mid, woff);
    var run := before + [Shard(WaitQuorum(woff))];
    var answered := After(c, t, init, run);
    FailoverSafety.RunsOn(c, t, init, run);
    FailoverSafety.InvariantHolds(c, t, answered, after);
    FailoverSafety.PromotesCommitted(c, t, After(c, t, answered, after), h);
    FailoverSafety.Durability(c, t, init, run, after);
    assert mid.log[c.master][..woff] == mid.log[c.master][..answered.acked][..woff];
  }
}
