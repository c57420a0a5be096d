// internal/app/lag.go: choosing the most recent and the most desirable host.

module Selection {
  import opened Wrappers
  import opened HostStates
  import Psync

  /** findMostRecentNode over the offsets getOffset gives. It returns no name when every
      offset is zero or less. */
  method FindMostRecentNode(offsets: map<Host, int>) returns (recentHost: Host)
    ensures recentHost in offsets && offsets[recentHost] > 0 ==> forall x :: x in offsets ==> offsets[x] <= offsets[recentHost]
    ensures !(recentHost in offsets && offsets[recentHost] > 0) ==>
              recentHost == "" && forall x :: x in offsets ==> offsets[x] <= 0
  {
    var recentOffset := 0;
    recentHost := "";
    var todo := offsets.Keys;
    while todo != {}
      invariant todo <= offsets.Keys
      invariant if recentOffset > 0 then recentHost in offsets && offsets[recentHost] == recentOffset else recentHost == "" && recentOffset == 0
      invariant forall x :: x in offsets && x !in todo ==> offsets[x] <= recentOffset
    {
      var host :| host in todo;
      todo := todo - {host};
      if offsets[host] > recentOffset {
        recentHost := host;
        recentOffset := offsets[host];
      }
    }
  }

  function Offsets(states: map<Host, HostState>): map<Host, int> {
    map host | host in states :: GetOffset(Some(states[host]))
  }

  ghost predicate IsMostRecent(states: map<Host, HostState>, recent: Host) {
    if recent in states && Offsets(states)[recent] > 0 then
      forall host :: host in states ==> Offsets(states)[host] <= Offsets(states)[recent]
    else
      recent == "" && forall host :: host in states ==> Offsets(states)[host] <= 0
  }

  /** The hosts the most desirable one is picked from. */
  ghost predicate Eligible(states: map<Host, HostState>, recent: Host, from: string, host: Host) {
    && host in states && !(from <= host)
    && (host == recent || (recent in states && IsPartialSyncPossible(Some(states[host]), Some(states[recent]))))
  }

  ghost predicate Worse(priority: int, offset: int, priority': int, offset': int) {
    priority < priority' || (priority == priority' && offset < offset')
  }

  /** host is eligible, stands above priority 0 and offset 0, and no eligible host beats it. */
  ghost predicate IsMostDesirable(states: map<Host, HostState>, priorities: map<Host, int>, recent: Host, from: string, host: Host) {
    && Eligible(states, recent, from, host) && host in priorities
    && Worse(0, 0, priorities[host], Offsets(states)[host])
    && forall other :: Eligible(states, recent, from, other) && other in priorities ==>
         !Worse(priorities[host], Offsets(states)[host], priorities[other], Offsets(states)[other])
  }

  ghost predicate NobodyAboveZero(states: map<Host, HostState>, priorities: map<Host, int>, recent: Host, from: string) {
    forall other :: Eligible(states, recent, from, other) && other in priorities ==>
                      !Worse(0, 0, priorities[other], Offsets(states)[other])
  }

  /** getMostDesirableNode. It fails exactly when nobody is eligible or an eligible host
      has no configuration. Otherwise it names the eligible host with the greatest
      priority and, among those, the greatest offset - or, without an error, nobody at
      all when every eligible host stands at or below priority 0 and offset 0. */
  method GetMostDesirableNode(states: map<Host, HostState>, priorities: map<Host, int>, switchoverFrom: string)
    returns (res: Result<Host>, recent: Host)
    requires "" !in states
    ensures IsMostRecent(states, recent)
    // no candidate, or one without a configuration
    ensures res.Failure? <==>
              || (forall host :: host in states && !(switchoverFrom <= host) ==>
                    host != recent && !(recent in states && IsPartialSyncPossible(Some(states[host]), Some(states[recent]))))
              || (exists host :: Eligible(states, recent, switchoverFrom, host) && host !in priorities)
    // the host switched away from is never named, nor one that cannot follow the most recent host
    ensures res.Success? && res.value != "" ==>
              && res.value in states && !(switchoverFrom <= res.value)
              && (res.value == recent
                  || (recent in states && IsPartialSyncPossible(Some(states[res.value]), Some(states[recent]))))
    // any host that is neither stands no higher
    ensures res.Success? && res.value != "" ==>
              forall other :: other in states && !(switchoverFrom <= other)
                              && (other == recent || (recent in states && IsPartialSyncPossible(Some(states[other]), Some(states[recent])))) ==>
                                && other in priorities && priorities[other] <= priorities[res.value]
                                && (priorities[other] == priorities[res.value] ==> Offsets(states)[other] <= Offsets(states)[res.value])
    ensures res.Success? && res.value != "" ==> IsMostDesirable(states, priorities, recent, switchoverFrom, res.value)
    ensures res.Success? ==> (res.value == "" <==> NobodyAboveZero(states, priorities, recent, switchoverFrom))
  {
    recent := FindMostRecentNode(Offsets(states));
    var recentNodes := EligibleNodes(states, recent, switchoverFrom);
    if |recentNodes| < 1 {
      NobodyEligible(states, recent, switchoverFrom, recentNodes);
      return Failure("no hosts with psync possible from most recent one"), recent;
    }
    assert Eligible(states, recent, switchoverFrom, recentNodes[0]);
    res := MostDesirableOf(states, priorities, recentNodes);
    if res.Success? && res.value != "" {
      assert Eligible(states, recent, switchoverFrom, res.value);
      BestOfAll(states, priorities, recent, switchoverFrom, recentNodes, res.value);
    }
  }

  lemma NobodyEligible(states: map<Host, HostState>, recent: Host, from: string, nodes: seq<Host>)
    requires nodes == [] && forall host :: host in nodes <==> Eligible(states, recent, from, host)
    ensures forall host :: host in states && !(from <= host) ==>
              host != recent && !(recent in states && IsPartialSyncPossible(Some(states[host]), Some(states[recent])))
  {
    forall host | host in states && !(from <= host)
      ensures host != recent && !(recent in states && IsPartialSyncPossible(Some(states[host]), Some(states[recent])))
    {
      assert !Eligible(states, recent, from, host);
    }
  }

  lemma BestOfAll(states: map<Host, HostState>, priorities: map<Host, int>, recent: Host, from: string, nodes: seq<Host>, best: Host)
    requires forall host :: host in nodes <==> Eligible(states, recent, from, host)
    requires best in states && best in priorities && forall host :: host in nodes ==>
               host in states && host in priorities && !Worse(priorities[best], Offsets(states)[best], priorities[host], Offsets(states)[host])
    ensures forall other :: other in states && !(from <= other)
                            && (other == recent || (recent in states && IsPartialSyncPossible(Some(states[other]), Some(states[recent])))) ==>
              && other in priorities && priorities[other] <= priorities[best]
              && (priorities[other] == priorities[best] ==> Offsets(states)[other] <= Offsets(states)[best])
  {
    forall other | other in states && !(from <= other)
      && (other == recent || (recent in states && IsPartialSyncPossible(Some(states[other]), Some(states[recent]))))
      ensures other in priorities && priorities[other] <= priorities[best]
      ensures priorities[other] == priorities[best] ==> Offsets(states)[other] <= Offsets(states)[best]
    {
      assert Eligible(states, recent, from, other);
    }
  }

  /** The loop over the candidates: the greatest priority, then the greatest offset. */
  method MostDesirableOf(states: map<Host, HostState>, priorities: map<Host, int>, nodes: seq<Host>) returns (res: Result<Host>)
    requires "" !in states && forall host :: host in nodes ==> host in states
    ensures res.Failure? <==> exists host :: host in nodes && host !in priorities
    ensures res.Success? && res.value != "" ==>
              && res.value in nodes && Worse(0, 0, priorities[res.value], Offsets(states)[res.value])
              && forall host :: host in nodes ==>
                   !Worse(priorities[res.value], Offsets(states)[res.value], priorities[host], Offsets(states)[host])
    ensures res.Success? && res.value == "" ==>
              forall host :: host in nodes ==> !Worse(0, 0, priorities[host], Offsets(states)[host])
  {
    var priorityHost, maxPriority, maxOffset := "", 0, 0;
    for i := 0 to |nodes|
      invariant forall host :: host in nodes[..i] ==> host in states && host in priorities
      invariant forall host :: host in nodes[..i] ==>
                                 !Worse(maxPriority, maxOffset, priorities[host], Offsets(states)[host])
      invariant if priorityHost == "" then maxPriority == 0 && maxOffset == 0 else
                && priorityHost in nodes && priorityHost in priorities
                && maxPriority == priorities[priorityHost] && maxOffset == Offsets(states)[priorityHost]
                && Worse(0, 0, maxPriority, maxOffset)
    {
      var host := nodes[i];
      if host !in priorities {
        return Failure("no configuration");
      }
      var offset := Offsets(states)[host];
      if priorities[host] > maxPriority {
        priorityHost, maxPriority, maxOffset := host, priorities[host], offset;
      } else if priorities[host] == maxPriority && offset > maxOffset {
        priorityHost, maxPriority, maxOffset := host, priorities[host], offset;
      }
    }
    return Success(priorityHost);
  }

  method EligibleNodes(states: map<Host, HostState>, recent: Host, from: string) returns (nodes: seq<Host>)
    ensures forall host :: host in nodes <==> Eligible(states, recent, from, host)
  {
    nodes := [];
    var todo := states.Keys;
    while todo != {}
      invariant todo <= states.Keys
      invariant forall host :: host in nodes <==> Eligible(states, recent, from, host) && host !in todo
    {
      var host :| host in todo;
      todo := todo - {host};
      if from <= host {
        continue;
      }
      if host == recent {
        nodes := nodes + [host];
        continue;
      }
      if IsPartialSyncPossible(Some(states[host]), Lookup(states, recent)) {
        nodes := nodes + [host];
      }
    }
  }

  /** Seen on a snapshot of a shard whose nodes keep the replication invariants, every
      eligible host holds a prefix of the most recent host's log: catching it up loses
      and rewrites nothing. */
  lemma EligibleIsBehind(w: Psync.World, states: map<Host, HostState>, recent: Host, from: string, host: Host)
    requires Psync.Inv(w)
    requires forall h :: h in states ==> h in w.nodes && Psync.Reports(states[h], w.nodes[h])
    requires Eligible(states, recent, from, host)
    ensures recent in w.nodes && w.nodes[host].log <= w.nodes[recent].log
  {
    if host != recent {
      Psync.ReportedPsyncIsPrefix(w, states[host], states[recent], host, recent);
    }
  }

  /** What getOffset measures: the length of the log of a host that answers and says
      whether it is a master or follows one, and nothing of any other. */
  lemma OffsetIsLogLength(state: HostState, n: Psync.Node)
    requires Psync.Reports(state, n) && Psync.ReportsRole(state, n)
    ensures GetOffset(Some(state)) ==
            if state.pingOk && (state.isMaster || state.replica.Some?) then |n.log| else 0
    ensures GetOffset(None) == 0
  {
  }
}
