// internal/app/repair.go: opening a master for writes again, and putting a local
// master back online. Neither happens before its quorum size covers the active list.

module Repair {
  import opened Wrappers
  import opened Quorum
  import opened HostStates
  import ActiveNodes

  class Master {
    var quorum: set<Host>
    var toWrite: nat
    var readOnly: bool
    var offline: bool
    var paused: bool

    constructor (quorum: set<Host>, toWrite: nat, readOnly: bool, offline: bool, paused: bool)
      ensures this.quorum == quorum && this.toWrite == toWrite
      ensures this.readOnly == readOnly && this.offline == offline && this.paused == paused
    {
      this.quorum, this.toWrite := quorum, toWrite;
      this.readOnly, this.offline, this.paused := readOnly, offline, paused;
    }

    /** What a failover of the listed hosts would meet. */
    function Seen(active: seq<Host>): ActiveNodes.Config reads this {
      ActiveNodes.Config(active, quorum, toWrite)
    }

    /** The quorum replicas are on the list, and so is the master itself. */
    predicate QuorumListed(host: Host, active: seq<Host>) reads this {
      host in active && quorum <= SetOf(active) - {host}
    }

    /** Reads the quorum size and raises it when it is too small for the list. Any command
        may fail, and a failed one may have been applied. */
    method RaiseQuorum(active: seq<Host>, answering: bool) returns (ok: bool)
      modifies this`toWrite
      ensures ok ==> ActiveNodes.EnoughAcks(Seen(active))
      ensures answering ==> ok
      ensures toWrite == old(toWrite) || (toWrite == NumReplicasToWrite(|active|) && toWrite > old(toWrite))
    {
      var read: bool := *;
      if !read && !answering {
        return false;
      }
      var expected := NumReplicasToWrite(|active|);
      if expected > toWrite {
        ok := *;
        ok := ok || answering;
        var applied: bool := *;
        if ok || applied {
          toWrite := expected;
        }
        return;
      }
      return true;
    }

    /** repairMaster: `wasReadOnly` and `wasPaused` are what the snapshot says of it. */
    method RepairMaster(host: Host, active: seq<Host>, wasReadOnly: bool, wasPaused: bool, answering: bool)
      modifies this`toWrite, this`readOnly, this`paused
      ensures old(readOnly) && !readOnly ==> ActiveNodes.EnoughAcks(Seen(active))
      ensures old(readOnly) && !readOnly && QuorumListed(host, active) ==> ActiveNodes.Safe(Seen(active), host)
      ensures toWrite >= old(toWrite) && (readOnly ==> old(readOnly)) && (paused ==> old(paused))
      ensures !wasReadOnly ==> readOnly == old(readOnly)
      ensures !wasPaused ==> paused == old(paused)
      ensures answering ==>
                ActiveNodes.EnoughAcks(Seen(active)) && (wasReadOnly ==> !readOnly) && (wasPaused ==> !paused)
    {
      var ok := RaiseQuorum(active, answering);
      if !ok {
        return;
      }
      if wasReadOnly {
        var applied: bool := *;
        readOnly := readOnly && !applied && !answering;
      }
      if wasPaused {
        var applied: bool := *;
        paused := paused && !applied && !answering;
      }
      OpenedIsSafe(Seen(active), host);
    }

    /** The end of repairLocalNode for an offline local master of a multi-host shard. The
        active list is read twice: once to look for hosts that are ahead, once for the
        quorum size. None of those hosts may be ahead, and the quorum size must cover
        the list, before the node goes online. */
    method BringOnline(local: Host, states: map<Host, HostState>, active: Option<seq<Host>>, later: Option<seq<Host>>,
                       answering: bool)
      returns (updateActive: bool)
      requires local in states && |states| > 1
      modifies this`toWrite, this`offline
      ensures toWrite >= old(toWrite) && (offline ==> old(offline))
      ensures old(offline) && !offline ==>
                && active.Some? && later.Some? && NobodyAhead(states, local, active.value)
                && ActiveNodes.EnoughAcks(Seen(later.value))
                && (QuorumListed(local, later.value) ==> ActiveNodes.Safe(Seen(later.value), local))
      ensures old(offline) && active.Some? && !NobodyAhead(states, local, active.value) ==>
                !updateActive && offline && toWrite == old(toWrite)
      ensures answering && active.Some? && later.Some? && NobodyAhead(states, local, active.value) ==>
                !offline && updateActive
    {
      if active.None? {
        return true;
      }
      var ahead := SomebodyAhead(local, states, active.value);
      if ahead {
        return false;
      }
      if later.None? {
        return false;
      }
      var ok := RaiseQuorum(later.value, answering);
      if !ok {
        return false;
      }
      var applied: bool, answered: bool := *, *;
      offline := offline && !applied && !answering;
      OpenedIsSafe(Seen(later.value), local);
      return (applied && answered) || answering;
    }
  }

  /** No active host but the local one has a greater offset. */
  ghost predicate NobodyAhead(states: map<Host, HostState>, local: Host, active: seq<Host>)
    requires local in states
  {
    forall h :: h in states && h != local && h in active ==> GetOffset(Some(states[h])) <= GetOffset(Some(states[local]))
  }

  method SomebodyAhead(local: Host, states: map<Host, HostState>, active: seq<Host>) returns (ahead: bool)
    requires local in states
    ensures ahead <==> !NobodyAhead(states, local, active)
  {
    var activeSet := ActiveNodes.ActiveNodesSet(active);
    var aheadHosts := 0;
    var baseOffset := GetOffset(Some(states[local]));
    var todo := states.Keys;
    while todo != {}
      invariant todo <= states.Keys && aheadHosts == 0
      invariant forall h :: h in states && h !in todo && h != local && h in active ==> GetOffset(Some(states[h])) <= baseOffset
    {
      var host :| host in todo;
      todo := todo - {host};
      if host == local {
        continue;
      }
      if baseOffset < GetOffset(Some(states[host])) {
        if host in activeSet {
          aheadHosts := aheadHosts + 1;
        }
      }
      if aheadHosts != 0 {
        return true;
      }
    }
    return false;
  }

  /** A master opened by either of them acknowledges nothing a failover of the list could
      miss, as long as its quorum replicas are listed. */
  lemma OpenedIsSafe(c: ActiveNodes.Config, master: Host)
    ensures ActiveNodes.EnoughAcks(c) && master in c.active && c.quorum <= SetOf(c.active) - {master} ==>
              ActiveNodes.Safe(c, master)
  {
    ActiveNodes.InsideIsSafe(c, master);
  }
}
