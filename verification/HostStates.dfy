// internal/app/types.go: what one rdsync process has seen of one host.

module HostStates {
  import opened Wrappers

  type Host = string

  datatype ReplicaState = ReplicaState(masterHost: string, linkUp: bool, linkDownTime: int, offset: int)

  datatype SentiCacheState = SentiCacheState(name: string, runid: string)

  /** The replication fields are those of INFO: replid2 is valid up to, and not
      including, secondOffset, and the backlog holds backlogSize bytes from backlogStart. */
  datatype HostState = HostState(
    pingOk: bool, pingStable: bool,
    isMaster: bool, isReadOnly: bool, isOffline: bool,
    connectedReplicas: seq<Host>, replica: Option<ReplicaState>,
    masterOffset: int,
    replid: string, replid2: string, secondOffset: int,
    backlogStart: int, backlogSize: int,
    ip: string, runid: string, sentinel: Option<SentiCacheState>, error: string)

  /** getOffset; a host missing from the snapshot counts as zero. */
  function GetOffset(state: Option<HostState>): int {
    if state.None? || !state.value.pingOk then 0
    else if state.value.isMaster then state.value.masterOffset
    else if state.value.replica.Some? then state.value.replica.value.offset
    else 0
  }

  function Lookup(states: map<Host, HostState>, host: Host): Option<HostState> {
    if host in states then Some(states[host]) else None
  }

  predicate IsPartialSyncPossible(replica: Option<HostState>, master: Option<HostState>) {
    if replica.None? || master.None? || replica.value.replica.None? then
      false
    else
      var r, m := replica.value, master.value;
      var psyncOffset := r.replica.value.offset + 1;
      if m.replid != r.replid && (m.replid2 != r.replid || psyncOffset > m.secondOffset) then
        false
      else if psyncOffset < m.backlogStart || psyncOffset > m.backlogStart + m.backlogSize then
        false
      else
        true
  }
}
