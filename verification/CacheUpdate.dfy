// internal/app/cache.go, updateCache: from what is known of the hosts to the state the
// senticache is to be brought to.

module CacheUpdate {
  import opened Wrappers
  import opened Quorum
  import opened HostStates
  import SentiCache
  import SentiCacheUpdate
  import SentiCacheNode

  datatype Settings = Settings(
    hostname: Host, announceHostname: bool, clusterName: string,
    port: nat, cachePort: nat, maxParallelSyncs: nat)

  type States = map<Host, HostState>

  ghost predicate Healthy(states: States, h: Host) {
    h in states && states[h].pingOk && states[h].error == ""
  }

  ghost predicate OpenMaster(states: States, h: Host) {
    Healthy(states, h) && !states[h].isOffline && states[h].isMaster && !states[h].isReadOnly
  }

  ghost predicate OnlineReplica(states: States, h: Host) {
    Healthy(states, h) && !states[h].isOffline && !states[h].isMaster
  }

  ghost predicate OtherSentinel(states: States, cfg: Settings, h: Host) {
    Healthy(states, h) && states[h].sentinel.Some? && h != cfg.hostname
  }

  ghost function OpenMasters(states: States): set<Host> {
    set h | h in states && OpenMaster(states, h)
  }

  ghost function OnlineReplicas(states: States): set<Host> {
    set h | h in states && OnlineReplica(states, h)
  }

  ghost function OtherSentinels(states: States, cfg: Settings): set<Host> {
    set h | h in states && OtherSentinel(states, cfg, h)
  }

  function Announced(states: States, cfg: Settings, h: Host): string
    requires h in states
  {
    if cfg.announceHostname then h else states[h].ip
  }

  predicate Follows(states: States, h: Host) {
    h in states && states[h].replica.Some? && states[h].replica.value.offset >= 0
  }

  /** A healthy host has a name to announce, and a healthy online replica says whom it
      follows and how far it is. */
  ghost predicate WellFormed(states: States, cfg: Settings) {
    && (forall h :: Healthy(states, h) ==> Announced(states, cfg, h) != "")
    && (forall h :: OnlineReplica(states, h) ==> Follows(states, h))
  }

  function ReplicaOf(states: States, priorities: map<Host, int>, cfg: Settings, h: Host): SentiCache.TargetReplica
    requires Follows(states, h) && h in priorities
  {
    var rs := states[h].replica.value;
    SentiCache.TargetReplica(SentiCache.Addr(Announced(states, cfg, h), cfg.port), states[h].runid, rs.linkDownTime,
                             priorities[h], 1, rs.masterHost, cfg.port, if rs.linkUp then 0 else 1, rs.offset)
  }

  function SentinelOf(states: States, cfg: Settings, h: Host): SentiCache.TargetSentinel
    requires h in states && states[h].sentinel.Some?
  {
    var s := states[h].sentinel.value;
    SentiCache.TargetSentinel(s.name, s.runid, SentiCache.Addr(Announced(states, cfg, h), cfg.cachePort))
  }

  /** One entry per host of the set, in some order. */
  ghost predicate Lists<T(!new)>(list: seq<T>, hosts: set<Host>, entry: map<Host, T>) {
    && hosts <= entry.Keys && |list| == |hosts|
    && (forall h :: h in hosts ==> entry[h] in list)
    && (forall x :: x in list ==> exists h :: h in hosts && entry[h] == x)
  }

  lemma ListsOneMore<T(!new)>(list: seq<T>, hosts: set<Host>, entry: map<Host, T>, h: Host)
    requires Lists(list, hosts, entry) && h in entry && h !in hosts
    ensures Lists(list + [entry[h]], hosts + {h}, entry)
  {
    forall x | x in list + [entry[h]] ensures exists k :: k in hosts + {h} && entry[k] == x {
      if x in list {
        var k :| k in hosts && entry[k] == x;
        assert k in hosts + {h};
      } else {
        assert h in hosts + {h};
      }
    }
  }

  ghost function ReplicaEntries(states: States, priorities: map<Host, int>, cfg: Settings): map<Host, SentiCache.TargetReplica> {
    map h | h in states && Follows(states, h) && h in priorities :: ReplicaOf(states, priorities, cfg, h)
  }

  ghost function SentinelEntries(states: States, cfg: Settings): map<Host, SentiCache.TargetSentinel> {
    map h | h in states && states[h].sentinel.Some? :: SentinelOf(states, cfg, h)
  }

  ghost predicate AllConfigured(states: States, priorities: map<Host, int>) {
    forall h :: OnlineReplica(states, h) ==> h in priorities
  }

  /** updateCache. For every order in which the map is visited, a state is built exactly
      when one healthy, online, writable master exists and every online replica has a
      configuration; it names that master, all online replicas and all other sentinels.
      The variable masterReadOnly of the source never becomes true. */
  method BuildState(states: States, priorities: map<Host, int>, cfg: Settings)
    returns (res: Result<SentiCache.Target>, ghost master: Host)
    requires WellFormed(states, cfg)
    ensures res.Success? <==> |OpenMasters(states)| == 1 && AllConfigured(states, priorities)
    ensures res.Success? ==>
              && OpenMasters(states) == {master} && master in states
              && res.value == WithMaster(states, cfg, res.value, master)
              && DescribesMaster(states, cfg, master, res.value)
              && (forall h :: OnlineReplica(states, h) ==>
                    exists r :: r in res.value.replicas && DescribesReplica(states, priorities, cfg, h, r))
              && (forall r :: r in res.value.replicas ==>
                    exists h :: OnlineReplica(states, h) && DescribesReplica(states, priorities, cfg, h, r))
              && (forall h :: OtherSentinel(states, cfg, h) ==>
                    exists s :: s in res.value.sentinels && DescribesSentinel(states, cfg, h, s))
              && (forall s :: s in res.value.sentinels ==>
                    exists h :: OtherSentinel(states, cfg, h) && DescribesSentinel(states, cfg, h, s))
              && Lists(res.value.replicas, OnlineReplicas(states), ReplicaEntries(states, priorities, cfg))
              && Lists(res.value.sentinels, OtherSentinels(states, cfg), SentinelEntries(states, cfg))
  {
    hide OpenMasters, OnlineReplicas, OtherSentinels, Lists, ReplicaEntries, SentinelEntries;
    hide MasterSeen, ReplicasSeen, SentinelsSeen;
    var target := SentiCache.Target("", SentiCache.Addr("", 0), "", 0, 0, 0, [], []);
    var masterReadOnly := false;
    var todo := states.Keys;
    master := "";
    NothingSeen(states, priorities, cfg, target, master);
    while todo != {}
      invariant todo <= states.Keys && !masterReadOnly
      invariant MasterSeen(states, cfg, Head(target), master, states.Keys - todo)
      invariant ReplicasSeen(states, priorities, cfg, target.replicas, states.Keys - todo)
      invariant SentinelsSeen(states, cfg, target.sentinels, states.Keys - todo)
    {
      var fqdn :| fqdn in todo;
      var state := states[fqdn];
      ghost var seen := states.Keys - todo;
      SeeMaster(states, cfg, Head(target), master, seen, fqdn);
      SeeReplica(states, priorities, cfg, target.replicas, seen, fqdn);
      SeeSentinel(states, cfg, target.sentinels, seen, fqdn);
      assert states.Keys - (todo - {fqdn}) == seen + {fqdn};
      todo := todo - {fqdn};
      if !state.pingOk || state.error != "" {
        continue;
      }
      if state.sentinel.Some? && fqdn != cfg.hostname {
        target := target.(sentinels := target.sentinels + [SentinelOf(states, cfg, fqdn)]);
      }
      if state.isOffline {
        continue;
      }
      if state.isMaster {
        if target.addr.host != "" && !masterReadOnly && !state.isReadOnly {
          return Failure("2 open masters"), master;
        }
        if state.isReadOnly && !masterReadOnly {
          continue;
        }
        masterReadOnly := state.isReadOnly;
        target := WithMaster(states, cfg, target, fqdn);
        master := fqdn;
      } else {
        if fqdn !in priorities {
          return Failure("no configuration"), master;
        }
        target := target.(replicas := target.replicas + [ReplicaOf(states, priorities, cfg, fqdn)]);
      }
    }
    AllSeen(states, priorities, cfg, target, master, states.Keys - todo);
    if target.addr.host == "" {
      return Failure("0 open masters"), master;
    }
    ReplicasDescribed(states, priorities, cfg, target);
    SentinelsDescribed(states, cfg, target);
    hide DescribesReplica, DescribesSentinel, OnlineReplica, OtherSentinel;
    return Success(target), master;
  }

  function WithMaster(states: States, cfg: Settings, target: SentiCache.Target, h: Host): SentiCache.Target
    requires h in states
  {
    target.(name := cfg.clusterName, addr := SentiCache.Addr(Announced(states, cfg, h), cfg.port),
    runid := states[h].runid, quorum := |states| / 2 + 1,
    parallelSyncs := cfg.maxParallelSyncs, configEpoch := 0)
  }

  /** The master's part of the state. */
  function Head(target: SentiCache.Target): SentiCache.Target {
    target.(replicas := [], sentinels := [])
  }

  // ----- what a state says of the hosts -----

  ghost predicate DescribesMaster(states: States, cfg: Settings, h: Host, t: SentiCache.Target) {
    && h in states && t.name == cfg.clusterName && t.runid == states[h].runid
    && t.addr.host == (if cfg.announceHostname then h else states[h].ip) && t.addr.port == cfg.port
    && t.quorum == |states| / 2 + 1 && t.parallelSyncs == cfg.maxParallelSyncs && t.configEpoch == 0
  }

  ghost predicate DescribesReplica(states: States, priorities: map<Host, int>, cfg: Settings, h: Host, r: SentiCache.TargetReplica) {
    && h in states && h in priorities && states[h].replica.Some?
    && r.addr.host == (if cfg.announceHostname then h else states[h].ip) && r.addr.port == cfg.port
    && r.runid == states[h].runid && r.priority == priorities[h] && r.announced == 1
    && r.masterHost == states[h].replica.value.masterHost && r.masterPort == cfg.port
    && (r.linkStatus == 0 <==> states[h].replica.value.linkUp) && (r.linkStatus == 0 || r.linkStatus == 1)
    && r.linkDownTime == states[h].replica.value.linkDownTime && r.replOffset == states[h].replica.value.offset
  }

  ghost predicate DescribesSentinel(states: States, cfg: Settings, h: Host, s: SentiCache.TargetSentinel) {
    && h in states && states[h].sentinel.Some?
    && s.name == states[h].sentinel.value.name && s.runid == states[h].sentinel.value.runid
    && s.addr.host == (if cfg.announceHostname then h else states[h].ip) && s.addr.port == cfg.cachePort
  }

  lemma ReplicaDescribed(states: States, priorities: map<Host, int>, cfg: Settings, h: Host)
    requires h in ReplicaEntries(states, priorities, cfg)
    ensures DescribesReplica(states, priorities, cfg, h, ReplicaEntries(states, priorities, cfg)[h])
  {
  }

  lemma SentinelDescribed(states: States, cfg: Settings, h: Host)
    requires h in SentinelEntries(states, cfg)
    ensures DescribesSentinel(states, cfg, h, SentinelEntries(states, cfg)[h])
  {
  }

  lemma ReplicasDescribed(states: States, priorities: map<Host, int>, cfg: Settings, t: SentiCache.Target)
    requires Lists(t.replicas, OnlineReplicas(states), ReplicaEntries(states, priorities, cfg))
    ensures forall h :: OnlineReplica(states, h) ==>
              exists r :: r in t.replicas && DescribesReplica(states, priorities, cfg, h, r)
    ensures forall r :: r in t.replicas ==>
              exists h :: OnlineReplica(states, h) && DescribesReplica(states, priorities, cfg, h, r)
  {
    hide DescribesReplica, ReplicaEntries;
    var replicas := ReplicaEntries(states, priorities, cfg);
    forall h | OnlineReplica(states, h)
      ensures exists r :: r in t.replicas && DescribesReplica(states, priorities, cfg, h, r)
    {
      assert h in OnlineReplicas(states) && h in replicas;
      ReplicaDescribed(states, priorities, cfg, h);
      assert replicas[h] in t.replicas;
    }
    forall r | r in t.replicas
      ensures exists h :: OnlineReplica(states, h) && DescribesReplica(states, priorities, cfg, h, r)
    {
      var h :| h in OnlineReplicas(states) && replicas[h] == r;
      ReplicaDescribed(states, priorities, cfg, h);
    }
  }

  lemma SentinelsDescribed(states: States, cfg: Settings, t: SentiCache.Target)
    requires Lists(t.sentinels, OtherSentinels(states, cfg), SentinelEntries(states, cfg))
    ensures forall h :: OtherSentinel(states, cfg, h) ==>
              exists s :: s in t.sentinels && DescribesSentinel(states, cfg, h, s)
    ensures forall s :: s in t.sentinels ==>
              exists h :: OtherSentinel(states, cfg, h) && DescribesSentinel(states, cfg, h, s)
  {
    hide DescribesSentinel, SentinelEntries;
    var sentinels := SentinelEntries(states, cfg);
    forall h | OtherSentinel(states, cfg, h)
      ensures exists s :: s in t.sentinels && DescribesSentinel(states, cfg, h, s)
    {
      assert h in OtherSentinels(states, cfg) && h in sentinels;
      SentinelDescribed(states, cfg, h);
      assert sentinels[h] in t.sentinels;
    }
    forall s | s in t.sentinels
      ensures exists h :: OtherSentinel(states, cfg, h) && DescribesSentinel(states, cfg, h, s)
    {
      var h :| h in OtherSentinels(states, cfg) && sentinels[h] == s;
      SentinelDescribed(states, cfg, h);
    }
  }

  // ----- what is known after the hosts in `seen` -----

  ghost predicate MasterSeen(states: States, cfg: Settings, head: SentiCache.Target, master: Host, seen: set<Host>) {
    if head.addr.host == "" then OpenMasters(states) * seen == {}
    else OpenMasters(states) * seen == {master} && master in states && head == WithMaster(states, cfg, head, master)
  }

  ghost predicate ReplicasSeen(states: States, priorities: map<Host, int>, cfg: Settings, list: seq<SentiCache.TargetReplica>, seen: set<Host>) {
    Lists(list, OnlineReplicas(states) * seen, ReplicaEntries(states, priorities, cfg))
  }

  ghost predicate SentinelsSeen(states: States, cfg: Settings, list: seq<SentiCache.TargetSentinel>, seen: set<Host>) {
    Lists(list, OtherSentinels(states, cfg) * seen, SentinelEntries(states, cfg))
  }

  lemma NothingSeen(states: States, priorities: map<Host, int>, cfg: Settings, target: SentiCache.Target, master: Host)
    requires target.addr.host == "" && target.replicas == [] && target.sentinels == []
    ensures MasterSeen(states, cfg, Head(target), master, states.Keys - states.Keys)
    ensures ReplicasSeen(states, priorities, cfg, target.replicas, states.Keys - states.Keys)
    ensures SentinelsSeen(states, cfg, target.sentinels, states.Keys - states.Keys)
  {
    assert OpenMasters(states) * (states.Keys - states.Keys) == {};
    assert OnlineReplicas(states) * (states.Keys - states.Keys) == {};
    assert OtherSentinels(states, cfg) * (states.Keys - states.Keys) == {};
  }

  lemma SeeMember(all: set<Host>, seen: set<Host>, h: Host)
    ensures all * (seen + {h}) == if h in all then (all * seen) + {h} else all * seen
  {
  }

  lemma SeeMaster(states: States, cfg: Settings, head: SentiCache.Target, master: Host, seen: set<Host>, h: Host)
    requires MasterSeen(states, cfg, head, master, seen) && h in states && h !in seen
    ensures !OpenMaster(states, h) ==> MasterSeen(states, cfg, head, master, seen + {h})
    ensures OpenMaster(states, h) && head.addr.host == "" && Announced(states, cfg, h) != "" ==>
              MasterSeen(states, cfg, WithMaster(states, cfg, head, h), h, seen + {h})
    ensures OpenMaster(states, h) && head.addr.host != "" ==> |OpenMasters(states)| > 1
  {
    SeeMember(OpenMasters(states), seen, h);
    if OpenMaster(states, h) && head.addr.host != "" {
      assert master in OpenMasters(states) * seen;
      TwoOpen(states, master, h);
    }
  }

  lemma SeeReplica(states: States, priorities: map<Host, int>, cfg: Settings, list: seq<SentiCache.TargetReplica>, seen: set<Host>, h: Host)
    requires ReplicasSeen(states, priorities, cfg, list, seen) && h in states && h !in seen
    ensures !OnlineReplica(states, h) ==> ReplicasSeen(states, priorities, cfg, list, seen + {h})
    ensures OnlineReplica(states, h) && h in priorities && Follows(states, h) ==>
              ReplicasSeen(states, priorities, cfg, list + [ReplicaOf(states, priorities, cfg, h)], seen + {h})
  {
    SeeMember(OnlineReplicas(states), seen, h);
    if OnlineReplica(states, h) && h in priorities && Follows(states, h) {
      ListsOneMore(list, OnlineReplicas(states) * seen, ReplicaEntries(states, priorities, cfg), h);
    }
  }

  lemma SeeSentinel(states: States, cfg: Settings, list: seq<SentiCache.TargetSentinel>, seen: set<Host>, h: Host)
    requires SentinelsSeen(states, cfg, list, seen) && h in states && h !in seen
    ensures !OtherSentinel(states, cfg, h) ==> SentinelsSeen(states, cfg, list, seen + {h})
    ensures OtherSentinel(states, cfg, h) ==> SentinelsSeen(states, cfg, list + [SentinelOf(states, cfg, h)], seen + {h})
  {
    SeeMember(OtherSentinels(states, cfg), seen, h);
    if OtherSentinel(states, cfg, h) {
      ListsOneMore(list, OtherSentinels(states, cfg) * seen, SentinelEntries(states, cfg), h);
    }
  }

  lemma AllSeen(states: States, priorities: map<Host, int>, cfg: Settings, target: SentiCache.Target, master: Host, seen: set<Host>)
    requires seen == states.Keys && MasterSeen(states, cfg, Head(target), master, seen)
    requires ReplicasSeen(states, priorities, cfg, target.replicas, seen) && SentinelsSeen(states, cfg, target.sentinels, seen)
    ensures AllConfigured(states, priorities)
    ensures OpenMasters(states) == if target.addr.host == "" then {} else {master}
    ensures target.addr.host != "" ==> master in states && target == WithMaster(states, cfg, target, master)
    ensures Lists(target.replicas, OnlineReplicas(states), ReplicaEntries(states, priorities, cfg))
    ensures Lists(target.sentinels, OtherSentinels(states, cfg), SentinelEntries(states, cfg))
  {
    hide ReplicaEntries, SentinelEntries, AllConfigured, Lists;
    assert OpenMasters(states) * seen == OpenMasters(states);
    assert OnlineReplicas(states) * seen == OnlineReplicas(states);
    assert OtherSentinels(states, cfg) * seen == OtherSentinels(states, cfg);
    Configured(states, priorities, cfg, target.replicas);
  }

  lemma Configured(states: States, priorities: map<Host, int>, cfg: Settings, list: seq<SentiCache.TargetReplica>)
    requires Lists(list, OnlineReplicas(states), ReplicaEntries(states, priorities, cfg))
    ensures AllConfigured(states, priorities)
  {
    forall h | OnlineReplica(states, h) ensures h in priorities {
      assert h in OnlineReplicas(states);
      assert h in ReplicaEntries(states, priorities, cfg);
    }
  }

  lemma TwoOpen(states: States, a: Host, b: Host)
    requires OpenMaster(states, a) && OpenMaster(states, b) && a != b
    ensures |OpenMasters(states)| > 1
  {
    SubsetSize({a, b}, OpenMasters(states));
  }

  // ----- from the states of the hosts to the cache -----

  /** Everything a built state would say can be written into a command: texts without
      separators, ports and counts the server accepts, and no online replica announced
      under the master's address. */
  ghost predicate Writable(states: States, cfg: Settings, maxClients: nat) {
    && SentiCache.Leading(cfg.clusterName) && SentiCache.GoodPort(cfg.port) && SentiCache.GoodPort(cfg.cachePort)
    && |states| / 2 + 1 < maxClients && 0 < cfg.maxParallelSyncs < maxClients
    && (forall h :: OpenMaster(states, h) ==> SentiCache.Leading(Announced(states, cfg, h)) && SentiCache.Leading(states[h].runid))
    && (forall h :: OnlineReplica(states, h) ==> ReplicaWritable(states, cfg, h))
    && (forall h :: OtherSentinel(states, cfg, h) ==> SentinelWritable(states, cfg, h))
    && (forall m, h :: OpenMaster(states, m) && OnlineReplica(states, h) ==>
          !SentiCache.SameButCase(Announced(states, cfg, m), Announced(states, cfg, h)))
  }

  ghost predicate ReplicaWritable(states: States, cfg: Settings, h: Host)
    requires OnlineReplica(states, h)
  {
    && SentiCache.Leading(Announced(states, cfg, h)) && SentiCache.Plain(states[h].runid)
    && Follows(states, h) && SentiCache.Plain(states[h].replica.value.masterHost)
  }

  ghost predicate SentinelWritable(states: States, cfg: Settings, h: Host)
    requires OtherSentinel(states, cfg, h)
  {
    && SentiCache.Leading(states[h].sentinel.value.name) && SentiCache.Plain(states[h].sentinel.value.runid)
    && SentiCache.Plain(Announced(states, cfg, h))
  }

  /** What BuildState promises of a success. */
  ghost predicate Built(states: States, priorities: map<Host, int>, cfg: Settings, t: SentiCache.Target, master: Host) {
    && OpenMasters(states) == {master} && master in states
    && t == WithMaster(states, cfg, t, master)
    && Lists(t.replicas, OnlineReplicas(states), ReplicaEntries(states, priorities, cfg))
    && Lists(t.sentinels, OtherSentinels(states, cfg), SentinelEntries(states, cfg))
  }

  lemma BuiltReplicaIsGood(states: States, priorities: map<Host, int>, cfg: Settings, maxClients: nat,
                           t: SentiCache.Target, master: Host, r: SentiCache.TargetReplica)
    requires Writable(states, cfg, maxClients) && Built(states, priorities, cfg, t, master) && r in t.replicas
    ensures SentiCache.GoodReplica(r) && !SentiCache.SameAddr(t.addr, r.addr)
  {
    hide SentiCache.Leading, SentiCache.Plain, SentiCache.SameButCase;
    var h :| h in OnlineReplicas(states) && ReplicaEntries(states, priorities, cfg)[h] == r;
    assert master in OpenMasters(states) && ReplicaWritable(states, cfg, h);
  }

  lemma BuiltSentinelIsGood(states: States, priorities: map<Host, int>, cfg: Settings, maxClients: nat,
                            t: SentiCache.Target, master: Host, s: SentiCache.TargetSentinel)
    requires Writable(states, cfg, maxClients) && Built(states, priorities, cfg, t, master) && s in t.sentinels
    ensures SentiCache.GoodSentinel(s)
  {
    hide SentiCache.Leading, SentiCache.Plain;
    var h :| h in OtherSentinels(states, cfg) && SentinelEntries(states, cfg)[h] == s;
    assert SentinelWritable(states, cfg, h);
  }

  /** A state built from writable texts is one the senticache can be brought to. */
  lemma BuiltIsGood(states: States, priorities: map<Host, int>, cfg: Settings, maxClients: nat, t: SentiCache.Target, master: Host)
    requires Writable(states, cfg, maxClients) && Built(states, priorities, cfg, t, master)
    ensures SentiCache.GoodTarget(t, maxClients)
  {
    forall r | r in t.replicas ensures SentiCache.GoodReplica(r) && !SentiCache.SameAddr(t.addr, r.addr) {
      BuiltReplicaIsGood(states, priorities, cfg, maxClients, t, master, r);
    }
    forall s | s in t.sentinels ensures SentiCache.GoodSentinel(s) {
      BuiltSentinelIsGood(states, priorities, cfg, maxClients, t, master, s);
    }
    hide SentiCache.GoodReplica, SentiCache.GoodSentinel, SentiCache.SameAddr, SentiCache.Leading, Lists;
    assert master in OpenMasters(states) && OpenMaster(states, master);
  }

  /** Every replica of a built state is announced, so the cache lists it the next time. */
  lemma BuiltAnnounces(states: States, priorities: map<Host, int>, cfg: Settings, t: SentiCache.Target, master: Host)
    requires Built(states, priorities, cfg, t, master)
    ensures SentiCacheUpdate.Announcing(t)
  {
    forall r | r in t.replicas ensures r.announced != 0 {
      var h :| h in OnlineReplicas(states) && ReplicaEntries(states, priorities, cfg)[h] == r;
    }
  }

  /** updateCache, end to end: with exactly one open master, a success leaves the cache
      naming that master, all online replicas and all other sentinels. */
  method UpdateCache(states: States, priorities: map<Host, int>, cfg: Settings, node: SentiCacheNode.Node, answering: bool)
    returns (ok: bool)
    requires WellFormed(states, cfg) && Writable(states, cfg, node.server.maxClients)
    requires SentiCache.GoodCache(node.server.cache)
    modifies node, node.server
    ensures SentiCache.GoodCache(node.server.cache)
    ensures !(|OpenMasters(states)| == 1 && AllConfigured(states, priorities)) ==>
              !ok && node.server.cache == old(node.server.cache) && node.broken == old(node.broken)
    ensures answering && |OpenMasters(states)| == 1 && AllConfigured(states, priorities) ==> ok
    ensures ok ==> node.server.cache.Some? && exists t, master ::
                && Built(states, priorities, cfg, t, master)
                && SentiCacheUpdate.Matches(if old(node.broken) then None else old(node.server.cache), t, node.server.cache.value)
                && (SentiCacheUpdate.Unlisted(if old(node.broken) then None else old(node.server.cache)) == {} ==>
                      && node.server.cache.value.replicas == SentiCache.TargetReplicas(t.replicas)
                      && SentiCacheUpdate.Unlisted(node.server.cache) == {})
  {
    var res, master := BuildState(states, priorities, cfg);
    if res.Failure? {
      return false;
    }
    var t := res.value;
    assert Built(states, priorities, cfg, t, master);
    BuiltIsGood(states, priorities, cfg, node.server.maxClients, t, master);
    BuiltAnnounces(states, priorities, cfg, t, master);
    hide Built, Writable, SentiCache.GoodTarget, SentiCache.GoodCache, SentiCacheUpdate.Matches, SentiCacheUpdate.Unlisted;
    ghost var prior := if node.broken then None else node.server.cache;
    ok := node.Update(t, answering);
    if ok && SentiCacheUpdate.Unlisted(prior) == {} {
      SentiCacheUpdate.AnnouncedStaysListed(prior, t, node.server.cache.value);
    }
  }
}
