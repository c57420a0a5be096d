// One update of a senticache, from the listing rdsync starts with to the state the
// cache ends in.

module SentiCacheUpdate {
  import opened Wrappers
  import opened Quorum
  import opened SentiText
  import opened SentiCache

  // ----- the texts survive -----

  lemma {:induction false} JoinChars(fields: seq<string>, ch: char)
    requires ch != ' ' && forall f :: f in fields ==> ch !in f
    ensures ch !in Join(fields)
  {
    if |fields| > 1 {
      JoinChars(fields[1..], ch);
      var rest := Join(fields[1..]);
      assert ch !in fields[0] + " " + rest;
    }
  }

  lemma FieldsSurvive(fields: seq<string>)
    requires fields != [] && Leading(fields[0]) && forall f :: f in fields ==> Plain(f)
    ensures GoodValue(Join(fields)) && SplitArgs(Join(fields)) == fields
  {
    JoinChars(fields, ',');
    assert Join(fields)[0] == fields[0][0];
    SplitJoin(fields);
  }

  lemma NumberIsPlain(n: int)
    ensures Plain(PrintInt(n)) && (n >= 0 ==> Plain(PrintNat(n)) && Strtoul(PrintNat(n)) == n) && Strtol(PrintInt(n)) == n
  {
    PrintNatDigits(if n < 0 then -n else n);
    StrtolPrint(n);
    if n >= 0 {
      StrtoulPrint(n);
    }
  }

  lemma FoldLower(s: string)
    requires forall i :: 0 <= i < |s| ==> s[i] == '-' || 'a' <= s[i] <= 'z'
    ensures Fold(s) == s && GoodKey(s) == (s != "")
  {
  }

  lemma Keys()
    ensures Fold("master-name") == "master-name" && Fold("master-addr") == "master-addr"
    ensures Fold("master-spec") == "master-spec" && Fold("slave-spec") == "slave-spec"
    ensures Fold("add-replica") == "add-replica" && Fold("add-sentinel") == "add-sentinel"
    ensures Fold("delete-replica") == "delete-replica" && Fold("delete-sentinel") == "delete-sentinel"
  {
    FoldLower("master-name");
    FoldLower("master-addr");
    FoldLower("master-spec");
    FoldLower("slave-spec");
    FoldLower("add-replica");
    FoldLower("add-sentinel");
    FoldLower("delete-replica");
    FoldLower("delete-sentinel");
  }

  // ----- what each item does -----

  lemma AddrSurvives(addr: Addr)
    requires GoodAddr(addr)
    ensures ParseAddr(Join([addr.host, PrintNat(addr.port)])) == Some(addr)
    ensures GoodValue(Join([addr.host, PrintNat(addr.port)]))
  {
    NumberIsPlain(addr.port);
    FieldsSurvive([addr.host, PrintNat(addr.port)]);
  }

  lemma NameApplies(cache: Cache, mc: nat, t: Target)
    requires Leading(t.name)
    ensures GoodItem(NameItem(t)) && UpdateCacheKey(cache, mc, PairOf(NameItem(t))) == UpdatePrimaryName(cache, t.name)
  {
    Keys();
    FieldsSurvive([t.name]);
  }

  /** The primary after the name and the address have been dealt with. */
  function Moved(p: Primary, addr: Addr): Primary {
    if SameAddr(addr, p.addr) then p
    else p.(addr := addr, replicas := if p.addr.port != 0 then map[] else p.replicas)
  }

  lemma AddrApplies(p: Primary, mc: nat, t: Target)
    requires GoodAddr(t.addr)
    ensures GoodItem(AddrItem(t)) && UpdateCacheKey(Some(p), mc, PairOf(AddrItem(t))) == Outcome(Some(Moved(p, t.addr)), true)
  {
    Keys();
    AddrSurvives(t.addr);
  }

  lemma SpecApplies(p: Primary, mc: nat, t: Target)
    requires Leading(t.runid) && 0 < t.quorum < mc && 0 < t.parallelSyncs < mc
    ensures GoodItem(SpecItem(t))
    ensures UpdateCacheKey(Some(p), mc, PairOf(SpecItem(t))) ==
            Outcome(Some(p.(runid := Some(t.runid), quorum := t.quorum, parallelSyncs := t.parallelSyncs,
                            configEpoch := t.configEpoch)), true)
  {
    Keys();
    NumberIsPlain(t.quorum);
    NumberIsPlain(t.parallelSyncs);
    NumberIsPlain(t.configEpoch);
    FieldsSurvive(SpecItem(t).fields);
  }

  lemma DropSentinelApplies(p: Primary, mc: nat, name: string)
    requires Leading(name)
    ensures GoodItem(DropSentinelItem(name))
    ensures UpdateCacheKey(Some(p), mc, PairOf(DropSentinelItem(name))) ==
            Outcome(Some(p.(sentinels := p.sentinels - {name})), true)
  {
    Keys();
    FieldsSurvive([name]);
  }

  lemma DropReplicaApplies(p: Primary, mc: nat, addr: Addr)
    requires GoodAddr(addr)
    ensures GoodItem(DropReplicaItem(addr))
    ensures UpdateCacheKey(Some(p), mc, PairOf(DropReplicaItem(addr))) ==
            Outcome(Some(p.(replicas := p.replicas - {addr})), true)
  {
    Keys();
    AddrSurvives(addr);
  }

  lemma AddSentinelApplies(p: Primary, mc: nat, s: TargetSentinel)
    requires GoodSentinel(s)
    ensures GoodItem(AddSentinelItem(s))
    ensures UpdateCacheKey(Some(p), mc, PairOf(AddSentinelItem(s))) ==
            Outcome(Some(if s.name in p.sentinels then p
                         else p.(sentinels := p.sentinels[s.name := Sentinel(Some(s.runid), s.addr)])), true)
  {
    Keys();
    NumberIsPlain(s.addr.port);
    FieldsSurvive(AddSentinelItem(s).fields);
  }

  lemma AddReplicaApplies(p: Primary, mc: nat, r: TargetReplica)
    requires GoodAddr(r.addr) && !SameAddr(p.addr, r.addr)
    ensures GoodItem(AddReplicaItem(r))
    ensures UpdateCacheKey(Some(p), mc, PairOf(AddReplicaItem(r))) ==
            Outcome(Some(if r.addr in p.replicas then p else p.(replicas := p.replicas[r.addr := NewReplica])), true)
  {
    Keys();
    AddrSurvives(r.addr);
  }

  lemma ReplicaSpecApplies(p: Primary, mc: nat, r: TargetReplica)
    requires GoodReplica(r) && r.addr in p.replicas
    ensures GoodItem(ReplicaSpecItem(r))
    ensures UpdateCacheKey(Some(p), mc, PairOf(ReplicaSpecItem(r))) ==
            Outcome(Some(p.(replicas := p.replicas[r.addr := SpecOf(r)])), true)
  {
    Keys();
    NumberIsPlain(r.addr.port);
    NumberIsPlain(r.linkDownTime);
    NumberIsPlain(r.priority);
    NumberIsPlain(r.announced);
    NumberIsPlain(r.masterPort);
    NumberIsPlain(r.linkStatus);
    NumberIsPlain(r.replOffset);
    FieldsSurvive(ReplicaSpecItem(r).fields);
  }

  // ----- runs of items -----

  function ApplyItems(cache: Cache, mc: nat, items: seq<Item>): Outcome {
    ApplyAll(cache, mc, PairsOf(items))
  }

  lemma ApplyItemsAppend(cache: Cache, mc: nat, a: seq<Item>, b: seq<Item>)
    ensures var first := ApplyItems(cache, mc, a);
            ApplyItems(cache, mc, a + b) == if first.ok then ApplyItems(first.cache, mc, b) else first
  {
    assert PairsOf(a + b) == PairsOf(a) + PairsOf(b);
    ApplyAppend(cache, mc, PairsOf(a), PairsOf(b));
  }

  lemma ApplyOne(cache: Cache, mc: nat, item: Item)
    ensures ApplyItems(cache, mc, [item]) == UpdateCacheKey(cache, mc, PairOf(item))
  {
    assert PairsOf([item]) == [PairOf(item)];
    assert ApplyAll(cache, mc, []) == Outcome(cache, true);
  }

  lemma ApplySnoc(cache: Cache, mc: nat, items: seq<Item>, item: Item)
    ensures var first := ApplyItems(cache, mc, items);
            ApplyItems(cache, mc, items + [item]) ==
            if first.ok then UpdateCacheKey(first.cache, mc, PairOf(item)) else first
  {
    ApplyItemsAppend(cache, mc, items, [item]);
    var first := ApplyItems(cache, mc, items);
    if first.ok {
      ApplyOne(first.cache, mc, item);
    }
  }

  ghost predicate AllGood(items: seq<Item>) {
    forall item :: item in items ==> GoodItem(item)
  }

  lemma {:induction false} DropSentinelsApply(p: Primary, mc: nat, names: seq<string>)
    requires forall n :: n in names ==> Leading(n)
    ensures AllGood(DropSentinelItems(names))
    ensures ApplyItems(Some(p), mc, DropSentinelItems(names)) == Outcome(Some(p.(sentinels := p.sentinels - SetOf(names))), true)
  {
    if names == [] {
      assert DropSentinelItems(names) == [];
      assert p.sentinels - SetOf(names) == p.sentinels;
    } else {
      var init, last := names[..|names| - 1], names[|names| - 1];
      hide UpdateCacheKey, ApplyItems, GoodItem, Fold;
      DropSentinelsApply(p, mc, init);
      assert DropSentinelItems(names) == DropSentinelItems(init) + [DropSentinelItem(last)];
      ApplySnoc(Some(p), mc, DropSentinelItems(init), DropSentinelItem(last));
      assert SetOf(names) == SetOf(init) + {last};
      assert p.sentinels - SetOf(init) - {last} == p.sentinels - SetOf(names);
      DropSentinelApplies(p.(sentinels := p.sentinels - SetOf(init)), mc, last);
    }
  }

  lemma {:induction false} DropReplicasApply(p: Primary, mc: nat, addrs: seq<Addr>)
    requires forall a :: a in addrs ==> GoodAddr(a)
    ensures AllGood(DropReplicaItems(addrs))
    ensures ApplyItems(Some(p), mc, DropReplicaItems(addrs)) == Outcome(Some(p.(replicas := p.replicas - SetOf(addrs))), true)
  {
    if addrs == [] {
      assert DropReplicaItems(addrs) == [];
      assert p.replicas - SetOf(addrs) == p.replicas;
    } else {
      var init, last := addrs[..|addrs| - 1], addrs[|addrs| - 1];
      hide UpdateCacheKey, ApplyItems, GoodItem, Fold;
      DropReplicasApply(p, mc, init);
      assert DropReplicaItems(addrs) == DropReplicaItems(init) + [DropReplicaItem(last)];
      ApplySnoc(Some(p), mc, DropReplicaItems(init), DropReplicaItem(last));
      assert SetOf(addrs) == SetOf(init) + {last};
      assert p.replicas - SetOf(init) - {last} == p.replicas - SetOf(addrs);
      DropReplicaApplies(p.(replicas := p.replicas - SetOf(init)), mc, last);
    }
  }

  /** The first entry under a name stays, be it an old one or a new one. */
  function Added(old_: map<string, Sentinel>, sentinels: seq<TargetSentinel>): (res: map<string, Sentinel>)
    ensures res.Keys == old_.Keys + TargetNames(sentinels)
    ensures forall n :: n in old_ ==> res[n] == old_[n]
  {
    if sentinels == [] then old_
    else
      var init, last := sentinels[..|sentinels| - 1], sentinels[|sentinels| - 1];
      var before := Added(old_, init);
      assert forall s :: s in sentinels <==> s in init || s == last;
      if last.name in before then before else before[last.name := Sentinel(Some(last.runid), last.addr)]
  }

  lemma NothingApplies(cache: Cache, mc: nat)
    ensures ApplyItems(cache, mc, []) == Outcome(cache, true)
  {
    assert PairsOf([]) == [];
  }

  lemma {:induction false} AddSentinelsApply(p: Primary, mc: nat, sentinels: seq<TargetSentinel>)
    requires forall s :: s in sentinels ==> GoodSentinel(s)
    ensures ApplyItems(Some(p), mc, AddSentinelItems(sentinels)) ==
            Outcome(Some(p.(sentinels := Added(p.sentinels, sentinels))), true)
  {
    hide UpdateCacheKey, ApplyItems, GoodItem, Fold, GoodSentinel;
    if sentinels == [] {
      NothingApplies(Some(p), mc);
      assert AddSentinelItems(sentinels) == [];
    } else {
      var init, last := sentinels[..|sentinels| - 1], sentinels[|sentinels| - 1];
      assert last in sentinels;
      AddSentinelsApply(p, mc, init);
      assert AddSentinelItems(sentinels) == AddSentinelItems(init) + [AddSentinelItem(last)];
      ApplySnoc(Some(p), mc, AddSentinelItems(init), AddSentinelItem(last));
      AddSentinelApplies(p.(sentinels := Added(p.sentinels, init)), mc, last);
    }
  }

  lemma AddSentinelsGood(sentinels: seq<TargetSentinel>)
    requires forall s :: s in sentinels ==> GoodSentinel(s)
    ensures AllGood(AddSentinelItems(sentinels))
  {
    forall item | item in AddSentinelItems(sentinels) ensures GoodItem(item) {
      var i :| 0 <= i < |sentinels| && item == AddSentinelItem(sentinels[i]);
      AddSentinelApplies(Primary("", Addr("", 0), None, 0, 0, 0, map[], map[]), 0, sentinels[i]);
    }
  }

  lemma {:induction false} ReplicasApply(p: Primary, mc: nat, replicas: seq<TargetReplica>)
    requires forall r :: r in replicas ==> GoodReplica(r) && !SameAddr(p.addr, r.addr)
    ensures ApplyItems(Some(p), mc, ReplicaItems(replicas)) ==
            Outcome(Some(p.(replicas := p.replicas + TargetReplicas(replicas))), true)
  {
    hide UpdateCacheKey, ApplyItems, GoodItem, Fold, GoodReplica, SameAddr, AllGood;
    if replicas == [] {
      NothingApplies(Some(p), mc);
      assert p.replicas + TargetReplicas(replicas) == p.replicas;
    } else {
      var init, last := replicas[..|replicas| - 1], replicas[|replicas| - 1];
      assert last in replicas;
      ReplicasApply(p, mc, init);
      var before := p.(replicas := p.replicas + TargetReplicas(init));
      OneReplicaApplies(before, mc, last);
      ApplyItemsAppend(Some(p), mc, ReplicaItems(init), [AddReplicaItem(last), ReplicaSpecItem(last)]);
      assert before.replicas[last.addr := SpecOf(last)] == p.replicas + TargetReplicas(replicas);
    }
  }

  lemma {:induction false} ReplicaItemsGood(replicas: seq<TargetReplica>)
    requires forall r :: r in replicas ==> GoodReplica(r)
    ensures AllGood(ReplicaItems(replicas))
  {
    hide UpdateCacheKey, ApplyItems, GoodItem, Fold, GoodReplica;
    if replicas != [] {
      var init, last := replicas[..|replicas| - 1], replicas[|replicas| - 1];
      assert last in replicas;
      ReplicaItemsGood(init);
      ReplicaItemGood(last);
    }
  }

  lemma ReplicaItemGood(r: TargetReplica)
    requires GoodReplica(r)
    ensures GoodItem(AddReplicaItem(r)) && GoodItem(ReplicaSpecItem(r))
  {
    var p := Primary("", Addr("", 0), None, 0, 0, 0, map[r.addr := NewReplica], map[]);
    ReplicaSpecApplies(p, 0, r);
    AddReplicaApplies(p, 0, r);
  }

  lemma OneReplicaApplies(p: Primary, mc: nat, r: TargetReplica)
    requires GoodReplica(r) && !SameAddr(p.addr, r.addr)
    ensures ApplyItems(Some(p), mc, [AddReplicaItem(r), ReplicaSpecItem(r)]) ==
            Outcome(Some(p.(replicas := p.replicas[r.addr := SpecOf(r)])), true)
  {
    hide UpdateCacheKey, ApplyItems, GoodItem, Fold, SameAddr;
    var added := if r.addr in p.replicas then p else p.(replicas := p.replicas[r.addr := NewReplica]);
    AddReplicaApplies(p, mc, r);
    ApplyOne(Some(p), mc, AddReplicaItem(r));
    ReplicaSpecApplies(added, mc, r);
    ApplySnoc(Some(p), mc, [AddReplicaItem(r)], ReplicaSpecItem(r));
    assert [AddReplicaItem(r)] + [ReplicaSpecItem(r)] == [AddReplicaItem(r), ReplicaSpecItem(r)];
    assert added.replicas[r.addr := SpecOf(r)] == p.replicas[r.addr := SpecOf(r)];
  }

  // ----- the whole update -----

  /** The primary that the name, the address and the spec of the target leave behind. */
  function Headed(cache: Cache, t: Target): Primary {
    var named := UpdatePrimaryName(cache, t.name).cache.value;
    Moved(named, t.addr).(runid := Some(t.runid), quorum := t.quorum, parallelSyncs := t.parallelSyncs,
                          configEpoch := t.configEpoch)
  }

  lemma HeadApplies(cache: Cache, mc: nat, t: Target)
    requires GoodTarget(t, mc)
    ensures AllGood([NameItem(t), AddrItem(t), SpecItem(t)])
    ensures ApplyItems(cache, mc, [NameItem(t), AddrItem(t), SpecItem(t)]) == Outcome(Some(Headed(cache, t)), true)
  {
    var named := UpdatePrimaryName(cache, t.name).cache.value;
    NameApplies(cache, mc, t);
    ApplyOne(cache, mc, NameItem(t));
    AddrApplies(named, mc, t);
    ApplySnoc(cache, mc, [NameItem(t)], AddrItem(t));
    SpecApplies(Moved(named, t.addr), mc, t);
    ApplySnoc(cache, mc, [NameItem(t), AddrItem(t)], SpecItem(t));
    assert [NameItem(t), AddrItem(t)] + [SpecItem(t)] == [NameItem(t), AddrItem(t), SpecItem(t)];
    assert [NameItem(t)] + [AddrItem(t)] == [NameItem(t), AddrItem(t)];
  }

  /** What the update leads to, given what it was told to drop. */
  function Final(cache: Cache, t: Target, dropSentinels: seq<string>, dropReplicas: seq<Addr>): Primary {
    var p := Headed(cache, t);
    p.(sentinels := Added(p.sentinels - SetOf(dropSentinels), t.sentinels),
    replicas := p.replicas - SetOf(dropReplicas) + TargetReplicas(t.replicas))
  }

  lemma HeadedAddr(cache: Cache, t: Target, r: TargetReplica)
    requires !SameAddr(t.addr, r.addr)
    ensures !SameAddr(Headed(cache, t).addr, r.addr)
  {
  }

  lemma ItemsApply(cache: Cache, mc: nat, t: Target, dropSentinels: seq<string>, dropReplicas: seq<Addr>)
    requires GoodTarget(t, mc)
    requires (forall n :: n in dropSentinels ==> Leading(n)) && (forall a :: a in dropReplicas ==> GoodAddr(a))
    ensures AllGood(Items(t, dropSentinels, dropReplicas))
    ensures ApplyItems(cache, mc, Items(t, dropSentinels, dropReplicas)) ==
            Outcome(Some(Final(cache, t, dropSentinels, dropReplicas)), true)
  {
    hide UpdateCacheKey, ApplyItems, UpdatePrimaryName, Moved, Headed, GoodItem, SameAddr, TargetReplicas, Added;
    var head := [NameItem(t), AddrItem(t), SpecItem(t)];
    var p := Headed(cache, t);
    HeadApplies(cache, mc, t);
    var s1 := DropSentinelItems(dropSentinels);
    DropSentinelsApply(p, mc, dropSentinels);
    ApplyItemsAppend(cache, mc, head, s1);
    var p1 := p.(sentinels := p.sentinels - SetOf(dropSentinels));
    var s2 := DropReplicaItems(dropReplicas);
    DropReplicasApply(p1, mc, dropReplicas);
    ApplyItemsAppend(cache, mc, head + s1, s2);
    var p2 := p1.(replicas := p1.replicas - SetOf(dropReplicas));
    var s3 := AddSentinelItems(t.sentinels);
    AddSentinelsApply(p2, mc, t.sentinels);
    AddSentinelsGood(t.sentinels);
    ApplyItemsAppend(cache, mc, head + s1 + s2, s3);
    var p3 := p2.(sentinels := Added(p2.sentinels, t.sentinels));
    forall r | r in t.replicas ensures GoodReplica(r) && !SameAddr(p3.addr, r.addr) {
      HeadedAddr(cache, t, r);
    }
    ReplicasApply(p3, mc, t.replicas);
    ReplicaItemsGood(t.replicas);
    ApplyItemsAppend(cache, mc, head + s1 + s2 + s3, ReplicaItems(t.replicas));
    assert Items(t, dropSentinels, dropReplicas) == head + s1 + s2 + s3 + ReplicaItems(t.replicas);
  }

  // ----- what the target promises -----

  function TargetAddrs(replicas: seq<TargetReplica>): set<Addr> {
    set r | r in replicas :: r.addr
  }

  function Names(cache: Cache): set<string> {
    if cache.None? then {} else cache.value.sentinels.Keys
  }

  /** Replicas the cache does not announce are not listed either. */
  function Listed(cache: Cache): set<Addr> {
    if cache.None? then {} else set a | a in cache.value.replicas && cache.value.replicas[a].announced != 0
  }

  function Unlisted(cache: Cache): set<Addr> {
    if cache.None? then {} else set a | a in cache.value.replicas && cache.value.replicas[a].announced == 0
  }

  /** The master moves to another address, and the cache forgets its replicas. */
  predicate Moves(cache: Cache, t: Target) {
    cache.Some? && cache.value.addr.port != 0 && !SameAddr(t.addr, cache.value.addr)
  }

  /** What the cache holds after an update: the target, except that a name or an address
      differing only in case is kept, and so are replicas that were not listed. */
  ghost predicate Matches(cache: Cache, t: Target, p: Primary) {
    && p.name == (if cache.Some? && SameButCase(t.name, cache.value.name) then cache.value.name else t.name)
    && p.addr == (if cache.Some? && SameAddr(t.addr, cache.value.addr) then cache.value.addr else t.addr)
    && p.runid == Some(t.runid) && p.quorum == t.quorum && p.parallelSyncs == t.parallelSyncs && p.configEpoch == t.configEpoch
    && p.sentinels.Keys == TargetNames(t.sentinels)
    && p.replicas.Keys == TargetAddrs(t.replicas) + (if Moves(cache, t) then {} else Unlisted(cache))
    && forall a :: a in TargetReplicas(t.replicas) ==> a in p.replicas && p.replicas[a] == TargetReplicas(t.replicas)[a]
  }

  lemma {:induction false} TargetReplicasKeys(replicas: seq<TargetReplica>)
    ensures TargetReplicas(replicas).Keys == TargetAddrs(replicas)
  {
    if replicas != [] {
      var init, last := replicas[..|replicas| - 1], replicas[|replicas| - 1];
      TargetReplicasKeys(init);
      assert forall r :: r in replicas <==> r in init || r == last;
    }
  }

  lemma HeadedParts(cache: Cache, t: Target)
    requires GoodPort(t.addr.port)
    ensures var p := Headed(cache, t);
            && p.sentinels.Keys == Names(cache)
            && p.runid == Some(t.runid) && p.quorum == t.quorum && p.parallelSyncs == t.parallelSyncs && p.configEpoch == t.configEpoch
            && p.replicas.Keys == (if Moves(cache, t) then {} else Listed(cache) + Unlisted(cache))
            && p.name == (if cache.Some? && SameButCase(t.name, cache.value.name) then cache.value.name else t.name)
            && p.addr == (if cache.Some? && SameAddr(t.addr, cache.value.addr) then cache.value.addr else t.addr)
  {
  }

  lemma FinalMatches(cache: Cache, t: Target, dropSentinels: seq<string>, dropReplicas: seq<Addr>)
    requires GoodPort(t.addr.port)
    requires SetOf(dropSentinels) == Names(cache) - TargetNames(t.sentinels)
    requires SetOf(dropReplicas) == Listed(cache) - TargetAddrs(t.replicas)
    ensures Matches(cache, t, Final(cache, t, dropSentinels, dropReplicas))
  {
    hide Headed, Moves, Added, SameAddr, SameButCase;
    HeadedParts(cache, t);
    TargetReplicasKeys(t.replicas);
    var p, f := Headed(cache, t), Final(cache, t, dropSentinels, dropReplicas);
    assert f.sentinels.Keys == p.sentinels.Keys - SetOf(dropSentinels) + TargetNames(t.sentinels);
    assert f.replicas.Keys == p.replicas.Keys - SetOf(dropReplicas) + TargetAddrs(t.replicas);
    var addrs := TargetAddrs(t.replicas);
    assert Listed(cache) + Unlisted(cache) - (Listed(cache) - addrs) + addrs == addrs + Unlisted(cache);
  }

  /** Everything the cache announces now, and will announce after an update to t. */
  ghost predicate Announcing(t: Target) {
    forall r :: r in t.replicas ==> r.announced != 0
  }

  lemma {:induction false} AnnouncedStay(replicas: seq<TargetReplica>)
    requires forall r :: r in replicas ==> r.announced != 0
    ensures forall a :: a in TargetReplicas(replicas) ==> TargetReplicas(replicas)[a].announced != 0
  {
    if replicas != [] {
      assert replicas[|replicas| - 1] in replicas;
      AnnouncedStay(replicas[..|replicas| - 1]);
    }
  }

  /** The replicas are the target's exactly, with all their fields, unless an unlisted one
      outside the target has been kept because the master did not move. */
  lemma ReplicasExact(cache: Cache, t: Target, p: Primary)
    requires Matches(cache, t, p)
    ensures p.replicas == TargetReplicas(t.replicas) <==>
            Moves(cache, t) || Unlisted(cache) <= TargetAddrs(t.replicas)
  {
    TargetReplicasKeys(t.replicas);
    if Moves(cache, t) || Unlisted(cache) <= TargetAddrs(t.replicas) {
      assert p.replicas.Keys == TargetReplicas(t.replicas).Keys;
    }
  }

  /** rdsync announces every replica, so a cache that only it has written to lists
      everything, and updates can follow one another. */
  lemma AnnouncedStaysListed(cache: Cache, t: Target, p: Primary)
    requires Matches(cache, t, p) && Unlisted(cache) == {} && Announcing(t)
    ensures p.replicas == TargetReplicas(t.replicas) && Unlisted(Some(p)) == {}
  {
    ReplicasExact(cache, t, p);
    AnnouncedStay(t.replicas);
  }

  /** The name and the address are the target's unless the cache held another spelling. */
  lemma SpellingExact(cache: Cache, t: Target, p: Primary)
    requires Matches(cache, t, p)
    ensures p.name == t.name <==>
            !(cache.Some? && SameButCase(t.name, cache.value.name) && cache.value.name != t.name)
    ensures p.addr == t.addr <==>
            !(cache.Some? && SameAddr(t.addr, cache.value.addr) && cache.value.addr != t.addr)
  {
  }

  // ----- the cache as a server -----

  class Senticache {
    const maxClients: nat
    var cache: Cache

    constructor (maxClients: nat)
      ensures cache == None && this.maxClients == maxClients
    {
      this.maxClients := maxClients;
      cache := None;
    }

    method UpdateKey(key: string, value: string) returns (ok: bool)
      modifies this
      ensures Outcome(cache, ok) == UpdateCacheKey(old(cache), maxClients, Pair(key, value))
    {
      var outcome := UpdateCacheKey(cache, maxClients, Pair(key, value));
      cache := outcome.cache;
      ok := outcome.ok;
    }

    /** sentinelCacheUpdate: the arguments, put together again, are read once; every
        pair is applied as soon as it is complete, and the first failure ends it. */
    method CacheUpdate(args: seq<string>) returns (ok: bool)
      modifies this
      ensures var parsed := Parse(Join(args));
              && cache == ApplyAll(old(cache), maxClients, parsed.pairs).cache
              && (ok <==> ApplyAll(old(cache), maxClients, parsed.pairs).ok && parsed.last.KeyStart?)
    {
      hide UpdateCacheKey, Fold, ApplyAll;
      var text := Join(args);
      var state := KeyStart;
      var keyStart, keyEnd, valueStart := 0, 0, 0;
      ApplyNone(cache, maxClients);
      for i := 0 to |text|
        invariant keyStart <= i && keyEnd <= i && valueStart <= i
        invariant Reads(Scan(Fresh, text[..i]), state, text, keyStart, keyEnd, valueStart, i)
        invariant ApplyAll(old(cache), maxClients, Scan(Fresh, text[..i]).pairs) == Outcome(cache, true)
      {
        assert text[..i + 1][..i] == text[..i];
        var ch := text[i];
        StepReads(Scan(Fresh, text[..i]), text, keyStart, keyEnd, valueStart, i);
        match state
        case KeyStart =>
          if !IsSpace(ch) {
            state, keyStart := KeyRead, i;
          }
        case KeyRead =>
          if ch == ':' {
            state, keyEnd := ValueStart, i;
          }
        case ValueStart =>
          if !IsSpace(ch) {
            state, valueStart := ValueRead, i;
          }
        case ValueRead =>
          if ch == ',' {
            state := KeyStart;
            ghost var pairs := Scan(Fresh, text[..i]).pairs;
            ApplySnocPair(old(cache), maxClients, pairs, Pair(text[keyStart..keyEnd], text[valueStart..i]));
            ok := UpdateKey(text[keyStart..keyEnd], text[valueStart..i]);
            if !ok {
              FailureDecides(old(cache), maxClients, text, i + 1);
              return;
            }
          }
      }
      assert text[..|text|] == text;
      if state == ValueRead {
        ghost var pairs := Scan(Fresh, text).pairs;
        ApplySnocPair(old(cache), maxClients, pairs, Pair(text[keyStart..keyEnd], text[valueStart..]));
        ok := UpdateKey(text[keyStart..keyEnd], text[valueStart..]);
        if ok {
          state := KeyStart;
        }
      }
      ok := state == KeyStart;
    }

    method ListSentinels() returns (names: seq<string>)
      ensures SetOf(names) == Names(cache)
    {
      names := [];
      if cache.Some? {
        var todo := cache.value.sentinels.Keys;
        while todo != {}
          invariant todo <= Names(cache) && SetOf(names) == Names(cache) - todo
        {
          var name :| name in todo;
          todo := todo - {name};
          assert SetOf(names + [name]) == SetOf(names) + {name};
          names := names + [name];
        }
      }
    }

    /** addReplyDictOfValkeyInstances leaves out the replicas that are not announced. */
    method ListReplicas() returns (addrs: seq<Addr>)
      ensures SetOf(addrs) == Listed(cache)
    {
      addrs := [];
      if cache.Some? {
        var todo := cache.value.replicas.Keys;
        while todo != {}
          invariant todo <= cache.value.replicas.Keys && SetOf(addrs) == Listed(cache) - todo
        {
          var addr :| addr in todo;
          todo := todo - {addr};
          assert SetOf(addrs + [addr]) == SetOf(addrs) + {addr};
          if cache.value.replicas[addr].announced != 0 {
            addrs := addrs + [addr];
          }
        }
      }
    }
  }

  /** How the indices of the C loop stand for what has been read. */
  ghost predicate Reads(p: Parsed, state: ParserState, text: string, keyStart: nat, keyEnd: nat, valueStart: nat, i: nat)
    requires keyStart <= i && keyEnd <= i && valueStart <= i <= |text|
  {
    && p.last == state
    && match state
       case KeyStart => p.key == "" && p.value == ""
       case KeyRead => p.key == text[keyStart..i] && p.value == ""
       case ValueStart => keyStart <= keyEnd && p.key == text[keyStart..keyEnd] && p.value == ""
       case ValueRead => keyStart <= keyEnd && p.key == text[keyStart..keyEnd] && p.value == text[valueStart..i]
  }

  lemma ApplyNone(cache: Cache, mc: nat)
    ensures ApplyAll(cache, mc, []) == Outcome(cache, true)
  {
  }

  lemma StepReads(p: Parsed, text: string, keyStart: nat, keyEnd: nat, valueStart: nat, i: nat)
    requires keyStart <= i && keyEnd <= i && valueStart <= i < |text|
    requires Reads(p, p.last, text, keyStart, keyEnd, valueStart, i)
    ensures var q := Step(p, text[i]);
            Reads(q, q.last, text,
                  if p.last.KeyStart? && q.last.KeyRead? then i else keyStart,
                  if p.last.KeyRead? && q.last.ValueStart? then i else keyEnd,
                  if p.last.ValueStart? && q.last.ValueRead? then i else valueStart, i + 1)
  {
    assert text[i..i + 1] == [text[i]];
    assert keyStart <= i && text[keyStart..i + 1] == text[keyStart..i] + [text[i]];
    assert valueStart <= i && text[valueStart..i + 1] == text[valueStart..i] + [text[i]];
  }

  lemma ApplySnocPair(cache: Cache, mc: nat, pairs: seq<Pair>, pair: Pair)
    ensures var before := ApplyAll(cache, mc, pairs);
            ApplyAll(cache, mc, pairs + [pair]) == if before.ok then UpdateCacheKey(before.cache, mc, pair) else before
  {
    assert (pairs + [pair])[..|pairs|] == pairs;
  }
}
