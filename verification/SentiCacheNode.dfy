// internal/valkey/senticache.go, Update: list what the cache holds, work out what has
// to go, and send one command that brings the cache to the target.

module SentiCacheNode {
  import opened Wrappers
  import opened Quorum
  import opened SentiText
  import opened SentiCache
  import opened SentiCacheUpdate

  method DropSentinels(listed: seq<string>, targets: seq<TargetSentinel>) returns (drop: seq<string>)
    ensures SetOf(drop) == SetOf(listed) - TargetNames(targets)
  {
    drop := [];
    for i := 0 to |listed|
      invariant SetOf(drop) == SetOf(listed[..i]) - TargetNames(targets)
    {
      var found := false;
      for j := 0 to |targets|
        invariant !found && forall k :: 0 <= k < j ==> targets[k].name != listed[i]
      {
        if listed[i] == targets[j].name {
          found := true;
          break;
        }
      }
      assert SetOf(listed[..i + 1]) == SetOf(listed[..i]) + {listed[i]};
      if !found {
        assert SetOf(drop + [listed[i]]) == SetOf(drop) + {listed[i]};
        drop := drop + [listed[i]];
      }
    }
    assert listed[..|listed|] == listed;
  }

  method DropReplicas(listed: seq<Addr>, targets: seq<TargetReplica>) returns (drop: seq<Addr>)
    ensures SetOf(drop) == SetOf(listed) - TargetAddrs(targets)
  {
    drop := [];
    for i := 0 to |listed|
      invariant SetOf(drop) == SetOf(listed[..i]) - TargetAddrs(targets)
    {
      var found := false;
      for j := 0 to |targets|
        invariant !found && forall k :: 0 <= k < j ==> targets[k].addr != listed[i]
      {
        if listed[i].host == targets[j].addr.host && listed[i].port == targets[j].addr.port {
          found := true;
          break;
        }
      }
      assert SetOf(listed[..i + 1]) == SetOf(listed[..i]) + {listed[i]};
      if !found {
        assert SetOf(drop + [listed[i]]) == SetOf(drop) + {listed[i]};
        drop := drop + [listed[i]];
      }
    }
    assert listed[..|listed|] == listed;
  }

  lemma CommandSnoc(items: seq<Item>, item: Item)
    requires Complete(items) && item.fields != []
    ensures Complete(items + [item]) && Command(items + [item]) == Command(items) + Arguments(item)
  {
    assert (items + [item])[..|items|] == items;
  }

  /** The arguments after the secret: every item followed by the next, each one's last
      argument ending in a comma. */
  method BuildCommand(t: Target, dropSentinels: seq<string>, dropReplicas: seq<Addr>) returns (command: seq<string>)
    ensures Complete(Items(t, dropSentinels, dropReplicas))
    ensures command == Command(Items(t, dropSentinels, dropReplicas))
  {
    hide Arguments, Command;
    command := ["master-name:", t.name + ",",
                "master-addr:", t.addr.host, PrintNat(t.addr.port) + ",",
                "master-spec:", t.runid, PrintNat(t.quorum), PrintNat(t.parallelSyncs), PrintNat(t.configEpoch) + ","];
    ghost var items := [NameItem(t), AddrItem(t), SpecItem(t)];
    HeadCommand(t);
    HeadArguments(t);
    assert items + DropSentinelItems(dropSentinels[..0]) == items;
    for i := 0 to |dropSentinels|
      invariant Complete(items) && command == Command(items)
      invariant items == [NameItem(t), AddrItem(t), SpecItem(t)] + DropSentinelItems(dropSentinels[..i])
    {
      DropSentinelArguments(dropSentinels[i]);
      CommandSnoc(items, DropSentinelItem(dropSentinels[i]));
      assert DropSentinelItems(dropSentinels[..i + 1]) == DropSentinelItems(dropSentinels[..i]) + [DropSentinelItem(dropSentinels[i])];
      command := command + ["delete-sentinel:", dropSentinels[i] + ","];
      items := items + [DropSentinelItem(dropSentinels[i])];
    }
    ghost var base := items;
    for i := 0 to |dropReplicas|
      invariant Complete(items) && command == Command(items)
      invariant items == base + DropReplicaItems(dropReplicas[..i])
    {
      DropReplicaArguments(dropReplicas[i]);
      CommandSnoc(items, DropReplicaItem(dropReplicas[i]));
      assert DropReplicaItems(dropReplicas[..i + 1]) == DropReplicaItems(dropReplicas[..i]) + [DropReplicaItem(dropReplicas[i])];
      command := command + ["delete-replica:", dropReplicas[i].host, PrintNat(dropReplicas[i].port) + ","];
      items := items + [DropReplicaItem(dropReplicas[i])];
    }
    command, items := AppendTarget(command, items, t);
    assert dropSentinels[..|dropSentinels|] == dropSentinels && dropReplicas[..|dropReplicas|] == dropReplicas;
    assert items == Items(t, dropSentinels, dropReplicas);
  }

  // ----- the arguments of each kind of item, spelled out -----

  lemma DropSentinelArguments(name: string)
    ensures Arguments(DropSentinelItem(name)) == ["delete-sentinel:", name + ","]
  {
    assert "delete-sentinel" + ":" == "delete-sentinel:";
  }

  lemma DropReplicaArguments(addr: Addr)
    ensures Arguments(DropReplicaItem(addr)) == ["delete-replica:", addr.host, PrintNat(addr.port) + ","]
  {
    assert "delete-replica" + ":" == "delete-replica:";
  }

  lemma AddSentinelArguments(s: TargetSentinel)
    ensures Arguments(AddSentinelItem(s)) == ["add-sentinel:", s.name, s.runid, s.addr.host, PrintNat(s.addr.port) + ","]
  {
    assert "add-sentinel" + ":" == "add-sentinel:";
  }

  lemma AddReplicaArguments(r: TargetReplica)
    ensures Arguments(AddReplicaItem(r)) == ["add-replica:", r.addr.host, PrintNat(r.addr.port) + ","]
  {
    assert "add-replica" + ":" == "add-replica:";
  }

  lemma ReplicaSpecArguments(r: TargetReplica)
    ensures Arguments(ReplicaSpecItem(r)) ==
            ["slave-spec:", r.addr.host, PrintNat(r.addr.port), r.runid, PrintInt(r.linkDownTime),
             PrintInt(r.priority), PrintInt(r.announced), r.masterHost,
             PrintNat(r.masterPort), PrintInt(r.linkStatus), PrintNat(r.replOffset) + ","]
  {
    assert "slave-spec" + ":" == "slave-spec:";
  }

  lemma HeadArguments(t: Target)
    ensures Arguments(NameItem(t)) == ["master-name:", t.name + ","]
    ensures Arguments(AddrItem(t)) == ["master-addr:", t.addr.host, PrintNat(t.addr.port) + ","]
    ensures Arguments(SpecItem(t)) ==
            ["master-spec:", t.runid, PrintNat(t.quorum), PrintNat(t.parallelSyncs), PrintNat(t.configEpoch) + ","]
  {
    assert "master-name" + ":" == "master-name:";
    assert "master-addr" + ":" == "master-addr:";
    assert "master-spec" + ":" == "master-spec:";
  }

  lemma HeadCommand(t: Target)
    ensures Command([NameItem(t), AddrItem(t), SpecItem(t)]) ==
            Arguments(NameItem(t)) + Arguments(AddrItem(t)) + Arguments(SpecItem(t))
  {
    hide Arguments, Command;
    CommandThree(NameItem(t), AddrItem(t), SpecItem(t));
  }

  lemma CommandThree(a: Item, b: Item, c: Item)
    requires a.fields != [] && b.fields != [] && c.fields != []
    ensures Command([a, b, c]) == Arguments(a) + Arguments(b) + Arguments(c)
  {
    CommandNothing();
    hide Arguments, Command;
    CommandSnoc([], a);
    assert [] + [a] == [a];
    CommandSnoc([a], b);
    assert [a] + [b] == [a, b];
    CommandSnoc([a, b], c);
    assert [a, b] + [c] == [a, b, c];
  }

  lemma CommandNothing()
    ensures Command([]) == []
  {
  }

  method AppendTarget(before: seq<string>, ghost itemsBefore: seq<Item>, t: Target)
    returns (command: seq<string>, ghost items: seq<Item>)
    requires Complete(itemsBefore) && before == Command(itemsBefore)
    ensures Complete(items) && command == Command(items)
    ensures items == itemsBefore + AddSentinelItems(t.sentinels) + ReplicaItems(t.replicas)
  {
    hide Arguments, Command;
    command, items := before, itemsBefore;
    for i := 0 to |t.sentinels|
      invariant Complete(items) && command == Command(items)
      invariant items == itemsBefore + AddSentinelItems(t.sentinels[..i])
    {
      var s := t.sentinels[i];
      AddSentinelArguments(s);
      CommandSnoc(items, AddSentinelItem(s));
      assert AddSentinelItems(t.sentinels[..i + 1]) == AddSentinelItems(t.sentinels[..i]) + [AddSentinelItem(s)];
      command := command + ["add-sentinel:", s.name, s.runid, s.addr.host, PrintNat(s.addr.port) + ","];
      items := items + [AddSentinelItem(s)];
    }
    assert t.sentinels[..|t.sentinels|] == t.sentinels;
    command, items := AppendReplicas(command, items, t.replicas);
  }

  method AppendReplicas(before: seq<string>, ghost itemsBefore: seq<Item>, replicas: seq<TargetReplica>)
    returns (command: seq<string>, ghost items: seq<Item>)
    requires Complete(itemsBefore) && before == Command(itemsBefore)
    ensures Complete(items) && command == Command(items)
    ensures items == itemsBefore + ReplicaItems(replicas)
  {
    hide Arguments, Command, AddReplicaItem, ReplicaSpecItem;
    command, items := before, itemsBefore;
    for i := 0 to |replicas|
      invariant Complete(items) && command == Command(items)
      invariant items == itemsBefore + ReplicaItems(replicas[..i])
    {
      var r := replicas[i];
      assert replicas[..i + 1][..i] == replicas[..i];
      TwoMoreItems(items, r);
      command := command + ["add-replica:", r.addr.host, PrintNat(r.addr.port) + ","]
      + ["slave-spec:", r.addr.host, PrintNat(r.addr.port), r.runid, PrintInt(r.linkDownTime),
         PrintInt(r.priority), PrintInt(r.announced), r.masterHost,
         PrintNat(r.masterPort), PrintInt(r.linkStatus), PrintNat(r.replOffset) + ","];
      items := items + [AddReplicaItem(r), ReplicaSpecItem(r)];
    }
    assert replicas[..|replicas|] == replicas;
  }

  lemma TwoMoreItems(items: seq<Item>, r: TargetReplica)
    requires Complete(items)
    ensures Complete(items + [AddReplicaItem(r), ReplicaSpecItem(r)])
    ensures Command(items + [AddReplicaItem(r), ReplicaSpecItem(r)]) ==
            Command(items)
            + ["add-replica:", r.addr.host, PrintNat(r.addr.port) + ","]
            + ["slave-spec:", r.addr.host, PrintNat(r.addr.port), r.runid, PrintInt(r.linkDownTime),
               PrintInt(r.priority), PrintInt(r.announced), r.masterHost,
               PrintNat(r.masterPort), PrintInt(r.linkStatus), PrintNat(r.replOffset) + ","]
  {
    hide Arguments, Command;
    AddReplicaArguments(r);
    ReplicaSpecArguments(r);
    CommandSnoc(items, AddReplicaItem(r));
    CommandSnoc(items + [AddReplicaItem(r)], ReplicaSpecItem(r));
    assert items + [AddReplicaItem(r)] + [ReplicaSpecItem(r)] == items + [AddReplicaItem(r), ReplicaSpecItem(r)];
  }

  /** The command, as one server reads it, leads to the final state of the update. */
  lemma CommandApplies(cache: Cache, mc: nat, t: Target, dropSentinels: seq<string>, dropReplicas: seq<Addr>)
    requires GoodTarget(t, mc) && GoodCache(cache)
    requires SetOf(dropSentinels) == Names(cache) - TargetNames(t.sentinels)
    requires SetOf(dropReplicas) == Listed(cache) - TargetAddrs(t.replicas)
    requires Complete(Items(t, dropSentinels, dropReplicas))
    ensures var parsed := Parse(Join(Command(Items(t, dropSentinels, dropReplicas))));
            && parsed.last.KeyStart?
            && ApplyAll(cache, mc, parsed.pairs) == Outcome(Some(Final(cache, t, dropSentinels, dropReplicas)), true)
    ensures Matches(cache, t, Final(cache, t, dropSentinels, dropReplicas))
    ensures GoodCache(Some(Final(cache, t, dropSentinels, dropReplicas)))
  {
    hide Items, Final, Parse, Join, Command, ApplyAll, Matches, Leading, GoodPort;
    assert forall n :: n in dropSentinels ==> n in SetOf(dropSentinels);
    assert forall a :: a in dropReplicas ==> a in SetOf(dropReplicas);
    ItemsApply(cache, mc, t, dropSentinels, dropReplicas);
    ParsePrint(Items(t, dropSentinels, dropReplicas));
    FinalMatches(cache, t, dropSentinels, dropReplicas);
    MatchIsGood(cache, mc, t, Final(cache, t, dropSentinels, dropReplicas));
  }

  lemma MatchIsGood(cache: Cache, mc: nat, t: Target, p: Primary)
    requires GoodTarget(t, mc) && GoodCache(cache) && Matches(cache, t, p)
    ensures GoodCache(Some(p))
  {
    hide Leading, GoodPort;
  }

  /** The client side of one senticache. */
  class Node {
    const server: Senticache
    var broken: bool

    constructor (server: Senticache)
      ensures this.server == server && !broken
    {
      this.server, broken := server, false;
    }

    /** Restarting the server process empties the cache. */
    method Restart(answering: bool) returns (ok: bool)
      modifies server
      ensures server.cache == None || (!ok && server.cache == old(server.cache))
      ensures answering ==> ok
    {
      ok := *;
      ok := ok || answering;
      var applied: bool := *;
      if ok || applied {
        server.cache := None;
      }
    }

    /** Update. When it succeeds the cache matches the target, whatever was in it, and it
        succeeds when every command is answered; when a listing or the command fails, the
        node is marked and starts from an empty cache next time. */
    method Update(t: Target, answering: bool) returns (ok: bool)
      requires GoodTarget(t, server.maxClients) && GoodCache(server.cache)
      modifies this, server
      ensures GoodCache(server.cache) && (!ok ==> broken)
      ensures answering ==> ok
      ensures ok ==> !broken && server.cache.Some?
      ensures ok ==> Matches(if old(broken) then None else old(server.cache), t, server.cache.value)
    {
      hide GoodTarget, GoodCache, Matches, Join, Parse, ApplyAll, Items, Final, Names, Listed;
      if broken {
        ok := Restart(answering);
        EmptyIsGood();
        if !ok {
          return;
        }
        broken := false;
      }
      ghost var prior := server.cache;
      var listed: bool := *;
      if !listed && !answering {
        broken := true;
        return false;
      }
      var sentinels := server.ListSentinels();
      var replicas := server.ListReplicas();
      var dropSentinels := DropSentinels(sentinels, t.sentinels);
      var dropReplicas := DropReplicas(replicas, t.replicas);
      var command := BuildCommand(t, dropSentinels, dropReplicas);
      CommandApplies(prior, server.maxClients, t, dropSentinels, dropReplicas);
      var sent: bool, answered: bool := *, *;
      ok := false;
      if sent || answering {
        ok := server.CacheUpdate(command);
      }
      if !ok || !(answered || answering) {
        broken := true;
        return false;
      }
    }
  }

  lemma EmptyIsGood()
    ensures GoodCache(None)
  {
  }
}
