// What the senticache does with texts rdsync never writes, and what it keeps or forgets
// on a rename: the error returns of valkey_patches/0005_Add_senticache.patch.

module SentiCacheEdges {
  import opened Wrappers
  import opened SentiText
  import opened SentiCache
  import opened SentiCacheUpdate

  /** strcasecmp: the same length, and every two letters equal but for ASCII case. */
  lemma SameButCaseExact(a: string, b: string)
    ensures SameButCase(a, b) <==>
            |a| == |b| && forall i :: 0 <= i < |a| ==>
              || a[i] == b[i]
              || ('A' <= a[i] <= 'Z' && b[i] as int == a[i] as int + 32)
              || ('A' <= b[i] <= 'Z' && a[i] as int == b[i] as int + 32)
  {
    if SameButCase(a, b) {
      forall i | 0 <= i < |a|
        ensures a[i] == b[i] || ('A' <= a[i] <= 'Z' && b[i] as int == a[i] as int + 32)
                || ('A' <= b[i] <= 'Z' && a[i] as int == b[i] as int + 32)
      {
        assert Fold(a)[i] == Fold(b)[i];
      }
    }
  }

  // ----- the parser -----

  /** Any run of white space before a key or a value is skipped. */
  lemma {:induction false} SpaceIsSkipped(p: Parsed, space: string)
    requires p.last.KeyStart? || p.last.ValueStart?
    requires forall i :: 0 <= i < |space| ==> space[i] in {' ', '\t', '\n', '\r', 11 as char, 12 as char}
    ensures Scan(p, space) == p
  {
    if space != "" {
      SpaceIsSkipped(p, space[..|space| - 1]);
    }
  }

  /** A last value without its comma is read all the same. */
  lemma LastCommaIsOptional(items: seq<Item>, last: Item)
    requires Complete(items + [last]) && forall item :: item in items + [last] ==> GoodItem(item)
    ensures var text := Join(Command(items + [last]));
            && text != "" && text[|text| - 1] == ','
            && Parse(text[..|text| - 1]) == Parse(text)
  {
    var all := items + [last];
    ParsePrint(all);
    var text := Join(Command(all));
    EndsInComma(items, last);
    var short := text[..|text| - 1];
    assert Scan(Fresh, text) == Step(Scan(Fresh, short), ',');
    ShortOfComma(Scan(Fresh, short), PairsOf(all));
  }

  lemma EndsInComma(items: seq<Item>, last: Item)
    requires Complete(items + [last])
    ensures var text := Join(Command(items + [last])); text != "" && text[|text| - 1] == ','
  {
    assert (items + [last])[..|items|] == items;
    JoinArguments(last);
    if items == [] {
      assert Command(items + [last]) == Arguments(last);
    } else {
      CommandNonEmpty(items);
      JoinAppend(Command(items), Arguments(last));
    }
  }

  /** Only a comma that ends a value brings the parser to a key start. */
  lemma ShortOfComma(p: Parsed, pairs: seq<Pair>)
    requires Step(p, ',') == Parsed(pairs, KeyStart, "", "")
    ensures p.last.ValueRead? && Closed(p) == Parsed(pairs, KeyStart, "", "")
  {
  }

  /** A text that breaks off within a key, or before a value, is not answered. */
  lemma BrokenOffIsNotAnswered(items: seq<Item>, key: string)
    requires items != [] && Complete(items) && (forall item :: item in items ==> GoodItem(item)) && GoodKey(key)
    ensures var text := Join(Command(items));
            && !Parse(text + key).last.KeyStart? && Parse(text + key).pairs == PairsOf(items)
            && !Parse(text + key + ":").last.KeyStart? && Parse(text + key + ":").pairs == PairsOf(items)
  {
    var text := Join(Command(items));
    ParsePrint(items);
    ScanAppend(Fresh, text, key);
    ScanKey(Scan(Fresh, text), key);
    ScanAppend(Fresh, text + key, ":");
    ScanChar(Scan(Fresh, text + key), ':');
  }

  // ----- the appliers -----

  /** Without a primary only a name is accepted. */
  lemma NoPrimary(mc: nat, pair: Pair)
    requires Fold(pair.key) != "master-name"
    ensures UpdateCacheKey(None, mc, pair) == Outcome(None, false)
  {
  }

  lemma UnknownKey(cache: Cache, mc: nat, pair: Pair)
    requires Fold(pair.key) !in {"master-name", "master-addr", "master-spec", "slave-spec",
                                 "add-replica", "add-sentinel", "delete-replica", "delete-sentinel"}
    ensures UpdateCacheKey(cache, mc, pair) == Outcome(cache, false)
  {
  }

  /** A port of 0 or above 65535 is refused, and nothing changes. */
  lemma BadPortIsRefused(cache: Cache, mc: nat, key: string, host: string, port: nat)
    requires key in {"master-addr", "add-replica", "delete-replica"} && Leading(host)
    requires port == 0 || port > 65535
    ensures UpdateCacheKey(cache, mc, Pair(key, Join([host, PrintNat(port)]))) == Outcome(cache, false)
  {
    Keys();
    NumberIsPlain(port);
    FieldsSurvive([host, PrintNat(port)]);
  }

  lemma BadSentinelPortIsRefused(cache: Cache, mc: nat, name: string, runid: string, host: string, port: nat)
    requires Leading(name) && Plain(runid) && Plain(host) && (port == 0 || port > 65535)
    ensures UpdateCacheKey(cache, mc, Pair("add-sentinel", Join([name, runid, host, PrintNat(port)]))) == Outcome(cache, false)
  {
    Keys();
    NumberIsPlain(port);
    FieldsSurvive([name, runid, host, PrintNat(port)]);
  }

  /** Any other number of fields is refused, and nothing changes. */
  lemma FieldsAreCounted(cache: Cache, mc: nat, key: string, value: string)
    requires key in {"master-addr", "master-spec", "slave-spec", "add-replica", "add-sentinel", "delete-replica"}
    requires |SplitArgs(value)| !=
             if key == "slave-spec" then 10 else if key in {"master-spec", "add-sentinel"} then 4 else 2
    ensures UpdateCacheKey(cache, mc, Pair(key, value)) == Outcome(cache, false)
  {
    Keys();
  }

  /** An invalid quorum fails the update, but the other fields of the spec are taken over
      and the old quorum stays. */
  lemma BadQuorumIsPartial(p: Primary, mc: nat, runid: string, quorum: nat, syncs: nat, epoch: nat)
    requires Leading(runid) && (quorum == 0 || quorum >= mc) && 0 < syncs < mc
    ensures UpdateCacheKey(Some(p), mc, Pair("master-spec", Join([runid, PrintNat(quorum), PrintNat(syncs), PrintNat(epoch)])))
            == Outcome(Some(p.(runid := Some(runid), parallelSyncs := syncs, configEpoch := epoch)), false)
  {
    Keys();
    NumberIsPlain(quorum);
    NumberIsPlain(syncs);
    NumberIsPlain(epoch);
    FieldsSurvive([runid, PrintNat(quorum), PrintNat(syncs), PrintNat(epoch)]);
  }

  /** Likewise an invalid number of parallel syncs. */
  lemma BadSyncsIsPartial(p: Primary, mc: nat, runid: string, quorum: nat, syncs: nat, epoch: nat)
    requires Leading(runid) && 0 < quorum < mc && (syncs == 0 || syncs >= mc)
    ensures UpdateCacheKey(Some(p), mc, Pair("master-spec", Join([runid, PrintNat(quorum), PrintNat(syncs), PrintNat(epoch)])))
            == Outcome(Some(p.(runid := Some(runid), quorum := quorum, configEpoch := epoch)), false)
  {
    Keys();
    NumberIsPlain(quorum);
    NumberIsPlain(syncs);
    NumberIsPlain(epoch);
    FieldsSurvive([runid, PrintNat(quorum), PrintNat(syncs), PrintNat(epoch)]);
  }

  /** The master's own address, in any spelling, is no replica. */
  lemma MasterIsNoReplica(p: Primary, mc: nat, host: string)
    requires Leading(host) && |host| == |p.addr.host| && 1 <= p.addr.port <= 65535
    requires forall i :: 0 <= i < |host| ==>
               host[i] == p.addr.host[i] || ('A' <= host[i] <= 'Z' && p.addr.host[i] as int == host[i] as int + 32)
    ensures UpdateCacheKey(Some(p), mc, Pair("add-replica", Join([host, PrintNat(p.addr.port)]))) == Outcome(Some(p), false)
  {
    Keys();
    SameButCaseExact(p.addr.host, host);
    AddrSurvives(Addr(host, p.addr.port));
  }

  /** A spec for a replica that is not held is refused, and nothing changes. */
  lemma StrangerHasNoSpec(p: Primary, mc: nat, r: TargetReplica)
    requires GoodReplica(r) && r.addr !in p.replicas
    ensures UpdateCacheKey(Some(p), mc, PairOf(ReplicaSpecItem(r))) == Outcome(Some(p), false)
  {
    Keys();
    NumberIsPlain(r.addr.port);
    NumberIsPlain(r.linkDownTime);
    NumberIsPlain(r.priority);
    NumberIsPlain(r.announced);
    NumberIsPlain(r.masterPort);
    NumberIsPlain(r.linkStatus);
    NumberIsPlain(r.replOffset);
    FieldsSurvive(ReplicaSpecItem(r).fields);
  }

  /** A rename keeps the address, the run id, the epoch and who the replicas and the
      sentinels are, and forgets everything else about them. */
  lemma RenameForgets(p: Primary, mc: nat, name: string)
    requires !SameButCase(name, p.name)
    ensures var o := UpdateCacheKey(Some(p), mc, Pair("master-name", name));
            && o.ok && o.cache.Some?
            && var q := o.cache.value;
               && q.name == name && q.addr == p.addr && q.runid == p.runid && q.configEpoch == p.configEpoch
               && q.quorum == 0 && q.parallelSyncs == 1
               && q.replicas.Keys == p.replicas.Keys && q.sentinels.Keys == p.sentinels.Keys
               && (forall a :: a in q.replicas ==> q.replicas[a] == Replica(None, 0, 100, 1, None, 0, 1, 0))
               && (forall n :: n in q.sentinels ==> q.sentinels[n] == Sentinel(None, p.sentinels[n].addr))
  {
    Keys();
  }

  /** The first name makes a primary without an address, replicas or sentinels. */
  lemma FirstName(mc: nat, name: string)
    ensures UpdateCacheKey(None, mc, Pair("master-name", name)) ==
            Outcome(Some(Primary(name, Addr("127.0.0.1", 0), None, 0, 1, 0, map[], map[])), true)
  {
    Keys();
  }
}
