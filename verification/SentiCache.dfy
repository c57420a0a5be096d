// The senticache: what SENTINEL CACHE-UPDATE does to it
// (valkey_patches/0005_Add_senticache.patch) and the command rdsync sends to bring it
// to a target state (internal/valkey/senticache.go). Addresses resolve to themselves.

module SentiCache {
  import opened Wrappers
  import opened SentiText

  datatype Addr = Addr(host: string, port: nat)

  datatype Replica = Replica(
    runid: Option<string>, linkDownTime: int, priority: int, announced: int,
    masterHost: Option<string>, masterPort: nat, linkStatus: int, replOffset: nat)

  datatype Sentinel = Sentinel(runid: Option<string>, addr: Addr)

  datatype Primary = Primary(
    name: string, addr: Addr, runid: Option<string>, quorum: nat, parallelSyncs: nat, configEpoch: nat,
    replicas: map<Addr, Replica>, sentinels: map<string, Sentinel>)

  /** The cache holds at most one primary. */
  type Cache = Option<Primary>

  datatype Outcome = Outcome(cache: Cache, ok: bool)

  const NewReplica := Replica(None, 0, 100, 1, None, 0, 1, 0)

  // ----- strcasecmp -----

  function Lower(ch: char): char {
    if 'A' <= ch <= 'Z' then (ch as int + 32) as char else ch
  }

  function Fold(s: string): string {
    seq(|s|, i requires 0 <= i < |s| => Lower(s[i]))
  }

  predicate SameButCase(a: string, b: string) {
    Fold(a) == Fold(b)
  }

  // ----- one key of an update -----

  function UpdatePrimaryName(cache: Cache, name: string): Outcome {
    match cache
    case None => Outcome(Some(Primary(name, Addr("127.0.0.1", 0), None, 0, 1, 0, map[], map[])), true)
    case Some(p) =>
      if SameButCase(name, p.name) then Outcome(cache, true)
      else
        Outcome(Some(Primary(name, p.addr, p.runid, 0, 1, p.configEpoch,
                             map a | a in p.replicas :: NewReplica,
                             map n | n in p.sentinels :: Sentinel(None, p.sentinels[n].addr))), true)
  }

  function GoodPort(port: nat): bool {
    1 <= port <= 65535
  }

  function ParseAddr(value: string): Option<Addr> {
    var args := SplitArgs(value);
    if |args| != 2 || !GoodPort(Strtoul(args[1])) then None else Some(Addr(args[0], Strtoul(args[1])))
  }

  predicate SameAddr(a: Addr, b: Addr) {
    a.port == b.port && SameButCase(a.host, b.host)
  }

  function UpdatePrimaryAddr(cache: Cache, value: string): Outcome {
    var addr := ParseAddr(value);
    if cache.None? || addr.None? then Outcome(cache, false)
    else
      var p := cache.value;
      if SameAddr(addr.value, p.addr) then Outcome(cache, true)
      else Outcome(Some(p.(addr := addr.value, replicas := if p.addr.port != 0 then map[] else p.replicas)), true)
  }

  /** Every field is taken over even when another one is rejected. */
  function UpdatePrimarySpec(cache: Cache, value: string, maxClients: nat): Outcome {
    var args := SplitArgs(value);
    if cache.None? || |args| != 4 then Outcome(cache, false)
    else
      var quorum, syncs := Strtoul(args[1]), Strtoul(args[2]);
      var quorumOk, syncsOk := 0 < quorum < maxClients, 0 < syncs < maxClients;
      var p := cache.value;
      Outcome(Some(p.(runid := Some(args[0]),
                      quorum := if quorumOk then quorum else p.quorum,
                      parallelSyncs := if syncsOk then syncs else p.parallelSyncs,
                      configEpoch := Strtoul(args[3]))), quorumOk && syncsOk)
  }

  function UpdateReplicaSpec(cache: Cache, value: string): Outcome {
    var args := SplitArgs(value);
    if cache.None? || |args| != 10 || !GoodPort(Strtoul(args[1])) then Outcome(cache, false)
    else
      var addr, p := Addr(args[0], Strtoul(args[1])), cache.value;
      if addr !in p.replicas then Outcome(cache, false)
      else
        var replica := Replica(Some(args[2]), Strtol(args[3]), Strtol(args[4]), Strtol(args[5]),
                               Some(args[6]), Strtoul(args[7]), Strtol(args[8]), Strtoul(args[9]));
        Outcome(Some(p.(replicas := p.replicas[addr := replica])), true)
  }

  function AddReplica(cache: Cache, value: string): Outcome {
    var addr := ParseAddr(value);
    if cache.None? || addr.None? || SameAddr(cache.value.addr, addr.value) then Outcome(cache, false)
    else if addr.value in cache.value.replicas then Outcome(cache, true)
    else Outcome(Some(cache.value.(replicas := cache.value.replicas[addr.value := NewReplica])), true)
  }

  function AddSentinel(cache: Cache, value: string): Outcome {
    var args := SplitArgs(value);
    if cache.None? || |args| != 4 || !GoodPort(Strtoul(args[3])) then Outcome(cache, false)
    else if args[0] in cache.value.sentinels then Outcome(cache, true)
    else
      var sentinel := Sentinel(Some(args[1]), Addr(args[2], Strtoul(args[3])));
      Outcome(Some(cache.value.(sentinels := cache.value.sentinels[args[0] := sentinel])), true)
  }

  function DeleteReplica(cache: Cache, value: string): Outcome {
    var addr := ParseAddr(value);
    if cache.None? || addr.None? then Outcome(cache, false)
    else Outcome(Some(cache.value.(replicas := cache.value.replicas - {addr.value})), true)
  }

  function DeleteSentinel(cache: Cache, name: string): Outcome {
    if cache.None? then Outcome(cache, false)
    else Outcome(Some(cache.value.(sentinels := cache.value.sentinels - {name})), true)
  }

  function UpdateCacheKey(cache: Cache, maxClients: nat, pair: Pair): Outcome {
    var key := Fold(pair.key);
    if key == "master-name" then UpdatePrimaryName(cache, pair.value)
    else if key == "master-addr" then UpdatePrimaryAddr(cache, pair.value)
    else if key == "master-spec" then UpdatePrimarySpec(cache, pair.value, maxClients)
    else if key == "slave-spec" then UpdateReplicaSpec(cache, pair.value)
    else if key == "add-replica" then AddReplica(cache, pair.value)
    else if key == "add-sentinel" then AddSentinel(cache, pair.value)
    else if key == "delete-replica" then DeleteReplica(cache, pair.value)
    else if key == "delete-sentinel" then DeleteSentinel(cache, pair.value)
    else Outcome(cache, false)
  }

  /** The pairs one after the other, until one fails. */
  function ApplyAll(cache: Cache, maxClients: nat, pairs: seq<Pair>): Outcome {
    if pairs == [] then Outcome(cache, true)
    else
      var before := ApplyAll(cache, maxClients, pairs[..|pairs| - 1]);
      if before.ok then UpdateCacheKey(before.cache, maxClients, pairs[|pairs| - 1]) else before
  }

  lemma {:induction false} ApplyAppend(cache: Cache, maxClients: nat, a: seq<Pair>, b: seq<Pair>)
    ensures var first := ApplyAll(cache, maxClients, a);
            ApplyAll(cache, maxClients, a + b) == if first.ok then ApplyAll(first.cache, maxClients, b) else first
  {
    if b == [] {
      assert a + b == a;
    } else {
      assert (a + b)[..|a + b| - 1] == a + b[..|b| - 1];
      ApplyAppend(cache, maxClients, a, b[..|b| - 1]);
    }
  }

  lemma {:induction false} ScanKeepsPairs(p: Parsed, s: string)
    ensures p.pairs <= Scan(p, s).pairs
  {
    if s != "" {
      ScanKeepsPairs(p, s[..|s| - 1]);
    }
  }

  /** A pair that fails decides the outcome, whatever follows it in the text. */
  lemma FailureDecides(cache: Cache, maxClients: nat, text: string, i: nat)
    requires i <= |text| && !ApplyAll(cache, maxClients, Scan(Fresh, text[..i]).pairs).ok
    ensures ApplyAll(cache, maxClients, Parse(text).pairs) == ApplyAll(cache, maxClients, Scan(Fresh, text[..i]).pairs)
  {
    var first := Scan(Fresh, text[..i]).pairs;
    assert text == text[..i] + text[i..];
    ScanAppend(Fresh, text[..i], text[i..]);
    ScanKeepsPairs(Scan(Fresh, text[..i]), text[i..]);
    var all := Parse(text).pairs;
    assert all == first + all[|first|..];
    ApplyAppend(cache, maxClients, first, all[|first|..]);
  }

  // ----- the target state -----

  datatype TargetReplica = TargetReplica(
    addr: Addr, runid: string, linkDownTime: int, priority: int, announced: int,
    masterHost: string, masterPort: nat, linkStatus: int, replOffset: nat)

  datatype TargetSentinel = TargetSentinel(name: string, runid: string, addr: Addr)

  datatype Target = Target(
    name: string, addr: Addr, runid: string, quorum: nat, parallelSyncs: nat, configEpoch: nat,
    replicas: seq<TargetReplica>, sentinels: seq<TargetSentinel>)

  function SpecOf(r: TargetReplica): Replica {
    Replica(Some(r.runid), r.linkDownTime, r.priority, r.announced, Some(r.masterHost), r.masterPort, r.linkStatus, r.replOffset)
  }

  function TargetReplicas(replicas: seq<TargetReplica>): map<Addr, Replica> {
    if replicas == [] then map[]
    else TargetReplicas(replicas[..|replicas| - 1])[replicas[|replicas| - 1].addr := SpecOf(replicas[|replicas| - 1])]
  }

  function TargetNames(sentinels: seq<TargetSentinel>): set<string> {
    set s | s in sentinels :: s.name
  }

  // ----- the items rdsync writes -----

  function NameItem(t: Target): Item {
    Item("master-name", [t.name])
  }

  function AddrItem(t: Target): Item {
    Item("master-addr", [t.addr.host, PrintNat(t.addr.port)])
  }

  function SpecItem(t: Target): Item {
    Item("master-spec", [t.runid, PrintNat(t.quorum), PrintNat(t.parallelSyncs), PrintNat(t.configEpoch)])
  }

  function DropSentinelItem(name: string): Item {
    Item("delete-sentinel", [name])
  }

  function DropReplicaItem(addr: Addr): Item {
    Item("delete-replica", [addr.host, PrintNat(addr.port)])
  }

  function AddSentinelItem(s: TargetSentinel): Item {
    Item("add-sentinel", [s.name, s.runid, s.addr.host, PrintNat(s.addr.port)])
  }

  function AddReplicaItem(r: TargetReplica): Item {
    Item("add-replica", [r.addr.host, PrintNat(r.addr.port)])
  }

  function ReplicaSpecItem(r: TargetReplica): Item {
    Item("slave-spec", [r.addr.host, PrintNat(r.addr.port), r.runid, PrintInt(r.linkDownTime), PrintInt(r.priority),
                        PrintInt(r.announced), r.masterHost, PrintNat(r.masterPort), PrintInt(r.linkStatus), PrintNat(r.replOffset)])
  }

  function DropSentinelItems(names: seq<string>): seq<Item> {
    seq(|names|, i requires 0 <= i < |names| => DropSentinelItem(names[i]))
  }

  function DropReplicaItems(addrs: seq<Addr>): seq<Item> {
    seq(|addrs|, i requires 0 <= i < |addrs| => DropReplicaItem(addrs[i]))
  }

  function AddSentinelItems(sentinels: seq<TargetSentinel>): seq<Item> {
    seq(|sentinels|, i requires 0 <= i < |sentinels| => AddSentinelItem(sentinels[i]))
  }

  function ReplicaItems(replicas: seq<TargetReplica>): seq<Item> {
    if replicas == [] then []
    else
      ReplicaItems(replicas[..|replicas| - 1])
      + [AddReplicaItem(replicas[|replicas| - 1]), ReplicaSpecItem(replicas[|replicas| - 1])]
  }

  function Items(t: Target, dropSentinels: seq<string>, dropReplicas: seq<Addr>): seq<Item> {
    [NameItem(t), AddrItem(t), SpecItem(t)]
    + DropSentinelItems(dropSentinels) + DropReplicaItems(dropReplicas)
    + AddSentinelItems(t.sentinels) + ReplicaItems(t.replicas)
  }

  // ----- what the texts have to be like -----

  ghost predicate Plain(s: string) {
    ' ' !in s && ',' !in s
  }

  /** Text that can stand first in a value. */
  ghost predicate Leading(s: string) {
    Plain(s) && s != "" && !IsSpace(s[0])
  }

  ghost predicate GoodAddr(addr: Addr) {
    Leading(addr.host) && GoodPort(addr.port)
  }

  ghost predicate GoodReplica(r: TargetReplica) {
    GoodAddr(r.addr) && Plain(r.runid) && Plain(r.masterHost)
  }

  ghost predicate GoodSentinel(s: TargetSentinel) {
    Leading(s.name) && Plain(s.runid) && Plain(s.addr.host) && GoodPort(s.addr.port)
  }

  ghost predicate GoodTarget(t: Target, maxClients: nat) {
    && Leading(t.name) && GoodAddr(t.addr) && Leading(t.runid)
    && 0 < t.quorum < maxClients && 0 < t.parallelSyncs < maxClients
    && (forall r :: r in t.replicas ==> GoodReplica(r) && !SameAddr(t.addr, r.addr))
    && (forall s :: s in t.sentinels ==> GoodSentinel(s))
  }

  /** All texts in the cache could be listed and written back. */
  ghost predicate GoodCache(cache: Cache) {
    cache.Some? ==>
      && (forall a :: a in cache.value.replicas ==> GoodAddr(a))
      && (forall n :: n in cache.value.sentinels ==> Leading(n))
  }
}
