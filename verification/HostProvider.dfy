// internal/dcs/zk_host_provider.go: picking ZooKeeper servers in random order.

module HostProvider {
  import opened Quorum

  type Host = string
  type Address = string

  /** The hosts that have addresses. */
  ghost function Resolvable(hosts: map<Host, seq<Address>>, keys: seq<Host>): set<Host> {
    set h | h in keys && h in hosts && hosts[h] != []
  }

  class RandomHostProvider {
    const hostsKeys: seq<Host>
    const useAddrs: bool
    var hosts: map<Host, seq<Address>>
    var tried: set<Host>
    var isRetry: bool

    ghost predicate Valid() reads this {
      && NoDup(hostsKeys) && tried <= SetOf(hostsKeys)
      && (forall h :: h in hostsKeys ==> h in hosts)
      && Resolvable(hosts, hostsKeys) != {}
    }

    /** What Init leaves behind when it succeeds: every configured host is known, with or
        without addresses, and not all of them are without. */
    constructor (hostsKeys: seq<Host>, hosts: map<Host, seq<Address>>, useAddrs: bool)
      requires NoDup(hostsKeys) && (forall h :: h in hostsKeys ==> h in hosts) && Resolvable(hosts, hostsKeys) != {}
      ensures Valid() && this.hostsKeys == hostsKeys && this.hosts == hosts && this.useAddrs == useAddrs
      ensures tried == {} && !isRetry
    {
      this.hostsKeys, this.hosts, this.useAddrs := hostsKeys, hosts, useAddrs;
      tried, isRetry := {}, false;
    }

    /** resolveHosts stores only what has at least one address, so a host that could be
        reached once is never left without addresses. */
    method StoreResolved(host: Host, resolved: seq<Address>, failed: bool)
      requires Valid() && host in hostsKeys
      modifies this`hosts
      ensures Valid()
      ensures hosts == if failed || resolved == [] then old(hosts) else old(hosts)[host := resolved]
      ensures Resolvable(old(hosts), hostsKeys) <= Resolvable(hosts, hostsKeys)
    {
      if failed || |resolved| == 0 {
        return;
      }
      hosts := hosts[host := resolved];
      assert host in Resolvable(hosts, hostsKeys);
    }

    method NotTried() returns (notTried: seq<Host>)
      ensures SetOf(notTried) == SetOf(hostsKeys) - tried
      ensures |notTried| == 0 ==> SetOf(hostsKeys) <= tried
    {
      notTried := [];
      for i := 0 to |hostsKeys|
        invariant SetOf(notTried) == SetOf(hostsKeys[..i]) - tried
      {
        assert SetOf(hostsKeys[..i + 1]) == SetOf(hostsKeys[..i]) + {hostsKeys[i]};
        if hostsKeys[i] !in tried {
          assert SetOf(notTried + [hostsKeys[i]]) == SetOf(notTried) + {hostsKeys[i]};
          notTried := notTried + [hostsKeys[i]];
        }
      }
      assert hostsKeys[..|hostsKeys|] == hostsKeys;
      assert forall h :: h in SetOf(hostsKeys) ==> h in SetOf(notTried) || h in tried;
    }

    lemma SomeResolvable() returns (h: Host)
      requires Valid()
      ensures h in SetOf(hostsKeys) && h in hosts && hosts[h] != []
    {
      h :| h in Resolvable(hosts, hostsKeys);
    }

    method Mark(host: Host)
      requires Valid() && host in hostsKeys
      modifies this`tried
      ensures Valid() && tried == old(tried) + {host}
    {
      tried := tried + {host};
    }

    lemma ListValid()
      requires Valid()
      ensures tried <= SetOf(hostsKeys)
    {
    }

    lemma Known(h: Host)
      requires Valid() && h in SetOf(hostsKeys)
      ensures h in hostsKeys && h in hosts
    {
    }

    /** Any one element of the list. */
    method RandomOf<T>(list: seq<T>) returns (x: T)
      requires |list| > 0
      ensures x in list
    {
      var k :| 0 <= k < |list|;
      x := list[k];
    }

    /** Next: a host not tried since the last reset, at random, until one has addresses.
        `picks` are the hosts picked, and `resetAt` of them came before the tried set was
        emptied. There is at most one reset, and it is reported; no host is picked twice
        on either side of it; at most two rounds over all hosts are made; and the last
        pick is the first one with addresses. */
    method Next() returns (server: Address, retryStart: bool, ghost picks: seq<Host>, ghost resetAt: nat)
      requires Valid()
      modifies this`tried, this`isRetry
      ensures Valid() && isRetry == retryStart
      ensures Rounds(old(tried), SetOf(hostsKeys), tried, retryStart, picks, resetAt)
      ensures 0 < |picks| <= 2 * |hostsKeys|
      ensures Serves(hosts, hostsKeys, picks, useAddrs, server)
      ensures Unresolved(hosts, picks[..|picks| - 1])
    {
      hide Rounds, Unresolved, NoDup, Resolvable, Serves, Valid;
      ListValid();
      SetRetry(false);
      retryStart, server := false, "";
      ghost var was := tried;
      picks, resetAt := [], 0;
      NoPicks(was, SetOf(hostsKeys), hosts);
      var found := false;
      while !found
        invariant Valid()
        invariant Rounds(was, SetOf(hostsKeys), tried, retryStart, picks, resetAt)
        invariant !found ==> Unresolved(hosts, picks)
        invariant found ==> |picks| > 0 && Serves(hosts, hostsKeys, picks, useAddrs, server) && Unresolved(hosts, picks[..|picks| - 1])
        decreases if retryStart then 0 else 1, |SetOf(hostsKeys) - tried|
      {
        var selected;
        ghost var before := picks;
        selected, retryStart, resetAt := PickOne(was, retryStart, picks, resetAt);
        picks := picks + [selected];
        assert picks[..|picks| - 1] == before;
        if |hosts[selected]| > 0 {
          found := true;
          server := selected;
          if useAddrs {
            server := RandomOf(hosts[selected]);
          }
          ServesLast(hosts, hostsKeys, picks, useAddrs, server);
        } else {
          UnresolvedSnoc(hosts, before, selected);
        }
      }
      SetRetry(retryStart);
      AtMostTwoRounds(was, SetOf(hostsKeys), tried, retryStart, picks, resetAt, hostsKeys);
    }

    /** One pass of the loop: the tried set is emptied if it is full, and one untried host
        is picked and marked. */
    method PickOne(ghost was: set<Host>, retry: bool, ghost picks: seq<Host>, ghost resetAt: nat)
      returns (selected: Host, retry': bool, ghost resetAt': nat)
      requires Valid() && Rounds(was, SetOf(hostsKeys), tried, retry, picks, resetAt) && Unresolved(hosts, picks)
      modifies this`tried
      ensures Valid() && selected in hostsKeys && selected in hosts && (retry ==> retry')
      ensures Rounds(was, SetOf(hostsKeys), tried, retry', picks + [selected], resetAt')
      ensures retry' == retry ==> |SetOf(hostsKeys) - tried| < |SetOf(hostsKeys) - old(tried)|
    {
      hide Rounds, Unresolved, NoDup, Resolvable, Valid;
      ghost var all := SetOf(hostsKeys);
      var notTried := NotTried();
      retry', resetAt' := retry, if retry then resetAt else |picks| + 1;
      if |notTried| == 0 {
        ghost var h := SomeResolvable();
        NotAllTried(was, all, tried, retry, picks, resetAt, hosts, h);
        Connected();
        retry', resetAt', notTried := true, resetAt, hostsKeys;
      }
      selected := RandomOf(notTried);
      assert selected in SetOf(notTried);
      Known(selected);
      if retry {
        PickAfter(was, all, tried, picks, resetAt, selected);
      } else if retry' {
        PickAtReset(was, all, old(tried), picks, resetAt, selected);
      } else {
        PickBefore(was, all, tried, picks, resetAt, selected);
      }
      FewerLeft(all, tried, selected);
      Mark(selected);
    }

    method SetRetry(retry: bool)
      requires Valid()
      modifies this`isRetry
      ensures Valid() && isRetry == retry
    {
      isRetry := retry;
    }

    method Connected()
      requires Valid()
      modifies this`tried
      ensures Valid() && tried == {}
    {
      tried := {};
    }
  }

  /** What has been picked before and after the reset, and what counts as tried. */
  ghost predicate Rounds(was: set<Host>, all: set<Host>, tried: set<Host>, retry: bool, picks: seq<Host>, resetAt: nat) {
    && was <= all && (forall h :: h in picks ==> h in all)
    && (if retry then resetAt < |picks| else resetAt == |picks|)
    && NoDup(picks[..resetAt]) && SetOf(picks[..resetAt]) * was == {}
    && NoDup(picks[resetAt..])
    && (retry ==> SetOf(picks[..resetAt]) + was == all)
    && tried == if retry then SetOf(picks[resetAt..]) else was + SetOf(picks)
  }

  lemma NoDupSnoc(s: seq<Host>, h: Host)
    requires NoDup(s) && h !in s
    ensures NoDup(s + [h]) && SetOf(s + [h]) == SetOf(s) + {h}
  {
  }

  /** None of these hosts has an address. */
  ghost predicate Unresolved(hosts: map<Host, seq<Address>>, picks: seq<Host>) {
    forall h :: h in picks ==> h in hosts && hosts[h] == []
  }

  /** The last pick has addresses, and the server is one of them, or its name. */
  ghost predicate Serves(hosts: map<Host, seq<Address>>, keys: seq<Host>, picks: seq<Host>, useAddrs: bool, server: Address) {
    && picks != []
    && var last := picks[|picks| - 1];
       last in keys && last in hosts && hosts[last] != [] && server in (if useAddrs then hosts[last] else [last])
  }

  lemma ServesLast(hosts: map<Host, seq<Address>>, keys: seq<Host>, picks: seq<Host>, useAddrs: bool, server: Address)
    requires picks != [] && picks[|picks| - 1] in keys && picks[|picks| - 1] in hosts
    requires server in (if useAddrs then hosts[picks[|picks| - 1]] else [picks[|picks| - 1]]) && hosts[picks[|picks| - 1]] != []
    ensures Serves(hosts, keys, picks, useAddrs, server)
  {
  }

  lemma UnresolvedSnoc(hosts: map<Host, seq<Address>>, picks: seq<Host>, h: Host)
    requires Unresolved(hosts, picks) && h in hosts
    ensures hosts[h] == [] ==> Unresolved(hosts, picks + [h])
  {
  }

  lemma NoPicks(was: set<Host>, all: set<Host>, hosts: map<Host, seq<Address>>)
    requires was <= all
    ensures Rounds(was, all, was, false, [], 0) && Unresolved(hosts, [])
  {
  }

  /** A host with addresses ends the search, so it has not been tried since the reset. */
  lemma NotAllTried(was: set<Host>, all: set<Host>, tried: set<Host>, retry: bool, picks: seq<Host>, resetAt: nat,
                    hosts: map<Host, seq<Address>>, h: Host)
    requires Rounds(was, all, tried, retry, picks, resetAt) && Unresolved(hosts, picks)
    requires h in hosts && hosts[h] != []
    ensures retry ==> h !in tried
  {
    assert retry ==> forall x :: x in tried ==> x in picks[resetAt..] && x in picks;
  }

  lemma FewerLeft(all: set<Host>, tried: set<Host>, h: Host)
    requires h in all && h !in tried
    ensures |all - (tried + {h})| < |all - tried|
  {
    assert all - tried == (all - (tried + {h})) + {h};
  }

  lemma PickBefore(was: set<Host>, all: set<Host>, tried: set<Host>, picks: seq<Host>, resetAt: nat, h: Host)
    requires Rounds(was, all, tried, false, picks, resetAt) && h in all && h !in tried
    ensures Rounds(was, all, tried + {h}, false, picks + [h], |picks| + 1)
  {
    assert picks[..|picks|] == picks && (picks + [h])[..|picks| + 1] == picks + [h];
    assert (picks + [h])[|picks| + 1..] == [];
    NoDupSnoc(picks, h);
  }

  lemma PickAtReset(was: set<Host>, all: set<Host>, tried: set<Host>, picks: seq<Host>, resetAt: nat, h: Host)
    requires Rounds(was, all, tried, false, picks, resetAt) && h in all && all <= tried
    ensures Rounds(was, all, {h}, true, picks + [h], resetAt)
  {
    assert (picks + [h])[..|picks|] == picks && picks[..|picks|] == picks && (picks + [h])[|picks|..] == [h];
  }

  lemma PickAfter(was: set<Host>, all: set<Host>, tried: set<Host>, picks: seq<Host>, resetAt: nat, h: Host)
    requires Rounds(was, all, tried, true, picks, resetAt) && h in all && h !in tried
    ensures Rounds(was, all, tried + {h}, true, picks + [h], resetAt)
  {
    assert (picks + [h])[..resetAt] == picks[..resetAt] && (picks + [h])[resetAt..] == picks[resetAt..] + [h];
    NoDupSnoc(picks[resetAt..], h);
  }

  lemma AtMostTwoRounds(was: set<Host>, all: set<Host>, tried: set<Host>, retry: bool, picks: seq<Host>, resetAt: nat, keys: seq<Host>)
    requires Rounds(was, all, tried, retry, picks, resetAt) && all == SetOf(keys)
    ensures |picks| <= 2 * |keys|
  {
    ListSize(keys);
    ListSize(picks[..resetAt]);
    ListSize(picks[resetAt..]);
    SubsetSize(SetOf(picks[..resetAt]), all);
    SubsetSize(SetOf(picks[resetAt..]), all);
  }
}
