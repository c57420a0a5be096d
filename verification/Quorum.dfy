// Cardinality facts about finite sets and duplicate-free lists, and the two
// majority sizes every other module is built on.

module Quorum {

  /** getNumReplicasToWrite: how many quorum replicas must acknowledge a write. */
  function NumReplicasToWrite(n: nat): nat {
    n / 2
  }

  /** getFailoverQuorum with AllowDataLoss off: how many active hosts a failover must stop. */
  function FailoverQuorum(n: nat): (q: nat)
    ensures 1 <= q
    ensures n > 0 ==> NumReplicasToWrite(n) + q == n
    ensures n == 0 ==> q == 1
  {
    var q := n - NumReplicasToWrite(n);
    if q < 1 then 1 else q
  }

  function SetOf<T>(s: seq<T>): set<T> {
    set x | x in s
  }

  ghost predicate NoDup<T>(s: seq<T>) {
    forall i, j :: 0 <= i < j < |s| ==> s[i] != s[j]
  }

  lemma SubsetSize<T>(a: set<T>, b: set<T>)
    requires a <= b
    ensures |a| <= |b|
  {
    assert b == a + (b - a);
  }

  lemma SubsetSameSize<T>(a: set<T>, b: set<T>)
    requires a <= b && |b| <= |a|
    ensures a == b
  {
    assert b == a + (b - a);
  }

  lemma SplitSize<T>(a: set<T>, b: set<T>)
    ensures |a| == |a * b| + |a - b|
  {
    assert a == a * b + (a - b);
  }

  /** Two subsets of u whose sizes add up to more than |u| share an element. */
  lemma Pigeonhole<T>(u: set<T>, a: set<T>, b: set<T>)
    requires a <= u && b <= u && |a| + |b| > |u|
    ensures a * b != {}
  {
    if a * b == {} {
      assert |a + b| == |a| + |b|;
      SubsetSize(a + b, u);
    }
  }

  /** Every size up to |s| is the size of some subset of s. */
  lemma {:induction false} SubsetOfSize<T>(s: set<T>, n: nat) returns (t: set<T>)
    requires n <= |s|
    ensures t <= s && |t| == n
  {
    if n == 0 {
      t := {};
    } else {
      var x :| x in s;
      t := SubsetOfSize(s - {x}, n - 1);
      t := t + {x};
    }
  }

  lemma {:induction false} ListSize<T>(s: seq<T>)
    ensures |SetOf(s)| <= |s|
    ensures |SetOf(s)| == |s| <==> NoDup(s)
  {
    if s != [] {
      var last := |s| - 1;
      var init := s[..last];
      ListSize(init);
      assert s == init + [s[last]];
      assert SetOf(s) == SetOf(init) + {s[last]};
      if s[last] in init {
        assert SetOf(s) == SetOf(init);
        var i :| 0 <= i < |init| && init[i] == s[last];
        assert s[i] == s[last];
      } else {
        if NoDup(init) {
          forall i, j | 0 <= i < j < |s| ensures s[i] != s[j] {
            if j == last {
              assert s[i] in init;
            } else {
              assert init[i] != init[j];
            }
          }
        } else {
          var i, j :| 0 <= i < j < |init| && init[i] == init[j];
          assert s[i] == s[j];
        }
      }
    }
  }

  /** Any k-member acknowledgement set avoiding the master meets any failover set,
      because the two sizes add up to |active| and the master is in neither. */
  lemma AckMeetsFailover<T>(active: set<T>, master: T, acks: set<T>, stopped: set<T>)
    requires master in active
    requires acks <= active - {master} && stopped <= active - {master}
    requires |acks| >= NumReplicasToWrite(|active|) && |stopped| >= FailoverQuorum(|active|)
    ensures acks * stopped != {}
  {
    assert |active - {master}| == |active| - 1;
    Pigeonhole(active - {master}, acks, stopped);
  }
}
