// internal/valkey/node.go: the window of probe results that decides whether a host
// counts as alive, and the INFO kept for a host that has just stopped answering.

module PingWindow {
  import opened Wrappers

  type Info = map<string, string>

  /** What one round of GetState ran into. */
  datatype Probe = NoPing | NoInfo | Answer(info: Info)

  /** A probe whose PING is answered but whose INFO is not leaves no trace. */
  function Results(history: seq<Probe>): seq<bool> {
    if history == [] then []
    else
      var before := Results(history[..|history| - 1]);
      match history[|history| - 1]
      case NoPing => before + [false]
      case NoInfo => before
      case Answer(_) => before + [true]
  }

  function LastAnswer(history: seq<Probe>): Option<Info> {
    if history == [] then None
    else match history[|history| - 1]
      case Answer(info) => Some(info)
      case _ => LastAnswer(history[..|history| - 1])
  }

  function Newest(results: seq<bool>, n: nat): seq<bool> {
    if |results| <= n then results else results[|results| - n..]
  }

  /** The INFO of the last answered probe, as long as some answered probe is in the window. */
  function Cached(history: seq<Probe>, n: nat): Option<Info> {
    if true in Newest(Results(history), n) then LastAnswer(history) else None
  }

  lemma NewestSlides(results: seq<bool>, n: nat, result: bool)
    requires n >= 1
    ensures Newest(results + [result], n) == Slide(Newest(results, n), n, result)
  {
  }

  lemma SlideEnds(window: seq<bool>, n: nat, result: bool)
    requires n >= 1 && |window| <= n
    ensures var slid := Slide(window, n, result);
            && 0 < |slid| <= n
            && slid[|slid| - 1] == result
            && (!result && true in slid ==> true in window)
  {
  }

  lemma NewestSnoc(results: seq<bool>, n: nat, result: bool)
    requires n >= 1
    ensures Newest(results + [result], n) == Slide(Newest(results, n), n, result)
    ensures result in Newest(results + [result], n)
    ensures |Newest(results + [result], n)| <= n
    ensures Newest(results + [result], n)[|Newest(results + [result], n)| - 1] == result
    ensures !result && true in Newest(results + [result], n) ==> true in Newest(results, n)
  {
    assert |Newest(results, n)| <= n;
    hide Newest, Slide;
    NewestSlides(results, n, result);
    SlideEnds(Newest(results, n), n, result);
  }

  /** append, and drop the oldest result when there are too many. */
  function Slide(results: seq<bool>, n: nat, result: bool): seq<bool> {
    var longer := results + [result];
    if |longer| > n then longer[1..] else longer
  }

  /** How one more probe moves the window and what is cached. */
  lemma OneMore(past: seq<Probe>, n: nat, probe: Probe)
    requires n >= 1
    ensures var later := past + [probe];
            var window := Newest(Results(past), n);
            && Newest(Results(later), n) == (if probe.NoInfo? then window else Slide(window, n, probe.Answer?))
            && (!probe.NoInfo? ==> 0 < |Newest(Results(later), n)| <= n)
            && (!probe.NoInfo? ==> Newest(Results(later), n)[|Newest(Results(later), n)| - 1] == probe.Answer?)
            && (probe.Answer? ==> Cached(later, n) == Some(probe.info))
            && (probe.NoInfo? ==> Cached(later, n) == Cached(past, n))
            && (probe.NoPing? ==> Cached(later, n) == if true in Newest(Results(later), n) then Cached(past, n) else None)
  {
    hide Newest, Slide;
    assert (past + [probe])[..|past|] == past;
    NewestSnoc(Results(past), n, probe.Answer?);
  }

  class Node {
    const pingStable: nat
    var infoResults: seq<bool>
    var cachedInfo: Option<Info>
    ghost var history: seq<Probe>

    /** The two fields are what the history of probes says, with a window of at least one. */
    ghost predicate Valid() reads this {
      && pingStable >= 1
      && infoResults == Newest(Results(history), pingStable)
      && cachedInfo == Cached(history, pingStable)
    }

    constructor (pingStable: nat)
      requires pingStable >= 1
      ensures Valid() && history == [] && this.pingStable == pingStable
    {
      this.pingStable := pingStable;
      infoResults, cachedInfo, history := [], None, [];
    }

    method Record(result: bool)
      modifies this`infoResults
      ensures infoResults == Slide(old(infoResults), pingStable, result)
    {
      infoResults := infoResults + [result];
      if |infoResults| > pingStable {
        infoResults := infoResults[1..];
      }
    }

    /** GetState, up to the settings it reads besides INFO. A probe that got no PING
        answers with the cached INFO and an error. */
    method GetState(probe: Probe) returns (info: Option<Info>, failed: bool)
      requires Valid()
      modifies this
      ensures Valid() && history == old(history) + [probe]
      ensures failed <==> !probe.Answer?
      ensures info == match probe
                      case NoPing => Cached(history, pingStable)
                      case NoInfo => None
                      case Answer(i) => Some(i)
      ensures probe.NoInfo? ==> infoResults == old(infoResults) && cachedInfo == old(cachedInfo)
      ensures probe.NoPing? ==> infoResults[|infoResults| - 1] == false && |infoResults| <= pingStable
      ensures probe.NoPing? ==> cachedInfo == if true in infoResults then old(cachedInfo) else None
      ensures probe.Answer? ==> infoResults[|infoResults| - 1] && |infoResults| <= pingStable && cachedInfo == Some(probe.info)
    {
      hide Newest, Results, LastAnswer, Cached;
      OneMore(history, pingStable, probe);
      history := history + [probe];
      match probe
      case NoPing =>
        Record(false);
        ClearCache();
        return cachedInfo, true;
      case NoInfo =>
        return None, true;
      case Answer(i) =>
        Record(true);
        cachedInfo := Some(i);
        return cachedInfo, false;
    }

    method ClearCache()
      modifies this`cachedInfo
      ensures cachedInfo == if true in infoResults then old(cachedInfo) else None
    {
      var clearCache := true;
      for i := 0 to |infoResults|
        invariant clearCache && true !in infoResults[..i]
      {
        if infoResults[i] {
          clearCache := false;
          break;
        }
      }
      assert infoResults[..|infoResults|] == infoResults;
      if clearCache {
        cachedInfo := None;
      }
    }

    /** EvaluatePing: answered at all, and answered every time. */
    method EvaluatePing() returns (ok: bool, stable: bool)
      requires Valid()
      ensures ok <==> true in Newest(Results(history), pingStable)
      ensures stable <==> false !in Newest(Results(history), pingStable)
      ensures ok <==> cachedInfo.Some?
    {
      ok, stable := false, true;
      for i := 0 to |infoResults|
        invariant ok <==> true in infoResults[..i]
        invariant stable <==> false !in infoResults[..i]
      {
        assert infoResults[..i + 1] == infoResults[..i] + [infoResults[i]];
        if infoResults[i] {
          ok := true;
        } else {
          stable := false;
        }
      }
      assert infoResults[..|infoResults|] == infoResults;
      AnsweredBefore(history, pingStable);
    }
  }

  /** A success in the window comes from an answered probe. */
  lemma {:induction false} AnsweredBefore(history: seq<Probe>, n: nat)
    ensures true in Results(history) ==> LastAnswer(history).Some?
    ensures true in Newest(Results(history), n) ==> true in Results(history)
  {
    if history != [] {
      AnsweredBefore(history[..|history| - 1], n);
    }
  }

  /** A host that has answered is forgotten after exactly n unanswered probes in a row. */
  lemma {:induction false} ForgottenAfter(history: seq<Probe>, info: Info, n: nat, misses: nat)
    requires n >= 1
    ensures var later := history + [Answer(info)] + seq(misses, _ => NoPing);
            Cached(later, n) == if misses < n then Some(info) else None
  {
    var later := history + [Answer(info)] + seq(misses, _ => NoPing);
    MissesRecorded(history + [Answer(info)], misses);
    assert (history + [Answer(info)])[..|history|] == history;
    var results := Results(history) + [true] + seq(misses, _ => false);
    assert Results(later) == results;
    if misses < n {
      assert results[|Results(history)|];
      var k := |results| - |Newest(results, n)|;
      assert Newest(results, n)[|Results(history)| - k] == true;
    }
  }

  lemma {:induction false} MissesRecorded(history: seq<Probe>, misses: nat)
    ensures var later := history + seq(misses, _ => NoPing);
            && Results(later) == Results(history) + seq(misses, _ => false)
            && LastAnswer(later) == LastAnswer(history)
  {
    var later := history + seq(misses, _ => NoPing);
    if misses == 0 {
      assert later == history;
    } else {
      MissesRecorded(history, misses - 1);
      assert later[..|later| - 1] == history + seq(misses - 1, _ => NoPing);
      assert seq(misses, _ => false) == seq(misses - 1, _ => false) + [false];
    }
  }
}
