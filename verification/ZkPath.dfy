// internal/dcs/zk.go: normalising a path in place, and creating a node's ancestors.

module ZkPath {
  type Segment = string
  type Path = seq<Segment>

  predicate EndsInSep(s: string) {
    s != "" && s[|s| - 1] == '/'
  }

  /** The non-empty parts between the separators. */
  function Segments(s: string): Path {
    if s == "" then []
    else
      var init, ch := s[..|s| - 1], s[|s| - 1];
      var before := Segments(init);
      if ch == '/' then before
      else if init == "" || EndsInSep(init) || before == [] then before + [[ch]]
      else before[..|before| - 1] + [before[|before| - 1] + [ch]]
  }

  ghost predicate GoodPath(path: Path) {
    forall part :: part in path ==> part != "" && '/' !in part
  }

  /** A separator before every part. */
  function Render(path: Path): string {
    if path == [] then "" else Render(path[..|path| - 1]) + "/" + path[|path| - 1]
  }

  /** What the loop has kept of a text that starts with a separator. */
  ghost function Kept(s: string): string {
    Render(Segments(s)) + if EndsInSep(s) then "/" else ""
  }

  lemma {:induction false} SegmentsGood(s: string)
    ensures GoodPath(Segments(s))
    ensures s != "" && !EndsInSep(s) ==> Segments(s) != []
  {
    if s != "" {
      var before, ch := Segments(s[..|s| - 1]), s[|s| - 1];
      SegmentsGood(s[..|s| - 1]);
      forall part | part in Segments(s) ensures part != "" && '/' !in part {
        assert part in before || part == [ch] || (before != [] && part == before[|before| - 1] + [ch]);
      }
    }
  }

  lemma KeptSnoc(s: string, ch: char)
    requires s != "" && s[0] == '/'
    ensures Kept(s + [ch]) == if ch == '/' && EndsInSep(s) then Kept(s) else Kept(s) + [ch]
  {
    var longer := s + [ch];
    assert longer[..|longer| - 1] == s;
    var before := Segments(s);
    SegmentsGood(s);
    if ch != '/' && !EndsInSep(s) {
      var grown := before[..|before| - 1] + [before[|before| - 1] + [ch]];
      assert Segments(longer) == grown;
      assert grown[..|grown| - 1] == before[..|before| - 1];
      assert Render(grown) == Render(before) + [ch];
    } else if ch != '/' {
      assert Segments(longer) == before + [[ch]];
      assert Render(before + [[ch]]) == Render(before) + "/" + [ch];
    }
  }

  lemma KeptNext(text: string, i: nat)
    requires i < |text| && text[0] == '/'
    ensures Kept(text[..i + 1]) ==
            if i == 0 then "/" else if text[i] == '/' && text[i - 1] == '/' then Kept(text[..i]) else Kept(text[..i]) + [text[i]]
  {
    if i == 0 {
      assert text[..1] == "/" && "/"[..0] == "";
      assert Segments("") == [];
      assert Segments("/") == Segments("/"[..0]);
    } else {
      assert text[..i + 1] == text[..i] + [text[i]];
      KeptSnoc(text[..i], text[i]);
    }
  }

  /** buildFullPath on namespace + "/" + path. NewZookeeper accepts no namespace that does
      not start with a separator. */
  method BuildFullPath(namespace_: string, path: string) returns (res: string)
    requires namespace_ != "" && namespace_[0] == '/'
    ensures res == Render(Segments(namespace_ + "/" + path))
  {
    hide Segments, Render;
    var text := namespace_ + "/" + path;
    var bytes := new char[|text|](i requires 0 <= i < |text| => text[i]);
    var j := Compact(bytes, text);
    SegmentsGood(text);
    RenderLast(Segments(text));
    if bytes[j - 1] == '/' {
      assert bytes[..j][..j - 1] == bytes[..j - 1];
      res := bytes[..j - 1];
    } else {
      res := bytes[..j];
    }
  }

  /** The loop of buildFullPath: keeps one separator of every run of separators, moving
      the kept bytes to the front of the same array. */
  method Compact(bytes: array<char>, ghost text: string) returns (j: nat)
    requires bytes[..] == text && text != "" && text[0] == '/'
    modifies bytes
    ensures 0 < j <= bytes.Length && bytes[..j] == Kept(text)
  {
    hide Kept;
    j := 0;
    for i := 0 to bytes.Length
      invariant j <= i && (i > 0 ==> j > 0)
      invariant forall k :: j <= k < bytes.Length ==> bytes[k] == text[k]
      invariant i > 0 ==> bytes[i - 1] == text[i - 1]
      invariant i > 0 ==> bytes[..j] == Kept(text[..i])
    {
      KeptNext(text, i);
      if i > 0 && bytes[i] == '/' && bytes[i - 1] == '/' {
        continue;
      }
      ghost var before := bytes[..j];
      bytes[j] := bytes[i];
      j := j + 1;
      assert bytes[..j] == before + [text[i]];
    }
    assert text[..bytes.Length] == text;
  }

  lemma RenderLast(path: Path)
    requires GoodPath(path)
    ensures !EndsInSep(Render(path))
  {
    if path != [] {
      var last := path[|path| - 1];
      assert last in path;
      assert Render(path)[|Render(path)| - 1] == last[|last| - 1];
    }
  }

  lemma SegmentsSnoc(s: string, ch: char)
    ensures Segments(s + [ch]) ==
            var before := Segments(s);
            if ch == '/' then before
            else if s == "" || EndsInSep(s) || before == [] then before + [[ch]]
            else before[..|before| - 1] + [before[|before| - 1] + [ch]]
  {
    assert (s + [ch])[..|s|] == s;
  }

  lemma {:induction false} SegmentsAddPart(s: string, part: string)
    requires part != "" && '/' !in part
    ensures Segments(s + "/" + part) == Segments(s) + [part]
  {
    hide Segments;
    var init, ch := part[..|part| - 1], part[|part| - 1];
    var front := s + "/" + init;
    assert part == init + [ch] && s + "/" + part == front + [ch];
    SegmentsSnoc(front, ch);
    FrontEnds(s, init);
    if init == "" {
      SegmentsSnoc(s, '/');
      assert front == s + ['/'] && part == [ch];
    } else {
      SegmentsAddPart(s, init);
      PartGrows(Segments(s), init, ch);
    }
  }

  lemma PartGrows(path: Path, part: Segment, ch: char)
    ensures var before := path + [part];
            before[..|before| - 1] + [before[|before| - 1] + [ch]] == path + [part + [ch]]
  {
    assert (path + [part])[..|path|] == path;
  }

  /** Normalising loses nothing: the parts can be read back. */
  lemma {:induction false} SegmentsRender(path: Path)
    requires GoodPath(path)
    ensures Segments(Render(path)) == path
  {
    SegmentsEmpty();
    if path != [] {
      var init, last := path[..|path| - 1], path[|path| - 1];
      assert path == init + [last];
      assert last in path && forall part :: part in init ==> part in path;
      SegmentsRender(init);
      RenderSnoc(init, last);
      hide Segments, Render;
      SegmentsAddPart(Render(init), last);
    }
  }

  lemma RenderSnoc(init: Path, last: Segment)
    ensures Render(init + [last]) == Render(init) + "/" + last
  {
    assert (init + [last])[..|init|] == init;
  }

  /** Two texts are normalised to the same path exactly when they have the same parts. */
  lemma SamePathSameParts(a: string, b: string)
    ensures Render(Segments(a)) == Render(Segments(b)) <==> Segments(a) == Segments(b)
  {
    SegmentsGood(a);
    SegmentsGood(b);
    SegmentsRender(Segments(a));
    SegmentsRender(Segments(b));
  }

  /** The parts of the namespace come first, those of the path follow, and extra
      separators at either end of either do not matter. */
  lemma {:induction false} SegmentsJoin(a: string, b: string)
    ensures Segments(a + "/" + b) == Segments(a) + Segments(b)
  {
    hide Segments;
    SegmentsEmpty();
    if b == "" {
      SegmentsSnoc(a, '/');
      assert a + "/" + b == a + ['/'];
      assert Segments(a) + [] == Segments(a);
    } else {
      var init, ch := b[..|b| - 1], b[|b| - 1];
      SegmentsJoin(a, init);
      assert b == init + [ch] && a + "/" + b == (a + "/" + init) + [ch];
      JoinOneMore(a, init, ch);
    }
  }

  lemma SegmentsEmpty()
    ensures Segments("") == []
  {
  }

  lemma JoinOneMore(a: string, init: string, ch: char)
    requires Segments(a + "/" + init) == Segments(a) + Segments(init)
    ensures Segments(a + "/" + init + [ch]) == Segments(a) + Segments(init + [ch])
  {
    SegmentsGood(init);
    SegmentsEmpty();
    hide Segments, EndsInSep;
    var first, second := Segments(a), Segments(init);
    SegmentsSnoc(init, ch);
    SegmentsSnoc(a + "/" + init, ch);
    FrontEnds(a, init);
    if ch != '/' {
      if init == "" || EndsInSep(init) {
        assert first + second + [[ch]] == first + (second + [[ch]]);
      } else {
        LastPartGrows(first, second, ch);
      }
    }
  }

  lemma FrontEnds(a: string, init: string)
    ensures EndsInSep(a + "/" + init) <==> init == "" || EndsInSep(init)
  {
    var front := a + "/" + init;
    assert front[|front| - 1] == if init == "" then '/' else init[|init| - 1];
  }

  lemma LastPartGrows(a: Path, b: Path, ch: char)
    requires b != []
    ensures var ab := a + b;
            ab[..|ab| - 1] + [ab[|ab| - 1] + [ch]] == a + (b[..|b| - 1] + [b[|b| - 1] + [ch]])
  {
  }

  // ----- the tree -----

  ghost predicate PrefixClosed(nodes: set<Path>) {
    forall p :: p in nodes && p != [] ==> p[..|p| - 1] in nodes
  }

  lemma {:induction false} AncestorsPresent(nodes: set<Path>, path: Path, n: nat)
    requires PrefixClosed(nodes) && path in nodes && n <= |path|
    ensures path[..n] in nodes
    decreases |path| - n
  {
    if n == |path| {
      assert path[..n] == path;
    } else {
      AncestorsPresent(nodes, path, n + 1);
      assert path[..n + 1][..n] == path[..n];
    }
  }

  datatype Reply = Done | NodeExists | NoNode | Failed

  class Tree {
    var nodes: set<Path>
    ghost var created: set<Path>   // by this client

    ghost predicate Valid() reads this {
      PrefixClosed(nodes) && [] in nodes && created <= nodes
    }

    constructor ()
      ensures Valid() && nodes == {[]} && created == {}
    {
      nodes, created := {[]}, {};
    }

    /** Other clients create nodes, each under an existing parent. */
    method Interfere()
      requires Valid()
      modifies this`nodes
      ensures Valid() && old(nodes) <= nodes
    {
      var steps: nat := *;
      while steps > 0
        invariant Valid() && old(nodes) <= nodes
      {
        var path: Path := *;
        if path != [] && path[..|path| - 1] in nodes {
          nodes := nodes + {path};
        }
        steps := steps - 1;
      }
    }

    method Get(path: Path, connected: bool) returns (reply: Reply)
      requires Valid()
      modifies this`nodes
      ensures Valid() && old(nodes) <= nodes
      ensures reply == Done ==> path in nodes
      ensures reply == NoNode ==> path !in old(nodes)
      ensures reply != NodeExists && (connected ==> reply != Failed)
    {
      var failed: bool := *;
      if failed && !connected {
        return Failed;
      }
      reply := if path in nodes then Done else NoNode;
      Interfere();
    }

    /** A failed create may nevertheless have been applied. */
    method Create(path: Path, connected: bool) returns (reply: Reply)
      requires Valid() && path != []
      modifies this
      ensures Valid() && old(nodes) <= nodes && old(created) <= created <= old(created) + {path}
      ensures path in created - old(created) ==> path !in old(nodes)
      ensures reply == Done || reply == NodeExists ==> path in nodes
      ensures reply == NoNode ==> path[..|path| - 1] !in old(nodes)
      ensures connected ==> reply != Failed
    {
      ghost var before := nodes;
      Interfere();
      var lost: bool, applied: bool := *, *;
      lost := lost && !connected;
      if lost && !applied {
        return Failed;
      }
      if path in nodes {
        reply := NodeExists;
      } else if path[..|path| - 1] !in nodes {
        reply := NoNode;
      } else {
        nodes, created := nodes + {path}, created + {path};
        reply := Done;
      }
      if lost {
        reply := Failed;
      }
    }

    /** makePath: looks upwards for the nearest existing ancestor and creates what is
        missing below it. It never asks for a node whose parent is missing, so it succeeds
        unless the connection is lost. */
    method MakePath(path: Path, connected: bool) returns (ok: bool)
      requires Valid()
      modifies this
      ensures Valid() && old(nodes) <= nodes
      ensures ok ==> forall n :: 0 <= n <= |path| ==> path[..n] in nodes
      ensures forall p :: p in created - old(created) ==>
                p !in old(nodes) && exists n :: 0 < n <= |path| && p == path[..n]
      ensures connected ==> ok
    {
      var n, replied := FindExisting(path, connected);
      if !replied {
        return false;
      }
      ghost var top := n;
      while n < |path|
        invariant Valid() && old(nodes) <= nodes && n <= |path| && path[..n] in nodes
        invariant forall p :: p in created - old(created) ==>
                    p !in old(nodes) && exists k :: 0 < k <= n && p == path[..k]
      {
        ghost var before := created;
        assert path[..n + 1][..n] == path[..n];
        var reply := Create(path[..n + 1], connected);
        forall p | p in created - old(created)
          ensures p !in old(nodes) && exists k :: 0 < k <= n + 1 && p == path[..k]
        {
          if p !in before {
            assert p == path[..n + 1];
          }
        }
        if reply != Done && reply != NodeExists {
          assert reply == Failed;
          return false;
        }
        n := n + 1;
      }
      forall m | 0 <= m <= |path| ensures path[..m] in nodes {
        AncestorsPresent(nodes, path[..n], m);
        assert path[..n][..m] == path[..m];
      }
      return true;
    }

    /** The length of the longest prefix that was found to exist, starting from the whole. */
    method FindExisting(path: Path, connected: bool) returns (n: nat, ok: bool)
      requires Valid()
      modifies this`nodes
      ensures Valid() && old(nodes) <= nodes
      ensures n <= |path| && (ok ==> path[..n] in nodes)
      ensures ok && n < |path| ==> path[..n + 1] !in old(nodes)
      ensures connected ==> ok
    {
      n, ok := |path|, true;
      while n > 0
        invariant Valid() && old(nodes) <= nodes && n <= |path|
        invariant n < |path| ==> path[..n + 1] !in old(nodes)
      {
        var reply := Get(path[..n], connected);
        if reply == Done {
          return;
        }
        if reply == Failed {
          ok := false;
          return;
        }
        n := n - 1;
      }
    }

    /** The creating branch of set: first the ancestors, then the node itself. It can find
        that another client has been faster, but never that the parent is missing. */
    method SetMissing(path: Path, connected: bool) returns (reply: Reply)
      requires Valid() && path != []
      modifies this
      ensures Valid() && old(nodes) <= nodes
      ensures reply == Done || reply == NodeExists ==> forall n :: 0 <= n <= |path| ==> path[..n] in nodes
      ensures reply != NoNode && (connected ==> reply == Done || reply == NodeExists)
    {
      var parent := path[..|path| - 1];
      var ok := MakePath(parent, connected);
      if !ok {
        return Failed;
      }
      assert parent[..|parent|] == parent;
      reply := Create(path, connected);
      if reply == Done || reply == NodeExists {
        forall n | 0 <= n <= |path| ensures path[..n] in nodes {
          AncestorsPresent(nodes, path, n);
        }
      }
    }
  }
}
