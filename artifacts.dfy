/**
 * Artifact resolution shared by both notifiers: the workspace tree, the path each file is matched
 * under, the files a matcher selects, and the zero / one / many classification of the selection.
 * The notifiers' own `getArtifacts` methods, which walk the tree and append to a list, are proved
 * against `Matching(Candidates(...))` in their modules.
 */
module Artifacts {
  import opened Common

  /** A regular file in the workspace. */
  datatype File = File(name: string, contents: seq<byte>)

  /** A node of the workspace tree as `hudson.FilePath` lists it. */
  datatype Node = FileNode(file: File) | Directory(name: string, children: seq<Node>)

  /** `FilePath.list()`: the children of a directory; anything else lists as empty. */
  function Children(n: Node): seq<Node>
  {
    if n.Directory? then n.children else []
  }

  /** The base handed to the recursive call for a subdirectory: `String.format("%s/%s", base, dir)`. */
  function SubBase(base: string, dir: string): string
  {
    base + "/" + dir
  }

  /** `Paths.get(base, name).toString()`: an empty base contributes nothing. */
  function JoinPath(base: string, name: string): string
  {
    if base == "" then name else base + "/" + name
  }

  /** A file found by the walk, with the path the matcher is asked about. */
  datatype Candidate = Candidate(path: string, file: File)

  /** Every file below `nodes`, in depth-first listing order, with the path it is matched under. */
  function Candidates(nodes: seq<Node>, base: string): seq<Candidate>
    decreases nodes
  {
    if nodes == [] then []
    else
      var n := nodes[0];
      var first :=
        if n.Directory? then Candidates(n.children, SubBase(base, n.name))
        else [Candidate(JoinPath(base, n.file.name), n.file)];
      first + Candidates(nodes[1..], base)
  }

  /** The candidates whose path satisfies the matcher, in walk order. */
  function Matching(cs: seq<Candidate>, matcher: string -> bool): seq<Candidate>
  {
    if cs == [] then []
    else (if matcher(cs[0].path) then [cs[0]] else []) + Matching(cs[1..], matcher)
  }

  /** What the walk from a workspace root collects: its matching files. */
  function Found(workspace: Node, matcher: string -> bool): seq<Candidate>
  {
    Matching(Candidates(Children(workspace), ""), matcher)
  }

  /** The two exceptions `getArtifact` throws. */
  datatype ResolveError = ArtifactsNotFound | MultipleArtifacts

  datatype Resolution = Resolved(artifact: Candidate) | Unresolved(error: ResolveError)

  /** `getArtifact`'s decision on the collected list: none, exactly one, or more than one. */
  function Select(found: seq<Candidate>): (r: Resolution)
    ensures r == Unresolved(ArtifactsNotFound) <==> |found| == 0
    ensures r == Unresolved(MultipleArtifacts) <==> |found| > 1
    ensures r.Resolved? <==> |found| == 1
    ensures r.Resolved? ==> r.artifact in found
  {
    if |found| == 0 then Unresolved(ArtifactsNotFound)
    else if |found| > 1 then Unresolved(MultipleArtifacts)
    else Resolved(found[0])
  }

  lemma {:induction false} CandidatesAppend(a: seq<Node>, b: seq<Node>, base: string)
    ensures Candidates(a + b, base) == Candidates(a, base) + Candidates(b, base)
    decreases a
  {
    if a == [] {
      assert a + b == b;
    } else {
      assert (a + b)[0] == a[0];
      assert (a + b)[1..] == a[1..] + b;
      CandidatesAppend(a[1..], b, base);
    }
  }

  /** Matching a sequence with a known first candidate: keep it or not, then match the rest. */
  lemma MatchingCons(c: Candidate, rest: seq<Candidate>, matcher: string -> bool)
    ensures Matching([c] + rest, matcher) == (if matcher(c.path) then [c] else []) + Matching(rest, matcher)
  {
    assert ([c] + rest)[0] == c;
    assert ([c] + rest)[1..] == rest;
  }

  lemma {:induction false} MatchingAppend(a: seq<Candidate>, b: seq<Candidate>, matcher: string -> bool)
    ensures Matching(a + b, matcher) == Matching(a, matcher) + Matching(b, matcher)
  {
    if a == [] {
      assert a + b == b;
    } else {
      var c, rest := a[0], a[1..];
      var head := if matcher(c.path) then [c] else [];
      assert a == [c] + rest;
      assert a + b == [c] + (rest + b);
      MatchingCons(c, rest + b, matcher);
      MatchingCons(c, rest, matcher);
      MatchingAppend(rest, b, matcher);
      AppendAssoc(head, Matching(rest, matcher), Matching(b, matcher));
    }
  }

  /**
   * One more child of the walk: a directory contributes what its own walk under the extended base
   * collects, a file contributes itself when its joined path matches, and nothing else changes.
   */
  lemma WalkStep(children: seq<Node>, i: nat, base: string, matcher: string -> bool)
    requires i < |children|
    ensures Matching(Candidates(children[..i + 1], base), matcher)
            == Matching(Candidates(children[..i], base), matcher)
               + (if children[i].Directory?
                  then Matching(Candidates(children[i].children, SubBase(base, children[i].name)), matcher)
                  else if matcher(JoinPath(base, children[i].file.name))
                  then [Candidate(JoinPath(base, children[i].file.name), children[i].file)]
                  else [])
  {
    var n := children[i];
    assert children[..i + 1] == children[..i] + [n];
    CandidatesAppend(children[..i], [n], base);
    MatchingAppend(Candidates(children[..i], base), Candidates([n], base), matcher);
    assert [n][1..] == [];
    if n.Directory? {
      var inner := Candidates(n.children, SubBase(base, n.name));
      assert Candidates([n], base) == inner + [];
      assert inner + [] == inner;
    } else {
      var c := Candidate(JoinPath(base, n.file.name), n.file);
      assert Candidates([n], base) == [c] + [];
      assert Matching([c], matcher) == (if matcher(c.path) then [c] else []) + Matching([], matcher);
    }
  }

  /** Only candidates, and exactly the candidates, whose path satisfies the matcher are kept. */
  lemma {:induction false} MatchingMembers(cs: seq<Candidate>, matcher: string -> bool, c: Candidate)
    ensures c in Matching(cs, matcher) <==> c in cs && matcher(c.path)
  {
    if cs != [] {
      MatchingMembers(cs[1..], matcher, c);
      assert cs == [cs[0]] + cs[1..];
    }
  }

  predicate IsPrefix(p: string, s: string)
  {
    |p| <= |s| && s[..|p|] == p
  }

  predicate IsSuffix(p: string, s: string)
  {
    |p| <= |s| && s[|s| - |p|..] == p
  }

  /**
   * Every file is matched under a path that ends with its own name, and below a non-empty base
   * that path starts with the base followed by "/".
   */
  lemma {:induction false} CandidatePaths(nodes: seq<Node>, base: string, c: Candidate)
    requires c in Candidates(nodes, base)
    ensures IsSuffix(c.file.name, c.path)
    ensures base != "" ==> IsPrefix(base + "/", c.path)
    decreases nodes
  {
    var n := nodes[0];
    if n.Directory? && c in Candidates(n.children, SubBase(base, n.name)) {
      CandidatePaths(n.children, SubBase(base, n.name), c);
      var sub := SubBase(base, n.name);
      if base != "" {
        assert IsPrefix(sub + "/", c.path);
        assert c.path[..|base| + 1] == (sub + "/")[..|base| + 1];
        assert (sub + "/")[..|base| + 1] == base + "/";
      }
    } else if !n.Directory? && c == Candidate(JoinPath(base, n.file.name), n.file) {
      var p := JoinPath(base, n.file.name);
      if base != "" {
        assert p == (base + "/") + n.file.name;
      }
      assert p[|p| - |n.file.name|..] == n.file.name;
    } else {
      CandidatePaths(nodes[1..], base, c);
    }
  }

  /** A file listed directly in the workspace is matched under its bare name. */
  lemma RootFilePath(f: File, rest: seq<Node>)
    ensures Candidates([FileNode(f)] + rest, "") == [Candidate(f.name, f)] + Candidates(rest, "")
  {
    CandidatesAppend([FileNode(f)], rest, "");
  }

  /** A file in a top-level directory `d` is matched under "/d/name", with a leading slash. */
  lemma NestedFilePath(d: string, f: File, rest: seq<Node>)
    ensures Candidates([Directory(d, [FileNode(f)])] + rest, "")
            == [Candidate("/" + d + "/" + f.name, f)] + Candidates(rest, "")
  {
    CandidatesAppend([Directory(d, [FileNode(f)])], rest, "");
    var base := SubBase("", d);
    assert base == "/" + d && base != "";
    assert Candidates([FileNode(f)], base) == [Candidate(base + "/" + f.name, f)];
    assert Candidates([Directory(d, [FileNode(f)])], "") == Candidates([FileNode(f)], base);
  }

  /**
   * The selection resolves to `c` exactly when `c` is the one file the matcher accepts: it is a
   * candidate, it matches, and every matching candidate is `c` with no second copy.
   */
  lemma ResolvedIsTheOnlyMatch(cs: seq<Candidate>, matcher: string -> bool, c: Candidate)
    ensures Select(Matching(cs, matcher)) == Resolved(c) <==> Matching(cs, matcher) == [c]
    ensures Select(Matching(cs, matcher)) == Resolved(c) ==>
              c in cs && matcher(c.path) && forall d :: d in cs && matcher(d.path) ==> d == c
  {
    var m := Matching(cs, matcher);
    if m == [c] {
      MatchingMembers(cs, matcher, c);
      forall d | d in cs && matcher(d.path) ensures d == c {
        MatchingMembers(cs, matcher, d);
      }
    }
  }

  /**
   * There is no "first match wins": the outcome of the selection does not depend on the order the
   * walk visited the files in.
   */
  lemma {:induction false} SelectIgnoresOrder(a: seq<Candidate>, b: seq<Candidate>)
    requires multiset(a) == multiset(b)
    ensures Select(a) == Select(b)
  {
    assert |a| == |multiset(a)| == |multiset(b)| == |b|;
    if |a| == 1 {
      assert a == [a[0]] && b == [b[0]];
      assert a[0] in multiset(b);
    }
  }
}
