/** What `QName::fmt` in creusot/src/mlcfg/printer.rs prints, stated against an
    index-based reading of its zip/skip_while pipeline: of the name's module
    segments it keeps those from the first position where scope and path differ
    up to the shorter of the two lengths, so segments past the end of the open
    scope are never printed. */
module QNameProps {
  import opened Text
  import opened Brackets
  import opened Ir
  import opened Printer

  /** The length of the common prefix of `a` and `b`, compared position by position. */
  function FirstMismatch(a: seq<string>, b: seq<string>): (k: nat)
    ensures k <= |a| && k <= |b|
    ensures forall i :: 0 <= i < k ==> a[i] == b[i]
    ensures k < |a| && k < |b| ==> a[k] != b[k]
  {
    if a == [] || b == [] || a[0] != b[0] then 0 else 1 + FirstMismatch(a[1..], b[1..])
  }

  lemma SecondsZip(a: seq<string>, b: seq<string>)
    ensures Seconds(Zip(a, b)) == b[..Min(|a|, |b|)]
  {
  }

  /** The kept module segments are exactly `path[k..m]`, with `k` the first
      mismatch and `m` the shorter length. */
  lemma {:induction false} ModuleSegmentsKept(scope: seq<string>, path: seq<string>)
    ensures ModuleSegments(scope, path) == path[FirstMismatch(scope, path)..Min(|scope|, |path|)]
  {
    if scope == [] || path == [] {
    } else if scope[0] == path[0] {
      var s1, p1 := scope[1..], path[1..];
      SkipFirstEqual(scope, path);
      ModuleSegmentsKept(s1, p1);
      var k1, m1 := FirstMismatch(s1, p1), Min(|s1|, |p1|);
      assert FirstMismatch(scope, path) == k1 + 1;
      assert Min(|scope|, |path|) == m1 + 1;
      SliceOfTail(path, k1, m1);
    } else {
      SecondsZip(scope, path);
    }
  }

  lemma SliceOfTail(path: seq<string>, k: nat, m: nat)
    requires path != [] && k <= m <= |path| - 1
    ensures path[1..][k..m] == path[k + 1..m + 1]
  {
  }

  lemma SkipFirstEqual(scope: seq<string>, path: seq<string>)
    requires scope != [] && path != [] && scope[0] == path[0]
    ensures ModuleSegments(scope, path) == ModuleSegments(scope[1..], path[1..])
  {
    assert Zip(scope, path) == [(scope[0], path[0])] + Zip(scope[1..], path[1..]);
    assert Zip(scope, path)[1..] == Zip(scope[1..], path[1..]);
  }

  /** `QName::fmt`, spelled out: with non-empty module segments, the printed
      name is the kept segments joined with `.` and a final `.`, if any are
      kept, then the identifier segments joined with `_`. */
  lemma ShowQNameSpec(fe: FormatEnv, q: QName)
    requires forall i :: 0 <= i < |q.path| ==> q.path[i] != ""
    ensures
      var k, m := FirstMismatch(fe.scope, q.path), Min(|fe.scope|, |q.path|);
      ShowQName(fe, q) == (if k == m then "" else Join(q.path[k..m], ".") + ".") + Join(q.name, "_")
  {
    var k, m := FirstMismatch(fe.scope, q.path), Min(|fe.scope|, |q.path|);
    ModuleSegmentsKept(fe.scope, q.path);
    JoinEmpty(q.path[k..m], ".");
  }

  /** When the open scope is a prefix of the name's module path (in particular
      when it is empty or equal to it) only the identifier is printed: module
      segments past the end of the scope are dropped. */
  lemma QNameUnderScope(fe: FormatEnv, q: QName)
    requires |fe.scope| <= |q.path| && q.path[..|fe.scope|] == fe.scope
    ensures ShowQName(fe, q) == Join(q.name, "_")
  {
    ModuleSegmentsKept(fe.scope, q.path);
    assert FirstMismatch(fe.scope, q.path) == |fe.scope|;
  }

  /** When the first segments differ and the path is no longer than the scope,
      the whole module path is printed. */
  lemma QNameOutsideScope(fe: FormatEnv, q: QName)
    requires 0 < |q.path| <= |fe.scope| && fe.scope[0] != q.path[0]
    requires forall i :: 0 <= i < |q.path| ==> q.path[i] != ""
    ensures ShowQName(fe, q) == Join(q.path, ".") + "." + Join(q.name, "_")
  {
    ShowQNameSpec(fe, q);
    assert q.path[0..|q.path|] == q.path;
  }

  /** A name whose segments are plain. */
  predicate PlainQName(q: QName)
  {
    && |q.name| > 0
    && (forall i :: 0 <= i < |q.name| ==> Plain(q.name[i]))
    && (forall i :: 0 <= i < |q.path| ==> Plain(q.path[i]))
  }

  /** A qualified name prints as one plain token. */
  lemma QNamePlain(fe: FormatEnv, q: QName)
    requires PlainQName(q)
    ensures Plain(ShowQName(fe, q))
  {
    var segs := ModuleSegments(fe.scope, q.path);
    ModuleSegmentsKept(fe.scope, q.path);
    FlatJoin(segs, ".");
    PlainJoin(q.name, "_");
  }

  /** An empty module segment that survives the scope comparison joins to
      the empty module path, so the separating `.` is dropped too: outside
      scope `a`, the path `[""]` prints the bare identifier. */
  lemma EmptySegmentDropped(fe: FormatEnv, id: string)
    requires fe.scope == ["a"]
    ensures ShowQName(fe, QName([""], [id])) == id
  {
    assert Zip(fe.scope, [""]) == [("a", "")];
    assert ModuleSegments(fe.scope, [""]) == [""];
  }
}
