/**
  Files that only a test build can reach: the fixpoint of module declarations
  is the set of known files at the end of a chain of declarations whose first
  one is test-only.
*/
module TestOnlyFiles {
  /** One `mod` declaration: whether it is test-only, and the file it names. */
  datatype Declaration<R> = Declaration(testOnly: bool, target: R)

  /** The source tree: listed paths, the file each resolves to, and what each declares. */
  datatype Tree<!P, !R> = Tree(files: seq<P>, resolve: P -> R, declared: P -> seq<Declaration<R>>)

  function Known<P(==), R(==)>(t: Tree<P, R>): set<R> { set p | p in t.files :: t.resolve(p) }

  /** A declaration made by a listed path. */
  datatype Step<P, R> = Step(path: P, declaration: Declaration<R>)

  predicate IsStep<P(==), R(==)>(t: Tree<P, R>, s: Step<P, R>) {
    s.path in t.files && s.declaration in t.declared(s.path) && s.declaration.target in Known(t)
  }

  /** Declarations that lead from file to file, the first of them test-only. */
  predicate IsChain<P(==), R(==)>(t: Tree<P, R>, c: seq<Step<P, R>>) {
    && c != [] && c[0].declaration.testOnly
    && (forall k :: 0 <= k < |c| ==> IsStep(t, c[k]))
    && (forall k :: 0 < k < |c| ==> t.resolve(c[k].path) == c[k - 1].declaration.target)
  }

  ghost predicate Reached<P(!new), R(!new)>(t: Tree<P, R>, r: R) {
    exists c: seq<Step<P, R>> :: IsChain(t, c) && c[|c| - 1].declaration.target == r
  }

  lemma ChainStarts<P(!new), R(!new)>(t: Tree<P, R>, s: Step<P, R>)
    requires IsStep(t, s) && s.declaration.testOnly
    ensures Reached(t, s.declaration.target)
  {
    var c := [s];
    assert IsChain(t, c) && c[|c| - 1].declaration.target == s.declaration.target;
  }

  lemma ChainGrows<P(!new), R(!new)>(t: Tree<P, R>, s: Step<P, R>)
    requires IsStep(t, s) && Reached(t, t.resolve(s.path))
    ensures Reached(t, s.declaration.target)
  {
    var c: seq<Step<P, R>> :| IsChain(t, c) && c[|c| - 1].declaration.target == t.resolve(s.path);
    var d := c + [s];
    forall k | 0 < k < |d| ensures t.resolve(d[k].path) == d[k - 1].declaration.target {
      if k < |c| {
        assert d[k] == c[k] && d[k - 1] == c[k - 1];
      }
    }
    assert IsChain(t, d) && d[|d| - 1].declaration.target == s.declaration.target;
  }

  /** Nothing more is excluded by the declarations of a path. */
  predicate Settled<P(==), R(==)>(t: Tree<P, R>, p: P, excluded: set<R>) {
    forall d :: d in t.declared(p) && d.target in Known(t) && (d.testOnly || t.resolve(p) in excluded) ==>
      d.target in excluded
  }

  lemma {:induction false} SettledHoldsChains<P(!new), R(!new)>(t: Tree<P, R>, excluded: set<R>, c: seq<Step<P, R>>)
    requires (forall p :: p in t.files ==> Settled(t, p, excluded)) && IsChain(t, c)
    ensures c[|c| - 1].declaration.target in excluded
    decreases |c|
  {
    var last := c[|c| - 1];
    assert IsStep(t, last) && Settled(t, last.path, excluded);
    if |c| > 1 {
      SettledHoldsChains(t, excluded, c[..|c| - 1]);
    }
  }

  /** `test_only_files`: passes over the files until one changes nothing. */
  method FindTestOnly<P(==, !new), R(==, !new)>(t: Tree<P, R>) returns (result: set<P>)
    ensures forall p :: p in result <==> p in t.files && Reached(t, t.resolve(p))
  {
    var known := Known(t);
    var excluded: set<R> := {};
    var changed := true;
    while changed
      invariant excluded <= known && forall r :: r in excluded ==> Reached(t, r)
      invariant !changed ==> forall p :: p in t.files ==> Settled(t, p, excluded)
      decreases |known - excluded|, if changed then 1 else 0
    {
      excluded, changed := Pass(t, known, excluded);
    }
    result := set p | p in t.files && t.resolve(p) in excluded;
    forall r | Reached(t, r) ensures r in excluded {
      var c: seq<Step<P, R>> :| IsChain(t, c) && c[|c| - 1].declaration.target == r;
      SettledHoldsChains(t, excluded, c);
    }
  }

  /** One pass over all files. */
  method Pass<P(==, !new), R(==, !new)>(t: Tree<P, R>, known: set<R>, before: set<R>)
    returns (excluded: set<R>, changed: bool)
    requires known == Known(t) && before <= known && forall r :: r in before ==> Reached(t, r)
    ensures before <= excluded <= known && forall r :: r in excluded ==> Reached(t, r)
    ensures changed ==> |known - excluded| < |known - before|
    ensures !changed ==> excluded == before && forall p :: p in t.files ==> Settled(t, p, excluded)
  {
    hide Settled, Reached, Known;
    excluded, changed := before, false;
    for k := 0 to |t.files|
      invariant before <= excluded <= known && forall r :: r in excluded ==> Reached(t, r)
      invariant changed <==> excluded != before
      invariant !changed ==> forall i :: 0 <= i < k ==> Settled(t, t.files[i], excluded)
    {
      var grew;
      excluded, grew := Visit(t, known, t.files[k], excluded);
      changed := changed || grew;
    }
    if changed {
      Fewer(known, before, excluded);
    } else {
      forall p | p in t.files ensures Settled(t, p, excluded) {
        var i :| 0 <= i < |t.files| && t.files[i] == p;
      }
    }
  }

  lemma Fewer<R>(known: set<R>, before: set<R>, after: set<R>)
    requires before < after <= known
    ensures |known - after| < |known - before|
  {
    var r :| r in after && r !in before;
    assert known - after <= (known - before) - {r};
    Subset(known - after, (known - before) - {r});
  }

  lemma {:induction false} Subset<R>(a: set<R>, b: set<R>)
    requires a <= b
    ensures |a| <= |b|
    decreases |a|
  {
    if a != {} {
      var r :| r in a;
      Subset(a - {r}, b - {r});
    }
  }

  /** The declarations of one path; whether it is itself excluded is settled before they are read. */
  method Visit<P(==, !new), R(==, !new)>(t: Tree<P, R>, known: set<R>, path: P, before: set<R>)
    returns (excluded: set<R>, grew: bool)
    requires known == Known(t) && path in t.files && before <= known && forall r :: r in before ==> Reached(t, r)
    ensures before <= excluded <= known && forall r :: r in excluded ==> Reached(t, r)
    ensures grew <==> excluded != before
    ensures !grew ==> Settled(t, path, excluded)
  {
    excluded, grew := before, false;
    var declaring := t.resolve(path) in excluded;
    var ds := t.declared(path);
    for k := 0 to |ds|
      invariant grew <==> excluded != before
      invariant before <= excluded <= known && forall r :: r in excluded ==> Reached(t, r)
      invariant forall i :: 0 <= i < k && ds[i].target in known && (ds[i].testOnly || declaring) ==>
        ds[i].target in excluded
    {
      var d := ds[k];
      if d.target in known && d.target !in excluded && (d.testOnly || declaring) {
        ghost var s := Step(path, d);
        assert IsStep(t, s);
        if d.testOnly {
          ChainStarts(t, s);
        } else {
          ChainGrows(t, s);
        }
        excluded, grew := excluded + {d.target}, true;
      }
    }
  }

  /** The order of the files does not matter. */
  lemma OrderIsIrrelevant<P(!new), R(!new)>(t: Tree<P, R>, files: seq<P>, r: R)
    requires forall p :: p in t.files <==> p in files
    ensures Reached(t, r) <==> Reached(t.(files := files), r)
  {
    var u := t.(files := files);
    assert Known(t) == Known(u);
    forall c ensures IsChain(t, c) <==> IsChain(u, c) {
      assert forall s :: IsStep(t, s) <==> IsStep(u, s);
    }
  }
}
