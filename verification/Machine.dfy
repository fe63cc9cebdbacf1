/** Runs of a state machine: steps of any processes, one after the other, in any order. */
module Machine {

  ghost function After<W, S>(next: (W, S) -> W, w: W, steps: seq<S>): W
    decreases |steps|
  {
    if steps == [] then w else next(After(next, w, steps[..|steps| - 1]), steps[|steps| - 1])
  }

  /** b comes from a by some run of steps that are all `allowed`. */
  ghost predicate Reaches<W, S(!new)>(next: (W, S) -> W, allowed: S -> bool, a: W, b: W) {
    exists steps: seq<S> :: (forall st | st in steps :: allowed(st)) && b == After(next, a, steps)
  }

  /** What every step keeps, every run keeps. */
  lemma {:induction false} Kept<W(!new), S(!new)>(next: (W, S) -> W, inv: W -> bool, w: W, steps: seq<S>)
    requires inv(w) && forall v, st | inv(v) :: inv(next(v, st))
    ensures inv(After(next, w, steps))
    decreases |steps|
  {
    if steps != [] { Kept(next, inv, w, steps[..|steps| - 1]); }
  }

  /** A reflexive and transitive relation that holds across every allowed step holds across every run of them. */
  lemma {:induction false} Related<W(!new), S(!new)>(next: (W, S) -> W, allowed: S -> bool, rel: (W, W) -> bool, w: W, steps: seq<S>)
    requires rel(w, w) && forall a, b, c | rel(a, b) && rel(b, c) :: rel(a, c)
    requires forall v, st | allowed(st) :: rel(v, next(v, st))
    requires forall st | st in steps :: allowed(st)
    ensures rel(w, After(next, w, steps))
    decreases |steps|
  {
    if steps != [] {
      var before := steps[..|steps| - 1];
      assert forall st | st in before :: st in steps;
      Related(next, allowed, rel, w, before);
      assert allowed(steps[|steps| - 1]);
    }
  }

  lemma ReachesItself<W, S(!new)>(next: (W, S) -> W, allowed: S -> bool, w: W)
    ensures Reaches(next, allowed, w, w)
  {
    var none: seq<S> := [];
    assert w == After(next, w, none) && forall st | st in none :: allowed(st);
  }

  lemma {:induction false} AfterBoth<W, S>(next: (W, S) -> W, w: W, first: seq<S>, second: seq<S>)
    ensures After(next, w, first + second) == After(next, After(next, w, first), second)
    decreases |second|
  {
    if second == [] {
      assert first + second == first;
    } else {
      AfterBoth(next, w, first, second[..|second| - 1]);
      assert (first + second)[..|first + second| - 1] == first + second[..|second| - 1];
    }
  }

  lemma ReachesOn<W, S(!new)>(next: (W, S) -> W, allowed: S -> bool, a: W, b: W, c: W)
    requires Reaches(next, allowed, a, b) && Reaches(next, allowed, b, c)
    ensures Reaches(next, allowed, a, c)
  {
    var first: seq<S> :| (forall st | st in first :: allowed(st)) && b == After(next, a, first);
    var second: seq<S> :| (forall st | st in second :: allowed(st)) && c == After(next, b, second);
    AfterBoth(next, a, first, second);
    assert forall st | st in first + second :: allowed(st);
  }

  lemma ReachesByOne<W, S(!new)>(next: (W, S) -> W, allowed: S -> bool, w: W, st: S)
    requires allowed(st)
    ensures Reaches(next, allowed, w, next(w, st))
  {
    AfterOne(next, w, st);
    assert forall x | x in [st] :: allowed(x);
  }

  /** With more steps allowed, no less is reached. */
  lemma ReachesWider<W, S(!new)>(next: (W, S) -> W, some: S -> bool, more: S -> bool, a: W, b: W)
    requires Reaches(next, some, a, b) && forall st | some(st) :: more(st)
    ensures Reaches(next, more, a, b)
  {
    var steps: seq<S> :| (forall st | st in steps :: some(st)) && b == After(next, a, steps);
    assert forall st | st in steps :: more(st);
  }

  /** Steps that lead from each scene to the next lead from the first to the last. */
  lemma {:induction false} Follows<W(!new), S>(next: (W, S) -> W, scene: nat -> W, steps: seq<S>)
    requires forall k: nat | k < |steps| :: next(scene(k), steps[k]) == scene(k + 1)
    ensures After(next, scene(0), steps) == scene(|steps|)
    decreases |steps|
  {
    if steps != [] {
      var n := |steps| - 1;
      Follows(next, scene, steps[..n]);
      assert next(scene(n), steps[n]) == scene(n + 1);
    }
  }

  lemma AfterOne<W, S>(next: (W, S) -> W, w: W, a: S)
    ensures After(next, w, [a]) == next(w, a)
  {
    var none: seq<S> := [];
    assert [a][..0] == none && After(next, w, none) == w;
  }

  lemma AfterTwo<W, S>(next: (W, S) -> W, w: W, a: S, b: S)
    ensures After(next, w, [a, b]) == next(next(w, a), b)
  {
    AfterOne(next, w, a);
    assert [a, b][..1] == [a];
  }

  lemma AfterThree<W, S>(next: (W, S) -> W, w: W, a: S, b: S, c: S)
    ensures After(next, w, [a, b, c]) == next(next(next(w, a), b), c)
  {
    AfterTwo(next, w, a, b);
    assert [a, b, c][..2] == [a, b];
  }
}
