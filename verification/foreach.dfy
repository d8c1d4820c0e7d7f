/**
 * The two ways the engine removes particles while it advances them.
 *
 * `IndexSplice` is the rain/snow loop `for (i = 0; i < a.length; i++) { ...;
 * if (gone) { a.splice(i, 1); i--; } }`: every element is advanced, the ones
 * that leave are removed, the rest keep their order.
 *
 * `ForEachSplice` is `a.forEach((x, index) => { ...; if (gone) a.splice(index, 1); })`
 * used for clouds, shooting stars and seasonal particles: after a removal the
 * next element slides into the visited index, so `forEach` passes over it; it
 * stays in the array neither advanced nor tested in that frame.
 */
module ForEach {

  function IndexSplice<T>(s: seq<T>, step: T -> T, gone: T -> bool): (r: seq<T>)
    ensures |r| <= |s|
    ensures forall i :: 0 <= i < |r| ==> !gone(r[i])
  {
    if s == [] then []
    else (if gone(step(s[0])) then [] else [step(s[0])]) + IndexSplice(s[1..], step, gone)
  }

  function ForEachSplice<T>(s: seq<T>, step: T -> T, gone: T -> bool): (r: seq<T>)
    ensures |r| <= |s|
  {
    if s == [] then []
    else if gone(step(s[0])) then
      (if |s| == 1 then [] else [s[1]] + ForEachSplice(s[2..], step, gone))
    else [step(s[0])] + ForEachSplice(s[1..], step, gone)
  }

  function Map<T>(s: seq<T>, step: T -> T): (r: seq<T>)
    ensures |r| == |s|
    ensures forall i :: 0 <= i < |s| ==> r[i] == step(s[i])
  {
    seq(|s|, i requires 0 <= i < |s| => step(s[i]))
  }

  /** Every drop the loop keeps is an advanced drop, in the original order: the loop is filter-after-map. */
  lemma {:induction false} IndexSpliceIsFilterOfMap<T>(s: seq<T>, step: T -> T, gone: T -> bool)
    ensures IndexSplice(s, step, gone) == Filter(Map(s, step), gone)
  {
    if s != [] {
      IndexSpliceIsFilterOfMap(s[1..], step, gone);
      assert Map(s, step) == [step(s[0])] + Map(s[1..], step);
    }
  }

  /** The elements of `s` that are not `gone`, in order. */
  function Filter<T>(s: seq<T>, gone: T -> bool): seq<T> {
    if s == [] then [] else (if gone(s[0]) then [] else [s[0]]) + Filter(s[1..], gone)
  }

  /** When nothing leaves, both loops advance every element and keep them all. */
  lemma {:induction false} NoExitMeansMap<T>(s: seq<T>, step: T -> T, gone: T -> bool)
    requires forall i :: 0 <= i < |s| ==> !gone(step(s[i]))
    ensures ForEachSplice(s, step, gone) == Map(s, step)
    ensures IndexSplice(s, step, gone) == Map(s, step)
  {
    if s != [] {
      NoExitMeansMap(s[1..], step, gone);
      assert Map(s, step) == [step(s[0])] + Map(s[1..], step);
    }
  }

  /**
   * The `forEach` quirk: when an element leaves, its successor survives the frame
   * unchanged even if advancing it would have removed it too.
   */
  lemma ForEachSkipsSuccessor<T>(a: T, b: T, rest: seq<T>, step: T -> T, gone: T -> bool)
    requires gone(step(a))
    ensures ForEachSplice([a, b] + rest, step, gone) == [b] + ForEachSplice(rest, step, gone)
  {
    assert ([a, b] + rest)[2..] == rest;
  }

  /** With two elements that both leave, `forEach` keeps the second, while the index loop keeps neither. */
  lemma ForEachDiffersFromIndexLoop<T>(a: T, b: T, step: T -> T, gone: T -> bool)
    requires gone(step(a)) && gone(step(b))
    ensures ForEachSplice([a, b], step, gone) == [b]
    ensures IndexSplice([a, b], step, gone) == []
  {
    assert [a, b][2..] == [];
    assert [a, b][1..] == [b];
  }

  /** The index loop with `i--`, run over a local copy of the array. */
  method RunIndexSplice<T>(a: seq<T>, step: T -> T, gone: T -> bool) returns (r: seq<T>)
    ensures r == IndexSplice(a, step, gone)
  {
    r := a;
    var i := 0;
    while i < |r|
      invariant 0 <= i <= |r|
      invariant r[..i] + IndexSplice(r[i..], step, gone) == IndexSplice(a, step, gone)
      invariant forall k :: 0 <= k < i ==> !gone(r[k])
      decreases |r| - i
    {
      var p := step(r[i]);
      ghost var before := r;
      assert before[i..] == [before[i]] + before[i + 1..];
      if gone(p) {
        r := r[..i] + r[i + 1..];
        assert r[..i] == before[..i] && r[i..] == before[i + 1..];
      } else {
        r := r[i := p];
        i := i + 1;
      }
    }
  }

  lemma ForEachSpliceUnfold<T>(x: T, rest: seq<T>, step: T -> T, gone: T -> bool)
    ensures gone(step(x)) && rest == [] ==> ForEachSplice([x] + rest, step, gone) == []
    ensures gone(step(x)) && rest != [] ==>
      ForEachSplice([x] + rest, step, gone) == [rest[0]] + ForEachSplice(rest[1..], step, gone)
    ensures !gone(step(x)) ==> ForEachSplice([x] + rest, step, gone) == [step(x)] + ForEachSplice(rest, step, gone)
  {
    var s := [x] + rest;
    assert s[1..] == rest;
    if rest != [] {
      assert s[1] == rest[0] && s[2..] == rest[1..];
    }
  }

  /** `forEach` with `splice`, run over a local copy of the array. */
  method RunForEachSplice<T>(a: seq<T>, step: T -> T, gone: T -> bool) returns (r: seq<T>)
    ensures r == ForEachSplice(a, step, gone)
  {
    r := a;
    var index := 0;
    ghost var done: seq<T> := [];
    ghost var rest := a;
    while index < |r|
      invariant 0 <= index <= |r| + 1
      invariant index <= |r| ==> r == done + rest && |done| == index
      invariant index == |r| + 1 ==> r == done && rest == []
      invariant done + ForEachSplice(rest, step, gone) == ForEachSplice(a, step, gone)
      decreases |r| + 1 - index
    {
      var x := step(r[index]);
      ghost var y := rest[0];
      assert y == r[index];
      ForEachSpliceUnfold(y, rest[1..], step, gone);
      assert rest == [y] + rest[1..];
      if gone(x) {
        r := r[..index] + r[index + 1..];
        if |rest| > 1 {
          done, rest := done + [rest[1]], rest[2..];
        } else {
          rest := [];
        }
      } else {
        r := r[index := x];
        done, rest := done + [x], rest[1..];
      }
      index := index + 1;
    }
  }

  /**
   * A property every element has, and that advancing keeps, holds of every
   * element after a `forEach` frame: advanced elements keep it, skipped ones
   * still have it.
   */
  lemma {:induction false} ForEachSpliceKeeps<T>(s: seq<T>, step: T -> T, gone: T -> bool, ok: T -> bool)
    requires forall i :: 0 <= i < |s| ==> ok(s[i])
    requires forall x :: ok(x) ==> ok(step(x))
    ensures forall i :: 0 <= i < |ForEachSplice(s, step, gone)| ==> ok(ForEachSplice(s, step, gone)[i])
  {
    if s != [] {
      if gone(step(s[0])) {
        if |s| > 1 {
          ForEachSpliceKeeps(s[2..], step, gone, ok);
        }
      } else {
        ForEachSpliceKeeps(s[1..], step, gone, ok);
      }
    }
  }
}
