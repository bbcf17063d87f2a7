/**
 * The list transformations the view model applies to its `inputs` when a
 * request succeeds: replace-by-id (Kotlin `map`) and remove-by-id (Kotlin
 * `filter`), with the facts about ids that describe what they do.
 */
module InputLists {
  import opened Models

  /** Some record of `xs` carries `id`. */
  predicate HasId(xs: seq<InputData>, id: Int32)
  {
    exists i :: 0 <= i < |xs| && xs[i].id == id
  }

  /** No two records of `xs` share an id. The device assigns ids; the client never checks this. */
  predicate IdsUnique(xs: seq<InputData>)
  {
    forall i, j :: 0 <= i < j < |xs| ==> xs[i].id != xs[j].id
  }

  /** How many records of `xs` carry `id`. */
  function CountId(xs: seq<InputData>, id: Int32): nat
  {
    if xs == [] then 0
    else (if xs[0].id == id then 1 else 0) + CountId(xs[1..], id)
  }

  /** `a` is `b` with some elements dropped and the rest kept in their order. */
  predicate IsSubsequence<T(==)>(a: seq<T>, b: seq<T>)
    decreases |b|
  {
    || a == []
    || (b != [] && ((a[0] == b[0] && IsSubsequence(a[1..], b[1..])) || IsSubsequence(a, b[1..])))
  }

  /** Every list is a subsequence of itself: dropping nothing keeps the order. */
  lemma {:induction false} SubsequenceOfItself<T>(xs: seq<T>)
    ensures IsSubsequence(xs, xs)
  {
    if xs != [] {
      SubsequenceOfItself(xs[1..]);
    }
  }

  /**
   * `inputs.map { if (it.id == id) updated else it }`: every record whose id is
   * `id` becomes `updated`, every other record stays where it was.
   */
  function ReplaceById(xs: seq<InputData>, id: Int32, updated: InputData): (r: seq<InputData>)
    ensures |r| == |xs|
    ensures forall i :: 0 <= i < |xs| ==> r[i] == (if xs[i].id == id then updated else xs[i])
  {
    if xs == [] then []
    else [if xs[0].id == id then updated else xs[0]] + ReplaceById(xs[1..], id, updated)
  }

  /**
   * `inputs.filter { it.id != id }`: exactly the records whose id is not `id`
   * survive, each once per occurrence, in their original order.
   */
  function RemoveById(xs: seq<InputData>, id: Int32): (r: seq<InputData>)
    ensures forall x :: x in r <==> x in xs && x.id != id
    ensures |r| == |xs| - CountId(xs, id)
    ensures IsSubsequence(r, xs)
  {
    if xs == [] then []
    else
      var rest := RemoveById(xs[1..], id);
      assert forall x :: x in xs <==> x == xs[0] || x in xs[1..];
      if xs[0].id == id then rest
      else
        assert ([xs[0]] + rest)[1..] == rest;
        [xs[0]] + rest
  }

  /** A record with `id` is present exactly when the count of `id` is positive. */
  lemma {:induction false} CountIdPositiveIffPresent(xs: seq<InputData>, id: Int32)
    ensures CountId(xs, id) > 0 <==> HasId(xs, id)
  {
    if xs != [] {
      CountIdPositiveIffPresent(xs[1..], id);
      if HasId(xs[1..], id) {
        var i :| 0 <= i < |xs[1..]| && xs[1..][i].id == id;
        assert xs[i + 1].id == id;
      }
      if HasId(xs, id) && xs[0].id != id {
        var i :| 0 <= i < |xs| && xs[i].id == id;
        assert xs[1..][i - 1].id == id;
      }
    }
  }

  /** The tail of a list with unique ids has unique ids, none equal to the head's. */
  lemma UniqueTail(xs: seq<InputData>)
    requires xs != [] && IdsUnique(xs)
    ensures IdsUnique(xs[1..])
    ensures forall x :: x in xs[1..] ==> x.id != xs[0].id
  {
    forall i, j | 0 <= i < j < |xs[1..]| ensures xs[1..][i].id != xs[1..][j].id {
      assert xs[1..][i] == xs[i + 1] && xs[1..][j] == xs[j + 1];
    }
    forall x | x in xs[1..] ensures x.id != xs[0].id {
      var k :| 0 <= k < |xs[1..]| && xs[1..][k] == x;
      assert xs[1..][k] == xs[k + 1];
    }
  }

  /** With unique ids an id occurs at most once, so it is counted once when present. */
  lemma {:induction false} CountIdWhenUnique(xs: seq<InputData>, id: Int32)
    requires IdsUnique(xs)
    ensures CountId(xs, id) == if HasId(xs, id) then 1 else 0
  {
    CountIdPositiveIffPresent(xs, id);
    if xs != [] {
      UniqueTail(xs);
      CountIdWhenUnique(xs[1..], id);
      if xs[0].id == id {
        forall i | 0 <= i < |xs[1..]| ensures xs[1..][i].id != id {
          assert xs[1..][i] in xs[1..];
        }
        CountIdPositiveIffPresent(xs[1..], id);
      }
    }
  }

  /** Removing an id that no record carries leaves the list as it was. */
  lemma {:induction false} RemoveAbsentIdIsIdentity(xs: seq<InputData>, id: Int32)
    requires !HasId(xs, id)
    ensures RemoveById(xs, id) == xs
  {
    if xs != [] {
      var tail := xs[1..];
      assert !HasId(tail, id) by {
        forall i | 0 <= i < |tail| ensures tail[i].id != id {
          assert tail[i] == xs[i + 1];
        }
      }
      RemoveAbsentIdIsIdentity(tail, id);
      calc {
        RemoveById(xs, id);
        { assert xs[0].id != id; }
        [xs[0]] + RemoveById(tail, id);
        [xs[0]] + tail;
        { assert xs == [xs[0]] + tail; }
        xs;
      }
    }
  }

  /** Filtering keeps ids unique. */
  lemma {:induction false} RemoveByIdKeepsIdsUnique(xs: seq<InputData>, id: Int32)
    requires IdsUnique(xs)
    ensures IdsUnique(RemoveById(xs, id))
  {
    if xs != [] {
      UniqueTail(xs);
      RemoveByIdKeepsIdsUnique(xs[1..], id);
      var rest := RemoveById(xs[1..], id);
      if xs[0].id != id {
        var r := [xs[0]] + rest;
        forall i, j | 0 <= i < j < |r| ensures r[i].id != r[j].id {
          assert r[j] == rest[j - 1] && rest[j - 1] in xs[1..];
          if i > 0 {
            assert r[i] == rest[i - 1];
          }
        }
      }
    }
  }

  /** With unique ids, replacing by the record's own id keeps ids unique. */
  lemma ReplaceByIdKeepsIdsUnique(xs: seq<InputData>, id: Int32, updated: InputData)
    requires IdsUnique(xs) && updated.id == id
    ensures IdsUnique(ReplaceById(xs, id, updated))
  {
    var r := ReplaceById(xs, id, updated);
    assert forall i :: 0 <= i < |xs| ==> r[i].id == xs[i].id;
  }
}
