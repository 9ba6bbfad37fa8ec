/** The three immutable collection updates every store action is built
    from (store/useStore.ts, lines 114-141):

      add     `[...xs, x]`
      update  `xs.map(x => x.id === id ? { ...x, ...patch } : x)`
      delete  `xs.filter(x => x.id !== id)`

    They are generic in the element type; `idOf` gives an element's `id`
    and `merge` is the shallow merge `{ ...x, ...patch }` of that type. */
module Collection {

  /** Some element of `xs` has the key `id`. */
  predicate HasId<T>(xs: seq<T>, id: string, idOf: T -> string)
  {
    exists i :: 0 <= i < |xs| && idOf(xs[i]) == id
  }

  /** No two elements of `xs` share a key. The backend keeps this; the
      store neither checks nor relies on it. */
  predicate UniqueIds<T>(xs: seq<T>, idOf: T -> string)
  {
    forall i, j :: 0 <= i < j < |xs| ==> idOf(xs[i]) != idOf(xs[j])
  }

  /** How many elements of `xs` have the key `id`. */
  function CountId<T>(xs: seq<T>, id: string, idOf: T -> string): (n: nat)
    ensures n <= |xs|
    ensures n == 0 <==> !HasId(xs, id, idOf)
  {
    if xs == [] then 0
    else
      var rest := CountId(xs[1..], id, idOf);
      assert HasId(xs, id, idOf) <==> idOf(xs[0]) == id || HasId(xs[1..], id, idOf) by {
        if HasId(xs[1..], id, idOf) {
          var i :| 0 <= i < |xs[1..]| && idOf(xs[1..][i]) == id;
          assert idOf(xs[i + 1]) == id;
        }
        if HasId(xs, id, idOf) && idOf(xs[0]) != id {
          var i :| 0 <= i < |xs| && idOf(xs[i]) == id;
          assert idOf(xs[1..][i - 1]) == id;
        }
      }
      (if idOf(xs[0]) == id then 1 else 0) + rest
  }

  /* ---------------- add ---------------- */

  /** `[...xs, x]`: one element longer, `x` last, everything before it
      unchanged and in order. No duplicate-key check. */
  function Append<T>(xs: seq<T>, x: T): (r: seq<T>)
    ensures |r| == |xs| + 1
    ensures r[|xs|] == x
    ensures r[..|xs|] == xs
  {
    xs + [x]
  }

  /** Appending keeps keys unique exactly when the new key is fresh. */
  lemma AppendUnique<T>(xs: seq<T>, x: T, idOf: T -> string)
    ensures UniqueIds(Append(xs, x), idOf) <==> UniqueIds(xs, idOf) && !HasId(xs, idOf(x), idOf)
  {
    var r := Append(xs, x);
    if UniqueIds(r, idOf) {
      forall i, j | 0 <= i < j < |xs| ensures idOf(xs[i]) != idOf(xs[j]) {
        assert r[i] == xs[i] && r[j] == xs[j];
      }
      forall i | 0 <= i < |xs| ensures idOf(xs[i]) != idOf(x) {
        assert r[i] == xs[i] && r[|xs|] == x;
      }
    }
  }

  /* ---------------- update ---------------- */

  /** The `map` with a shallow merge: the same length, every element with
      key `id` merged with `patch`, every other element as it was. */
  function UpdateById<T, P>(xs: seq<T>, id: string, patch: P,
                            idOf: T -> string, merge: (T, P) -> T): (r: seq<T>)
    ensures |r| == |xs|
    ensures forall i :: 0 <= i < |xs| ==>
              r[i] == if idOf(xs[i]) == id then merge(xs[i], patch) else xs[i]
  {
    if xs == [] then []
    else
      [if idOf(xs[0]) == id then merge(xs[0], patch) else xs[0]]
        + UpdateById(xs[1..], id, patch, idOf, merge)
  }

  /** Updating a key no element has leaves the collection as it was. */
  lemma UpdateAbsent<T, P>(xs: seq<T>, id: string, patch: P,
                              idOf: T -> string, merge: (T, P) -> T)
    requires !HasId(xs, id, idOf)
    ensures UpdateById(xs, id, patch, idOf, merge) == xs
  {
    var r := UpdateById(xs, id, patch, idOf, merge);
    forall i | 0 <= i < |xs| ensures r[i] == xs[i] {
      assert idOf(xs[i]) != id;
    }
  }

  /** With unique keys, updating the key of element `k` replaces that
      element by its merge and nothing else. */
  lemma UpdateAt<T, P>(xs: seq<T>, k: nat, patch: P,
                       idOf: T -> string, merge: (T, P) -> T)
    requires UniqueIds(xs, idOf) && k < |xs|
    ensures UpdateById(xs, idOf(xs[k]), patch, idOf, merge) == xs[k := merge(xs[k], patch)]
  {
    var r := UpdateById(xs, idOf(xs[k]), patch, idOf, merge);
    forall i | 0 <= i < |xs| && i != k ensures r[i] == xs[i] {
      assert idOf(xs[i]) != idOf(xs[k]);
    }
  }

  /** A merge that keeps the key keeps every key of the collection, so
      the set of keys, and their uniqueness, survive an update. */
  lemma UpdateKeepsIds<T, P>(xs: seq<T>, id: string, patch: P,
                             idOf: T -> string, merge: (T, P) -> T)
    requires forall t :: idOf(merge(t, patch)) == idOf(t)
    ensures var r := UpdateById(xs, id, patch, idOf, merge);
            && (forall i :: 0 <= i < |xs| ==> idOf(r[i]) == idOf(xs[i]))
            && (forall k :: HasId(r, k, idOf) <==> HasId(xs, k, idOf))
            && (UniqueIds(r, idOf) <==> UniqueIds(xs, idOf))
  {
    var r := UpdateById(xs, id, patch, idOf, merge);
    assert forall i :: 0 <= i < |xs| ==> idOf(r[i]) == idOf(xs[i]);
  }

  /** Two updates of the same key are one update with the combined patch,
      when the merge keeps keys and `c` combines `a` then `b`. */
  lemma UpdateTwice<T, P>(xs: seq<T>, id: string, a: P, b: P, c: P,
                          idOf: T -> string, merge: (T, P) -> T)
    requires forall t :: idOf(merge(t, a)) == idOf(t)
    requires forall t :: merge(merge(t, a), b) == merge(t, c)
    ensures UpdateById(UpdateById(xs, id, a, idOf, merge), id, b, idOf, merge)
            == UpdateById(xs, id, c, idOf, merge)
  {
    var once := UpdateById(xs, id, a, idOf, merge);
    var twice := UpdateById(once, id, b, idOf, merge);
    var direct := UpdateById(xs, id, c, idOf, merge);
    forall i | 0 <= i < |xs| ensures twice[i] == direct[i] {
      if idOf(xs[i]) == id {
        assert idOf(once[i]) == id;
      }
    }
  }

  /* ---------------- delete ---------------- */

  /** The `filter`: the elements whose key is not `id`, in their original
      order; as many fewer as there were elements with that key. */
  function RemoveById<T>(xs: seq<T>, id: string, idOf: T -> string): (r: seq<T>)
    ensures |r| == |xs| - CountId(xs, id, idOf)
    ensures forall i :: 0 <= i < |r| ==> r[i] in xs && idOf(r[i]) != id
    ensures forall i :: 0 <= i < |xs| && idOf(xs[i]) != id ==> xs[i] in r
  {
    if xs == [] then []
    else
      var rest := RemoveById(xs[1..], id, idOf);
      assert forall i :: 1 <= i < |xs| ==> xs[i] == xs[1..][i - 1];
      if idOf(xs[0]) == id then rest else [xs[0]] + rest
  }

  /** Removing distributes over concatenation: the survivors keep their
      relative order. */
  lemma {:induction false} RemoveConcat<T>(xs: seq<T>, ys: seq<T>, id: string, idOf: T -> string)
    ensures RemoveById(xs + ys, id, idOf) == RemoveById(xs, id, idOf) + RemoveById(ys, id, idOf)
  {
    if xs == [] {
      assert xs + ys == ys;
    } else {
      assert (xs + ys)[1..] == xs[1..] + ys;
      RemoveConcat(xs[1..], ys, id, idOf);
    }
  }

  /** Removing a key no element has leaves the collection as it was. */
  lemma {:induction false} RemoveAbsent<T>(xs: seq<T>, id: string, idOf: T -> string)
    requires !HasId(xs, id, idOf)
    ensures RemoveById(xs, id, idOf) == xs
  {
    if xs != [] {
      assert idOf(xs[0]) != id;
      forall i | 0 <= i < |xs[1..]| ensures idOf(xs[1..][i]) != id {
        assert xs[1..][i] == xs[i + 1];
      }
      RemoveAbsent(xs[1..], id, idOf);
      assert xs == [xs[0]] + xs[1..];
    }
  }

  /** Deleting twice is deleting once. */
  lemma RemoveIdempotent<T>(xs: seq<T>, id: string, idOf: T -> string)
    ensures RemoveById(RemoveById(xs, id, idOf), id, idOf) == RemoveById(xs, id, idOf)
  {
    var r := RemoveById(xs, id, idOf);
    assert forall i :: 0 <= i < |r| ==> idOf(r[i]) != id;
    RemoveAbsent(r, id, idOf);
  }

  /** With unique keys, deleting the key of element `k` drops exactly
      that element: the result is one shorter and otherwise in order. */
  lemma RemoveAt<T>(xs: seq<T>, k: nat, idOf: T -> string)
    requires UniqueIds(xs, idOf) && k < |xs|
    ensures RemoveById(xs, idOf(xs[k]), idOf) == xs[..k] + xs[k + 1..]
    ensures |RemoveById(xs, idOf(xs[k]), idOf)| == |xs| - 1
  {
    var id := idOf(xs[k]);
    var before, after := xs[..k], xs[k + 1..];
    forall i | 0 <= i < |before| ensures idOf(before[i]) != id {
      assert before[i] == xs[i];
    }
    forall i | 0 <= i < |after| ensures idOf(after[i]) != id {
      assert after[i] == xs[k + 1 + i];
    }
    assert xs == before + ([xs[k]] + after);
    RemoveConcat(before, [xs[k]] + after, id, idOf);
    RemoveConcat([xs[k]], after, id, idOf);
    assert RemoveById([xs[k]], id, idOf) == [];
    RemoveAbsent(before, id, idOf);
    RemoveAbsent(after, id, idOf);
  }

  /** Putting in front of a collection with unique keys an element whose
      key none of them has keeps keys unique. */
  lemma ConsUnique<T>(x: T, ys: seq<T>, idOf: T -> string)
    requires UniqueIds(ys, idOf)
    requires forall m :: 0 <= m < |ys| ==> idOf(ys[m]) != idOf(x)
    ensures UniqueIds([x] + ys, idOf)
  {
    var r := [x] + ys;
    forall i, j | 0 <= i < j < |r| ensures idOf(r[i]) != idOf(r[j]) {
      assert r[j] == ys[j - 1];
      if i > 0 {
        assert r[i] == ys[i - 1];
      }
    }
  }

  /** Deleting keeps keys unique, and the deleted key is gone. */
  lemma {:induction false} RemoveKeepsUnique<T>(xs: seq<T>, id: string, idOf: T -> string)
    requires UniqueIds(xs, idOf)
    ensures UniqueIds(RemoveById(xs, id, idOf), idOf)
    ensures !HasId(RemoveById(xs, id, idOf), id, idOf)
  {
    var r := RemoveById(xs, id, idOf);
    if xs != [] {
      var tail := xs[1..];
      var rest := RemoveById(tail, id, idOf);
      assert UniqueIds(tail, idOf) by {
        forall i, j | 0 <= i < j < |tail| ensures idOf(tail[i]) != idOf(tail[j]) {
          assert tail[i] == xs[i + 1] && tail[j] == xs[j + 1];
        }
      }
      RemoveKeepsUnique(tail, id, idOf);
      if idOf(xs[0]) != id {
        forall m | 0 <= m < |rest| ensures idOf(rest[m]) != idOf(xs[0]) {
          var q :| 0 <= q < |tail| && tail[q] == rest[m];
          assert tail[q] == xs[q + 1];
        }
        ConsUnique(xs[0], rest, idOf);
      }
    }
    assert forall i :: 0 <= i < |r| ==> idOf(r[i]) != id;
  }

  /** Adding an element with a fresh key and then deleting that key gives
      back the collection as it was before the add. */
  lemma RemoveAfterAppend<T>(xs: seq<T>, x: T, idOf: T -> string)
    requires !HasId(xs, idOf(x), idOf)
    ensures RemoveById(Append(xs, x), idOf(x), idOf) == xs
  {
    RemoveConcat(xs, [x], idOf(x), idOf);
    RemoveAbsent(xs, idOf(x), idOf);
    assert RemoveById([x], idOf(x), idOf) == [];
  }
}
