/**
 * Lists of entries identified by a user id, as the block list of a guild and
 * the hunted-user list of a character webhook are: the commands look an entry
 * up with `Any` / `FirstOrDefault` on the id, append a new entry and remove
 * the entry found.
 */
module KeyedList {
  import opened Wrappers
  import opened ULong

  /** `xs.Any(x => key(x) == k)`. */
  predicate HasKey<T>(xs: seq<T>, key: T -> ulong, k: ulong)
  {
    exists i :: 0 <= i < |xs| && key(xs[i]) == k
  }

  /** At most one entry per id. */
  predicate UniqueKeys<T>(xs: seq<T>, key: T -> ulong)
  {
    forall i, j :: 0 <= i < j < |xs| ==> key(xs[i]) != key(xs[j])
  }

  /** Index of the first entry with id `k`, or -1. */
  function IndexOfKey<T>(xs: seq<T>, key: T -> ulong, k: ulong): (r: int)
    ensures -1 <= r < |xs|
    ensures r == -1 <==> !HasKey(xs, key, k)
    ensures r >= 0 ==> key(xs[r]) == k && forall i :: 0 <= i < r ==> key(xs[i]) != k
  {
    if xs == [] then -1
    else if key(xs[0]) == k then 0
    else
      var r := IndexOfKey(xs[1..], key, k);
      assert forall i :: 1 <= i < |xs| ==> xs[i] == xs[1..][i - 1];
      if r == -1 then -1 else r + 1
  }

  /** `xs.FirstOrDefault(x => key(x) == k)`. */
  function FindByKey<T>(xs: seq<T>, key: T -> ulong, k: ulong): (r: Option<T>)
    ensures r.Some? <==> HasKey(xs, key, k)
    ensures r.Some? ==> key(r.value) == k && exists i :: 0 <= i < |xs| && xs[i] == r.value
  {
    var i := IndexOfKey(xs, key, k);
    if i < 0 then None else Some(xs[i])
  }

  /** `xs.Remove(xs.FirstOrDefault(x => key(x) == k))`: drops the first entry with id `k`. */
  function RemoveKey<T>(xs: seq<T>, key: T -> ulong, k: ulong): seq<T>
  {
    var i := IndexOfKey(xs, key, k);
    if i < 0 then xs else xs[..i] + xs[i + 1..]
  }

  /**
   * On a list with one entry per id, removing id `k` drops exactly the entry with
   * that id: the entries left are those of the list whose id is not `k`, the list
   * is one shorter when it had an entry for `k` and unchanged otherwise, and it
   * still has one entry per id.
   */
  lemma RemoveKeyExact<T>(xs: seq<T>, key: T -> ulong, k: ulong)
    requires UniqueKeys(xs, key)
    ensures var r := RemoveKey(xs, key, k);
      && (forall x :: x in r <==> x in xs && key(x) != k)
      && !HasKey(r, key, k)
      && UniqueKeys(r, key)
      && (HasKey(xs, key, k) ==> |r| == |xs| - 1)
      && (!HasKey(xs, key, k) ==> r == xs)
  {
    var i := IndexOfKey(xs, key, k);
    if i >= 0 {
      RemoveAtMembers(xs, key, i);
      RemoveAtUnique(xs, key, i);
    } else {
      forall x | x in xs ensures key(x) != k {
        var j :| 0 <= j < |xs| && xs[j] == x;
      }
    }
  }

  /** Dropping the entry at `i` from a list with one entry per id leaves exactly the entries with another id. */
  lemma RemoveAtMembers<T>(xs: seq<T>, key: T -> ulong, i: nat)
    requires UniqueKeys(xs, key) && i < |xs|
    ensures forall x :: x in xs[..i] + xs[i + 1..] <==> x in xs && key(x) != key(xs[i])
  {
    var r := xs[..i] + xs[i + 1..];
    forall x | x in r ensures x in xs && key(x) != key(xs[i]) {
      var j :| 0 <= j < |r| && r[j] == x;
      if j < i { assert x == xs[j]; } else { assert x == xs[j + 1]; }
    }
    forall x | x in xs && key(x) != key(xs[i]) ensures x in r {
      var j :| 0 <= j < |xs| && xs[j] == x;
      if j < i { assert r[j] == x; } else { assert r[j - 1] == x; }
    }
  }

  /** Dropping one entry keeps one entry per id. */
  lemma RemoveAtUnique<T>(xs: seq<T>, key: T -> ulong, i: nat)
    requires UniqueKeys(xs, key) && i < |xs|
    ensures UniqueKeys(xs[..i] + xs[i + 1..], key)
  {
    var r := xs[..i] + xs[i + 1..];
    forall a, b | 0 <= a < b < |r| ensures key(r[a]) != key(r[b]) {
      var a' := if a < i then a else a + 1;
      var b' := if b < i then b else b + 1;
      assert r[a] == xs[a'] && r[b] == xs[b'];
    }
  }

  /** Appending an entry whose id is new keeps one entry per id. */
  lemma AddKeepsUnique<T>(xs: seq<T>, key: T -> ulong, x: T)
    requires UniqueKeys(xs, key) && !HasKey(xs, key, key(x))
    ensures UniqueKeys(xs + [x], key) && HasKey(xs + [x], key, key(x))
  {
    assert (xs + [x])[|xs|] == x;
  }

  /** Removing the id just added gives back the list before the addition. */
  lemma AddThenRemove<T>(xs: seq<T>, key: T -> ulong, x: T)
    requires !HasKey(xs, key, key(x))
    ensures RemoveKey(xs + [x], key, key(x)) == xs
  {
    var ys := xs + [x];
    assert ys[|xs|] == x;
    assert forall i :: 0 <= i < |xs| ==> ys[i] == xs[i];
    assert IndexOfKey(ys, key, key(x)) == |xs|;
    assert ys[..|xs|] == xs;
  }
}
