/**
 * The list operations the state containers apply to their record sequences:
 * `Array.prototype.findIndex` by id, the "replace the first record with the same id"
 * patch, `filter` by id, and `push`.  Records are compared by `key(r) === id`, where
 * a missing id is the JavaScript `undefined`.
 */
module RecordList {
  import opened Wrappers

  /**
   * A record identifier: `undefined` (None) or a string.  A `null` id is not modelled;
   * under `===` it would match neither `undefined` nor any string.
   */
  type Id = Option<string>

  /** `s.findIndex(r => key(r) === id)`: the first index whose key is `id`, or -1. */
  function FindIndex<T>(s: seq<T>, key: T -> Id, id: Id): (r: int)
    ensures -1 <= r < |s|
    ensures r == -1 <==> forall j :: 0 <= j < |s| ==> key(s[j]) != id
    ensures 0 <= r ==> key(s[r]) == id && forall j :: 0 <= j < r ==> key(s[j]) != id
  {
    if |s| == 0 then -1
    else if key(s[0]) == id then 0
    else
      var k := FindIndex(s[1..], key, id);
      if k == -1 then -1 else k + 1
  }

  /** True when no record of `s` has key `id`. */
  predicate NoneWithId<T>(s: seq<T>, key: T -> Id, id: Id) {
    forall j :: 0 <= j < |s| ==> key(s[j]) != id
  }

  /** True when `i` is the position of the first record of `s` whose key is `id`. */
  predicate FirstWithId<T>(s: seq<T>, key: T -> Id, id: Id, i: int) {
    0 <= i < |s| && key(s[i]) == id && NoneWithId(s[..i], key, id)
  }

  /**
   * The update reducers: look up `x`'s id with findIndex and, if found, overwrite that
   * one position with `x`; otherwise leave the list as it is.
   */
  function ReplaceFirst<T>(s: seq<T>, key: T -> Id, x: T): (r: seq<T>)
    ensures |r| == |s|
    ensures forall j :: 0 <= j < |s| ==> key(r[j]) == key(s[j])
    ensures NoneWithId(s, key, key(x)) ==> r == s
    ensures forall i :: FirstWithId(s, key, key(x), i) ==> r == s[i := x]
  {
    var i := FindIndex(s, key, key(x));
    if i == -1 then s else s[i := x]
  }

  /** The delete reducers: `s.filter(r => key(r) !== id)`. */
  function RemoveId<T>(s: seq<T>, key: T -> Id, id: Id): (r: seq<T>)
    ensures |r| <= |s|
    ensures NoneWithId(r, key, id)
  {
    if |s| == 0 then []
    else (if key(s[0]) == id then [] else [s[0]]) + RemoveId(s[1..], key, id)
  }

  /** Filtering keeps exactly the records whose key differs from `id`. */
  lemma {:induction false} RemoveIdMembers<T>(s: seq<T>, key: T -> Id, id: Id, x: T)
    ensures x in RemoveId(s, key, id) <==> x in s && key(x) != id
  {
    if |s| > 0 {
      RemoveIdMembers(s[1..], key, id, x);
      assert s == [s[0]] + s[1..];
    }
  }

  /** Filtering distributes over concatenation, so survivors keep their relative order. */
  lemma {:induction false} RemoveIdConcat<T>(a: seq<T>, b: seq<T>, key: T -> Id, id: Id)
    ensures RemoveId(a + b, key, id) == RemoveId(a, key, id) + RemoveId(b, key, id)
  {
    if |a| == 0 {
      assert a + b == b;
    } else {
      assert (a + b)[1..] == a[1..] + b;
      RemoveIdConcat(a[1..], b, key, id);
    }
  }

  /** Filtering a one-record list keeps it exactly when its key differs. */
  lemma RemoveIdSingle<T>(x: T, key: T -> Id, id: Id)
    ensures RemoveId([x], key, id) == if key(x) == id then [] else [x]
  {
    assert [x][1..] == [];
  }

  /** Deleting by `id` leaves the list unchanged exactly when no record has that id. */
  lemma {:induction false} RemoveIdNoOp<T>(s: seq<T>, key: T -> Id, id: Id)
    ensures RemoveId(s, key, id) == s <==> NoneWithId(s, key, id)
  {
    if |s| > 0 {
      RemoveIdNoOp(s[1..], key, id);
      if key(s[0]) == id {
        assert |RemoveId(s, key, id)| < |s|;
      } else if NoneWithId(s, key, id) {
        assert NoneWithId(s[1..], key, id) by {
          forall j | 0 <= j < |s[1..]| ensures key(s[1..][j]) != id {
            assert s[1..][j] == s[j + 1];
          }
        }
        assert s == [s[0]] + s[1..];
      }
    }
  }

  /** Deleting twice by the same id is the same as deleting once. */
  lemma RemoveIdIdempotent<T>(s: seq<T>, key: T -> Id, id: Id)
    ensures RemoveId(RemoveId(s, key, id), key, id) == RemoveId(s, key, id)
  {
    RemoveIdNoOp(RemoveId(s, key, id), key, id);
  }

  /** Appending `x` and then deleting `x`'s id is the same as deleting that id alone. */
  lemma AppendThenRemove<T>(s: seq<T>, key: T -> Id, x: T)
    ensures RemoveId(s + [x], key, key(x)) == RemoveId(s, key, key(x))
  {
    RemoveIdConcat(s, [x], key, key(x));
    RemoveIdSingle(x, key, key(x));
  }

  /** Patching a record and then deleting its id is the same as deleting that id alone. */
  lemma ReplaceThenRemove<T>(s: seq<T>, key: T -> Id, x: T)
    ensures RemoveId(ReplaceFirst(s, key, x), key, key(x)) == RemoveId(s, key, key(x))
  {
    var i := FindIndex(s, key, key(x));
    if i != -1 {
      var r := s[i := x];
      assert s == s[..i] + [s[i]] + s[i + 1..];
      assert r == s[..i] + [x] + s[i + 1..];
      RemoveIdConcat(s[..i] + [s[i]], s[i + 1..], key, key(x));
      RemoveIdConcat(s[..i], [s[i]], key, key(x));
      RemoveIdConcat(s[..i] + [x], s[i + 1..], key, key(x));
      RemoveIdConcat(s[..i], [x], key, key(x));
      RemoveIdSingle(s[i], key, key(x));
      RemoveIdSingle(x, key, key(x));
    }
  }

  /** Applying the same patch twice is the same as applying it once. */
  lemma {:induction false} ReplaceFirstIdempotent<T>(s: seq<T>, key: T -> Id, x: T)
    ensures ReplaceFirst(ReplaceFirst(s, key, x), key, x) == ReplaceFirst(s, key, x)
  {
    var i := FindIndex(s, key, key(x));
    if i != -1 {
      var r := s[i := x];
      assert r[..i] == s[..i];
      assert FirstWithId(r, key, key(x), i);
    }
  }
}
