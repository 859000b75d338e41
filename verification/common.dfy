/** Failure-carrying wrappers shared by every module of the model. */
module Common {

  /** A value that may be absent: JavaScript's `null`/`undefined`, Python's `None`. */
  datatype Option<+T> = None | Some(value: T)

  /** The outcome of an operation that the source ends with a thrown error. */
  datatype Result<+T> = Ok(value: T) | Err(message: string)

  function Max(a: int, b: int): int { if a < b then b else a }

  function Min(a: int, b: int): int { if a < b then a else b }

  function MaxReal(a: real, b: real): real { if a < b then b else a }

  function MinReal(a: real, b: real): real { if a < b then a else b }

  function AbsReal(x: real): real { if x < 0.0 then -x else x }

  function Abs(x: int): int { if x < 0 then -x else x }

  /** No element occurs twice. */
  predicate NoDup<T(==)>(s: seq<T>) {
    forall i, j :: 0 <= i < j < |s| ==> s[i] != s[j]
  }

  /** The elements satisfying `p`, in their original order: `Array.prototype.filter`. */
  function Filter<T>(xs: seq<T>, p: T -> bool): (r: seq<T>)
    ensures |r| <= |xs|
    ensures forall x :: x in r ==> x in xs && p(x)
    ensures forall x :: x in xs && p(x) ==> x in r
    ensures multiset(r) <= multiset(xs)
    decreases |xs|
  {
    if |xs| == 0 then []
    else
      assert xs == [xs[0]] + xs[1..];
      (if p(xs[0]) then [xs[0]] else []) + Filter(xs[1..], p)
  }

  /**
   * Adds each element of `ys` not yet present, in order: the effect of `Set.add`
   * on a `Set` whose insertion order is `acc`.
   */
  function AddNew<T(==)>(acc: seq<T>, ys: seq<T>): (r: seq<T>)
    ensures acc <= r
    ensures forall x :: x in r ==> x in acc || x in ys
    ensures forall x :: x in acc ==> x in r
    ensures forall x :: x in ys ==> x in r
    ensures NoDup(acc) ==> NoDup(r)
    decreases |ys|
  {
    if |ys| == 0 then acc
    else AddNew(if ys[0] in acc then acc else acc + [ys[0]], ys[1..])
  }

  /** `Array.from(new Set(xs))`: first occurrences in order. */
  function Dedup<T(==)>(xs: seq<T>): (r: seq<T>)
    ensures NoDup(r)
    ensures forall x :: x in r ==> x in xs
    ensures forall x :: x in xs ==> x in r
  {
    AddNew([], xs)
  }

  /** A list without repetitions passes through `AddNew` unchanged. */
  lemma {:induction false} AddNewDistinct<T>(acc: seq<T>, ys: seq<T>)
    requires NoDup(acc + ys)
    ensures AddNew(acc, ys) == acc + ys
    decreases |ys|
  {
    if |ys| > 0 {
      forall i | 0 <= i < |acc| ensures acc[i] != ys[0] {
        assert (acc + ys)[i] == acc[i] && (acc + ys)[|acc|] == ys[0];
      }
      assert acc + ys == (acc + [ys[0]]) + ys[1..];
      AddNewDistinct(acc + [ys[0]], ys[1..]);
    }
  }

  /** Over a list without repetitions, `AddNew` grows exactly when some element of `ys` is new. */
  lemma AddNewGrows<T>(acc: seq<T>, ys: seq<T>)
    requires NoDup(acc)
    ensures |AddNew(acc, ys)| > |acc| <==> exists y :: y in ys && y !in acc
  {
    var r := AddNew(acc, ys);
    if |r| > |acc| {
      var c := r[|acc|];
      assert c !in acc by {
        forall i | 0 <= i < |acc| ensures acc[i] != c {
          assert acc[i] == r[i];
        }
      }
      assert c in r;
    } else {
      assert r == acc;
    }
  }
}
