/** The array update operators the resolvers send to the document store,
    on the id lists a document holds. `$push` is plain concatenation. */
module MongoOps {

  /** `$pull: { field: x }`: every occurrence of `x` goes, the rest stay in order. */
  function Pull<T(==)>(s: seq<T>, x: T): (r: seq<T>)
    ensures x !in r
    ensures multiset(r) == multiset(s)[x := 0]
    ensures x !in s ==> r == s
  {
    if s == [] then []
    else
      var rest := Pull(s[1..], x);
      assert s == [s[0]] + s[1..];
      if s[0] == x then rest else [s[0]] + rest
  }

  /** `$pull` works element by element: pulling from a concatenation pulls
      from each part, so the kept elements keep their relative order. */
  lemma {:induction false} PullConcat<T>(a: seq<T>, b: seq<T>, x: T)
    ensures Pull(a + b, x) == Pull(a, x) + Pull(b, x)
  {
    if a == [] {
      assert a + b == b;
    } else {
      var ab := a + b;
      assert ab[0] == a[0] && ab[1..] == a[1..] + b;
      PullConcat(a[1..], b, x);
      if a[0] == x {
        calc {
          Pull(ab, x);
          Pull(ab[1..], x);
          Pull(a[1..], x) + Pull(b, x);
          Pull(a, x) + Pull(b, x);
        }
      } else {
        calc {
          Pull(ab, x);
          [a[0]] + Pull(ab[1..], x);
          [a[0]] + (Pull(a[1..], x) + Pull(b, x));
          ([a[0]] + Pull(a[1..], x)) + Pull(b, x);
          Pull(a, x) + Pull(b, x);
        }
      }
    }
  }

  /** `$addToSet: { field: x }`: append `x` unless it is already there. */
  function AddToSet<T(==)>(s: seq<T>, x: T): (r: seq<T>)
    ensures x in r
    ensures |s| <= |r| <= |s| + 1 && r[..|s|] == s
    ensures |r| == |s| + 1 <==> x !in s
    ensures |r| == |s| + 1 ==> r[|s|] == x
  {
    if x in s then s else s + [x]
  }

  /** Applying `$addToSet` twice is applying it once. */
  lemma AddToSetIdempotent<T>(s: seq<T>, x: T)
    ensures AddToSet(AddToSet(s, x), x) == AddToSet(s, x)
  {
  }
}
