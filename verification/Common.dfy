/** Small value types and sequence helpers shared by the whole project. */
module Common {

  datatype Option<+T> = None | Some(value: T)

  datatype Result<+T, +E> = Ok(value: T) | Err(error: E)

  /** The answer of a poll. */
  datatype Poll<+T> = Pending | Ready(value: T)

  function Min(a: nat, b: nat): nat { if a < b then a else b }

  /** The sequence `s` with the element at index `i` taken out. */
  function Without<T>(s: seq<T>, i: nat): (r: seq<T>)
    requires i < |s|
    ensures |r| == |s| - 1
  {
    s[..i] + s[i + 1..]
  }

  /** The sum of `weight` over the elements of `s`. */
  function Sum<T>(s: seq<T>, weight: T -> nat): nat {
    if s == [] then 0 else weight(s[0]) + Sum(s[1..], weight)
  }

  lemma {:induction false} SumConcat<T>(a: seq<T>, b: seq<T>, weight: T -> nat)
    ensures Sum(a + b, weight) == Sum(a, weight) + Sum(b, weight)
  {
    if a == [] {
      assert a + b == b;
    } else {
      assert (a + b)[1..] == a[1..] + b;
      SumConcat(a[1..], b, weight);
    }
  }

  lemma SumAppend<T>(a: seq<T>, x: T, weight: T -> nat)
    ensures Sum(a + [x], weight) == Sum(a, weight) + weight(x)
  {
    SumConcat(a, [x], weight);
  }

  lemma {:induction false} SumWithout<T>(s: seq<T>, i: nat, weight: T -> nat)
    requires i < |s|
    ensures Sum(s, weight) == Sum(Without(s, i), weight) + weight(s[i])
  {
    if i == 0 {
      assert Without(s, 0) == s[1..];
    } else {
      SumWithout(s[1..], i - 1, weight);
      assert Without(s, i)[1..] == Without(s[1..], i - 1);
    }
  }
}
