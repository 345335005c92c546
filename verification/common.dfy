/** Shared vocabulary of the travel-booking model: Java's 32-bit `int`,
    the single error kind the setters raise, and the list operations
    (`contains`, `remove(Object)`) that `java.util.ArrayList` provides. */
module Common {

  /** The values of a Java `int`. */
  type Int32 = x: int | -0x8000_0000 <= x < 0x8000_0000

  /** Java `int` arithmetic: the mathematical result reduced modulo 2^32
      into the signed range. */
  function Wrap32(x: int): (r: Int32)
    ensures -0x8000_0000 <= x < 0x8000_0000 ==> r == x
    ensures (x - r) % 0x1_0000_0000 == 0
  {
    var m := x % 0x1_0000_0000;
    if m < 0x8000_0000 then m else m - 0x1_0000_0000
  }

  /** The one error kind of the system: a mutator rejected its argument
      (Java's `IllegalArgumentException`), carrying the source's message. */
  datatype Error = InvalidArgument(message: string)

  /** What a mutator that may throw reports to its caller. */
  datatype Outcome = Pass | Fail(error: Error)

  /** What the pure model of such a mutator computes: the new state, or the
      error that aborts the call and leaves the old state in place. */
  datatype Result<T> = Ok(value: T) | Err(error: Error)

  /** A method's outcome and new state agree with the pure model `r` of the
      call: on `Ok` the state is the model's, on `Err` the same error is
      reported and the state is the one before the call. */
  predicate Applied<T(==)>(outcome: Outcome, r: Result<T>, before: T, after: T)
  {
    match r
    case Ok(v) => outcome == Pass && after == v
    case Err(e) => outcome == Fail(e) && after == before
  }

  predicate NoDuplicates<T(==)>(s: seq<T>)
  {
    forall i, j :: 0 <= i < j < |s| ==> s[i] != s[j]
  }

  /** Position of the first element equal to `x`, or -1 when there is none
      (the search behind `List.contains` and `List.remove(Object)`). */
  function FirstIndex<T(==)>(s: seq<T>, x: T): (i: int)
    ensures -1 <= i < |s|
    ensures i == -1 <==> x !in s
    ensures 0 <= i ==> s[i] == x && x !in s[..i]
  {
    if s == [] then -1
    else if s[0] == x then 0
    else
      var k := FirstIndex(s[1..], x);
      if k == -1 then -1 else k + 1
  }

  /** The list without its element at position `i`, the rest in order. */
  function RemoveAt<T>(s: seq<T>, i: int): (r: seq<T>)
    requires 0 <= i < |s|
    ensures |r| == |s| - 1
    ensures r[..i] == s[..i] && r[i..] == s[i + 1..]
    ensures multiset(r) == multiset(s) - multiset{s[i]}
  {
    assert s == s[..i] + [s[i]] + s[i + 1..];
    s[..i] + s[i + 1..]
  }

  /** `List.remove(Object)` on a list that never holds an element twice
      removes that element entirely and keeps the list free of repeats. */
  lemma RemoveFirstOfDistinct<T>(s: seq<T>, x: T)
    requires NoDuplicates(s) && x in s
    ensures var r := RemoveAt(s, FirstIndex(s, x));
      x !in r && NoDuplicates(r) && multiset(r) == multiset(s) - multiset{x}
  {
  }

  /** Appending a new element and then removing it restores the list: the
      round trip of `add` followed by `remove(Object)`. */
  lemma RemoveUndoesAppend<T>(s: seq<T>, x: T)
    requires x !in s
    ensures FirstIndex(s + [x], x) == |s|
    ensures RemoveAt(s + [x], FirstIndex(s + [x], x)) == s
  {
  }
}
