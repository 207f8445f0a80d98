/** Byte strings and their concatenation. */
module Bytes {

  type Byte = b: int | 0 <= b < 256

  /** The first `n` parts, one after the other. */
  function Prefix(parts: seq<seq<Byte>>, n: nat): seq<Byte>
    requires n <= |parts|
  {
    if n == 0 then [] else Prefix(parts, n - 1) + parts[n - 1]
  }

  function Concat(parts: seq<seq<Byte>>): seq<Byte> {
    Prefix(parts, |parts|)
  }

  lemma {:induction false} PrefixAppend(a: seq<seq<Byte>>, b: seq<seq<Byte>>, n: nat)
    requires n <= |b|
    ensures Prefix(a + b, |a| + n) == Concat(a) + Prefix(b, n)
    decreases n
  {
    if n > 0 {
      PrefixAppend(a, b, n - 1);
      assert (a + b)[|a| + n - 1] == b[n - 1];
      Assoc(Concat(a), Prefix(b, n - 1), b[n - 1]);
    } else {
      PrefixExtend(a, b, |a|);
    }
  }

  lemma {:induction false} PrefixExtend(a: seq<seq<Byte>>, b: seq<seq<Byte>>, n: nat)
    requires n <= |a|
    ensures Prefix(a + b, n) == Prefix(a, n)
    decreases n
  {
    if n > 0 {
      PrefixExtend(a, b, n - 1);
    }
  }

  lemma ConcatAppend(a: seq<seq<Byte>>, b: seq<seq<Byte>>)
    ensures Concat(a + b) == Concat(a) + Concat(b)
  {
    PrefixAppend(a, b, |b|);
  }

  lemma ConcatSnoc(parts: seq<seq<Byte>>, last: seq<Byte>)
    ensures Concat(parts + [last]) == Concat(parts) + last
  {
    ConcatAppend(parts, [last]);
    assert Prefix([last], 0) + last == last;
  }

  lemma Assoc(a: seq<Byte>, b: seq<Byte>, c: seq<Byte>)
    ensures (a + b) + c == a + (b + c)
  {
  }
}
