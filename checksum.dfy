/**
 * The header control field (`calcular_controle`): the sum, over all records,
 * of the procedure code's digits read as a number plus the quantity read as a
 * number, taken modulo 1111 and offset by 1111.
 */
module Checksum {
  import opened Wrappers
  import opened PyText
  import opened Records

  /**
   * The procedure part of one record: the characters `isdigit()` accepts, read
   * by `int()`; empty, or containing a superscript digit that `int()` rejects, counts 0.
   */
  function ProcedurePart(procedure: string): int {
    var digits := DigitsOnly(procedure);
    if digits == [] then 0
    else match PyInt(digits)
      case Some(v) => v
      case None => 0
  }

  /** The quantity part of one record: dots removed, then `int()`; blank or unreadable counts 0. */
  function QuantityPart(quantity: string): int {
    var q := Without(quantity, '.');
    if Strip(q) == [] then 0
    else match PyInt(q)
      case Some(v) => v
      case None => 0
  }

  function Term(r: BpaRecord): int {
    ProcedurePart(r.procedure) + QuantityPart(r.quantity)
  }

  /** The sum of `f` over a list, accumulated left to right. */
  function SumOf<T>(xs: seq<T>, f: T -> int): int {
    if xs == [] then 0 else SumOf(xs[..|xs| - 1], f) + f(xs[|xs| - 1])
  }

  /** The running total of the loop after the given records. */
  function Total(records: seq<BpaRecord>): int {
    SumOf(records, Term)
  }

  /** The control value for a list of records. */
  function Control(records: seq<BpaRecord>): (c: int)
    ensures 1111 <= c <= 2221
  {
    Total(records) % 1111 + 1111
  }

  /** `calcular_controle`: accumulates the per-record terms left to right. */
  method ComputeControl(records: seq<BpaRecord>) returns (result: int)
    ensures result == Control(records)
    ensures 1111 <= result <= 2221
  {
    var total := 0;
    var i := 0;
    while i < |records|
      invariant 0 <= i <= |records|
      invariant total == Total(records[..i])
    {
      TotalStep(records, i);
      total := total + Term(records[i]);
      i := i + 1;
    }
    assert records[..i] == records;
    result := (total % 1111) + 1111;
  }

  /** One more record adds its term to the running total. */
  lemma {:induction false} TotalStep(records: seq<BpaRecord>, i: nat)
    requires i < |records|
    ensures Total(records[..i + 1]) == Total(records[..i]) + Term(records[i])
  {
    assert records[..i + 1][..i] == records[..i];
  }

  /** With no records the control value is 1111. */
  lemma {:induction false} ControlOfNoRecords()
    ensures Control([]) == 1111
  {
  }

  lemma {:induction false} SumAppend<T>(a: seq<T>, b: seq<T>, f: T -> int)
    ensures SumOf(a + b, f) == SumOf(a, f) + SumOf(b, f)
    decreases |b|
  {
    if b == [] {
      assert a + b == a;
    } else {
      assert (a + b)[..|a + b| - 1] == a + b[..|b| - 1];
      SumAppend(a, b[..|b| - 1], f);
    }
  }

  /** Taking one element out of a list removes exactly one copy of it. */
  lemma {:induction false} RemoveOneMultiset<T>(b: seq<T>, i: nat)
    requires i < |b|
    ensures multiset(b[..i] + b[i + 1..]) == multiset(b) - multiset{b[i]}
  {
    assert b == b[..i] + [b[i]] + b[i + 1..];
  }

  lemma {:induction false} SumOne<T>(x: T, f: T -> int)
    ensures SumOf([x], f) == f(x)
  {
    assert [x][..0] == [];
  }

  /** Taking one element out of a list removes exactly its term from the sum. */
  lemma {:induction false} RemoveOneSum<T>(b: seq<T>, i: nat, f: T -> int)
    requires i < |b|
    ensures SumOf(b, f) == SumOf(b[..i] + b[i + 1..], f) + f(b[i])
  {
    var x, left, right := b[i], b[..i], b[i + 1..];
    assert b == (left + [x]) + right;
    SumAppend(left + [x], right, f);
    SumAppend(left, [x], f);
    SumOne(x, f);
    SumAppend(left, right, f);
  }

  /** A sum does not depend on the order of its terms. */
  lemma {:induction false} SumPermutation<T>(a: seq<T>, b: seq<T>, f: T -> int)
    requires multiset(a) == multiset(b)
    ensures SumOf(a, f) == SumOf(b, f)
    decreases |a|
  {
    if a != [] {
      var x := a[|a| - 1];
      var a' := a[..|a| - 1];
      assert a == a' + [x];
      assert multiset(a') == multiset(a) - multiset{x};
      assert x in multiset(b);
      var i :| 0 <= i < |b| && b[i] == x;
      RemoveOneMultiset(b, i);
      RemoveOneSum(b, i, f);
      SumPermutation(a', b[..i] + b[i + 1..], f);
    } else {
      assert b == [];
    }
  }

  /** The total of the records before and after a split adds up. */
  lemma {:induction false} TotalAppend(a: seq<BpaRecord>, b: seq<BpaRecord>)
    ensures Total(a + b) == Total(a) + Total(b)
  {
    SumAppend(a, b, Term);
  }

  /** The control value depends only on which records there are, not on their order. */
  lemma {:induction false} ControlPermutation(a: seq<BpaRecord>, b: seq<BpaRecord>)
    requires multiset(a) == multiset(b)
    ensures Control(a) == Control(b)
  {
    SumPermutation(a, b, Term);
  }
}
