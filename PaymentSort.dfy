/** The in-place sort of checkout's payments (src/Cart.ts:418): payments with
    longer currency codes come first, so custom-currency payments are created
    before ISO-currency ones, and payments whose codes have the same length
    keep their order (the comparator returns 0 for them and the sort is
    stable). */
module PaymentSort {
  import opened Backend

  function CodeLength(p: PaymentRequest): nat {
    |p.currencyCode|
  }

  /** Code lengths never increase along `s`. */
  predicate SortedByCodeLength(s: seq<PaymentRequest>) {
    forall i, j | 0 <= i < j < |s| :: CodeLength(s[i]) >= CodeLength(s[j])
  }

  /** Places `x` after every element of `s` whose code is at least as long,
      scanning from the end as an insertion sort does. */
  function Insert(s: seq<PaymentRequest>, x: PaymentRequest): seq<PaymentRequest> {
    if s == [] || CodeLength(s[|s| - 1]) >= CodeLength(x) then s + [x]
    else Insert(s[..|s| - 1], x) + [s[|s| - 1]]
  }

  /** The payments in the order checkout creates them. */
  function SortByCodeLength(s: seq<PaymentRequest>): seq<PaymentRequest> {
    if s == [] then [] else Insert(SortByCodeLength(s[..|s| - 1]), s[|s| - 1])
  }

  /** The payments whose code has length `n`, in order. */
  function WithCodeLength(s: seq<PaymentRequest>, n: nat): seq<PaymentRequest> {
    if s == [] then []
    else WithCodeLength(s[..|s| - 1], n) + (if CodeLength(s[|s| - 1]) == n then [s[|s| - 1]] else [])
  }

  // ---------------------------------------------------------------------------
  // Insertion

  lemma {:induction false} InsertPermutes(s: seq<PaymentRequest>, x: PaymentRequest)
    ensures multiset(Insert(s, x)) == multiset(s) + multiset{x}
  {
    if !(s == [] || CodeLength(s[|s| - 1]) >= CodeLength(x)) {
      var p := s[..|s| - 1];
      InsertPermutes(p, x);
      assert s == p + [s[|s| - 1]];
    }
  }

  lemma {:induction false} InsertSorted(s: seq<PaymentRequest>, x: PaymentRequest)
    requires SortedByCodeLength(s)
    ensures SortedByCodeLength(Insert(s, x))
  {
    if s == [] || CodeLength(s[|s| - 1]) >= CodeLength(x) {
      var r := s + [x];
      assert forall i | 0 <= i < |s| :: r[i] == s[i];
    } else {
      var p := s[..|s| - 1];
      var y := s[|s| - 1];
      InsertSorted(p, x);
      assert forall k | 0 <= k < |p| :: p[k] == s[k];
      InsertKeepsBound(p, x, CodeLength(y));
      var t := Insert(p, x);
      var r := t + [y];
      assert forall i | 0 <= i < |t| :: r[i] == t[i];
    }
  }

  /** When `x` and every payment of `s` have codes of length at least `n`,
      so does every payment of the insertion. */
  lemma InsertKeepsBound(s: seq<PaymentRequest>, x: PaymentRequest, n: nat)
    requires CodeLength(x) >= n
    requires forall k | 0 <= k < |s| :: CodeLength(s[k]) >= n
    ensures forall i | 0 <= i < |Insert(s, x)| :: CodeLength(Insert(s, x)[i]) >= n
  {
    InsertPermutes(s, x);
    var t := Insert(s, x);
    forall i | 0 <= i < |t|
      ensures CodeLength(t[i]) >= n
    {
      assert t[i] in multiset(t);
      if t[i] != x {
        assert t[i] in multiset(s);
      }
    }
  }

  lemma {:induction false} InsertStable(s: seq<PaymentRequest>, x: PaymentRequest, n: nat)
    ensures WithCodeLength(Insert(s, x), n) == WithCodeLength(s, n) + (if CodeLength(x) == n then [x] else [])
  {
    if s == [] || CodeLength(s[|s| - 1]) >= CodeLength(x) {
      assert (s + [x])[..|s|] == s;
    } else {
      var p := s[..|s| - 1];
      var y := s[|s| - 1];
      InsertStable(p, x, n);
      var t := Insert(p, x);
      assert (t + [y])[..|t|] == t;
    }
  }

  // ---------------------------------------------------------------------------
  // The sort

  /** The sorted payments are a permutation of the input. */
  lemma {:induction false} SortPermutes(s: seq<PaymentRequest>)
    ensures multiset(SortByCodeLength(s)) == multiset(s)
  {
    if s != [] {
      var p := s[..|s| - 1];
      SortPermutes(p);
      InsertPermutes(SortByCodeLength(p), s[|s| - 1]);
      assert s == p + [s[|s| - 1]];
    }
  }

  /** Code lengths never increase in the sorted payments. */
  lemma {:induction false} SortSorted(s: seq<PaymentRequest>)
    ensures SortedByCodeLength(SortByCodeLength(s))
  {
    if s != [] {
      SortSorted(s[..|s| - 1]);
      InsertSorted(SortByCodeLength(s[..|s| - 1]), s[|s| - 1]);
    }
  }

  /** The sort is stable: the payments of each code length keep their order. */
  lemma {:induction false} SortStable(s: seq<PaymentRequest>, n: nat)
    ensures WithCodeLength(SortByCodeLength(s), n) == WithCodeLength(s, n)
  {
    if s != [] {
      SortStable(s[..|s| - 1], n);
      InsertStable(SortByCodeLength(s[..|s| - 1]), s[|s| - 1], n);
    }
  }

  // ---------------------------------------------------------------------------
  // The in-place sort

  /** Inserting `x` puts it right after the last payment whose code is at
      least as long. */
  lemma {:induction false} InsertAt(s: seq<PaymentRequest>, x: PaymentRequest, j: nat)
    requires j <= |s|
    requires j == 0 || CodeLength(s[j - 1]) >= CodeLength(x)
    requires forall k | j <= k < |s| :: CodeLength(s[k]) < CodeLength(x)
    ensures Insert(s, x) == s[..j] + [x] + s[j..]
  {
    if j < |s| {
      var p := s[..|s| - 1];
      assert p[..j] == s[..j];
      InsertAt(p, x, j);
      assert s[j..] == p[j..] + [s[|s| - 1]];
    }
  }

  /** Sorts the payments in place: each payment in turn is moved left past the
      payments with shorter codes. */
  method SortPayments(a: array<PaymentRequest>)
    modifies a
    ensures a[..] == SortByCodeLength(old(a[..]))
  {
    ghost var input := a[..];
    var i := 0;
    while i < a.Length
      invariant 0 <= i <= a.Length
      invariant a[..i] == SortByCodeLength(input[..i])
      invariant forall k | i <= k < a.Length :: a[k] == input[k]
    {
      InsertLast(a, i);
      assert input[..i + 1][..i] == input[..i];
      i := i + 1;
    }
    assert a[..] == a[..a.Length];
    assert input[..a.Length] == input;
  }

  /** One step of the sort: the payment at `i` joins the sorted prefix. */
  method InsertLast(a: array<PaymentRequest>, i: nat)
    requires i < a.Length
    modifies a
    ensures a[..i + 1] == Insert(old(a[..i]), old(a[i]))
    ensures forall k | i < k < a.Length :: a[k] == old(a[k])
  {
    ghost var s := a[..i];
    var x := a[i];
    var j := i;
    while j > 0 && CodeLength(a[j - 1]) < CodeLength(x)
      invariant 0 <= j <= i
      invariant forall k | 0 <= k < j :: a[k] == s[k]
      invariant forall k | j < k <= i :: a[k] == s[k - 1]
      invariant forall k | i < k < a.Length :: a[k] == old(a[k])
      invariant forall k | j <= k < i :: CodeLength(s[k]) < CodeLength(x)
    {
      a[j] := a[j - 1];
      j := j - 1;
    }
    a[j] := x;
    assert a[..i + 1] == s[..j] + [x] + s[j..];
    InsertAt(s, x, j);
  }
}
