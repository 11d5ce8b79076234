/** Packet ids and subscription ids (alloc_packet_id and alloc_sub_id of include/mqtt/client.hpp):
    a counter that cycles through 1..65535 and skips what is in use. */
module IdAllocator {
  import opened Types

  function Succ(n: u16): u16 { if n == 65535 then 1 else n + 1 }

  /** The k-th candidate after `n`. */
  function Candidate(n: u16, k: nat): u16
  {
    if k == 0 then n else Succ(Candidate(n, k - 1))
  }

  lemma {:induction false} CandidateFormula(n: u16, k: nat)
    requires k >= 1
    ensures Candidate(n, k) == (n + k - 1) % 65535 + 1
  {
    if k > 1 {
      CandidateFormula(n, k - 1);
      ModStep(n + k - 2);
    } else if n == 65535 {
      assert (n + k - 1) % 65535 == 0;
    }
  }

  lemma ModStep(x: nat)
    ensures (x + 1) % 65535 == if x % 65535 == 65534 then 0 else x % 65535 + 1
  {
    var q, r := x / 65535, x % 65535;
    assert x == 65535 * q + r;
    if r == 65534 {
      assert x + 1 == 65535 * (q + 1);
    } else {
      assert x + 1 == 65535 * q + (r + 1);
    }
  }

  /** Wherever the counter stands, 65535 tries meet every id. */
  lemma EveryIdIsTried(n: u16, id: u16) returns (k: nat)
    requires id != 0
    ensures 1 <= k <= 65535 && Candidate(n, k) == id
  {
    var d := id - n;
    k := if d >= 1 then d else d + 65535;
    if n == 65535 { k := id; }
    CandidateFormula(n, k);
    if n == 65535 {
      assert n + k - 1 == 65535 + (id - 1);
    } else if d >= 1 {
      assert n + k - 1 == id - 1;
    } else {
      assert n + k - 1 == 65535 + (id - 1);
    }
  }

  function UpTo(n: nat): set<int> { if n == 0 then {} else UpTo(n - 1) + {n} }

  lemma {:induction false} UpToSize(n: nat)
    ensures |UpTo(n)| == n && forall x :: x in UpTo(n) ==> 1 <= x <= n
  {
    if n > 0 { UpToSize(n - 1); }
  }

  lemma SubsetSize(a: set<int>, b: set<int>)
    requires a <= b
    ensures |a| <= |b|
  {
    assert b == a + (b - a);
  }

  /** If every id up to n is taken, n of them are. */
  lemma AllTaken(n: nat, used: set<int>)
    requires forall id :: 1 <= id <= n ==> id in used
    ensures |used| >= n
  {
    UpToSize(n);
    forall x | x in UpTo(n) ensures x in used { assert 1 <= x <= n; }
    SubsetSize(UpTo(n), used);
  }

  /** `id` is the first candidate after `n` that is not in use. */
  ghost predicate FirstFree(n: u16, used: set<int>, id: u16)
  {
    && id as int !in used
    && exists k :: 1 <= k <= 65535 && id == Candidate(n, k) && forall j :: 1 <= j < k ==> Candidate(n, j) in used
  }

  /** The allocation loop. The result is the first candidate not in use; 0 only if every id is. */
  method Alloc(next: u16, used: set<int>) returns (id: u16, next': u16)
    ensures id != 0 ==> next' == id && FirstFree(next, used, id)
    ensures |used| < 65535 ==> id != 0
    ensures id == 0 ==> forall x :: 1 <= x <= 65535 ==> x in used
  {
    next' := next;
    var tries: nat := 0;
    while tries < 65535
      invariant tries <= 65535 && next' == Candidate(next, tries)
      invariant forall j :: 1 <= j <= tries ==> Candidate(next, j) in used
    {
      next' := Succ(next');
      if next' !in used {
        assert next' == Candidate(next, tries + 1);
        return next', next';
      }
      tries := tries + 1;
    }
    forall x | 1 <= x <= 65535 ensures x in used {
      var k := EveryIdIsTried(next, x);
    }
    if |used| < 65535 { AllTaken(65535, used); }
    return 0, next';
  }
}
