/**
  A Bloom filter: a fixed-length bit vector of m bits and k seeded hash
  probes per item. `Add` sets the k probed bits of an item, `Check` reports
  whether all k of them are set. There are no false negatives: once an item
  has been added, `Check` answers true for it from then on.

  The Go filter's hash, murmur3's `SeedStringSum64`, is not modelled; the
  filter is given a hash as a parameter and every property below holds for
  any deterministic hash of that type.
 */
module BloomFilter {

  /** Go's `uint` / `uint64` on a 64-bit platform. */
  type u64 = x: int | 0 <= x < 0x1_0000_0000_0000_0000

  /** A deterministic 64-bit hash of a string, seeded by a 64-bit integer. */
  type Hash64 = (u64, string) -> u64

  /** The probing protocol shared by `Add` and `Check`: m bits, k probes, one hash. */
  datatype ProbeScheme = ProbeScheme(m: u64, k: u64, hash: Hash64)

  /**
    Every probe has a bit to land on: either there is at least one bit, or
    there are no probes at all (the m = 0, k = 0 filter, on which the loops of
    `Add` and `Check` never reach the modulo).
   */
  predicate Probeable(p: ProbeScheme)
  {
    p.m >= 1 || p.k == 0
  }

  /** The bit probed for `data` by the hash function with seed `i`. */
  function ProbeIndex(p: ProbeScheme, i: u64, data: string): (idx: nat)
    requires p.m >= 1
    ensures idx < p.m
  {
    p.hash(i, data) % p.m
  }

  /** Bit `j` is one of the first `n` probes of `data`. */
  ghost predicate ProbedBelow(p: ProbeScheme, data: string, j: int, n: nat)
    requires Probeable(p) && n <= p.k
  {
    exists i :: 0 <= i < n && ProbeIndex(p, i, data) == j
  }

  /** Bit `j` is one of the k probes of `data`. */
  ghost predicate Probed(p: ProbeScheme, data: string, j: int)
    requires Probeable(p)
  {
    ProbedBelow(p, data, j, p.k)
  }

  /** Every one of the k probes of `data` finds its bit set: the answer `Check` must give. */
  predicate AllProbesSet(p: ProbeScheme, bits: seq<bool>, data: string)
    requires Probeable(p) && |bits| == p.m
  {
    forall i :: 0 <= i < p.k ==> bits[ProbeIndex(p, i, data)]
  }

  /** `bits` with the first `n` probes of `data` set. */
  ghost function SetBelow(p: ProbeScheme, bits: seq<bool>, data: string, n: nat): (r: seq<bool>)
    requires Probeable(p) && |bits| == p.m && n <= p.k
  {
    seq(|bits|, j requires 0 <= j < |bits| => bits[j] || ProbedBelow(p, data, j, n))
  }

  /** `bits` after inserting `data`: exactly the k probed bits become set. */
  ghost function Inserted(p: ProbeScheme, bits: seq<bool>, data: string): (r: seq<bool>)
    requires Probeable(p) && |bits| == p.m
  {
    SetBelow(p, bits, data, p.k)
  }

  /** `after` has every bit `before` has (bits only go from clear to set). */
  ghost predicate Grows(before: seq<bool>, after: seq<bool>)
  {
    |before| == |after| && forall j :: 0 <= j < |before| && before[j] ==> after[j]
  }

  /** `bits` after inserting every item of `items`, in order. */
  ghost function InsertedAll(p: ProbeScheme, bits: seq<bool>, items: seq<string>): (r: seq<bool>)
    requires Probeable(p) && |bits| == p.m
    ensures |r| == p.m
    decreases |items|
  {
    if items == [] then bits
    else Inserted(p, InsertedAll(p, bits, items[..|items| - 1]), items[|items| - 1])
  }

  /** Setting the n-th probe extends the first n probes to the first n + 1. */
  lemma SetBelowStep(p: ProbeScheme, bits: seq<bool>, data: string, n: nat)
    requires Probeable(p) && |bits| == p.m && n < p.k
    ensures SetBelow(p, bits, data, n + 1) == SetBelow(p, bits, data, n)[ProbeIndex(p, n, data) := true]
  {
    var before, after := SetBelow(p, bits, data, n), SetBelow(p, bits, data, n + 1);
    var idx := ProbeIndex(p, n, data);
    forall j | 0 <= j < |bits|
      ensures after[j] == before[idx := true][j]
    {
      if ProbedBelow(p, data, j, n + 1) && !ProbedBelow(p, data, j, n) {
        var i :| 0 <= i < n + 1 && ProbeIndex(p, i, data) == j;
        assert i == n;
      }
      if j == idx {
        assert ProbedBelow(p, data, j, n + 1);
      }
    }
  }

  /** Inserting an item changes only its probed bits, only from clear to set, and sets all of them. */
  lemma InsertedExactly(p: ProbeScheme, bits: seq<bool>, data: string)
    requires Probeable(p) && |bits| == p.m
    ensures |Inserted(p, bits, data)| == |bits|
    ensures forall j :: 0 <= j < |bits| && Inserted(p, bits, data)[j] != bits[j] ==>
              !bits[j] && Probed(p, data, j)
    ensures forall i :: 0 <= i < p.k ==> Inserted(p, bits, data)[ProbeIndex(p, i, data)]
  {
    forall i | 0 <= i < p.k
      ensures Inserted(p, bits, data)[ProbeIndex(p, i, data)]
    {
      assert ProbedBelow(p, data, ProbeIndex(p, i, data), p.k);
    }
  }

  /** No false negative: an item just inserted has all its probes set. */
  lemma InsertedIsFound(p: ProbeScheme, bits: seq<bool>, data: string)
    requires Probeable(p) && |bits| == p.m
    ensures AllProbesSet(p, Inserted(p, bits, data), data)
  {
    InsertedExactly(p, bits, data);
  }

  /** Inserting never clears a bit. */
  lemma InsertedGrows(p: ProbeScheme, bits: seq<bool>, data: string)
    requires Probeable(p) && |bits| == p.m
    ensures Grows(bits, Inserted(p, bits, data))
  {
  }

  /** Once all probes of an item are set they stay set while bits only grow. */
  lemma FoundStaysFound(p: ProbeScheme, before: seq<bool>, after: seq<bool>, data: string)
    requires Probeable(p) && |before| == p.m
    requires Grows(before, after)
    requires AllProbesSet(p, before, data)
    ensures AllProbesSet(p, after, data)
  {
  }

  /** Inserting an item twice leaves the same bits as inserting it once. */
  lemma InsertIdempotent(p: ProbeScheme, bits: seq<bool>, data: string)
    requires Probeable(p) && |bits| == p.m
    ensures Inserted(p, Inserted(p, bits, data), data) == Inserted(p, bits, data)
  {
  }

  /** The bits after two insertions do not depend on their order. */
  lemma InsertCommutes(p: ProbeScheme, bits: seq<bool>, x: string, y: string)
    requires Probeable(p) && |bits| == p.m
    ensures Inserted(p, Inserted(p, bits, x), y) == Inserted(p, Inserted(p, bits, y), x)
  {
  }

  /** No false negatives over a whole history: every item ever inserted is found afterwards. */
  lemma {:induction false} NoFalseNegatives(p: ProbeScheme, bits: seq<bool>, items: seq<string>, x: string)
    requires Probeable(p) && |bits| == p.m
    requires x in items
    ensures AllProbesSet(p, InsertedAll(p, bits, items), x)
    decreases |items|
  {
    var prefix, last := items[..|items| - 1], items[|items| - 1];
    var before := InsertedAll(p, bits, prefix);
    if x == last {
      InsertedIsFound(p, before, x);
    } else {
      assert x in prefix by { assert items == prefix + [last]; }
      NoFalseNegatives(p, bits, prefix, x);
      InsertedGrows(p, before, last);
      FoundStaysFound(p, before, Inserted(p, before, last), x);
    }
  }

  /** A filter with every bit clear (and at least one probe) finds nothing. */
  lemma EmptyFindsNothing(p: ProbeScheme, data: string)
    requires p.m >= 1 && p.k >= 1
    ensures !AllProbesSet(p, seq(p.m, _ => false), data)
  {
    assert !seq(p.m, _ => false)[ProbeIndex(p, 0, data)];
  }

  /** The filter itself: the bit vector of m bits and the k-probe hashing protocol. */
  class Filter {
    /** Number of bits in the bit vector. */
    const m: u64
    /** Number of hash functions (probes per item). */
    const k: u64
    /** The seeded hash standing in for the 64-bit murmur3 string hash. */
    const hash: Hash64
    /** The bit vector; only its contents ever change. */
    const b: array<bool>

    /** The probing protocol this filter uses. */
    function Scheme(): ProbeScheme
    {
      ProbeScheme(m, k, hash)
    }

    ghost predicate Valid()
    {
      Probeable(Scheme()) && b.Length == m
    }

    /** A filter of `m` cleared bits probed `k` times per item. */
    constructor (m: u64, k: u64, hash: Hash64)
      requires m >= 1 || k == 0
      ensures Valid() && fresh(b)
      ensures this.m == m && this.k == k && this.hash == hash
      ensures b[..] == seq(m, _ => false)
    {
      this.m, this.k, this.hash := m, k, hash;
      b := new bool[m](_ => false);
    }

    /** Sets the k probed bits of `data`; no other bit changes. */
    method Add(data: string)
      requires Valid()
      modifies b
      ensures b[..] == Inserted(Scheme(), old(b[..]), data)
    {
      var i: u64 := 0;
      while i < k
        invariant i <= k
        invariant b[..] == SetBelow(Scheme(), old(b[..]), data, i)
      {
        var h := hash(i, data);
        var idx := h % m;
        SetBelowStep(Scheme(), old(b[..]), data, i);
        b[idx] := true;
        i := i + 1;
      }
    }

    /** True exactly when all k probed bits of `data` are set; changes nothing. */
    method Check(data: string) returns (present: bool)
      requires Valid()
      ensures present == AllProbesSet(Scheme(), b[..], data)
    {
      var i: u64 := 0;
      while i < k
        invariant i <= k
        invariant forall j :: 0 <= j < i ==> b[ProbeIndex(Scheme(), j, data)]
      {
        var h := hash(i, data);
        var idx := h % m;
        if !b[idx] {
          assert !b[..][ProbeIndex(Scheme(), i, data)];
          return false;
        }
        i := i + 1;
      }
      return true;
    }
  }

  /** After any history of additions to a filter, every item added at any point is reported present. */
  method AddedItemsAreFound(f: Filter, items: seq<string>, x: string) returns (present: bool)
    requires f.Valid()
    requires x in items
    modifies f.b
    ensures f.b[..] == InsertedAll(f.Scheme(), old(f.b[..]), items)
    ensures present
  {
    var n := 0;
    while n < |items|
      invariant 0 <= n <= |items|
      invariant f.b[..] == InsertedAll(f.Scheme(), old(f.b[..]), items[..n])
    {
      f.Add(items[n]);
      assert items[..n + 1][..n] == items[..n];
      n := n + 1;
    }
    assert items[..n] == items;
    NoFalseNegatives(f.Scheme(), old(f.b[..]), items, x);
    present := f.Check(x);
  }

  /** A freshly constructed filter with at least one probe reports every item absent. */
  method FreshFilterFindsNothing(m: u64, k: u64, hash: Hash64, x: string) returns (present: bool)
    requires m >= 1 && k >= 1
    ensures !present
  {
    var f := new Filter(m, k, hash);
    EmptyFindsNothing(f.Scheme(), x);
    present := f.Check(x);
  }

  /** The filter with no bits and no probes: `Add` does nothing and `Check` reports every item present. */
  method EmptySchemeFindsEverything(hash: Hash64, x: string, y: string) returns (present: bool)
    ensures present
  {
    var f := new Filter(0, 0, hash);
    f.Add(x);
    present := f.Check(y);
  }
}
