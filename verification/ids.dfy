/** Monotone 32-bit identifier generators (controller/common/src/id.rs).
    `fetch_add` on an `AtomicU32` wraps around at 2^32. */
module Ids {
  import opened Base

  datatype ScriptId = ScriptId(id: u32)
  datatype ExecutorId = ExecutorId(id: u32)

  /** `IDGenerator`: the counter holds the next identifier to hand out. */
  datatype IdGenerator = IdGenerator(next: u32)

  datatype ScriptIdGenerator = ScriptIdGenerator(inner: IdGenerator)
  datatype ExecutorIdGenerator = ExecutorIdGenerator(inner: IdGenerator)

  /** `IDGenerator::default()`: counting starts at 1. */
  const NEW_GENERATOR: IdGenerator := IdGenerator(1)

  /** `gen`: the current counter, and the counter advanced by one modulo 2^32. */
  function Gen(g: IdGenerator): (r: (u32, IdGenerator))
    ensures r.0 == g.next
    ensures r.1.next == WrapU32(g.next + 1)
    ensures g.next < U32_MODULUS - 1 ==> r.1.next == g.next + 1
    ensures g.next == U32_MODULUS - 1 ==> r.1.next == 0
  {
    (g.next, IdGenerator(WrapU32(g.next + 1)))
  }

  function GenScript(g: ScriptIdGenerator): (ScriptId, ScriptIdGenerator) {
    var (n, inner) := Gen(g.inner);
    (ScriptId(n), ScriptIdGenerator(inner))
  }

  function GenExecutor(g: ExecutorIdGenerator): (ExecutorId, ExecutorIdGenerator) {
    var (n, inner) := Gen(g.inner);
    (ExecutorId(n), ExecutorIdGenerator(inner))
  }

  /** `From<ScriptID> for u32` and `From<u32> for ScriptID`. */
  function ScriptIdToU32(s: ScriptId): u32 {
    s.id
  }

  function ScriptIdFromU32(n: u32): ScriptId {
    ScriptId(n)
  }

  function ExecutorIdToU32(e: ExecutorId): u32 {
    e.id
  }

  /** The conversions between script ids and u32 are mutually inverse. */
  lemma ScriptIdConversionRoundTrip(s: ScriptId, n: u32)
    ensures ScriptIdFromU32(ScriptIdToU32(s)) == s
    ensures ScriptIdToU32(ScriptIdFromU32(n)) == n
  {
  }

  /** `n` successive calls of `gen`. */
  function GenMany(g: IdGenerator, n: nat): (r: (seq<u32>, IdGenerator))
    ensures |r.0| == n
    decreases n
  {
    if n == 0 then ([], g)
    else
      var (first, g') := Gen(g);
      var (rest, g'') := GenMany(g', n - 1);
      ([first] + rest, g'')
  }

  /** Successive identifiers are consecutive modulo 2^32. */
  lemma {:induction false} GenManyConsecutive(g: IdGenerator, n: nat)
    ensures forall i :: 0 <= i < n ==> GenMany(g, n).0[i] == (g.next + i) % U32_MODULUS
    ensures GenMany(g, n).1.next == (g.next + n) % U32_MODULUS
    decreases n
  {
    if n > 0 {
      var g' := Gen(g).1;
      GenManyConsecutive(g', n - 1);
      var ids := GenMany(g, n).0;
      forall i | 0 <= i < n
        ensures ids[i] == (g.next + i) % U32_MODULUS
      {
        if i > 0 {
          assert ids[i] == GenMany(g', n - 1).0[i - 1];
          ModShift(g.next + 1, i - 1);
        }
      }
      ModShift(g.next + 1, n - 1);
    }
  }

  /** ((a mod M) + k) mod M == (a + k) mod M for the u32 modulus. */
  lemma ModShift(a: int, k: int)
    ensures ((a % U32_MODULUS) + k) % U32_MODULUS == (a + k) % U32_MODULUS
  {
    var q := a / U32_MODULUS;
    assert a == q * U32_MODULUS + a % U32_MODULUS;
    var m := U32_MODULUS;
    assert (a + k) == (a % m + k) + q * m;
    ModAddMultiple(a % m + k, q);
  }

  lemma ModAddMultiple(x: int, q: int)
    ensures (x + q * U32_MODULUS) % U32_MODULUS == x % U32_MODULUS
  {
  }

  /** Identifiers from one generator are unique until the counter wraps: any
      2^32 successive calls return pairwise distinct values. */
  lemma GenManyDistinct(g: IdGenerator, n: nat)
    requires n <= U32_MODULUS
    ensures forall i, j :: 0 <= i < j < n ==> GenMany(g, n).0[i] != GenMany(g, n).0[j]
  {
    GenManyConsecutive(g, n);
    var ids := GenMany(g, n).0;
    forall i, j | 0 <= i < j < n
      ensures ids[i] != ids[j]
    {
      if ids[i] == ids[j] {
        DistinctResidues(g.next + i, j - i);
      }
    }
  }

  lemma DistinctResidues(a: int, d: int)
    requires 0 < d < U32_MODULUS
    ensures a % U32_MODULUS != (a + d) % U32_MODULUS
  {
    var m := U32_MODULUS;
    var q := a / m;
    var r := a % m;
    assert a == q * m + r;
    if r + d < m {
      assert a + d == q * m + (r + d);
      ModAddMultiple(r + d, q);
      ModAddMultiple(r, q);
    } else {
      assert a + d == (q + 1) * m + (r + d - m);
      ModAddMultiple(r + d - m, q + 1);
      ModAddMultiple(r, q);
    }
  }

  /** A fresh generator hands out 1, 2, 3, ... (for fewer than 2^32 - 1 calls). */
  lemma FreshGeneratorCountsFromOne(n: nat)
    requires n < U32_MODULUS - 1
    ensures forall i :: 0 <= i < n ==> GenMany(NEW_GENERATOR, n).0[i] == i + 1
  {
    GenManyConsecutive(NEW_GENERATOR, n);
  }
}
