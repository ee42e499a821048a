// The probabilistic sampler: a bucket computed from the trace ID alone (probabilistic.go).
module Sampling {
  import opened Bytes
  import opened Records

  const BUCKETS: nat := 0x4000
  const FNV_OFFSET: bv32 := 2166136261
  const FNV_PRIME: bv32 := 16777619

  function FnvStep(h: bv32, b: byte): bv32
  {
    (h ^ (b as bv32)) * FNV_PRIME
  }

  // FNV-1a, 32 bits, over the first k bytes.
  function Fnv(b: seq<byte>, k: nat): bv32
    requires k <= |b|
  {
    if k == 0 then FNV_OFFSET else FnvStep(Fnv(b, k - 1), b[k - 1])
  }

  function LittleEndian(seed: bv32): (s: seq<byte>)
    ensures |s| == 4
  {
    var n := seed as int;
    [(n % 256) as byte, (n / 256 % 256) as byte, (n / 0x1_0000 % 256) as byte, (n / 0x100_0000 % 256) as byte]
  }

  // The bucket is the low 14 bits of the hash of the seed and the trace ID.
  function HashTraceId(seed: bv32, tid: TraceId): (h: nat)
    ensures h < BUCKETS
  {
    var b := LittleEndian(seed) + tid;
    (Fnv(b, |b|) as int) % BUCKETS
  }

  // 16384/100 as a float64.
  const SCALE: real := 5764607523034235.0 / 35184372088832.0

  // What rounding to float64 keeps: the order, and integers up to 2^53.
  ghost predicate Rounds(round: real -> real)
  {
    && (forall x, y :: x <= y ==> round(x) <= round(y))
    && (forall x: real :: x == x.Floor as real && 0.0 <= x <= 9007199254740992.0 ==> round(x) == x)
  }

  // uint32 of the percentage times the scale, where `product` is that product as a float64.
  function Threshold(product: real): nat
  {
    if product <= 0.0 then 0 else product.Floor % 0x1_0000_0000
  }

  // The hasher as it runs: one byte at a time into an accumulator.
  method HashBytes(seed: bv32, tid: TraceId) returns (h: nat)
    ensures h == HashTraceId(seed, tid)
  {
    hide FnvStep;
    var b := LittleEndian(seed) + tid;
    var sum := FNV_OFFSET;
    for i := 0 to |b|
      invariant sum == Fnv(b, i)
    {
      sum := FnvStep(sum, b[i]);
    }
    h := (sum as int) % BUCKETS;
  }

  // However the products are rounded: at 100 per cent every trace is below the threshold, at 0
  // none; and raising the percentage never takes a sampled trace out.
  lemma ThresholdBounds(round: real -> real, seed: bv32, tid: TraceId, p: real, q: real)
    requires Rounds(round) && 0.0 <= p <= q <= 100.0
    ensures Threshold(round(0.0 * SCALE)) == 0
    ensures HashTraceId(seed, tid) < Threshold(round(100.0 * SCALE))
    ensures Threshold(round(p * SCALE)) <= Threshold(round(q * SCALE))
    ensures HashTraceId(seed, tid) < Threshold(round(p * SCALE)) ==> HashTraceId(seed, tid) < Threshold(round(q * SCALE))
  {
    var zero, x, y, all := 0.0 * SCALE, p * SCALE, q * SCALE, 100.0 * SCALE;
    assert zero == 0.0 <= x <= y <= all;
    assert 16384.0 <= all <= 16385.0;
    assert round(zero) == 0.0 && round(16384.0) == 16384.0 && round(16385.0) == 16385.0;
    assert 0.0 <= round(x) <= round(y) <= round(all) <= 16385.0 && 16384.0 <= round(all);
    FloorMonotone(round(x), round(y));
    FloorMonotone(16384.0, round(all));
    FloorMonotone(round(all), 16385.0);
    FloorMonotone(round(y), 16385.0);
    FloorMonotone(0.0, round(x));
  }

  lemma FloorMonotone(x: real, y: real)
    requires x <= y
    ensures x.Floor <= y.Floor
  {
  }
}
