/** The filter in front of the catalogue: an array of bits and the probes two 32-bit hashes span. */
module Bloom {

  const UINT32 := 0x1_0000_0000

  newtype uint32 = x: int | 0 <= x < 0x1_0000_0000

  /** The hash library: a sum of a text, and a sum of it that starts from a seed. */
  datatype Hashes = Hashes(sum: string -> uint32, seeded: (string, uint32) -> uint32)

  /** The sum of a text plus `i` times its seeded sum, as 32-bit arithmetic has it. */
  function Step32(first: uint32, stride: uint32, i: nat): (v: nat)
    ensures v < UINT32
  {
    Sum32(first as int, i * stride as int)
  }

  function Sum32(x: int, y: int): (v: nat)
    ensures v < UINT32
  {
    (x + y % UINT32) % UINT32
  }

  /** Probe `i` of a text in a filter of `m` bits; additions and products wrap at 32 bits. */
  function Probe(h: Hashes, text: string, i: nat, m: nat): (p: nat)
    requires m > 0
    ensures p < m
  {
    var sum1 := h.sum(text);
    Step32(sum1, h.seeded(text, sum1), i) % m
  }

  predicate Usable(k: nat, m: nat) { k < UINT32 && m < UINT32 && (k == 0 || m > 0) }

  function Probes(h: Hashes, text: string, k: nat, m: nat): seq<nat>
    requires Usable(k, m)
  {
    seq(k, i requires 0 <= i < k => Probe(h, text, i, m))
  }

  // ----- what a probe is -----

  /** 32-bit values that start at `first` and go up by `by` each, wrapping around. */
  predicate Strides(v: seq<nat>, first: uint32, stride: uint32) {
    && (v != [] ==> v[0] == first as nat)
    && (forall i :: 0 <= i < |v| ==> v[i] < UINT32)
    && (forall i :: 0 < i < |v| ==> (v[i] - v[i - 1] - stride as int) % UINT32 == 0)
  }

  predicate Remainders(probes: seq<nat>, v: seq<nat>, m: nat)
    requires m > 0 || probes == []
  {
    |probes| == |v| && forall i :: 0 <= i < |v| ==> probes[i] == v[i] % m
  }

  /** The probes are what is left, modulo the number of bits, of values that start at the text's sum and go up by its
      seeded sum. */
  ghost predicate Double(h: Hashes, text: string, probes: seq<nat>, m: nat)
    requires m > 0 || probes == []
  {
    exists v :: Strides(v, h.sum(text), h.seeded(text, h.sum(text))) && Remainders(probes, v, m)
  }

  lemma WrapsOnce(x: int, y: int)
    ensures Sum32(x, y) == (x + y) % UINT32
  {}

  lemma OneStride(x: int, stride: int)
    ensures ((x + stride) % UINT32 - x % UINT32 - stride) % UINT32 == 0
  {}

  lemma SumsByStride(x: int, y: int, stride: int)
    ensures (Sum32(x, y + stride) - Sum32(x, y) - stride) % UINT32 == 0
  {
    WrapsOnce(x, y);
    WrapsOnce(x, y + stride);
    OneStride(x + y, stride);
  }

  lemma OneMoreTimes(i: int, stride: int)
    ensures (i + 1) * stride == i * stride + stride
  {}

  lemma StepsByStride(first: uint32, stride: uint32, i: nat)
    ensures (Step32(first, stride, i + 1) - Step32(first, stride, i) - stride as int) % UINT32 == 0
  {
    OneMoreTimes(i, stride as int);
    SumsByStride(first as int, i * stride as int, stride as int);
  }

  /** The probes of a text are found by double hashing. */
  lemma ProbesAreDouble(h: Hashes, text: string, k: nat, m: nat)
    requires Usable(k, m)
    ensures Double(h, text, Probes(h, text, k, m), m)
  {
    var first, stride := h.sum(text), h.seeded(text, h.sum(text));
    var v := seq(k, i requires 0 <= i < k => Step32(first, stride, i));
    forall i | 0 < i < k ensures (v[i] - v[i - 1] - stride as int) % UINT32 == 0 {
      StepsByStride(first, stride, i - 1);
    }
    assert k > 0 ==> Step32(first, stride, 0) == first as int;
    assert Strides(v, first, stride) && Remainders(Probes(h, text, k, m), v, m);
  }

  /** The bits once those at `probes` are set. */
  function Marked(bits: seq<bool>, probes: seq<nat>): seq<bool> {
    seq(|bits|, b requires 0 <= b < |bits| => bits[b] || b in probes)
  }

  /** An empty filter after putting in `texts`, in order. */
  function Filled(h: Hashes, k: nat, m: nat, texts: seq<string>): (bits: seq<bool>)
    requires Usable(k, m)
    ensures |bits| == m
  {
    if texts == [] then seq(m, _ => false)
    else
      var last := |texts| - 1;
      Marked(Filled(h, k, m, texts[..last]), Probes(h, texts[last], k, m))
  }

  /** A filter without hash functions contains nothing. */
  predicate Found(bits: seq<bool>, probes: seq<nat>)
    requires forall i :: 0 <= i < |probes| ==> probes[i] < |bits|
  {
    probes != [] && forall i :: 0 <= i < |probes| ==> bits[probes[i]]
  }

  /** The bit is a probe of some text. */
  ghost predicate Probed(h: Hashes, k: nat, m: nat, texts: seq<string>, b: nat)
    requires Usable(k, m)
  {
    exists t, i :: t in texts && 0 <= i < k && Probes(h, t, k, m)[i] == b
  }

  /** A bit is set exactly when it is a probe of some text that was put in. */
  lemma {:induction false} BitsExactly(h: Hashes, k: nat, m: nat, texts: seq<string>, b: nat)
    requires Usable(k, m) && b < m
    ensures Filled(h, k, m, texts)[b] <==> Probed(h, k, m, texts, b)
  {
    if texts != [] {
      var last := |texts| - 1;
      BitsExactly(h, k, m, texts[..last], b);
      OneMoreProbes(h, k, m, texts[..last], texts[last], b);
      assert texts == texts[..last] + [texts[last]];
    }
  }

  lemma OneMoreProbes(h: Hashes, k: nat, m: nat, texts: seq<string>, text: string, b: nat)
    requires Usable(k, m)
    ensures Probed(h, k, m, texts + [text], b) <==> Probed(h, k, m, texts, b) || b in Probes(h, text, k, m)
  {
    if b in Probes(h, text, k, m) {
      var i :| 0 <= i < k && Probes(h, text, k, m)[i] == b;
      assert text in texts + [text];
    }
    if Probed(h, k, m, texts, b) {
      var t, i :| t in texts && 0 <= i < k && Probes(h, t, k, m)[i] == b;
      assert t in texts + [text];
    }
  }

  /** A text is found exactly when every one of its probes is a probe of some text that was put in. */
  lemma FoundExactly(h: Hashes, k: nat, m: nat, texts: seq<string>, text: string)
    requires Usable(k, m)
    ensures Found(Filled(h, k, m, texts), Probes(h, text, k, m))
       <==> k > 0 && forall i :: 0 <= i < k ==> Probed(h, k, m, texts, Probes(h, text, k, m)[i])
  {
    var bits, probes := Filled(h, k, m, texts), Probes(h, text, k, m);
    if Found(bits, probes) {
      forall i | 0 <= i < k ensures Probed(h, k, m, texts, probes[i]) { BitsExactly(h, k, m, texts, probes[i]); }
    }
    if k > 0 && forall i :: 0 <= i < k ==> Probed(h, k, m, texts, probes[i]) {
      forall i | 0 <= i < |probes| ensures bits[probes[i]] { BitsExactly(h, k, m, texts, probes[i]); }
    }
  }

  /** A text that was not put in and whose probes are not those of the one that was is not found. */
  lemma AbsentIsNotFound(h: Hashes, present: string, absent: string)
    requires h.sum(present) == 1 && h.seeded(present, 1) == 1 && h.sum(absent) == 10 && h.seeded(absent, 10) == 10
    ensures Found(Filled(h, 3, 10000, [present]), Probes(h, present, 3, 10000))
    ensures !Found(Filled(h, 3, 10000, [present]), Probes(h, absent, 3, 10000))
  {
    NeverMissed(h, 3, 10000, [present], present);
    var there := Probes(h, present, 3, 10000);
    assert there[0] == 1 && there[1] == 2 && there[2] == 3;
    assert Probes(h, absent, 3, 10000)[0] == 10;
    BitsExactly(h, 3, 10000, [present], 10);
    forall t, i | t in [present] && 0 <= i < 3 ensures Probes(h, t, 3, 10000)[i] != 10 {
      assert t == present;
    }
  }

  /** What was put in is found, and it is the hash functions that make it so. */
  lemma NeverMissed(h: Hashes, k: nat, m: nat, texts: seq<string>, text: string)
    requires Usable(k, m) && text in texts
    ensures Found(Filled(h, k, m, texts), Probes(h, text, k, m)) <==> k > 0
  {
    FoundExactly(h, k, m, texts, text);
    forall i | 0 <= i < k ensures Probed(h, k, m, texts, Probes(h, text, k, m)[i]) {
      assert Probes(h, text, k, m)[i] == Probes(h, text, k, m)[i];
    }
  }

  class BloomFilter {
    const hashes: Hashes
    const numHashes: uint32
    const bits: array<bool>
    ghost var texts: seq<string>

    ghost predicate Valid()
      reads this, bits
    {
      Usable(numHashes as nat, bits.Length) && bits[..] == Filled(hashes, numHashes as nat, bits.Length, texts)
    }

    /** A filter with hash functions but no bits divides by zero at its first use. */
    constructor (hashes: Hashes, numBits: uint32, numHashes: uint32)
      requires numBits > 0 || numHashes == 0
      ensures Valid() && texts == [] && fresh(bits)
      ensures this.hashes == hashes && this.numHashes == numHashes && bits.Length == numBits as int
    {
      this.hashes := hashes;
      this.numHashes := numHashes;
      this.bits := new bool[numBits as int](_ => false);
      this.texts := [];
    }

    method GetBits(text: string) returns (results: array<nat>)
      requires Valid()
      ensures fresh(results)
      ensures results[..] == Probes(hashes, text, numHashes as nat, bits.Length)
      ensures results.Length == numHashes as int && Double(hashes, text, results[..], bits.Length)
    {
      var sum1 := hashes.sum(text);
      var sum2 := hashes.seeded(text, sum1);
      results := new nat[numHashes as int];
      var i := 0;
      while i < numHashes as int
        invariant 0 <= i <= numHashes as int
        invariant forall j :: 0 <= j < i ==> results[j] == Probe(hashes, text, j, bits.Length)
      {
        results[i] := (sum1 as int + i * sum2 as int % UINT32) % UINT32 % bits.Length;
        assert results[i] == Probe(hashes, text, i, bits.Length);
        i := i + 1;
      }
      ProbesAreDouble(hashes, text, numHashes as nat, bits.Length);
    }

    method Put(text: string)
      requires Valid()
      modifies this, bits
      ensures Valid() && texts == old(texts) + [text]
    {
      var arr := GetBits(text);
      ghost var was := bits[..];
      var i := 0;
      while i < arr.Length
        invariant 0 <= i <= arr.Length
        invariant arr[..] == Probes(hashes, text, numHashes as nat, bits.Length)
        invariant forall b :: 0 <= b < bits.Length ==> (bits[b] <==> was[b] || b in arr[..i])
        invariant texts == old(texts)
      {
        bits[arr[i]] := true;
        assert arr[..i + 1] == arr[..i] + [arr[i]];
        i := i + 1;
      }
      assert arr[..] == arr[..arr.Length];
      texts := texts + [text];
      assert texts[..|texts| - 1] == old(texts);
      assert bits[..] == Marked(was, arr[..]);
    }

    /** Found exactly when every probe is covered; never false for a text that was put in, unless there are no
        hashes. */
    method Get(text: string) returns (found: bool)
      requires Valid()
      ensures found == Found(bits[..], Probes(hashes, text, numHashes as nat, bits.Length))
      ensures text in texts ==> (found <==> numHashes > 0)
    {
      var arr := GetBits(text);
      if text in texts { NeverMissed(hashes, numHashes as nat, bits.Length, texts, text); }
      if arr.Length == 0 {
        found := false;
      } else {
        found := true;
        var i := 0;
        while i < arr.Length
          invariant 0 <= i <= arr.Length
          invariant arr[..] == Probes(hashes, text, numHashes as nat, bits.Length)
          invariant found <==> forall j :: 0 <= j < i ==> bits[arr[..][j]]
        {
          found := found && bits[arr[i]];
          i := i + 1;
        }
      }
    }
  }
}
