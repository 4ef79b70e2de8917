/** Fixed-width words as bytes, in both byte orders. */
module Words {
  import opened Prelude

  function Pow256(n: nat): (p: int)
    ensures p > 0
  {
    if n == 0 then 1 else 256 * Pow256(n - 1)
  }

  lemma Widths()
    ensures Pow256(2) == 0x1_0000 && Pow256(4) == 0x1_0000_0000 && Pow256(8) == U64_SIZE
  {
    assert Pow256(4) == 0x1_0000_0000;
    assert Pow256(6) == 0x1_0000_0000_0000;
  }

  function FromLe(b: seq<u8>): (v: nat) {
    if b == [] then 0 else b[0] + 256 * FromLe(b[1..])
  }

  function ToLe(v: nat, n: nat): (b: seq<u8>)
    ensures |b| == n
    decreases n, v
  {
    if n == 0 then [] else [v % 256] + ToLe(v / 256, n - 1)
  }

  function FromBe(b: seq<u8>): (v: nat) {
    if b == [] then 0 else 256 * FromBe(b[..|b| - 1]) + b[|b| - 1]
  }

  function ToBe(v: nat, n: nat): (b: seq<u8>)
    ensures |b| == n
    decreases n, v
  {
    if n == 0 then [] else ToBe(v / 256, n - 1) + [v % 256]
  }

  lemma {:induction false} FromLeBound(b: seq<u8>)
    ensures FromLe(b) < Pow256(|b|)
    decreases |b|
  {
    if b != [] {
      FromLeBound(b[1..]);
    }
  }

  lemma {:induction false} FromBeBound(b: seq<u8>)
    ensures FromBe(b) < Pow256(|b|)
    decreases |b|
  {
    if b != [] {
      FromBeBound(b[..|b| - 1]);
    }
  }

  function Byte(b: seq<u8>, i: nat): int
    requires i < |b|
  {
    b[i]
  }

  /** The first byte of a little-endian number weighs least. */
  lemma LeWeights(b: seq<u8>)
    ensures |b| == 2 ==> FromLe(b) == Byte(b, 0) + 0x100 * Byte(b, 1)
    ensures |b| == 4 ==>
      FromLe(b) == Byte(b, 0) + 0x100 * Byte(b, 1) + 0x1_0000 * Byte(b, 2) + 0x100_0000 * Byte(b, 3)
    ensures |b| == 8 ==>
      FromLe(b) == Byte(b, 0) + 0x100 * Byte(b, 1) + 0x1_0000 * Byte(b, 2) + 0x100_0000 * Byte(b, 3)
        + 0x1_0000_0000 * Byte(b, 4) + 0x100_0000_0000 * Byte(b, 5) + 0x1_0000_0000_0000 * Byte(b, 6)
        + 0x100_0000_0000_0000 * Byte(b, 7)
  {
    assert b[0..] == b;
    if |b| > 1 {
      LeTwo(b, 0);
    }
    if |b| > 3 {
      LeTwo(b, 2);
    }
    if |b| > 7 {
      LeTwo(b, 4);
      LeTwo(b, 6);
    }
  }

  lemma LeTwo(b: seq<u8>, o: nat)
    requires o + 2 <= |b|
    ensures FromLe(b[o..]) == Byte(b, o) + 0x100 * Byte(b, o + 1) + 0x1_0000 * FromLe(b[o + 2..])
  {
    assert b[o..][1..] == b[o + 1..] && b[o + 1..][1..] == b[o + 2..];
  }

  /** The first byte of a big-endian number weighs most. */
  lemma BeWeights(b: seq<u8>)
    ensures |b| == 2 ==> FromBe(b) == 0x100 * Byte(b, 0) + Byte(b, 1)
    ensures |b| == 8 ==>
      FromBe(b) == 0x100_0000_0000_0000 * Byte(b, 0) + 0x1_0000_0000_0000 * Byte(b, 1)
        + 0x100_0000_0000 * Byte(b, 2) + 0x1_0000_0000 * Byte(b, 3) + 0x100_0000 * Byte(b, 4)
        + 0x1_0000 * Byte(b, 5) + 0x100 * Byte(b, 6) + Byte(b, 7)
  {
    if |b| == 2 || |b| == 8 {
      BeTwo(b, |b|);
      assert b[..|b|] == b;
    }
    if |b| == 8 {
      BeTwo(b, 6);
      BeTwo(b, 4);
      BeTwo(b, 2);
    }
  }

  lemma BeTwo(b: seq<u8>, n: nat)
    requires 2 <= n <= |b|
    ensures FromBe(b[..n]) == 0x1_0000 * FromBe(b[..n - 2]) + 0x100 * Byte(b, n - 2) + Byte(b, n - 1)
  {
    assert b[..n][..n - 1] == b[..n - 1] && b[..n - 1][..n - 2] == b[..n - 2];
  }

  lemma {:induction false} LeRoundTrip(v: nat, n: nat)
    requires v < Pow256(n)
    ensures FromLe(ToLe(v, n)) == v
    decreases n
  {
    if n > 0 {
      LeRoundTrip(v / 256, n - 1);
      assert ToLe(v, n)[1..] == ToLe(v / 256, n - 1);
    }
  }

  lemma {:induction false} BeRoundTrip(v: nat, n: nat)
    requires v < Pow256(n)
    ensures FromBe(ToBe(v, n)) == v
    decreases n
  {
    if n > 0 {
      BeRoundTrip(v / 256, n - 1);
      assert ToBe(v, n)[..n - 1] == ToBe(v / 256, n - 1);
    }
  }

  lemma {:induction false} BeBack(b: seq<u8>)
    ensures ToBe(FromBe(b), |b|) == b
    decreases |b|
  {
    if b != [] {
      BeBack(b[..|b| - 1]);
      assert (256 * FromBe(b[..|b| - 1]) + b[|b| - 1]) / 256 == FromBe(b[..|b| - 1]);
    }
  }

  /** The little-endian `u64` at `offset`: `word` in the log reader, `take_u64` in the ring reader. */
  function Word(b: seq<u8>, offset: nat): (v: u64)
    requires offset + 8 <= |b|
  {
    Widths();
    FromLeBound(b[offset..offset + 8]);
    FromLe(b[offset..offset + 8])
  }

  function Half(b: seq<u8>, offset: nat): (v: int)
    requires offset + 4 <= |b|
    ensures 0 <= v < 0x1_0000_0000
  {
    Widths();
    FromLeBound(b[offset..offset + 4]);
    FromLe(b[offset..offset + 4])
  }

  function Quarter(b: seq<u8>, offset: nat): (v: int)
    requires offset + 2 <= |b|
    ensures 0 <= v < 0x1_0000
  {
    Widths();
    FromLeBound(b[offset..offset + 2]);
    FromLe(b[offset..offset + 2])
  }

  function WordsBytes(words: seq<u64>): (b: seq<u8>)
    ensures |b| == 8 * |words|
  {
    if words == [] then [] else ToLe(words[0], 8) + WordsBytes(words[1..])
  }

  lemma WordReadsBack(before: seq<u8>, v: u64, after: seq<u8>)
    ensures Word(before + ToLe(v, 8) + after, |before|) == v
  {
    var all := before + ToLe(v, 8) + after;
    Widths();
    LeRoundTrip(v, 8);
    assert all[|before|..|before| + 8] == ToLe(v, 8);
  }

  /** Words written one after the other are read back at their offsets. */
  lemma {:induction false} WordsReadBack(before: seq<u8>, words: seq<u64>, after: seq<u8>, i: nat)
    requires i < |words|
    ensures Word(before + WordsBytes(words) + after, |before| + 8 * i) == words[i]
    decreases i
  {
    var first, rest := ToLe(words[0], 8), WordsBytes(words[1..]);
    if i == 0 {
      assert before + WordsBytes(words) + after == before + first + (rest + after);
      WordReadsBack(before, words[0], rest + after);
    } else {
      assert before + WordsBytes(words) + after == (before + first) + rest + after;
      WordsReadBack(before + first, words[1..], after, i - 1);
    }
  }
}
