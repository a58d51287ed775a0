/** utils/utils.go: MaskId, the reversible scrambling of 24-byte hex ids
    that travel between client and server, and GetMapKeySlice. */
module Utils {

  newtype byte = x: int | 0 <= x < 256

  /** A Go string seen as its bytes; ids are the 24-byte hex form of ObjectIDs. */
  type Id = seq<byte>

  const IdLength := 24

  /** An id as the text fmt prints for it. */
  function IdText(id: Id): string {
    seq(|id|, i requires 0 <= i < |id| => id[i] as int as char)
  }

  /** The pseudo-random source MaskId draws from: after rand.Seed(seed), the
      i-th call of rand.Int31n(24) yields Rng(seed, i).  math/rand's generator
      is not modelled; every property below holds for every such source. */
  type Rng = f: (int, nat) -> int | forall seed: int, i: nat :: 0 <= f(seed, i) < 24
    witness (seed: int, i: nat) => 0

  /** The byte sum MaskId uses as its seed, added up from the front. */
  function Sum(s: seq<byte>): nat {
    if |s| == 0 then 0 else Sum(s[..|s| - 1]) + s[|s| - 1] as int
  }

  /** Exchange of the bytes at r and at its mirror position 23 - r. */
  function Swap(b: seq<byte>, r: int): (c: seq<byte>)
    requires |b| == IdLength && 0 <= r < IdLength
    ensures |c| == IdLength
  {
    b[r := b[23 - r]][23 - r := b[r]]
  }

  /** The array after the first n of MaskId's swaps. */
  function Swaps(b: seq<byte>, rng: Rng, seed: int, n: nat): (c: seq<byte>)
    requires |b| == IdLength
    ensures |c| == IdLength
  {
    if n == 0 then b else Swap(Swaps(b, rng, seed, n - 1), rng(seed, n - 1))
  }

  /** What MaskId returns. */
  function Masked(id: Id, rng: Rng): Id {
    if |id| != IdLength then id else Swaps(id, rng, Sum(id), 100)
  }

  /** The seed loop of MaskId: the sum of the array's bytes. */
  method SumBytes(bytes: array<byte>) returns (seed: int)
    ensures seed == Sum(bytes[..])
  {
    seed := 0;
    for j := 0 to bytes.Length
      invariant seed == Sum(bytes[..j])
    {
      assert bytes[..j + 1][..j] == bytes[..j];
      seed := bytes[j] as int + seed;
    }
    assert bytes[..bytes.Length] == bytes[..];
  }

  /** One iteration of MaskId's swap loop, in place. */
  method SwapMirror(bytes: array<byte>, r1: int)
    requires bytes.Length == IdLength && 0 <= r1 < IdLength
    modifies bytes
    ensures bytes[..] == Swap(old(bytes[..]), r1)
  {
    var r2 := 23 - r1;
    var temp := bytes[r1];
    bytes[r1] := bytes[r2];
    bytes[r2] := temp;
  }

  /** MaskId: ids whose length is not 24 are returned as they are; otherwise
      the byte sum seeds the generator and 100 mirror swaps are applied. */
  method MaskId(id: Id, rng: Rng) returns (masked: Id)
    ensures masked == Masked(id, rng)
  {
    if |id| != IdLength {
      return id;
    }
    var bytes := new byte[IdLength](i requires 0 <= i < IdLength => id[i]);
    assert bytes[..] == id;
    var seed := SumBytes(bytes);
    if seed < 0 {
      seed := seed * -1;
    }
    for i := 0 to 100
      invariant bytes[..] == Swaps(id, rng, seed, i)
    {
      SwapMirror(bytes, rng(seed, i));
    }
    masked := bytes[..];
  }

  /** Whether an odd number of the first n swaps touched the pair {k, 23 - k}. */
  function Flipped(rng: Rng, seed: int, n: nat, k: int): bool {
    if n == 0 then false
    else Flipped(rng, seed, n - 1, k) != (rng(seed, n - 1) == k || rng(seed, n - 1) == 23 - k)
  }

  lemma {:induction false} FlippedMirror(rng: Rng, seed: int, n: nat, k: int)
    ensures Flipped(rng, seed, n, k) == Flipped(rng, seed, n, 23 - k)
  {
    if n > 0 {
      FlippedMirror(rng, seed, n - 1, k);
    }
  }

  /** Closed form of the swap sequence: every position either keeps its byte
      or holds its mirror's, according to the parity of the swaps on its pair.
      The swaps are disjoint or equal transpositions, so their order is irrelevant. */
  lemma {:induction false} SwapsAt(b: seq<byte>, rng: Rng, seed: int, n: nat, k: int)
    requires |b| == IdLength && 0 <= k < IdLength
    ensures Swaps(b, rng, seed, n)[k] == if Flipped(rng, seed, n, k) then b[23 - k] else b[k]
  {
    if n > 0 {
      var prev := Swaps(b, rng, seed, n - 1);
      var r := rng(seed, n - 1);
      SwapsAt(b, rng, seed, n - 1, k);
      SwapsAt(b, rng, seed, n - 1, 23 - k);
      FlippedMirror(rng, seed, n - 1, k);
      assert Swaps(b, rng, seed, n) == Swap(prev, r);
    }
  }

  lemma SwapMultiset(b: seq<byte>, r: int)
    requires |b| == IdLength && 0 <= r < IdLength
    ensures multiset(Swap(b, r)) == multiset(b)
  {
    var s := 23 - r;
    var once := b[r := b[s]];
    assert multiset(once) == multiset(b) - multiset{b[r]} + multiset{b[s]};
    assert once[s] == b[s];
    assert multiset(once[s := b[r]]) == multiset(once) - multiset{b[s]} + multiset{b[r]};
  }

  lemma {:induction false} SwapsMultiset(b: seq<byte>, rng: Rng, seed: int, n: nat)
    requires |b| == IdLength
    ensures multiset(Swaps(b, rng, seed, n)) == multiset(b)
  {
    if n > 0 {
      SwapsMultiset(b, rng, seed, n - 1);
      SwapMultiset(Swaps(b, rng, seed, n - 1), rng(seed, n - 1));
    }
  }

  /** Removing one element from a sequence removes its value from the sum. */
  lemma {:induction false} SumRemove(s: seq<byte>, j: int)
    requires 0 <= j < |s|
    ensures Sum(s) == Sum(s[..j] + s[j + 1..]) + s[j] as int
  {
    var rest := s[..j] + s[j + 1..];
    if j == |s| - 1 {
      assert rest == s[..|s| - 1];
    } else {
      var init := s[..|s| - 1];
      SumRemove(init, j);
      assert rest[..|rest| - 1] == init[..j] + init[j + 1..];
      assert rest[|rest| - 1] == s[|s| - 1];
    }
  }

  /** The seed does not depend on the order of the bytes. */
  lemma {:induction false} SumPermutation(a: seq<byte>, b: seq<byte>)
    requires multiset(a) == multiset(b)
    ensures Sum(a) == Sum(b)
    decreases |a|
  {
    if |a| > 0 {
      var x := a[|a| - 1];
      assert x in multiset(b);
      var j :| 0 <= j < |b| && b[j] == x;
      var b' := b[..j] + b[j + 1..];
      assert a == a[..|a| - 1] + [x];
      assert b == b[..j] + [b[j]] + b[j + 1..];
      assert multiset(a) == multiset(a[..|a| - 1]) + multiset{x};
      assert multiset(b) == multiset(b[..j]) + multiset{x} + multiset(b[j + 1..]);
      assert multiset(b') == multiset(b[..j]) + multiset(b[j + 1..]);
      assert multiset(a[..|a| - 1]) == multiset(a) - multiset{x};
      assert multiset(b') == multiset(b) - multiset{x};
      SumPermutation(a[..|a| - 1], b');
      SumRemove(b, j);
    } else {
      assert b == [];
    }
  }

  /** MaskId only rearranges the bytes it is given. */
  lemma MaskedPermutes(id: Id, rng: Rng)
    ensures |Masked(id, rng)| == |id|
    ensures multiset(Masked(id, rng)) == multiset(id)
  {
    if |id| == IdLength {
      SwapsMultiset(id, rng, Sum(id), 100);
    }
  }

  /** Masking keeps the seed: the masked id draws the same swap sequence. */
  lemma MaskedSameSeed(id: Id, rng: Rng)
    ensures Sum(Masked(id, rng)) == Sum(id)
  {
    MaskedPermutes(id, rng);
    SumPermutation(Masked(id, rng), id);
  }

  /** MaskId is an involution, which is why the server applies the same
      function to mask ids on the way out and to unmask them on the way in. */
  lemma MaskedInvolution(id: Id, rng: Rng)
    ensures Masked(Masked(id, rng), rng) == id
  {
    if |id| == IdLength {
      var seed := Sum(id);
      var once := Masked(id, rng);
      MaskedSameSeed(id, rng);
      var twice := Masked(once, rng);
      assert twice == Swaps(once, rng, seed, 100);
      forall k | 0 <= k < IdLength
        ensures twice[k] == id[k]
      {
        SwapsAt(once, rng, seed, 100, k);
        SwapsAt(id, rng, seed, 100, k);
        SwapsAt(id, rng, seed, 100, 23 - k);
        FlippedMirror(rng, seed, 100, k);
      }
    }
  }

  /** Masking is injective, so masked ids compare equal exactly when the ids do. */
  lemma MaskedInjective(a: Id, b: Id, rng: Rng)
    ensures Masked(a, rng) == Masked(b, rng) <==> a == b
  {
    MaskedInvolution(a, rng);
    MaskedInvolution(b, rng);
  }

  lemma NonEmptyHasElement(s: set<int>)
    requires s != {}
    ensures exists k :: k in s
  {
    if forall k :: k !in s {
      assert false;
    }
  }

  /** GetMapKeySlice: the keys of a map, in Go's unspecified iteration order. */
  method GetMapKeySlice(myMap: map<int, bool>) returns (keys: seq<int>)
    ensures |keys| == |myMap|
    ensures forall i, j :: 0 <= i < j < |keys| ==> keys[i] != keys[j]
    ensures forall k :: k in myMap <==> k in keys
  {
    var slots := new int[|myMap|];
    var i := 0;
    var pending := myMap.Keys;
    while pending != {}
      invariant pending <= myMap.Keys
      invariant i + |pending| == |myMap|
      invariant forall m :: 0 <= m < i ==> slots[m] in myMap && slots[m] !in pending
      invariant forall m, n :: 0 <= m < n < i ==> slots[m] != slots[n]
      invariant forall k :: k in myMap ==> k in pending || k in slots[..i]
      decreases |pending|
    {
      NonEmptyHasElement(pending);
      var k: int :| k in pending;
      slots[i] := k;
      assert slots[..i + 1] == slots[..i] + [k];
      i := i + 1;
      pending := pending - {k};
    }
    keys := slots[..];
    assert keys == slots[..i];
  }
}
