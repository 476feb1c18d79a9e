// The per-sensor cloud masks: a pixel is kept when the quality-band bits that
// flag cloud, cirrus or cloud shadow are all zero.  The masks are written as
// the script writes them, with a bitwise AND against a power of two, and are
// proved equal to a statement about individual bits.

module CloudMask {
  import opened Sensors

  function Pow2(k: nat): (r: nat)
    ensures r >= 1
  {
    if k == 0 then 1 else 2 * Pow2(k - 1)
  }

  /** Bitwise AND of two non-negative integers, bit by bit from the lowest. */
  function BitAnd(a: nat, b: nat): (r: nat)
    ensures r <= a && r <= b
  {
    if a == 0 || b == 0 then 0
    else 2 * BitAnd(a / 2, b / 2) + (if a % 2 == 1 && b % 2 == 1 then 1 else 0)
  }

  /** Bit k of `a` is one: the lowest bit after k halvings. */
  predicate BitSet(a: nat, k: nat)
  {
    if k == 0 then a % 2 == 1 else BitSet(a / 2, k - 1)
  }

  /** maskS2clouds: bits 10 (opaque clouds) and 11 (cirrus) of QA60 clear. */
  predicate S2Clear(qa: nat)
  {
    var cloudBitMask := Pow2(10);
    var cirrusBitMask := Pow2(11);
    BitAnd(qa, cloudBitMask) == 0 && BitAnd(qa, cirrusBitMask) == 0
  }

  /** maskL8TOAclouds: bit 4 (cloud) of BQA clear. */
  predicate L8ToaClear(qa: nat)
  {
    var cloudBitMask := Pow2(4);
    BitAnd(qa, cloudBitMask) == 0
  }

  /** maskL8SRclouds: bits 3 (cloud shadow) and 5 (cloud) of pixel_qa clear. */
  predicate L8SrClear(qa: nat)
  {
    var cloudShadowBitMask := Pow2(3);  // 1 << 3
    var cloudsBitMask := Pow2(5);       // 1 << 5
    BitAnd(qa, cloudShadowBitMask) == 0 && BitAnd(qa, cloudsBitMask) == 0
  }

  /** The mask getCollection maps over the images of each collection,
      applied to the value of that collection's quality band. */
  predicate Clear(c: Collection, qa: nat)
  {
    match c
    case S2TOA => S2Clear(qa)
    case S2SR => S2Clear(qa)
    case L8TOA => L8ToaClear(qa)
    case L8SR => L8SrClear(qa)
  }

  // ---------------------------------------------------------------------------
  // From masks to bits

  lemma {:induction false} ZeroHasNoBits(k: nat)
    ensures !BitSet(0, k)
  {
    if k > 0 { ZeroHasNoBits(k - 1); }
  }

  /** ANDing with 2^k is zero exactly when bit k is clear. */
  lemma {:induction false} BitAndPow2(a: nat, k: nat)
    ensures BitAnd(a, Pow2(k)) == 0 <==> !BitSet(a, k)
  {
    if k == 0 {
      assert BitAnd(a / 2, 0) == 0;
    } else if a == 0 {
      ZeroHasNoBits(k);
    } else {
      assert Pow2(k) / 2 == Pow2(k - 1) && Pow2(k) % 2 == 0;
      assert BitAnd(a, Pow2(k)) == 2 * BitAnd(a / 2, Pow2(k - 1));
      BitAndPow2(a / 2, k - 1);
    }
  }

  /** Sentinel-2: valid iff bits 10 and 11 of QA60 are both zero. */
  lemma S2ClearBits(qa: nat)
    ensures S2Clear(qa) <==> !BitSet(qa, 10) && !BitSet(qa, 11)
  {
    BitAndPow2(qa, 10);
    BitAndPow2(qa, 11);
  }

  /** Landsat-8 TOA: valid iff bit 4 of BQA is zero. */
  lemma L8ToaClearBits(qa: nat)
    ensures L8ToaClear(qa) <==> !BitSet(qa, 4)
  {
    BitAndPow2(qa, 4);
  }

  /** Landsat-8 SR: valid iff bits 3 and 5 of pixel_qa are zero. */
  lemma L8SrClearBits(qa: nat)
    ensures L8SrClear(qa) <==> !BitSet(qa, 3) && !BitSet(qa, 5)
  {
    BitAndPow2(qa, 3);
    BitAndPow2(qa, 5);
  }

  /** The bits each collection's mask inspects. */
  function FlagBits(c: Collection): set<nat>
  {
    if IsSentinel2(c) then {10, 11} else if c == L8TOA then {4} else {3, 5}
  }

  /** A pixel passes its collection's mask iff none of the flagged bits is
      set; so two QA values that agree on those bits are masked alike. */
  lemma ClearIffFlagsClear(c: Collection, qa: nat)
    ensures Clear(c, qa) <==> forall k :: k in FlagBits(c) ==> !BitSet(qa, k)
  {
    S2ClearBits(qa);
    L8ToaClearBits(qa);
    L8SrClearBits(qa);
  }

  lemma SameFlagsSameMask(c: Collection, qa1: nat, qa2: nat)
    requires forall k :: k in FlagBits(c) ==> (BitSet(qa1, k) <==> BitSet(qa2, k))
    ensures Clear(c, qa1) == Clear(c, qa2)
  {
    ClearIffFlagsClear(c, qa1);
    ClearIffFlagsClear(c, qa2);
  }

  /** The mask of collection c applied to a pixel, given as the values of
      its bands: each mask selects its collection's quality band as `qa`
      ('QA60' in maskS2clouds, 'BQA' in maskL8TOAclouds, 'pixel_qa' in
      maskL8SRclouds). */
  predicate ClearPixel(c: Collection, pixel: map<string, nat>)
    requires Capabilities(c).qaBand in pixel
  {
    Clear(c, pixel[Capabilities(c).qaBand])
  }

  /** Each mask reads the quality band listed for its collection, and keeps
      a pixel iff none of the collection's flag bits is set in that band. */
  lemma PixelMaskReadsQaBand(c: Collection, pixel: map<string, nat>)
    requires Capabilities(c).qaBand in pixel
    ensures ClearPixel(c, pixel) <==> forall k :: k in FlagBits(c) ==> !BitSet(pixel[Capabilities(c).qaBand], k)
  {
    ClearIffFlagsClear(c, pixel[Capabilities(c).qaBand]);
  }
}
