// Integer helpers shared by all phases (src/phase.cpp): the bit-length
// count `logBase2`, the little-endian reads of the 4-byte texels, the 24-bit
// sign-magnitude decode of `printSignedLabels`, the label decode of
// `printLabels` and the false-colour map of `writeTgaImage`.
module Phase {

  type Byte = x: int | 0 <= x < 256

  function Pow2(k: nat): (r: nat)
    ensures r >= 1
  {
    if k == 0 then 1 else 2 * Pow2(k - 1)
  }

  /** The number of binary digits of n, and 0 when n is not positive. */
  function BitLength(n: int): (r: nat)
    ensures n <= 0 ==> r == 0
    ensures n >= 1 ==> r >= 1 && Pow2(r - 1) <= n < Pow2(r)
    decreases n
  {
    if n < 1 then 0 else 1 + BitLength(n / 2)
  }

  /** `logBase2`: counts the right shifts that bring n below 1. */
  method LogBase2(n: int) returns (ret: nat)
    ensures ret == BitLength(n)
  {
    ret := 0;
    var m := n;
    while m >= 1
      invariant ret + BitLength(m) == BitLength(n)
      decreases m
    {
      ret := ret + 1;
      m := m / 2;  // m >> 1 for a positive m
    }
  }

  /** `logBase2` of a power of two 2^k is k + 1, not k. */
  lemma {:induction false} BitLengthOfPow2(k: nat)
    ensures BitLength(Pow2(k)) == k + 1
  {
    if k > 0 {
      assert Pow2(k) / 2 == Pow2(k - 1);
      BitLengthOfPow2(k - 1);
    }
  }

  lemma {:induction false} BitLengthMonotone(a: int, b: int)
    requires a <= b
    ensures BitLength(a) <= BitLength(b)
    decreases b
  {
    if a >= 1 {
      BitLengthMonotone(a / 2, b / 2);
    }
  }

  lemma {:induction false} Pow2Monotone(i: nat, j: nat)
    requires i <= j
    ensures Pow2(i) <= Pow2(j)
    decreases j
  {
    if i < j {
      Pow2Monotone(i, j - 1);
    }
  }

  lemma Pow2Add(i: nat, j: nat)
    ensures Pow2(i + j) == Pow2(i) * Pow2(j)
    decreases i
  {
    if i > 0 {
      Pow2Add(i - 1, j);
    }
  }

  // Little-endian reads of the byte buffers that glReadPixels fills.

  function U16(b0: Byte, b1: Byte): (r: nat)
    ensures r < 0x1_0000
  {
    b0 + 0x100 * b1
  }

  function U16At(s: seq<Byte>, i: nat): (r: nat)
    requires i + 2 <= |s|
    ensures r < 0x1_0000
  {
    U16(s[i], s[i + 1])
  }

  function U32At(s: seq<Byte>, i: nat): (r: nat)
    requires i + 4 <= |s|
    ensures r < 0x1_0000_0000
  {
    U16At(s, i) + 0x1_0000 * U16At(s, i + 2)
  }

  /**
   * The decode of `printSignedLabels`: a word with a bit of its top byte set
   * stands for minus its low 24 bits; any other word stands for itself.
   */
  function SignDecode(w: nat): (r: int)
    requires w < 0x1_0000_0000
    ensures -0x100_0000 < r < 0x100_0000
    ensures w / 0x100_0000 != 0 ==> r == -(w % 0x100_0000) && r <= 0
    ensures w / 0x100_0000 == 0 ==> r == w && r >= 0
  {
    if w / 0x100_0000 != 0 then -(w % 0x100_0000) else w
  }

  /** On the bytes of a texel: the sign is the top byte, the magnitude the other three. */
  lemma SignDecodeAt(s: seq<Byte>, i: nat)
    requires i + 4 <= |s|
    ensures SignDecode(U32At(s, i)) ==
            var m := s[i] as int + 0x100 * s[i + 1] as int + 0x1_0000 * s[i + 2] as int;
            if s[i + 3] != 0 then -m else m
  {
    var m := s[i] as int + 0x100 * s[i + 1] as int + 0x1_0000 * s[i + 2] as int;
    assert U32At(s, i) == m + 0x100_0000 * s[i + 3] as int;
    assert 0 <= m < 0x100_0000;
    assert U32At(s, i) / 0x100_0000 == s[i + 3];
    assert U32At(s, i) % 0x100_0000 == m;
  }

  /** A sign-magnitude word with top byte 0xFF for negatives decodes back to its value. */
  function SignMagnitude(v: int): (w: nat)
    requires -0x100_0000 < v < 0x100_0000
    ensures w < 0x1_0000_0000
  {
    if v < 0 then 0xFF00_0000 - v else v
  }

  lemma SignDecodeOfSignMagnitude(v: int)
    requires -0x100_0000 < v < 0x100_0000
    ensures SignDecode(SignMagnitude(v)) == v
  {
    if v < 0 {
      var w := SignMagnitude(v);
      assert w == 0xFF * 0x100_0000 + (-v);
      assert w / 0x100_0000 == 0xFF;
      assert w % 0x100_0000 == -v;
    }
  }

  /** Byte offset of texel (row i, column j) in a buffer of the given width. */
  function TexelOffset(width: nat, i: nat, j: nat): nat
  {
    4 * (i * width + j)
  }

  /** Every texel of a width-by-height image lies inside its 4*width*height bytes. */
  lemma TexelInside(width: nat, height: nat, i: nat, j: nat)
    requires i < height && j < width
    ensures i * width + j < width * height
    ensures TexelOffset(width, i, j) + 4 <= 4 * (width * height)
  {
    if i + 1 < height {
      RowStep(width, i, i + 1);
      RowStep(width, i + 1, height);
    } else {
      assert (i + 1) * width == i * width + width;
    }
  }

  lemma RowEnd(width: nat, height: nat, i: nat)
    requires i < height
    ensures i * width + width <= width * height
    ensures (i + 1) * width == i * width + width
  {
    if i + 1 < height {
      RowStep(width, i + 1, height);
    }
    assert (i + 1) * width == i * width + width;
  }

  lemma RowStep(width: nat, i: nat, i': nat)
    requires i < i'
    ensures i * width + width <= i' * width
    decreases i'
  {
    assert i' * width == (i' - 1) * width + width;
    if i + 1 < i' {
      RowStep(width, i, i' - 1);
    }
  }

  /** Row-major texels give distinct offsets, one per 4-byte step. */
  lemma TexelOffsetInjective(width: nat, i: nat, j: nat, i': nat, j': nat)
    requires j < width && j' < width
    requires TexelOffset(width, i, j) == TexelOffset(width, i', j')
    ensures i == i' && j == j'
  {
    assert i * width + j == i' * width + j';
    if i < i' {
      RowStep(width, i, i');
    } else if i' < i {
      RowStep(width, i', i);
    }
  }

  /** The label pair printed for texel k: its two ushorts. */
  function LabelPair(s: seq<Byte>, k: nat): (p: (nat, nat))
    requires 4 * k + 4 <= |s|
    ensures p.0 < 0x1_0000 && p.1 < 0x1_0000
    ensures U32At(s, 4 * k) == p.0 + 0x1_0000 * p.1
  {
    (U16At(s, 4 * k), U16At(s, 4 * k + 2))
  }

  /**
   * `printLabels`: decodes every texel of the image, row by row, into the
   * pair of ushorts it prints (the printing itself is left out).
   */
  method PrintLabels(width: nat, height: nat, pixels: array<Byte>) returns (printed: seq<(nat, nat)>)
    requires 4 * (width * height) <= pixels.Length
    ensures |printed| == width * height
    ensures forall k :: 0 <= k < |printed| ==> printed[k] == LabelPair(pixels[..], k)
  {
    printed := [];
    var i := 0;
    while i < height
      invariant 0 <= i <= height
      invariant |printed| == i * width <= width * height
      invariant forall k :: 0 <= k < |printed| ==> printed[k] == LabelPair(pixels[..], k)
    {
      RowEnd(width, height, i);
      var row := i * width;
      var j := 0;
      while j < width
        invariant 0 <= j <= width
        invariant |printed| == row + j && row + width <= width * height
        invariant forall k :: 0 <= k < |printed| ==> printed[k] == LabelPair(pixels[..], k)
      {
        var index := 4 * (row + j);
        printed := printed + [(pixels[index] as int + 0x100 * pixels[index + 1] as int,
                               pixels[index + 2] as int + 0x100 * pixels[index + 3] as int)];
        j := j + 1;
      }
      i := i + 1;
    }
  }

  /** `printSignedLabels`: decodes every texel as a 24-bit sign-magnitude value. */
  method PrintSignedLabels(width: nat, height: nat, pixels: array<Byte>) returns (printed: seq<int>)
    requires 4 * (width * height) <= pixels.Length
    ensures |printed| == width * height
    ensures forall k :: 0 <= k < |printed| ==> printed[k] == SignDecode(U32At(pixels[..], 4 * k))
  {
    printed := [];
    var i := 0;
    while i < height
      invariant 0 <= i <= height
      invariant |printed| == i * width <= width * height
      invariant forall k :: 0 <= k < |printed| ==> printed[k] == SignDecode(U32At(pixels[..], 4 * k))
    {
      RowEnd(width, height, i);
      var row := i * width;
      var j := 0;
      while j < width
        invariant 0 <= j <= width
        invariant |printed| == row + j && row + width <= width * height
        invariant forall k :: 0 <= k < |printed| ==> printed[k] == SignDecode(U32At(pixels[..], 4 * k))
      {
        var index := 4 * (row + j);
        var val1: int := U32At(pixels[..], index);
        var sVal1: int;
        if val1 / 0x100_0000 != 0 {
          val1 := val1 % 0x100_0000;
          sVal1 := -val1;
        } else {
          sVal1 := val1;
        }
        printed := printed + [sVal1];
        j := j + 1;
      }
      i := i + 1;
    }
  }

  /** The false colour `writeTgaImage` gives one texel p0, p1, p2, p3. */
  function FalseColour(p0: Byte, p1: Byte, p2: Byte, p3: Byte): (c: seq<Byte>)
    ensures |c| == 4 && c[3] == 255
  {
    if U32At([p0, p1, p2, p3], 0) == 0 then [0, 0, 0, 255]
    else [((5 * p0 + 7 * p1 + 1) * (p2 + p3 + 1)) % 256,
          ((3 * p2 + 2 * p1 + 1) * (p0 + p3 + 1)) % 256,
          (p0 + p1 + p2 + p3) % 256,
          255]
  }

  /** The unsigned word test of the map is zero exactly for the all-zero texel. */
  lemma FalseColourOfBackground(p0: Byte, p1: Byte, p2: Byte, p3: Byte)
    ensures FalseColour(p0, p1, p2, p3) == [0, 0, 0, 255] <== (p0 == p1 == p2 == p3 == 0)
    ensures (U32At([p0, p1, p2, p3], 0) == 0) <==> (p0 == p1 == p2 == p3 == 0)
  {
  }

  /** A texel with a nonzero byte is coloured by the three fixed formulas. */
  lemma FalseColourOfForeground(p0: Byte, p1: Byte, p2: Byte, p3: Byte)
    requires p0 != 0 || p1 != 0 || p2 != 0 || p3 != 0
    ensures FalseColour(p0, p1, p2, p3)[2] == (p0 + p1 + p2 + p3) % 256
    ensures FalseColour(p0, p1, p2, p3)[0] == ((5 * p0 + 7 * p1 + 1) * (p2 + p3 + 1)) % 256
    ensures FalseColour(p0, p1, p2, p3)[1] == ((3 * p2 + 2 * p1 + 1) * (p0 + p3 + 1)) % 256
  {
  }

  /** Channel c of the false colour of texel k of the bytes s. */
  function TexelColour(s: seq<Byte>, k: nat, c: nat): Byte
    requires 4 * k + 4 <= |s| && c < 4
  {
    FalseColour(s[4 * k], s[4 * k + 1], s[4 * k + 2], s[4 * k + 3])[c]
  }

  /**
   * The colour loop of `writeTgaImage`: a new 4*width*height buffer whose
   * every texel is the false colour of the matching input texel.
   */
  method FalseColourImage(width: nat, height: nat, pixels: array<Byte>) returns (img: array<Byte>)
    requires 4 * (width * height) <= pixels.Length
    ensures fresh(img) && img.Length == 4 * (width * height)
    ensures forall k, c :: 0 <= k < width * height && 0 <= c < 4 ==>
              img[4 * k + c] == TexelColour(pixels[..], k, c)
  {
    var n := width * height;
    img := new Byte[4 * n];
    ghost var src := pixels[..];
    var t := 0;
    while t < n
      invariant 0 <= t <= n && pixels[..] == src
      invariant Painted(img[..], src, t)
    {
      PaintTexel(img, pixels, src, t);
      t := t + 1;
    }
  }

  /** The first t texels of the bytes out are the false colours of those of src. */
  ghost predicate Painted(out: seq<Byte>, src: seq<Byte>, t: nat)
  {
    4 * t <= |out| && 4 * t <= |src| &&
    forall k, c :: 0 <= k < t && 0 <= c < 4 ==> out[4 * k + c] == TexelColour(src, k, c)
  }

  /** Colours texel t of img from texel t of pixels, extending the painted prefix. */
  method PaintTexel(img: array<Byte>, pixels: array<Byte>, ghost src: seq<Byte>, t: nat)
    requires img != pixels && src == pixels[..] && 4 * t + 4 <= img.Length && 4 * t + 4 <= |src|
    requires Painted(img[..], src, t)
    modifies img
    ensures Painted(img[..], src, t + 1)
  {
    var i := 4 * t;
    var colour := FalseColour(pixels[i], pixels[i + 1], pixels[i + 2], pixels[i + 3]);
    assert forall c :: 0 <= c < 4 ==> colour[c] == TexelColour(src, t, c);
    StoreTexel(img, i, colour);
    forall k, c | 0 <= k < t + 1 && 0 <= c < 4
      ensures img[..][4 * k + c] == TexelColour(src, k, c)
    {
      if k < t {
        assert 4 * k + c < i;
      }
    }
  }

  /** Writes the 4 channels of one texel at byte offset i and nothing else. */
  method StoreTexel(img: array<Byte>, i: nat, colour: seq<Byte>)
    requires |colour| == 4 && i + 4 <= img.Length
    modifies img
    ensures forall c :: 0 <= c < 4 ==> img[i + c] == colour[c]
    ensures forall q :: 0 <= q < img.Length && !(i <= q < i + 4) ==> img[q] == old(img[q])
  {
    img[i] := colour[0];
    img[i + 1] := colour[1];
    img[i + 2] := colour[2];
    img[i + 3] := colour[3];
  }
}
