/** Buffer sizing and the still image layout: the 24-bit preview buffer whose
    rows are padded to a 4-byte boundary, and the still buffer of w*h*3
    bytes reshaped to a (height, width, 3) array. */
module Buffers {
  import opened PyValues

  /** Bytes per preview row: `((w * 24 + 31) // 32) * 4`. */
  function PreviewStride(w: nat): nat {
    (w * 24 + 31) / 32 * 4
  }

  /** `bytes(stride) * height`: the preview buffer's length. */
  function PreviewBufferLength(w: nat, h: nat): nat {
    PreviewStride(w) * h
  }

  /** A preview row is a whole number of 4-byte words, holds the 3*w bytes
      of its pixels, and carries fewer than 4 bytes of padding. */
  lemma PreviewStrideBounds(w: nat)
    ensures PreviewStride(w) % 4 == 0
    ensures 3 * w <= PreviewStride(w) < 3 * w + 4
  {
    var n := w * 24 + 31;
    var q := n / 32;
    assert n == 32 * q + n % 32;
    assert 24 * w <= 32 * q < 24 * w + 32;
    assert PreviewStride(w) == 4 * q;
  }

  /** A row carries no padding exactly when the width is a multiple of 4. */
  lemma PreviewStrideUnpadded(w: nat)
    ensures PreviewStride(w) == 3 * w <==> w % 4 == 0
  {
    PreviewStrideBounds(w);
    var q := (w * 24 + 31) / 32;
    assert PreviewStride(w) == 4 * q;
    if w % 4 == 0 {
      var k := w / 4;
      assert w * 24 + 31 == 32 * (3 * k) + 31;
      assert q == 3 * k;
    }
  }

  /** The preview buffer is a whole number of words, holds the 3*w*h bytes
      of a frame and at most 3 padding bytes per row. */
  lemma PreviewBufferHoldsFrame(w: nat, h: nat)
    ensures PreviewBufferLength(w, h) % 4 == 0
    ensures 3 * w * h <= PreviewBufferLength(w, h) <= 3 * w * h + 3 * h
  {
    PreviewStrideBounds(w);
    var s := PreviewStride(w);
    WordsTimes(s / 4, h);
    assert s == 4 * (s / 4);
    MulMono(3 * w, s, h);
    MulMono(s, 3 * w + 3, h);
    assert (3 * w + 3) * h == 3 * w * h + 3 * h;
  }

  lemma WordsTimes(q: nat, h: nat)
    ensures (4 * q * h) % 4 == 0 && 4 * q * h == 4 * (q * h)
  {
    var t := q * h;
    assert 4 * q * h == 4 * t;
    assert (4 * t) % 4 == 0;
  }

  /** `bytes(n)`: n zero bytes. */
  function Zeros(n: nat): (z: seq<Byte>)
    ensures |z| == n
    ensures forall i :: 0 <= i < n ==> z[i] == 0
  {
    seq(n, _ => 0)
  }

  /** The SDK writing `src` into the buffer `dst`: the buffer keeps its
      length, the delivered bytes land at its front. */
  function Fill(dst: seq<Byte>, src: seq<Byte>): (r: seq<Byte>)
    ensures |r| == |dst|
    ensures forall i :: 0 <= i < |dst| && i < |src| ==> r[i] == src[i]
    ensures forall i :: |src| <= i < |dst| ==> r[i] == dst[i]
  {
    seq(|dst|, i requires 0 <= i < |dst| => if i < |src| then src[i] else dst[i])
  }

  /** `camWidth * camHeight * 3`. */
  function StillBufferSize(w: nat, h: nat): nat {
    w * h * 3
  }

  /** A numpy array of shape (height, width, 3) with dtype uint8. */
  datatype Image = Image(height: nat, width: nat, px: seq<seq<seq<Byte>>>) {
    predicate WellFormed() {
      && |px| == height
      && (forall r :: 0 <= r < height ==> |px[r]| == width)
      && (forall r, c :: 0 <= r < height && 0 <= c < width ==> |px[r][c]| == 3)
    }
  }

  type Frame = img: Image | img.WellFormed() witness Image(0, 0, [])

  /** Where `reshape((h, w, 3))` takes pixel (r, c), channel ch from. */
  function Offset(w: nat, r: nat, c: nat, ch: nat): nat {
    (r * w + c) * 3 + ch
  }

  lemma OffsetInBounds(h: nat, w: nat, r: nat, c: nat, ch: nat)
    requires r < h && c < w && ch < 3
    ensures Offset(w, r, c, ch) < StillBufferSize(w, h)
  {
    assert r * w + c < (r + 1) * w <= h * w;
    assert (r * w + c) * 3 + ch < (r * w + c + 1) * 3 <= h * w * 3;
  }

  lemma MulMono(a: nat, b: nat, w: nat)
    ensures a <= b ==> a * w <= b * w
  {
    if a <= b {
      assert b * w == a * w + (b - a) * w;
    }
  }

  lemma MulZero(h: nat, w: nat)
    ensures w == 0 ==> h * w == 0
  {
  }

  /** Distinct pixels and channels use distinct bytes. */
  lemma OffsetInjective(w: nat, r1: nat, c1: nat, ch1: nat, r2: nat, c2: nat, ch2: nat)
    requires c1 < w && c2 < w && ch1 < 3 && ch2 < 3
    requires Offset(w, r1, c1, ch1) == Offset(w, r2, c2, ch2)
    ensures r1 == r2 && c1 == c2 && ch1 == ch2
  {
    var p1, p2 := r1 * w + c1, r2 * w + c2;
    assert p1 * 3 + ch1 == p2 * 3 + ch2;
    assert ch1 == ch2 && p1 == p2;
    MulMono(r1 + 1, r2, w);
    MulMono(r2 + 1, r1, w);
    assert (r1 + 1) * w == r1 * w + w && (r2 + 1) * w == r2 * w + w;
  }

  /** Every byte of the still buffer is some pixel's channel. */
  lemma OffsetOnto(h: nat, w: nat, i: nat)
    requires i < StillBufferSize(w, h)
    ensures w > 0
    ensures i / 3 / w < h && i / 3 % w < w && i % 3 < 3
    ensures Offset(w, i / 3 / w, i / 3 % w, i % 3) == i
  {
    var p := i / 3;
    assert i == p * 3 + i % 3;
    assert p * 3 < (h * w) * 3;
    MulZero(h, w);
    assert w > 0;
    assert p == p / w * w + p % w;
    MulMono(h, p / w, w);
  }

  /** The three channels of pixel (r, c) in a reshaped still buffer. */
  function PixelAt(buf: seq<Byte>, h: nat, w: nat, r: nat, c: nat): (p: seq<Byte>)
    requires |buf| == StillBufferSize(w, h) && r < h && c < w
    ensures |p| == 3
    ensures forall ch :: 0 <= ch < 3 ==> Offset(w, r, c, ch) < |buf| && p[ch] == buf[Offset(w, r, c, ch)]
  {
    OffsetInBounds(h, w, r, c, 0);
    OffsetInBounds(h, w, r, c, 1);
    OffsetInBounds(h, w, r, c, 2);
    [buf[Offset(w, r, c, 0)], buf[Offset(w, r, c, 1)], buf[Offset(w, r, c, 2)]]
  }

  function RowAt(buf: seq<Byte>, h: nat, w: nat, r: nat): (row: seq<seq<Byte>>)
    requires |buf| == StillBufferSize(w, h) && r < h
    ensures |row| == w
    ensures forall c :: 0 <= c < w ==> row[c] == PixelAt(buf, h, w, r, c)
  {
    seq(w, c requires 0 <= c < w => PixelAt(buf, h, w, r, c))
  }

  /** `np.frombuffer(buf, np.uint8).reshape((h, w, 3))`. */
  function Reshape(buf: seq<Byte>, h: nat, w: nat): (img: Frame)
    requires |buf| == StillBufferSize(w, h)
    ensures img.height == h && img.width == w
    ensures forall r, c :: 0 <= r < h && 0 <= c < w ==> img.px[r][c] == PixelAt(buf, h, w, r, c)
  {
    Image(h, w, seq(h, r requires 0 <= r < h => RowAt(buf, h, w, r)))
  }

  /** Reshaping loses no byte: byte i is pixel (i/3/w, i/3%w), channel i%3. */
  lemma ReshapeKeepsEveryByte(buf: seq<Byte>, h: nat, w: nat, i: nat)
    requires |buf| == StillBufferSize(w, h) && i < |buf|
    ensures w > 0 && i / 3 / w < h
    ensures Reshape(buf, h, w).px[i / 3 / w][i / 3 % w][i % 3] == buf[i]
  {
    OffsetOnto(h, w, i);
    var img := Reshape(buf, h, w);
    assert img.px[i / 3 / w][i / 3 % w] == PixelAt(buf, h, w, i / 3 / w, i / 3 % w);
  }
}
