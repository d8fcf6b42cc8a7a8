/** The texture descriptor validator (CheckTexture). */
module Validation {
  import opened Wrappers
  import opened Definitions
  import opened Errors

  /**
   * A CMP_Texture descriptor. `format` is the raw CMP_FORMAT value the caller stored, which
   * may lie outside the enumeration; `data` is the address of the pixel data, 0 for NULL.
   */
  datatype Texture = Texture(
    size: u32,
    width: u32,
    height: u32,
    pitch: u32,
    format: int,
    blockWidth: nat,
    blockHeight: nat,
    blockDepth: nat,
    dataSize: u32,
    data: nat)

  /** `a * b` as a CMP_DWORD product: the result wraps modulo 2^32. */
  function Mul32(a: u32, b: u32): u32 {
    (a * b) % 0x1_0000_0000
  }

  /** The two formats whose pixels are 4 bytes wide and whose pitch is checked. */
  predicate IsFourBytePixel(t: Texture, h: Header) {
    t.format == h.argb8888 || t.format == h.argb2101010
  }

  /** Version tag and dimensions: the checks whose failure is an invalid texture. */
  predicate ShapeOk(t: Texture, h: Header) {
    t.size == h.textureSize && t.width > 0 && t.height > 0
  }

  predicate FormatInRange(t: Texture, h: Header) {
    h.argb8888 <= t.format <= h.formatMax
  }

  /** A pitch of 0 means "computed"; otherwise a 4-byte format needs room for its row. */
  predicate PitchOk(t: Texture, h: Header) {
    !IsFourBytePixel(t, h) || t.pitch == 0 || t.pitch >= Mul32(t.width, 4)
  }

  /** The checks whose failure is an unsupported format. */
  predicate FormatOk(t: Texture, h: Header) {
    FormatInRange(t, h) && PitchOk(t, h)
  }

  /** Data present and at least as large as CMP_CalculateBufferSize says it must be. */
  predicate DataOk(t: Texture, calculateBufferSize: Texture -> nat) {
    t.data != 0 && t.dataSize >= calculateBufferSize(t)
  }

  predicate Acceptable(t: Texture, h: Header, calculateBufferSize: Texture -> nat) {
    ShapeOk(t, h) && FormatOk(t, h) && DataOk(t, calculateBufferSize)
  }

  function InvalidTexture(isSource: bool): CmpError {
    if isSource then InvalidSourceTexture else InvalidDestTexture
  }

  function UnsupportedFormat(isSource: bool): CmpError {
    if isSource then UnsupportedSourceFormat else UnsupportedDestFormat
  }

  /** The errors that name the source texture. */
  predicate IsSourceError(e: CmpError) {
    e == InvalidSourceTexture || e == UnsupportedSourceFormat
  }

  /**
   * CheckTexture. The texture is accepted exactly when every check holds; otherwise the
   * error belongs to the first failing check, so it is an unsupported format exactly when
   * the version tag and dimensions are fine but the format range or pitch rule fails, and
   * it names the source exactly when `isSource`. `calculateBufferSize` is
   * CMP_CalculateBufferSize, which is not part of this model.
   */
  function CheckTexture(texture: Option<Texture>, isSource: bool, h: Header,
                        calculateBufferSize: Texture -> nat): (r: CmpError)
    ensures r == Ok || r == InvalidTexture(isSource) || r == UnsupportedFormat(isSource)
    ensures r == Ok <==> texture.Some? && Acceptable(texture.value, h, calculateBufferSize)
    ensures r == UnsupportedFormat(isSource) <==>
              texture.Some? && ShapeOk(texture.value, h) && !FormatOk(texture.value, h)
    ensures r != Ok ==> (IsSourceError(r) <==> isSource)
  {
    if texture.None? then InvalidTexture(isSource)
    else
      var t := texture.value;
      if t.size != h.textureSize then InvalidTexture(isSource)
      else if t.width <= 0 then InvalidTexture(isSource)
      else if t.height <= 0 then InvalidTexture(isSource)
      else if t.format < h.argb8888 || t.format > h.formatMax then UnsupportedFormat(isSource)
      else if (t.format == h.argb8888 || t.format == h.argb2101010)
              && t.pitch != 0 && t.pitch < Mul32(t.width, 4) then UnsupportedFormat(isSource)
      else if t.data == 0 then InvalidTexture(isSource)
      else if t.dataSize < calculateBufferSize(t) then InvalidTexture(isSource)
      else Ok
  }

  /** A pitch of 0 never makes a texture unsupported: only the format range can. */
  lemma ZeroPitchAccepted(t: Texture, isSource: bool, h: Header, calculateBufferSize: Texture -> nat)
    requires t.pitch == 0
    ensures (CheckTexture(Some(t), isSource, h, calculateBufferSize) == UnsupportedFormat(isSource))
        <==> ShapeOk(t, h) && !FormatInRange(t, h)
  {
  }

  /**
   * While the width is below 2^30 the 32-bit product is exact, so the pitch rule is the
   * plain one: a nonzero pitch of a 4-byte format is at least four bytes per pixel.
   */
  lemma PitchRuleExactBelowWrap(t: Texture, h: Header)
    requires t.width < 0x4000_0000
    ensures PitchOk(t, h) <==> !IsFourBytePixel(t, h) || t.pitch == 0 || t.pitch >= t.width * 4
  {
  }

  /**
   * From a width of 2^30 on, `dwWidth*4` wraps: a 2^30-pixel-wide ARGB_8888 row with a
   * pitch of 4 bytes passes the pitch rule.
   */
  lemma PitchRuleWrapsAtLargeWidth(t: Texture, h: Header)
    requires t.format == h.argb8888 && t.width == 0x4000_0000 && t.pitch == 4
    ensures PitchOk(t, h) && t.pitch < t.width * 4
  {
    assert Mul32(t.width, 4) == 0;
  }
}
