/** The format registry: which codec compresses to a given CMP_FORMAT (GetCodecType). */
module Formats {
  import opened Definitions

  /**
   * The CMP_FORMAT enumerators that GetCodecType names, plus `Unlisted` for every other
   * value of the enumeration (CMP_FORMAT_Unknown, or a value no enumerator denotes).
   */
  datatype Format =
    | ARGB_2101010 | RGBA_8888 | BGRA_8888 | ARGB_8888 | RGB_888 | RG_8 | R_8
    | ARGB_16 | RG_16 | R_16 | ARGB_16F | RG_16F | R_16F
    | ARGB_32F | RG_32F | R_32F | RGBE_32F
    | ARGB_32 | RG_32 | R_32
    | DXT1 | DXT3 | DXT5
    | DXT5_xGBR | DXT5_RxBG | DXT5_RBxG | DXT5_xRBG | DXT5_RGxB | DXT5_xGxR
    | ATI1N | ATI2N | ATI2N_XY | ATI2N_DXT5
    | BC1 | BC2 | BC3 | BC4 | BC5 | BC6H | BC6H_SF | BC7
    | ASTC | ATC_RGB | ATC_RGBA_Explicit | ATC_RGBA_Interpolated
    | ETC_RGB | ETC2_RGB | GT
    | Unlisted(code: int)

  /** CodecType: the codec family a compressed format is produced by. */
  datatype CodecType =
    | CtNone
    | CtDXT1 | CtDXT3 | CtDXT5
    | CtDXT5_xGBR | CtDXT5_RxBG | CtDXT5_RBxG | CtDXT5_xRBG | CtDXT5_RGxB | CtDXT5_xGxR
    | CtATI1N | CtATI2N | CtATI2N_XY | CtATI2N_DXT5
    | CtBC6H | CtBC6H_SF | CtBC7 | CtASTC
    | CtATC_RGB | CtATC_RGBA_Explicit | CtATC_RGBA_Interpolated
    | CtETC_RGB | CtETC2_RGB | CtGT
    | CtUnknown

  /** The uncompressed channel layouts that every build lists. */
  predicate PlainLayout(f: Format) {
    f.ARGB_2101010? || f.RGBA_8888? || f.BGRA_8888? || f.ARGB_8888? || f.RGB_888? ||
    f.RG_8? || f.R_8? || f.ARGB_16? || f.RG_16? || f.R_16? || f.ARGB_16F? || f.RG_16F? ||
    f.R_16F? || f.ARGB_32F? || f.RG_32F? || f.R_32F? || f.RGBE_32F?
  }

  /** The 32-bit integer layouts, listed only when ARGB_32_SUPPORT is defined. */
  predicate Int32Layout(f: Format) {
    f.ARGB_32? || f.RG_32? || f.R_32?
  }

  /** Uncompressed layouts the given build knows about. */
  predicate IsUncompressed(f: Format, build: Build) {
    PlainLayout(f) || (build.argb32Support && Int32Layout(f))
  }

  /** Block-compressed formats (every named enumerator that is not a channel layout). */
  predicate IsBlockFormat(f: Format) {
    !f.Unlisted? && !PlainLayout(f) && !Int32Layout(f)
  }

  /**
   * GetCodecType. Uncompressed layouts have no codec, each block format has its codec
   * family, and anything the switch does not list is unknown.
   */
  function GetCodecType(f: Format, build: Build): (r: CodecType)
    ensures IsUncompressed(f, build) ==> r == CtNone
    ensures IsBlockFormat(f) ==> r != CtNone && r != CtUnknown
  {
    match f
    case ARGB_2101010 => CtNone
    case RGBA_8888 => CtNone
    case BGRA_8888 => CtNone
    case ARGB_8888 => CtNone
    case RGB_888 => CtNone
    case RG_8 => CtNone
    case R_8 => CtNone
    case ARGB_16 => CtNone
    case RG_16 => CtNone
    case R_16 => CtNone
    case ARGB_16F => CtNone
    case RG_16F => CtNone
    case R_16F => CtNone
    case ARGB_32F => CtNone
    case RG_32F => CtNone
    case R_32F => CtNone
    case RGBE_32F => CtNone
    case ARGB_32 => if build.argb32Support then CtNone else CtUnknown
    case RG_32 => if build.argb32Support then CtNone else CtUnknown
    case R_32 => if build.argb32Support then CtNone else CtUnknown
    case DXT1 => CtDXT1
    case DXT3 => CtDXT3
    case DXT5 => CtDXT5
    case DXT5_xGBR => CtDXT5_xGBR
    case DXT5_RxBG => CtDXT5_RxBG
    case DXT5_RBxG => CtDXT5_RBxG
    case DXT5_xRBG => CtDXT5_xRBG
    case DXT5_RGxB => CtDXT5_RGxB
    case DXT5_xGxR => CtDXT5_xGxR
    case ATI1N => CtATI1N
    case ATI2N => CtATI2N
    case ATI2N_XY => CtATI2N_XY
    case ATI2N_DXT5 => CtATI2N_DXT5
    case BC1 => CtDXT1
    case BC2 => CtDXT3
    case BC3 => CtDXT5
    case BC4 => CtATI1N
    case BC5 => CtATI2N_XY
    case BC6H => CtBC6H
    case BC6H_SF => CtBC6H_SF
    case BC7 => CtBC7
    case ASTC => CtASTC
    case ATC_RGB => CtATC_RGB
    case ATC_RGBA_Explicit => CtATC_RGBA_Explicit
    case ATC_RGBA_Interpolated => CtATC_RGBA_Interpolated
    case ETC_RGB => CtETC_RGB
    case ETC2_RGB => CtETC2_RGB
    case GT => CtGT
    case Unlisted(_) => CtUnknown
  }

  /**
   * The registry classifies every format: no codec exactly for the uncompressed layouts of
   * the build, a codec for every block format, unknown for the rest.
   */
  lemma CodecTypeClassifies(f: Format, build: Build)
    ensures GetCodecType(f, build) == CtNone <==> IsUncompressed(f, build)
    ensures GetCodecType(f, build) == CtUnknown <==> !IsUncompressed(f, build) && !IsBlockFormat(f)
  {
  }

  /** BC1 is DXT1: both go to the DXT1 codec. */
  lemma BC1AliasesDXT1(build: Build)
    ensures GetCodecType(BC1, build) == GetCodecType(DXT1, build) == CtDXT1
  {
  }

  /** BC2 is DXT3: both go to the DXT3 codec. */
  lemma BC2AliasesDXT3(build: Build)
    ensures GetCodecType(BC2, build) == GetCodecType(DXT3, build) == CtDXT3
  {
  }

  /** BC3 is DXT5: both go to the DXT5 codec. */
  lemma BC3AliasesDXT5(build: Build)
    ensures GetCodecType(BC3, build) == GetCodecType(DXT5, build) == CtDXT5
  {
  }

  /** BC4 is ATI1N: both go to the ATI1N codec. */
  lemma BC4AliasesATI1N(build: Build)
    ensures GetCodecType(BC4, build) == GetCodecType(ATI1N, build) == CtATI1N
  {
  }

  /** BC5 is ATI2N_XY: both go to the ATI2N_XY codec. */
  lemma BC5AliasesATI2NXY(build: Build)
    ensures GetCodecType(BC5, build) == GetCodecType(ATI2N_XY, build) == CtATI2N_XY
  {
  }

  /** Every codec type, including "no codec", is the image of some format: the registry is onto. */
  lemma EveryCodecTypeReached(c: CodecType, build: Build)
    ensures exists f :: GetCodecType(f, build) == c
  {
    var f := match c
      case CtNone => ARGB_8888
      case CtDXT1 => DXT1
      case CtDXT3 => DXT3
      case CtDXT5 => DXT5
      case CtDXT5_xGBR => DXT5_xGBR
      case CtDXT5_RxBG => DXT5_RxBG
      case CtDXT5_RBxG => DXT5_RBxG
      case CtDXT5_xRBG => DXT5_xRBG
      case CtDXT5_RGxB => DXT5_RGxB
      case CtDXT5_xGxR => DXT5_xGxR
      case CtATI1N => ATI1N
      case CtATI2N => ATI2N
      case CtATI2N_XY => ATI2N_XY
      case CtATI2N_DXT5 => ATI2N_DXT5
      case CtBC6H => BC6H
      case CtBC6H_SF => BC6H_SF
      case CtBC7 => BC7
      case CtASTC => ASTC
      case CtATC_RGB => ATC_RGB
      case CtATC_RGBA_Explicit => ATC_RGBA_Explicit
      case CtATC_RGBA_Interpolated => ATC_RGBA_Interpolated
      case CtETC_RGB => ETC_RGB
      case CtETC2_RGB => ETC2_RGB
      case CtGT => GT
      case CtUnknown => Unlisted(0);
    assert GetCodecType(f, build) == c;
  }
}
