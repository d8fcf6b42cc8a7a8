/**
 * Values the dispatcher reads from its headers (Compressonator.h, Compress.h),
 * which are not part of this model, and the two build switches it tests.
 */
module Definitions {

  /** A CMP_DWORD: an unsigned 32-bit integer. */
  type u32 = x: int | 0 <= x < 0x1_0000_0000

  /** The constants the dispatcher compares against, kept symbolic. */
  datatype Header = Header(
    textureSize: nat,       // sizeof(CMP_Texture), the version tag of a texture descriptor
    optionsSize: nat,       // sizeof(CMP_CompressOptions), the version tag of an options record
    argb8888: int,          // the enumeration value CMP_FORMAT_ARGB_8888 (first valid format)
    argb2101010: int,       // the enumeration value CMP_FORMAT_ARGB_2101010
    formatMax: int,         // the enumeration value CMP_FORMAT_MAX (last valid format)
    maxCmds: nat,           // AMD_MAX_CMDS, the capacity of the free-form command list
    maxThreads: nat,        // MAX_THREADS, the capacity of the worker tables
    minimumWeight: real,    // MINIMUM_WEIGHT_VALUE, the floor of a channel weight
    qualityDefault: real    // AMD_CODEC_QUALITY_DEFAULT, the "use the speed enum" sentinel
  )

  /** The preprocessor switches that change behaviour: `_WIN64` and `ARGB_32_SUPPORT`. */
  datatype Build = Build(win64: bool, argb32Support: bool)

  function Min(a: int, b: int): (m: int)
    ensures m <= a && m <= b && (m == a || m == b)
  {
    if a < b then a else b
  }

  /**
   * Regrouping a concatenation. Stated once, by itself, so that a method whose context
   * holds many facts about sequences does not have to rediscover it.
   */
  lemma AppendRegroup<T>(a: seq<T>, b: seq<T>, c: seq<T>)
    ensures a + (b + c) == a + b + c
  {
  }
}
