/**
 * Option translation: the SetParameter calls CompressTexture and ThreadedCompressTexture
 * make on a codec before compressing.
 */
module Options {
  import opened Wrappers
  import opened Definitions
  import opened Formats

  /** CMP_Speed. */
  datatype Speed = Normal | Fast | SuperFast

  /** A value handed to SetParameter: a CMP_DWORD, a CODECFLOAT, a speed enumerator or a string. */
  datatype Value = Dword(n: nat) | Float(x: real) | SpeedCode(speed: Speed) | Text(s: string)

  /** One SetParameter call, as recorded by the codec. */
  datatype Param = Param(name: string, value: Value)

  /** One entry of the free-form command list (AMD_CMD_SET). */
  datatype Cmd = Cmd(command: string, parameter: string)

  /** CMP_CompressOptions, the fields this part of the library reads. */
  datatype CompressOptions = CompressOptions(
    size: nat,
    useChannelWeighting: bool,
    weightRed: real,
    weightGreen: real,
    weightBlue: real,
    useAdaptiveWeighting: bool,
    dxt1UseAlpha: bool,
    alphaThreshold: nat,
    quality: real,
    compressionSpeed: Speed,
    disableMultiThreading: bool,
    numThreads: u32,
    modeMask: u32,
    restrictColour: bool,
    restrictAlpha: bool,
    numCmds: int,
    cmdSet: seq<Cmd>)

  /**
   * A codec instance as option translation sees it: every SetParameter call is appended
   * to `params`. How a codec interprets a parameter is not part of this model.
   */
  class Codec {
    var params: seq<Param>

    constructor ()
      ensures params == []
    {
      params := [];
    }

    method SetParameter(name: string, value: Value)
      modifies this
      ensures params == old(params) + [Param(name, value)]
    {
      params := params + [Param(name, value)];
    }
  }

  /** The command list is a fixed array of AMD_MAX_CMDS entries. */
  predicate Shaped(options: Option<CompressOptions>, h: Header) {
    options.Some? ==> |options.value.cmdSet| == h.maxCmds
  }

  /** Options are read only when present and tagged with the current structure size. */
  predicate Usable(options: Option<CompressOptions>, h: Header) {
    options.Some? && options.value.size == h.optionsSize
  }

  /** A CMP_BOOL passed as a CMP_DWORD. */
  function Flag(b: bool): (v: Value)
    ensures v.Dword? && v.n <= 1 && (v.n == 1 <==> b)
  {
    Dword(if b then 1 else 0)
  }

  /** Channel weights are sent only when weighting is on and some weight is positive. */
  predicate WeightingEnabled(o: CompressOptions) {
    o.useChannelWeighting && (o.weightRed > 0.0 || o.weightGreen > 0.0 || o.weightBlue > 0.0)
  }

  /** The weight sent for one channel: the weight itself above MINIMUM_WEIGHT_VALUE, else the minimum. */
  function ClampWeight(w: real, h: Header): (r: real)
    ensures r >= h.minimumWeight
    ensures w > h.minimumWeight ==> r == w
    ensures w <= h.minimumWeight ==> r == h.minimumWeight
  {
    if w > h.minimumWeight then w else h.minimumWeight
  }

  /**
   * The CompressionSpeed sent. Away from the default quality, the quality picks the tier
   * (below 0.3 SuperFast, below 0.6 Fast, else Normal) when the build has the fast tiers and
   * is always Normal when it does not; at the default quality the caller's speed is kept.
   */
  function ResolvedSpeed(o: CompressOptions, h: Header, fastTiers: bool): (s: Speed)
    ensures o.quality == h.qualityDefault ==> s == o.compressionSpeed
    ensures o.quality != h.qualityDefault && !fastTiers ==> s == Normal
    ensures o.quality != h.qualityDefault && fastTiers ==>
              (s == SuperFast <==> o.quality < 0.3) &&
              (s == Fast <==> 0.3 <= o.quality < 0.6) &&
              (s == Normal <==> o.quality >= 0.6)
  {
    if o.quality != h.qualityDefault then
      if fastTiers && o.quality < 0.3 then SuperFast
      else if fastTiers && o.quality < 0.6 then Fast
      else Normal
    else o.compressionSpeed
  }

  function WeightParams(o: CompressOptions, h: Header): seq<Param> {
    if WeightingEnabled(o) then
      [Param("UseChannelWeighting", Dword(1)),
       Param("WeightR", Float(ClampWeight(o.weightRed, h))),
       Param("WeightG", Float(ClampWeight(o.weightGreen, h))),
       Param("WeightB", Float(ClampWeight(o.weightBlue, h)))]
    else []
  }

  /** The parameters sent after the weights, speed last. */
  function FixedParams(o: CompressOptions, h: Header, fastTiers: bool): seq<Param> {
    [Param("UseAdaptiveWeighting", Flag(o.useAdaptiveWeighting)),
     Param("DXT1UseAlpha", Flag(o.dxt1UseAlpha)),
     Param("AlphaThreshold", Dword(o.alphaThreshold)),
     Param("CompressionSpeed", SpeedCode(ResolvedSpeed(o, h, fastTiers)))]
  }

  /** The typed parameters both paths send, weights first and speed last. */
  function CommonParams(o: CompressOptions, h: Header, fastTiers: bool): seq<Param> {
    WeightParams(o, h) + FixedParams(o, h, fastTiers)
  }

  /** The codecs that get per-codec parameters on the sequential path. */
  predicate HasExtras(destType: CodecType) {
    destType == CtBC7 || destType == CtASTC || destType == CtGT ||
    destType == CtBC6H || destType == CtBC6H_SF
  }

  /**
   * The per-codec parameters of the sequential path: BC7 gets its threading and mode
   * settings, and the five codecs that get anything get the quality last.
   */
  function CodecExtras(o: CompressOptions, destType: CodecType): (r: seq<Param>)
    ensures |r| > 0 <==> HasExtras(destType)
    ensures |r| > 0 ==> r[|r| - 1] == Param("Quality", Float(o.quality))
    ensures destType != CtBC7 ==> |r| <= 1
    ensures destType == CtBC7 ==>
              |r| == 6 &&
              r[0] == Param("MultiThreading", Flag(!o.disableMultiThreading)) &&
              r[1] == Param("NumThreads", Dword(if o.disableMultiThreading then 1 else o.numThreads)) &&
              r[2] == Param("ModeMask", Dword(o.modeMask)) &&
              r[3] == Param("ColourRestrict", Flag(o.restrictColour)) &&
              r[4] == Param("AlphaRestrict", Flag(o.restrictAlpha))
  {
    match destType
    case CtBC7 =>
      [Param("MultiThreading", Flag(!o.disableMultiThreading)),
       Param("NumThreads", if !o.disableMultiThreading then Dword(o.numThreads) else Dword(1)),
       Param("ModeMask", Dword(o.modeMask)),
       Param("ColourRestrict", Flag(o.restrictColour)),
       Param("AlphaRestrict", Flag(o.restrictAlpha)),
       Param("Quality", Float(o.quality))]
    case CtASTC => [Param("Quality", Float(o.quality))]
    case CtGT => [Param("Quality", Float(o.quality))]
    case CtBC6H => [Param("Quality", Float(o.quality))]
    case CtBC6H_SF => [Param("Quality", Float(o.quality))]
    case _ => []
  }

  /** How many free-form commands are sent: NumCmds, capped at AMD_MAX_CMDS, none if not positive. */
  function CommandCount(o: CompressOptions, h: Header): (n: nat)
    ensures n <= h.maxCmds
    ensures o.numCmds <= 0 ==> n == 0
    ensures o.numCmds > 0 ==> n == Min(o.numCmds, h.maxCmds)
  {
    if o.numCmds > 0 then Min(o.numCmds, h.maxCmds) else 0
  }

  function CommandParam(c: Cmd): Param {
    Param(c.command, Text(c.parameter))
  }

  /** The commands sent, in index order. */
  function CommandParams(o: CompressOptions, h: Header): seq<Param>
    requires |o.cmdSet| == h.maxCmds
  {
    seq(CommandCount(o, h), i requires 0 <= i < CommandCount(o, h) => CommandParam(o.cmdSet[i]))
  }

  /** The parameter log of CompressTexture (lines 157-229). */
  function SequentialParams(options: Option<CompressOptions>, destType: CodecType, h: Header,
                            build: Build): (r: seq<Param>)
    requires Shaped(options, h)
    ensures r == [] <==> !Usable(options, h)
    ensures Usable(options, h) ==>
              |r| == |WeightParams(options.value, h)| + 4 + |CodecExtras(options.value, destType)| +
                     CommandCount(options.value, h)
  {
    if !Usable(options, h) then []
    else
      var o := options.value;
      CommonParams(o, h, !build.win64) + CodecExtras(o, destType) + CommandParams(o, h)
  }

  /** The parameter log of every worker's codec in ThreadedCompressTexture (lines 329-381). */
  function ThreadedParams(options: Option<CompressOptions>, h: Header): (r: seq<Param>)
    requires Shaped(options, h)
    ensures r == [] <==> !Usable(options, h)
  {
    if !Usable(options, h) then []
    else
      var o := options.value;
      CommonParams(o, h, true) + CommandParams(o, h)
  }

  // ---------------------------------------------------------------------------------
  // The SetParameter sequences.

  /** Lines 160-172 (and 332-344): the channel weights. */
  method SetWeights(codec: Codec, o: CompressOptions, h: Header)
    modifies codec
    ensures codec.params == old(codec.params) + WeightParams(o, h)
  {
    if o.useChannelWeighting && (o.weightRed > 0.0 || o.weightGreen > 0.0 || o.weightBlue > 0.0) {
      codec.SetParameter("UseChannelWeighting", Dword(1));
      codec.SetParameter("WeightR", Float(if o.weightRed > h.minimumWeight then o.weightRed else h.minimumWeight));
      codec.SetParameter("WeightG", Float(if o.weightGreen > h.minimumWeight then o.weightGreen else h.minimumWeight));
      codec.SetParameter("WeightB", Float(if o.weightBlue > h.minimumWeight then o.weightBlue else h.minimumWeight));
    }
  }

  /** Lines 177-190 (and 350-361): the compression speed. */
  method SetSpeed(codec: Codec, o: CompressOptions, h: Header, fastTiers: bool)
    modifies codec
    ensures codec.params == old(codec.params) + [Param("CompressionSpeed", SpeedCode(ResolvedSpeed(o, h, fastTiers)))]
  {
    if o.quality != h.qualityDefault {
      if fastTiers && o.quality < 0.3 {
        codec.SetParameter("CompressionSpeed", SpeedCode(SuperFast));
      } else if fastTiers && o.quality < 0.6 {
        codec.SetParameter("CompressionSpeed", SpeedCode(Fast));
      } else {
        codec.SetParameter("CompressionSpeed", SpeedCode(Normal));
      }
    } else {
      codec.SetParameter("CompressionSpeed", SpeedCode(o.compressionSpeed));
    }
  }

  /** Lines 160-190 (and 332-361): weights, the three fixed parameters, the speed. */
  method SetCommonParameters(codec: Codec, o: CompressOptions, h: Header, fastTiers: bool)
    modifies codec
    ensures codec.params == old(codec.params) + CommonParams(o, h, fastTiers)
  {
    SetWeights(codec, o, h);
    codec.SetParameter("UseAdaptiveWeighting", Flag(o.useAdaptiveWeighting));
    codec.SetParameter("DXT1UseAlpha", Flag(o.dxt1UseAlpha));
    codec.SetParameter("AlphaThreshold", Dword(o.alphaThreshold));
    SetSpeed(codec, o, h, fastTiers);
  }

  /** Lines 195-206: the BC7 case of the per-codec switch. */
  method SetBC7Extras(codec: Codec, o: CompressOptions)
    modifies codec
    ensures codec.params == old(codec.params) + CodecExtras(o, CtBC7)
  {
    codec.SetParameter("MultiThreading", Flag(!o.disableMultiThreading));
    if !o.disableMultiThreading {
      codec.SetParameter("NumThreads", Dword(o.numThreads));
    } else {
      codec.SetParameter("NumThreads", Dword(1));
    }
    codec.SetParameter("ModeMask", Dword(o.modeMask));
    codec.SetParameter("ColourRestrict", Flag(o.restrictColour));
    codec.SetParameter("AlphaRestrict", Flag(o.restrictAlpha));
    codec.SetParameter("Quality", Float(o.quality));
  }

  /** Lines 193-220: the per-codec switch of the sequential path. */
  method SetCodecExtras(codec: Codec, o: CompressOptions, destType: CodecType)
    modifies codec
    ensures codec.params == old(codec.params) + CodecExtras(o, destType)
  {
    match destType
    case CtBC7 =>
      SetBC7Extras(codec, o);
    case CtASTC =>
      codec.SetParameter("Quality", Float(o.quality));
    case CtGT =>
      codec.SetParameter("Quality", Float(o.quality));
    case CtBC6H =>
      codec.SetParameter("Quality", Float(o.quality));
    case CtBC6H_SF =>
      codec.SetParameter("Quality", Float(o.quality));
    case _ =>
  }

  /** Lines 223-229 (and 374-380): the free-form commands, in index order. */
  method SetCommands(codec: Codec, o: CompressOptions, h: Header)
    requires |o.cmdSet| == h.maxCmds
    modifies codec
    ensures codec.params == old(codec.params) + CommandParams(o, h)
  {
    if o.numCmds > 0 {
      var maxCmds := o.numCmds;
      if o.numCmds > h.maxCmds {
        maxCmds := h.maxCmds;
      }
      for i := 0 to maxCmds
        invariant codec.params == old(codec.params) + CommandParams(o, h)[..i]
      {
        codec.SetParameter(o.cmdSet[i].command, Text(o.cmdSet[i].parameter));
        assert CommandParams(o, h)[..i + 1] == CommandParams(o, h)[..i] + [CommandParam(o.cmdSet[i])];
      }
      assert CommandParams(o, h)[..maxCmds] == CommandParams(o, h);
    }
  }

  /** Lines 160-220: the typed parameters of the sequential path, common ones first. */
  method SetSequentialTyped(codec: Codec, o: CompressOptions, destType: CodecType, h: Header,
                            build: Build)
    modifies codec
    ensures codec.params == old(codec.params) + (CommonParams(o, h, !build.win64) + CodecExtras(o, destType))
  {
    SetCommonParameters(codec, o, h, !build.win64);
    SetCodecExtras(codec, o, destType);
    AppendRegroup(old(codec.params), CommonParams(o, h, !build.win64), CodecExtras(o, destType));
  }

  /** CompressTexture's configuration of its codec (lines 157-233). */
  method ConfigureSequential(codec: Codec, options: Option<CompressOptions>, destType: CodecType,
                             h: Header, build: Build)
    requires Shaped(options, h)
    modifies codec
    ensures codec.params == old(codec.params) + SequentialParams(options, destType, h, build)
  {
    if options.Some? && options.value.size == h.optionsSize {
      var o := options.value;
      ghost var typed := CommonParams(o, h, !build.win64) + CodecExtras(o, destType);
      SetSequentialTyped(codec, o, destType, h, build);
      SetCommands(codec, o, h);
      AppendRegroup(old(codec.params), typed, CommandParams(o, h));
    }
  }

  /**
   * ThreadedCompressTexture's configuration of one worker's codec (lines 329-383). Its
   * per-codec switch has a single empty case, so the codec type plays no part.
   */
  method ConfigureThreaded(codec: Codec, options: Option<CompressOptions>, h: Header)
    requires Shaped(options, h)
    modifies codec
    ensures codec.params == old(codec.params) + ThreadedParams(options, h)
  {
    if options.Some? && options.value.size == h.optionsSize {
      var o := options.value;
      SetCommonParameters(codec, o, h, true);
      SetCommands(codec, o, h);
    }
  }

  // ---------------------------------------------------------------------------------
  // What the logs say.

  /** Options that are absent or carry the wrong structure size configure nothing. */
  lemma UnusableOptionsSetNothing(options: Option<CompressOptions>, destType: CodecType,
                                  h: Header, build: Build)
    requires Shaped(options, h) && !Usable(options, h)
    ensures SequentialParams(options, destType, h, build) == []
    ensures ThreadedParams(options, h) == []
  {
  }

  /** The log of one path: the sequential log when `sequential`, else a worker's log. */
  function PathParams(options: Option<CompressOptions>, destType: CodecType, h: Header,
                      build: Build, sequential: bool): seq<Param>
    requires Shaped(options, h)
  {
    if sequential then SequentialParams(options, destType, h, build) else ThreadedParams(options, h)
  }

  /** What follows the typed parameters on each path, before the commands are appended. */
  function TypedParams(o: CompressOptions, destType: CodecType, h: Header, build: Build,
                       sequential: bool): seq<Param>
  {
    if sequential then CommonParams(o, h, !build.win64) + CodecExtras(o, destType)
    else CommonParams(o, h, true)
  }

  /** Every log of a usable options structure is its typed parameters, then its commands. */
  lemma PathParamsSplit(options: Option<CompressOptions>, destType: CodecType, h: Header,
                        build: Build, sequential: bool)
    requires Shaped(options, h) && Usable(options, h)
    ensures PathParams(options, destType, h, build, sequential) ==
            TypedParams(options.value, destType, h, build, sequential) +
            CommandParams(options.value, h)
  {
  }

  /**
   * The log `ps` opens with the typed parameters: the weights exactly when weighting is
   * enabled, each floored at MINIMUM_WEIGHT_VALUE, then the adaptive-weighting, DXT1-alpha,
   * alpha-threshold and speed entries.
   */
  predicate TypedLead(ps: seq<Param>, o: CompressOptions, h: Header, fastTiers: bool) {
    var k := if WeightingEnabled(o) then 4 else 0;
    |ps| >= k + 4 &&
    (ps[0].name == "UseChannelWeighting" <==> WeightingEnabled(o)) &&
    (WeightingEnabled(o) ==>
       ps[0].value == Dword(1) &&
       ps[1] == Param("WeightR", Float(ClampWeight(o.weightRed, h))) &&
       ps[2] == Param("WeightG", Float(ClampWeight(o.weightGreen, h))) &&
       ps[3] == Param("WeightB", Float(ClampWeight(o.weightBlue, h)))) &&
    ps[k] == Param("UseAdaptiveWeighting", Flag(o.useAdaptiveWeighting)) &&
    ps[k + 1] == Param("DXT1UseAlpha", Flag(o.dxt1UseAlpha)) &&
    ps[k + 2] == Param("AlphaThreshold", Dword(o.alphaThreshold)) &&
    ps[k + 3] == Param("CompressionSpeed", SpeedCode(ResolvedSpeed(o, h, fastTiers)))
  }

  /** The typed parameters satisfy their own layout. */
  lemma CommonParamsLead(o: CompressOptions, h: Header, fastTiers: bool)
    ensures TypedLead(CommonParams(o, h, fastTiers), o, h, fastTiers)
  {
  }

  /** The layout concerns a prefix only, so appending keeps it. */
  lemma LeadSurvivesAppend(ps: seq<Param>, rest: seq<Param>, o: CompressOptions, h: Header,
                           fastTiers: bool)
    requires TypedLead(ps, o, h, fastTiers)
    ensures TypedLead(ps + rest, o, h, fastTiers)
  {
  }

  /** On both paths the log opens with the typed parameters. */
  lemma TypedParamsLeadTheLog(options: Option<CompressOptions>, destType: CodecType, h: Header,
                              build: Build, sequential: bool)
    requires Shaped(options, h) && Usable(options, h)
    ensures TypedLead(PathParams(options, destType, h, build, sequential), options.value, h,
                      !sequential || !build.win64)
  {
    var o := options.value;
    var fastTiers := !sequential || !build.win64;
    CommonParamsLead(o, h, fastTiers);
    if sequential {
      LeadSurvivesAppend(CommonParams(o, h, fastTiers), CodecExtras(o, destType), o, h, fastTiers);
    }
    LeadSurvivesAppend(TypedParams(o, destType, h, build, sequential), CommandParams(o, h),
                       o, h, fastTiers);
    PathParamsSplit(options, destType, h, build, sequential);
  }

  /** No entry of `ps` carries a string value. */
  predicate NoText(ps: seq<Param>) {
    forall i :: 0 <= i < |ps| ==> !ps[i].value.Text?
  }

  lemma NoTextAppend(a: seq<Param>, b: seq<Param>)
    requires NoText(a) && NoText(b)
    ensures NoText(a + b)
  {
  }

  lemma WeightParamsHaveNoText(o: CompressOptions, h: Header)
    ensures NoText(WeightParams(o, h))
  {
  }

  lemma FixedParamsHaveNoText(o: CompressOptions, h: Header, fastTiers: bool)
    ensures NoText(FixedParams(o, h, fastTiers))
  {
  }

  lemma CodecExtrasHaveNoText(o: CompressOptions, destType: CodecType)
    ensures NoText(CodecExtras(o, destType))
  {
  }

  /** No typed parameter carries a string value. */
  lemma TypedParamsHaveNoText(o: CompressOptions, destType: CodecType, h: Header, build: Build,
                              sequential: bool)
    ensures NoText(TypedParams(o, destType, h, build, sequential))
  {
    var fastTiers := !sequential || !build.win64;
    WeightParamsHaveNoText(o, h);
    FixedParamsHaveNoText(o, h, fastTiers);
    NoTextAppend(WeightParams(o, h), FixedParams(o, h, fastTiers));
    if sequential {
      CodecExtrasHaveNoText(o, destType);
      NoTextAppend(CommonParams(o, h, fastTiers), CodecExtras(o, destType));
    }
  }

  /**
   * The log `ps` ends with the first min(NumCmds, AMD_MAX_CMDS) commands in index order,
   * and they are its only string values.
   */
  predicate CommandsAtEnd(ps: seq<Param>, o: CompressOptions, h: Header)
    requires |o.cmdSet| == h.maxCmds
  {
    var n := CommandCount(o, h);
    |ps| >= n &&
    (forall i :: 0 <= i < |ps| - n ==> !ps[i].value.Text?) &&
    (forall i :: 0 <= i < n ==>
       ps[|ps| - n + i] == Param(o.cmdSet[i].command, Text(o.cmdSet[i].parameter)))
  }

  /** After a prefix without string values, the commands are the log's only strings and its end. */
  lemma CommandsFollow(typed: seq<Param>, o: CompressOptions, h: Header)
    requires |o.cmdSet| == h.maxCmds
    requires NoText(typed)
    ensures CommandsAtEnd(typed + CommandParams(o, h), o, h)
  {
  }

  /** On both paths the commands come last and are the log's only string values. */
  lemma CommandsComeLast(options: Option<CompressOptions>, destType: CodecType, h: Header,
                         build: Build, sequential: bool)
    requires Shaped(options, h) && Usable(options, h)
    ensures CommandsAtEnd(PathParams(options, destType, h, build, sequential), options.value, h)
  {
    var o := options.value;
    PathParamsSplit(options, destType, h, build, sequential);
    TypedParamsHaveNoText(o, destType, h, build, sequential);
    CommandsFollow(TypedParams(o, destType, h, build, sequential), o, h);
  }

  /**
   * The sequential log differs from a worker's only in the per-codec extras and the speed
   * tiers of a 64-bit build: without either, the two are the same.
   */
  lemma ThreadedMatchesSequential(options: Option<CompressOptions>, destType: CodecType,
                                  h: Header, build: Build)
    requires Shaped(options, h)
    requires !HasExtras(destType)
    requires !build.win64 || options.None? || options.value.quality == h.qualityDefault
    ensures ThreadedParams(options, h) == SequentialParams(options, destType, h, build)
  {
    if Usable(options, h) {
      var o := options.value;
      assert CodecExtras(o, destType) == [];
      assert ResolvedSpeed(o, h, !build.win64) == ResolvedSpeed(o, h, true);
    }
  }

  /**
   * A worker's log never carries the per-codec settings: no typed entry is Quality,
   * MultiThreading or NumThreads.
   */
  lemma ThreadedHasNoCodecExtras(options: Option<CompressOptions>, h: Header)
    requires Shaped(options, h) && Usable(options, h)
    ensures var ps := ThreadedParams(options, h);
            var n := CommandCount(options.value, h);
            |ps| >= n &&
            forall i :: 0 <= i < |ps| - n ==>
              ps[i].name != "Quality" && ps[i].name != "MultiThreading" && ps[i].name != "NumThreads"
  {
    var o := options.value;
    var common := CommonParams(o, h, true);
    assert ThreadedParams(options, h)[..|common|] == common;
  }
}
