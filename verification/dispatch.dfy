/**
 * The two compression drivers: CompressTexture, which runs one codec over the whole image,
 * and ThreadedCompressTexture, which splits the destination rows into bands and runs one
 * worker thread per non-empty band.
 */
module Dispatch {
  import opened Wrappers
  import opened Definitions
  import opened Errors
  import opened Formats
  import opened Validation
  import opened Options
  import opened Banding

  /**
   * What the environment does in one CompressTexture call: whether the codec factory and
   * the two buffer factories return an object, and what the codec's Compress returns.
   */
  datatype SequentialEnv = SequentialEnv(codecCreated: bool, srcBufferCreated: bool,
                                         destBufferCreated: bool, outcome: CodecError)

  /**
   * What the environment does in one ThreadedCompressTexture call: the processor count
   * found at start-up, the block height the codec reports, the buffer-size functions, and
   * for every worker slot its factories' results and its exit-code query.
   */
  datatype ThreadedEnv = ThreadedEnv(processorCount: nat, blockHeight: nat, sizes: BandSizes,
                                     slots: seq<Slot>)

  /** The codecs the threaded driver refuses (it must not be called for them). */
  predicate Excluded(destType: CodecType) {
    destType == CtBC7 || destType == CtGT || destType == CtASTC
  }

  // ---------------------------------------------------------------------------------
  // CompressTexture.

  /**
   * CompressTexture: creates the codec, configures it from the options, wraps both
   * textures in codec buffers and compresses. `config` is the parameter log of the codec
   * (empty when there is none). The codec's source and destination buffers are created
   * from the whole textures; the feedback callback and its user words only pass through.
   */
  method CompressTexture(options: Option<CompressOptions>, destType: CodecType, h: Header,
                         build: Build, env: SequentialEnv)
    returns (r: CmpError, config: seq<Param>)
    requires Shaped(options, h)
    ensures r == UnableToInitCodec <==> !env.codecCreated
    ensures !env.codecCreated ==> config == []
    ensures env.codecCreated ==> config == SequentialParams(options, destType, h, build)
    ensures r == Ok <==>
              env.codecCreated && env.srcBufferCreated && env.destBufferCreated &&
              env.outcome == CeOk
    ensures r == Aborted <==>
              env.codecCreated && env.srcBufferCreated && env.destBufferCreated &&
              env.outcome == CeAborted
    ensures r == Ok || r == Aborted || r == GenericError || r == UnableToInitCodec
  {
    if !env.codecCreated {
      return UnableToInitCodec, [];
    }
    var codec := new Codec();
    ConfigureSequential(codec, options, destType, h, build);
    config := codec.params;
    if !env.srcBufferCreated || !env.destBufferCreated {
      return GenericError, config;
    }
    r := GetError(env.outcome);
  }

  // ---------------------------------------------------------------------------------
  // ThreadedCompressTexture: its specification.

  /** The band heights for the destination image and the environment's processor count. */
  function ThreadedBands(dst: Texture, h: Header, env: ThreadedEnv): (hs: seq<nat>)
    requires env.blockHeight > 0
    ensures |hs| == MaxThreadCount(env.processorCount, h.maxThreads)
  {
    Bands(dst.height, MaxThreadCount(env.processorCount, h.maxThreads), env.blockHeight)
  }

  /** The environment has a slot for every possible worker and a usable block height. */
  predicate WellFormed(h: Header, env: ThreadedEnv) {
    env.blockHeight > 0 && |env.slots| >= MaxThreadCount(env.processorCount, h.maxThreads)
  }

  /** The workers whose threads ThreadedCompressTexture starts. */
  function ThreadedWorkers(src: Texture, dst: Texture, options: Option<CompressOptions>,
                           destType: CodecType, h: Header, env: ThreadedEnv): (ws: seq<Worker>)
    requires Shaped(options, h) && WellFormed(h, env)
    ensures Excluded(destType) ==> ws == []
    ensures |ws| <= MaxThreadCount(env.processorCount, h.maxThreads)
    ensures forall w <- ws :: w.rows > 0 && w.config == ThreadedParams(options, h)
  {
    if Excluded(destType) then []
    else Launched(ThreadedBands(dst, h, env), env.slots, 0, src.data, dst.data, env.sizes,
                  ThreadedParams(options, h))
  }

  /** The early error the worker loop returns, if any. */
  function ThreadedFault(dst: Texture, destType: CodecType, h: Header, env: ThreadedEnv)
    : (e: Option<CmpError>)
    requires WellFormed(h, env)
    ensures e == Some(Aborted) <==> Excluded(destType)
    ensures e == None || e == Some(Aborted) || e == Some(UnableToInitCodec) || e == Some(GenericError)
  {
    if Excluded(destType) then Some(Aborted) else Fault(ThreadedBands(dst, h, env), env.slots, 0)
  }

  /** What ThreadedCompressTexture returns. */
  function ThreadedOutcome(src: Texture, dst: Texture, options: Option<CompressOptions>,
                           destType: CodecType, h: Header, env: ThreadedEnv): (r: CmpError)
    requires Shaped(options, h) && WellFormed(h, env)
    ensures Excluded(destType) ==> r == Aborted
    ensures r == Ok ==> ThreadedFault(dst, destType, h, env) == None
  {
    match ThreadedFault(dst, destType, h, env)
    case Some(e) => e
    case None =>
      var ws := ThreadedWorkers(src, dst, options, destType, h, env);
      GetError(Reduce(ExitCodes(ws, env.slots), CeOk))
  }

  /** The started workers that are never waited for and whose handles are never closed. */
  function Abandoned(src: Texture, dst: Texture, options: Option<CompressOptions>,
                     destType: CodecType, h: Header, env: ThreadedEnv): (ws: seq<Worker>)
    requires Shaped(options, h) && WellFormed(h, env)
    ensures ws != [] ==> ThreadedFault(dst, destType, h, env).Some? && !Excluded(destType)
    ensures forall w <- ws :: w in ThreadedWorkers(src, dst, options, destType, h, env)
  {
    if ThreadedFault(dst, destType, h, env).Some?
    then ThreadedWorkers(src, dst, options, destType, h, env)
    else []
  }

  // ---------------------------------------------------------------------------------
  // ThreadedCompressTexture: the driver, as written and corrected.

  /**
   * The worker loop of ThreadedCompressTexture (lines 313-424): per slot, create and
   * configure a codec, work out the band height, create the band's buffers, advance the
   * data addresses and store the started worker in `ahThread`. It stops at the first
   * fault and returns it with the workers started so far.
   */
  method StartWorkers(src: Texture, dst: Texture, options: Option<CompressOptions>,
                      destType: CodecType, h: Header, env: ThreadedEnv)
    returns (fault: Option<CmpError>, ahThread: array<Worker>, threadCount: nat)
    requires Shaped(options, h) && WellFormed(h, env) && !Excluded(destType)
    ensures fault == ThreadedFault(dst, destType, h, env)
    ensures threadCount <= ahThread.Length
    ensures ahThread[..threadCount] == ThreadedWorkers(src, dst, options, destType, h, env)
  {
    var maxThreadCount := MaxThreadCount(env.processorCount, h.maxThreads);
    ghost var hs := ThreadedBands(dst, h, env);
    assert ThreadedFault(dst, destType, h, env) == Fault(hs, env.slots, 0);
    assert ThreadedWorkers(src, dst, options, destType, h, env) ==
           Launched(hs, env.slots, 0, src.data, dst.data, env.sizes, ThreadedParams(options, h));
    assert hs[0..] == hs;
    ahThread := new Worker[h.maxThreads];
    fault, threadCount := RunSlots(hs, env.slots, maxThreadCount, env.blockHeight, dst.height,
                                   src.data, dst.data, env.sizes, options, h, ahThread);
  }

  /**
   * The loop over the worker slots, from the first: `hs` are the bands of `lines` rows among
   * `maxThreadCount` slots. It stops at the first fault and returns it.
   */
  method RunSlots(ghost hs: seq<nat>, slots: seq<Slot>, maxThreadCount: nat, blockHeight: nat,
                  lines: nat, srcData: int, destData: int, sizes: BandSizes,
                  options: Option<CompressOptions>, h: Header, ahThread: array<Worker>)
    returns (fault: Option<CmpError>, threadCount: nat)
    requires Shaped(options, h) && blockHeight > 0
    requires |hs| == maxThreadCount && BandsFrom(hs, 0, lines, blockHeight)
    requires maxThreadCount <= |slots| && maxThreadCount <= ahThread.Length
    modifies ahThread
    ensures fault == Fault(hs, slots, 0)
    ensures threadCount <= ahThread.Length
    ensures ahThread[..threadCount] ==
            Launched(hs, slots, 0, srcData, destData, sizes, ThreadedParams(options, h))
  {
    var linesRemaining: nat := lines;
    var sourceData: int := srcData;
    var destinationData: int := destData;
    ghost var config := ThreadedParams(options, h);
    ghost var whole := Launched(hs, slots, 0, srcData, destData, sizes, config);
    threadCount := 0;
    assert ahThread[..0] + whole == whole;
    for thread := 0 to maxThreadCount
      invariant threadCount <= thread
      invariant BandsFrom(hs, thread, linesRemaining, blockHeight)
      invariant Fault(hs, slots, 0) == Fault(hs, slots, thread)
      invariant ahThread[..threadCount] +
                Launched(hs, slots, thread, sourceData, destinationData, sizes, config) == whole
    {
      var slotFault, linesLeft, nextSrc, nextDest, count :=
        StartSlot(hs, slots, thread, maxThreadCount - thread, blockHeight, linesRemaining,
                  sourceData, destinationData, sizes, options, h, ahThread, threadCount);
      if slotFault.Some? {
        assert Launched(hs, slots, thread, sourceData, destinationData, sizes, config) == [];
        assert ahThread[..threadCount] + [] == ahThread[..threadCount];
        return slotFault, threadCount;
      }
      linesRemaining, sourceData, destinationData, threadCount := linesLeft, nextSrc, nextDest, count;
    }
    assert Fault(hs, slots, maxThreadCount) == None;
    assert Launched(hs, slots, maxThreadCount, sourceData, destinationData, sizes, config) == [];
    assert ahThread[..threadCount] + [] == ahThread[..threadCount];
    fault := None;
  }

  /** `hs[thread..]` are the bands of the `lines` rows still to be handed out. */
  ghost predicate BandsFrom(hs: seq<nat>, thread: nat, lines: nat, blockHeight: nat)
    requires blockHeight > 0
  {
    thread <= |hs| && Bands(lines, |hs| - thread, blockHeight) == hs[thread..]
  }

  /**
   * One pass of the worker loop, for slot `thread` with `threadsRemaining` slots left: the
   * early error if its codec or its band's buffers cannot be created; otherwise the rows
   * left, the advanced data addresses and the worker count after storing its worker.
   */
  method StartSlot(ghost hs: seq<nat>, slots: seq<Slot>, thread: nat, threadsRemaining: nat,
                   blockHeight: nat, linesRemaining: nat, sourceData: int, destData: int,
                   sizes: BandSizes, options: Option<CompressOptions>, h: Header,
                   ahThread: array<Worker>, threadCount: nat)
    returns (fault: Option<CmpError>, linesLeft: nat, nextSrc: int, nextDest: int, count: nat)
    requires Shaped(options, h) && blockHeight > 0
    requires thread < |hs| <= |slots| && threadsRemaining == |hs| - thread
    requires BandsFrom(hs, thread, linesRemaining, blockHeight)
    requires threadCount <= thread && |hs| <= ahThread.Length
    modifies ahThread
    ensures count <= thread + 1
    ensures fault.Some? ==>
              fault == Fault(hs, slots, thread) && count == threadCount &&
              ahThread[..threadCount] == old(ahThread[..threadCount]) &&
              Launched(hs, slots, thread, sourceData, destData, sizes, ThreadedParams(options, h))
                == []
    ensures fault.None? ==>
              Fault(hs, slots, thread) == Fault(hs, slots, thread + 1) &&
              BandsFrom(hs, thread + 1, linesLeft, blockHeight) &&
              ahThread[..count] +
                Launched(hs, slots, thread + 1, nextSrc, nextDest, sizes, ThreadedParams(options, h))
              == old(ahThread[..threadCount]) +
                Launched(hs, slots, thread, sourceData, destData, sizes, ThreadedParams(options, h))
  {
    ghost var config := ThreadedParams(options, h);
    count, nextSrc, nextDest := threadCount, sourceData, destData;
    var slot := slots[thread];
    if !slot.codecCreated {
      CodecFailureStops(hs, slots, thread, sourceData, destData, sizes, config);
      return Some(UnableToInitCodec), linesRemaining, nextSrc, nextDest, count;
    }
    var codec := CreateThreadedCodec(options, h);

    var height;
    height, linesLeft := NextBand(linesRemaining, threadsRemaining, blockHeight);
    assert hs[thread] == height &&
           hs[thread + 1..] == Bands(linesLeft, threadsRemaining - 1, blockHeight) by {
      assert hs[thread..] == [hs[thread]] + hs[thread + 1..];
    }

    if height > 0 {
      nextSrc := sourceData + sizes.source(height);
      nextDest := destData + sizes.dest(height);
      if !(slot.srcBufferCreated && slot.destBufferCreated) {
        BufferFailureStops(hs, slots, thread, sourceData, destData, sizes, config);
        return Some(GenericError), linesLeft, nextSrc, nextDest, count;
      }
      LaunchedStart(hs, slots, thread, sourceData, destData, nextSrc, nextDest, sizes, config);
      var worker := Worker(thread, height, sourceData, destData, codec.params);
      ghost var started := ahThread[..threadCount];
      ghost var rest := Launched(hs, slots, thread + 1, nextSrc, nextDest, sizes, config);
      AppendRegroup(started, [worker], rest);
      StoreHandle(ahThread, threadCount, worker);
      count := threadCount + 1;
    } else {
      LaunchedSkip(hs, slots, thread, sourceData, destData, sizes, config);
    }
    fault := None;
  }

  /** A worker's codec, created and configured from the options (lines 318-383). */
  method CreateThreadedCodec(options: Option<CompressOptions>, h: Header) returns (codec: Codec)
    requires Shaped(options, h)
    ensures fresh(codec)
    ensures codec.params == ThreadedParams(options, h)
  {
    codec := new Codec();
    ConfigureThreaded(codec, options, h);
  }

  /** `ahThread[dwThreadCount++] = ...`: stores a started worker after the earlier ones. */
  method StoreHandle(ahThread: array<Worker>, threadCount: nat, worker: Worker)
    requires threadCount < ahThread.Length
    modifies ahThread
    ensures ahThread[..threadCount + 1] == old(ahThread[..threadCount]) + [worker]
  {
    ahThread[threadCount] := worker;
  }

  /**
   * The band height of one worker (lines 385-395): with more than one worker left, the
   * remaining rows' share rounded up to whole blocks, capped at the rows remaining, which
   * it then reduces; for the last worker, all remaining rows, which it leaves as they are.
   */
  method NextBand(linesRemaining: nat, threadsRemaining: nat, blockHeight: nat)
    returns (height: nat, linesLeft: nat)
    requires blockHeight > 0 && threadsRemaining >= 1
    ensures height == BandHeight(linesRemaining, threadsRemaining, blockHeight)
    ensures Bands(linesRemaining, threadsRemaining, blockHeight) ==
            [height] + Bands(linesLeft, threadsRemaining - 1, blockHeight)
  {
    if threadsRemaining > 1 {
      height := linesRemaining / threadsRemaining;
      height := Min(((height + blockHeight - 1) / blockHeight) * blockHeight, linesRemaining);
      RoundedShare(linesRemaining, threadsRemaining, blockHeight);
      linesLeft := linesRemaining - height;
    } else {
      height := linesRemaining;
      linesLeft := linesRemaining;
    }
    BandsStep(linesRemaining, threadsRemaining, blockHeight);
  }

  /** One step of the band recursion, as the worker loop takes it. */
  lemma BandsStep(lines: nat, threads: nat, blockHeight: nat)
    requires blockHeight > 0 && threads >= 1
    ensures var rows := BandHeight(lines, threads, blockHeight);
            Bands(lines, threads, blockHeight) ==
              [rows] + Bands(lines - rows, threads - 1, blockHeight) &&
            (threads == 1 ==> rows == lines && Bands(lines, 0, blockHeight) == [])
  {
  }

  /** The loop's rounded share is the band height of the partition. */
  lemma RoundedShare(lines: nat, threads: nat, blockHeight: nat)
    requires blockHeight > 0 && threads > 1
    ensures var share := lines / threads;
            Min(((share + blockHeight - 1) / blockHeight) * blockHeight, lines) ==
              BandHeight(lines, threads, blockHeight)
  {
  }

  /**
   * The join loop (lines 426-436): after waiting for every started worker, fold their exit
   * codes in order, closing each handle. `joined` counts the handles closed.
   */
  method JoinWorkers(ahThread: array<Worker>, threadCount: nat, slots: seq<Slot>)
    returns (err: CodecError, joined: nat)
    requires threadCount <= ahThread.Length
    requires forall j :: 0 <= j < threadCount ==> ahThread[j].slot < |slots|
    ensures err == Reduce(ExitCodes(ahThread[..threadCount], slots), CeOk)
    ensures joined == threadCount
  {
    ghost var codes := ExitCodes(ahThread[..threadCount], slots);
    err := CeOk;
    joined := 0;
    for thread := 0 to threadCount
      invariant Reduce(codes[thread..], err) == Reduce(codes, CeOk)
      invariant joined == thread
    {
      assert codes[thread..][1..] == codes[thread + 1..];
      var exitCode := slots[ahThread[thread].slot].exitCode;
      if err == CeOk && exitCode.Some? {
        err := exitCode.value;
      }
      joined := joined + 1;
    }
    assert codes[threadCount..] == [];
  }

  /**
   * ThreadedCompressTexture as written: an early error returns at once, so the workers
   * already started are left running and their handles open (`abandoned`).
   */
  method ThreadedCompressTexture(src: Texture, dst: Texture, options: Option<CompressOptions>,
                                 destType: CodecType, h: Header, env: ThreadedEnv)
    returns (r: CmpError, workers: seq<Worker>, abandoned: seq<Worker>)
    requires Shaped(options, h) && WellFormed(h, env)
    ensures r == ThreadedOutcome(src, dst, options, destType, h, env)
    ensures workers == ThreadedWorkers(src, dst, options, destType, h, env)
    ensures abandoned == Abandoned(src, dst, options, destType, h, env)
  {
    if destType == CtBC7 { return Aborted, [], []; }
    if destType == CtGT { return Aborted, [], []; }
    if destType == CtASTC { return Aborted, [], []; }

    var fault, ahThread, threadCount := StartWorkers(src, dst, options, destType, h, env);
    workers := ahThread[..threadCount];
    if fault.Some? {
      return fault.value, workers, workers;
    }
    var err, joined := JoinWorkers(ahThread, threadCount, env.slots);
    r := GetError(err);
    abandoned := workers[joined..];
  }

  /**
   * ThreadedCompressTexture with the early exits corrected: the workers already started
   * are waited for and their handles closed before the error is returned.
   */
  method ThreadedCompressTextureJoined(src: Texture, dst: Texture,
                                       options: Option<CompressOptions>, destType: CodecType,
                                       h: Header, env: ThreadedEnv)
    returns (r: CmpError, workers: seq<Worker>, abandoned: seq<Worker>)
    requires Shaped(options, h) && WellFormed(h, env)
    ensures r == ThreadedOutcome(src, dst, options, destType, h, env)
    ensures workers == ThreadedWorkers(src, dst, options, destType, h, env)
    ensures abandoned == []
  {
    if Excluded(destType) {
      return Aborted, [], [];
    }
    var fault, ahThread, threadCount := StartWorkers(src, dst, options, destType, h, env);
    workers := ahThread[..threadCount];
    var err, joined := JoinWorkers(ahThread, threadCount, env.slots);
    r := if fault.Some? then fault.value else GetError(err);
    abandoned := workers[joined..];
  }

  // ---------------------------------------------------------------------------------
  // Properties of the threaded driver.

  /** BC7, GT and ASTC are refused with CMP_ABORTED before any worker starts. */
  lemma ExcludedCodecsAbort(src: Texture, dst: Texture, options: Option<CompressOptions>,
                            destType: CodecType, h: Header, env: ThreadedEnv)
    requires Shaped(options, h) && WellFormed(h, env)
    ensures ThreadedOutcome(src, dst, options, destType, h, env) == Aborted <==>
              Excluded(destType) ||
              (ThreadedFault(dst, destType, h, env).None? &&
               Reduce(ExitCodes(ThreadedWorkers(src, dst, options, destType, h, env),
                                env.slots), CeOk) == CeAborted)
    ensures Excluded(destType) ==> ThreadedWorkers(src, dst, options, destType, h, env) == []
  {
    if !Excluded(destType) {
      var e := Fault(ThreadedBands(dst, h, env), env.slots, 0);
      assert e.Some? ==> e.value != Aborted;
    }
  }

  /**
   * Without an early error the workers are exactly one per non-empty band of the
   * partition: together they cover the destination's rows, each band but the last is a
   * whole number of blocks, and each starts where the previous one's data ends.
   */
  lemma ThreadedWorkersPartitionImage(src: Texture, dst: Texture,
                                      options: Option<CompressOptions>, destType: CodecType,
                                      h: Header, env: ThreadedEnv)
    requires Shaped(options, h) && WellFormed(h, env)
    requires ThreadedFault(dst, destType, h, env).None?
    ensures ThreadedWorkers(src, dst, options, destType, h, env) ==
            Workers(dst.height, MaxThreadCount(env.processorCount, h.maxThreads),
                    env.blockHeight, src.data, dst.data, env.sizes, ThreadedParams(options, h))
  {
    LaunchedWithoutFault(ThreadedBands(dst, h, env), env.slots, 0, src.data, dst.data,
                         env.sizes, ThreadedParams(options, h));
  }

  /**
   * The threaded driver succeeds exactly when the codec is allowed, no slot faults and no
   * worker reports an exit code other than CE_OK.
   */
  lemma ThreadedOkIff(src: Texture, dst: Texture, options: Option<CompressOptions>,
                      destType: CodecType, h: Header, env: ThreadedEnv)
    requires Shaped(options, h) && WellFormed(h, env)
    ensures var ws := ThreadedWorkers(src, dst, options, destType, h, env);
            ThreadedOutcome(src, dst, options, destType, h, env) == Ok <==>
              ThreadedFault(dst, destType, h, env).None? &&
              forall j :: 0 <= j < |ws| ==> !IsFailure(env.slots[ws[j].slot].exitCode)
  {
    var ws := ThreadedWorkers(src, dst, options, destType, h, env);
    var e := ThreadedFault(dst, destType, h, env);
    if e.None? {
      var codes := ExitCodes(ws, env.slots);
      ReduceOkIff(codes);
      assert (forall i :: 0 <= i < |codes| ==> !IsFailure(codes[i])) <==>
             (forall j :: 0 <= j < |ws| ==> !IsFailure(env.slots[ws[j].slot].exitCode));
    } else {
      assert e.value != Ok;
    }
  }

  /** Every worker started is waited for unless the loop stopped at an early error. */
  lemma AbandonedOnlyOnEarlyExit(src: Texture, dst: Texture, options: Option<CompressOptions>,
                                 destType: CodecType, h: Header, env: ThreadedEnv)
    requires Shaped(options, h) && WellFormed(h, env)
    ensures Abandoned(src, dst, options, destType, h, env) != [] <==>
              !Excluded(destType) && Fault(ThreadedBands(dst, h, env), env.slots, 0).Some? &&
              ThreadedWorkers(src, dst, options, destType, h, env) != []
  {
  }

  /**
   * The as-written driver abandons a running worker: when the destination has at least
   * one row per worker slot, the first slot starts a worker on the first band, and the
   * second slot's codec cannot be created, CMP_ERR_UNABLE_TO_INIT_CODEC is returned while
   * that worker is still running on objects that are destroyed on return.
   */
  lemma EarlyExitAbandonsWorker(src: Texture, dst: Texture, options: Option<CompressOptions>,
                                destType: CodecType, h: Header, env: ThreadedEnv)
    requires Shaped(options, h) && WellFormed(h, env) && !Excluded(destType)
    requires MaxThreadCount(env.processorCount, h.maxThreads) >= 2
    requires dst.height >= MaxThreadCount(env.processorCount, h.maxThreads)
    requires env.slots[0] == Slot(true, true, true, Some(CeOk))
    requires !env.slots[1].codecCreated
    ensures ThreadedOutcome(src, dst, options, destType, h, env) == UnableToInitCodec
    ensures var ws := Abandoned(src, dst, options, destType, h, env);
            |ws| == 1 && ws[0].slot == 0 && ws[0].rows > 0
  {
    var n := MaxThreadCount(env.processorCount, h.maxThreads);
    var hs := ThreadedBands(dst, h, env);
    var config := ThreadedParams(options, h);
    BandsStep(dst.height, n, env.blockHeight);
    DivAtLeastOne(dst.height, n);
    assert hs[0] > 0;
    assert Fault(hs, env.slots, 1) == Some(UnableToInitCodec);
    assert Fault(hs, env.slots, 0) == Some(UnableToInitCodec);
    var s1, d1 := src.data + env.sizes.source(hs[0]), dst.data + env.sizes.dest(hs[0]);
    assert Launched(hs, env.slots, 1, s1, d1, env.sizes, config) == [];
    assert Launched(hs, env.slots, 0, src.data, dst.data, env.sizes, config) ==
           [Worker(0, hs[0], src.data, dst.data, config)];
  }

  lemma DivAtLeastOne(a: nat, b: nat)
    requires 0 < b <= a
    ensures a / b >= 1
  {
  }
}
