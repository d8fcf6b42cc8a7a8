/**
 * The row-band arithmetic of ThreadedCompressTexture as specification functions: band
 * heights, the workers spawned with their data addresses, the early faults, and the
 * reduction of the workers' exit codes.
 */
module Banding {
  import opened Wrappers
  import opened Definitions
  import opened Errors
  import opened Options

  function Sum(s: seq<nat>): nat {
    if s == [] then 0 else s[0] + Sum(s[1..])
  }

  /** `r` is a whole number of blocks of `b` rows. */
  ghost predicate IsMultiple(r: nat, b: nat) {
    exists m: nat :: r == m * b
  }

  /** `x` rounded up to a multiple of the block height. */
  function RoundUp(x: nat, blockHeight: nat): (r: nat)
    requires blockHeight > 0
    ensures IsMultiple(r, blockHeight)
    ensures x <= r < x + blockHeight
  {
    var q := (x + blockHeight - 1) / blockHeight;
    q * blockHeight
  }

  /**
   * The height of the band handed to a worker when `lines` rows remain and
   * `threadsRemaining` workers (this one included) are still to be handed a band: the
   * fair share rounded up to the block height and capped at what remains, and for the
   * last worker everything that remains.
   */
  function BandHeight(lines: nat, threadsRemaining: nat, blockHeight: nat): (rows: nat)
    requires blockHeight > 0 && threadsRemaining > 0
    ensures rows <= lines
    ensures threadsRemaining == 1 ==> rows == lines
    ensures threadsRemaining > 1 ==> lines / threadsRemaining <= rows
    ensures threadsRemaining > 1 ==>
              rows == lines ||
              (IsMultiple(rows, blockHeight) && rows < lines / threadsRemaining + blockHeight)
    ensures threadsRemaining > 1 ==> rows <= RoundUp(lines / threadsRemaining, blockHeight)
  {
    if threadsRemaining > 1 then
      var share := lines / threadsRemaining;
      ShareAtMostAll(lines, threadsRemaining);
      Min(RoundUp(share, blockHeight), lines)
    else lines
  }

  lemma ShareAtMostAll(lines: nat, threads: nat)
    requires threads > 0
    ensures lines / threads <= lines
  {
    var d, m := lines / threads, lines % threads;
    assert lines == d * threads + m;
    MulAtLeast(d, threads);
  }

  lemma MulAtLeast(a: nat, b: nat)
    requires b >= 1
    ensures a * b >= a
  {
  }

  /** The band heights of `threads` workers sharing `lines` rows, in worker order. */
  function Bands(lines: nat, threads: nat, blockHeight: nat): (hs: seq<nat>)
    requires blockHeight > 0
    ensures |hs| == threads
    ensures threads > 0 ==> Sum(hs) == lines
    decreases threads
  {
    if threads == 0 then []
    else
      var rows := BandHeight(lines, threads, blockHeight);
      [rows] + Bands(lines - rows, threads - 1, blockHeight)
  }

  /** With no rows left, every remaining band is empty. */
  lemma {:induction false} BandsOfNothing(threads: nat, blockHeight: nat)
    requires blockHeight > 0
    ensures forall i :: 0 <= i < threads ==> Bands(0, threads, blockHeight)[i] == 0
  {
    if threads > 0 {
      BandsOfNothing(threads - 1, blockHeight);
      var hs := Bands(0, threads, blockHeight);
      assert hs[1..] == Bands(0, threads - 1, blockHeight);
    }
  }

  /** Every non-empty band followed by another non-empty band is a whole number of blocks. */
  ghost predicate AlignedBeforeLast(hs: seq<nat>, blockHeight: nat) {
    forall i, j :: 0 <= i < j < |hs| && hs[i] > 0 && hs[j] > 0 ==> IsMultiple(hs[i], blockHeight)
  }

  /** The first band, followed by the non-empty band j, did not take every row, so it is aligned. */
  lemma FirstBandAligned(lines: nat, threads: nat, blockHeight: nat, j: nat)
    requires blockHeight > 0 && 0 < j < threads
    requires Bands(lines, threads, blockHeight)[j] > 0
    ensures IsMultiple(Bands(lines, threads, blockHeight)[0], blockHeight)
  {
    var rows := BandHeight(lines, threads, blockHeight);
    var rest := Bands(lines - rows, threads - 1, blockHeight);
    assert Bands(lines, threads, blockHeight)[j] == rest[j - 1];
    BandsOfNothing(threads - 1, blockHeight);
    assert lines - rows != 0;
  }

  /** One instance of BandsAligned: band i, followed by the non-empty band j, is aligned. */
  lemma {:induction false} BandAlignedAt(lines: nat, threads: nat, blockHeight: nat, i: nat, j: nat)
    requires blockHeight > 0 && i < j < threads
    requires Bands(lines, threads, blockHeight)[i] > 0 && Bands(lines, threads, blockHeight)[j] > 0
    ensures IsMultiple(Bands(lines, threads, blockHeight)[i], blockHeight)
    decreases i
  {
    if i == 0 {
      FirstBandAligned(lines, threads, blockHeight, j);
    } else {
      var rows := BandHeight(lines, threads, blockHeight);
      var rest := Bands(lines - rows, threads - 1, blockHeight);
      assert Bands(lines, threads, blockHeight)[i] == rest[i - 1];
      assert Bands(lines, threads, blockHeight)[j] == rest[j - 1];
      BandAlignedAt(lines - rows, threads - 1, blockHeight, i - 1, j - 1);
    }
  }

  /**
   * Every non-empty band that is followed by another non-empty band is a whole number of
   * blocks: a band that is not block-aligned took all remaining rows.
   */
  lemma BandsAligned(lines: nat, threads: nat, blockHeight: nat)
    requires blockHeight > 0
    ensures AlignedBeforeLast(Bands(lines, threads, blockHeight), blockHeight)
  {
    var hs := Bands(lines, threads, blockHeight);
    forall i, j | 0 <= i < j < |hs| && hs[i] > 0 && hs[j] > 0
      ensures IsMultiple(hs[i], blockHeight)
    {
      BandAlignedAt(lines, threads, blockHeight, i, j);
    }
  }

  /** What the environment does for worker slot k: codec and buffer creation, exit-code query. */
  datatype Slot = Slot(codecCreated: bool, srcBufferCreated: bool, destBufferCreated: bool,
                       exitCode: Option<CodecError>)

  /**
   * CalcBufferSize for the source and for the destination, with every argument but the
   * band's row count fixed to the texture's own format, width, pitch and block size.
   */
  datatype BandSizes = BandSizes(source: nat -> nat, dest: nat -> nat)

  /**
   * A spawned worker: its slot in the worker table, its band height, the source and
   * destination addresses of its band, and the parameter log of its codec.
   */
  datatype Worker = Worker(slot: nat, rows: nat, srcData: int, destData: int, config: seq<Param>)

  /**
   * The workers spawned for bands `hs[k..]` when the data pointers stand at `srcData` and
   * `destData`: one per non-empty band, each pointer advancing by that band's size.
   */
  function Spawn(hs: seq<nat>, k: nat, srcData: int, destData: int, sizes: BandSizes,
                 config: seq<Param>): (ws: seq<Worker>)
    requires k <= |hs|
    ensures |ws| <= |hs| - k
    ensures forall w <- ws :: k <= w.slot < |hs| && w.rows == hs[w.slot] > 0 && w.config == config
    decreases |hs| - k
  {
    if k == |hs| then []
    else if hs[k] == 0 then Spawn(hs, k + 1, srcData, destData, sizes, config)
    else
      [Worker(k, hs[k], srcData, destData, config)] +
      Spawn(hs, k + 1, srcData + sizes.source(hs[k]), destData + sizes.dest(hs[k]), sizes, config)
  }

  function SumRows(ws: seq<Worker>): nat {
    if ws == [] then 0 else ws[0].rows + SumRows(ws[1..])
  }

  /** The bytes `size` assigns to the bands of `ws` together. */
  function SumBytes(size: nat -> nat, ws: seq<Worker>): nat {
    if ws == [] then 0 else size(ws[0].rows) + SumBytes(size, ws[1..])
  }

  /** The workers' rows add up to the rows of the bands they were spawned for. */
  lemma {:induction false} SpawnRows(hs: seq<nat>, k: nat, srcData: int, destData: int,
                                     sizes: BandSizes, config: seq<Param>)
    requires k <= |hs|
    ensures SumRows(Spawn(hs, k, srcData, destData, sizes, config)) == Sum(hs[k..])
    decreases |hs| - k
  {
    if k < |hs| {
      assert hs[k..][1..] == hs[k + 1..];
      var s', d' := srcData, destData;
      if hs[k] > 0 {
        s', d' := srcData + sizes.source(hs[k]), destData + sizes.dest(hs[k]);
      }
      SpawnRows(hs, k + 1, s', d', sizes, config);
    }
  }

  predicate SlotsIncrease(ws: seq<Worker>) {
    forall i, j :: 0 <= i < j < |ws| ==> ws[i].slot < ws[j].slot
  }

  /** Workers are stored in increasing slot order. */
  lemma {:induction false} SpawnOrdered(hs: seq<nat>, k: nat, srcData: int, destData: int,
                                        sizes: BandSizes, config: seq<Param>)
    requires k <= |hs|
    ensures SlotsIncrease(Spawn(hs, k, srcData, destData, sizes, config))
    decreases |hs| - k
  {
    var ws := Spawn(hs, k, srcData, destData, sizes, config);
    if k < |hs| {
      if hs[k] == 0 {
        SpawnOrdered(hs, k + 1, srcData, destData, sizes, config);
        assert ws == Spawn(hs, k + 1, srcData, destData, sizes, config);
      } else {
        var s', d' := srcData + sizes.source(hs[k]), destData + sizes.dest(hs[k]);
        var rest := Spawn(hs, k + 1, s', d', sizes, config);
        SpawnOrdered(hs, k + 1, s', d', sizes, config);
        assert ws == [Worker(k, hs[k], srcData, destData, config)] + rest;
        forall i, j | 0 <= i < j < |ws|
          ensures ws[i].slot < ws[j].slot
        {
          assert ws[j] == rest[j - 1];
          assert rest[j - 1] in rest;
          if i > 0 {
            assert ws[i] == rest[i - 1];
          }
        }
      }
    }
  }

  /** Every non-empty band gets its worker. */
  lemma {:induction false} SpawnComplete(hs: seq<nat>, k: nat, srcData: int, destData: int,
                                         sizes: BandSizes, config: seq<Param>, i: nat)
    requires k <= i < |hs| && hs[i] > 0
    ensures exists w <- Spawn(hs, k, srcData, destData, sizes, config) :: w.slot == i
    decreases |hs| - k
  {
    var ws := Spawn(hs, k, srcData, destData, sizes, config);
    if i == k {
      assert ws[0].slot == i;
    } else if hs[k] == 0 {
      SpawnComplete(hs, k + 1, srcData, destData, sizes, config, i);
    } else {
      var s', d' := srcData + sizes.source(hs[k]), destData + sizes.dest(hs[k]);
      var rest := Spawn(hs, k + 1, s', d', sizes, config);
      SpawnComplete(hs, k + 1, s', d', sizes, config, i);
      var w :| w in rest && w.slot == i;
      assert ws[1..] == rest;
      assert w in ws;
    }
  }

  /** One instance of SpawnOffsets: worker j starts after the bands of workers 0..j-1. */
  lemma {:induction false} SpawnOffsetAt(hs: seq<nat>, k: nat, srcData: int, destData: int,
                                         sizes: BandSizes, config: seq<Param>, j: nat)
    requires k <= |hs| && j < |Spawn(hs, k, srcData, destData, sizes, config)|
    ensures var ws := Spawn(hs, k, srcData, destData, sizes, config);
            ws[j].srcData == srcData + SumBytes(sizes.source, ws[..j]) &&
            ws[j].destData == destData + SumBytes(sizes.dest, ws[..j])
    decreases |hs| - k
  {
    var ws := Spawn(hs, k, srcData, destData, sizes, config);
    if hs[k] == 0 {
      SpawnOffsetAt(hs, k + 1, srcData, destData, sizes, config, j);
    } else if j > 0 {
      var s', d' := srcData + sizes.source(hs[k]), destData + sizes.dest(hs[k]);
      var rest := Spawn(hs, k + 1, s', d', sizes, config);
      assert ws[1..] == rest;
      SpawnOffsetAt(hs, k + 1, s', d', sizes, config, j - 1);
      var pre := ws[..j];
      assert pre[1..] == rest[..j - 1];
      assert ws[j] == rest[j - 1];
    }
  }

  /**
   * Each worker's source and destination addresses are the base addresses plus the sizes
   * of all earlier workers' bands, computed from their actual heights.
   */
  lemma SpawnOffsets(hs: seq<nat>, k: nat, srcData: int, destData: int,
                     sizes: BandSizes, config: seq<Param>)
    requires k <= |hs|
    ensures var ws := Spawn(hs, k, srcData, destData, sizes, config);
            forall j :: 0 <= j < |ws| ==>
              ws[j].srcData == srcData + SumBytes(sizes.source, ws[..j]) &&
              ws[j].destData == destData + SumBytes(sizes.dest, ws[..j])
  {
    var ws := Spawn(hs, k, srcData, destData, sizes, config);
    forall j | 0 <= j < |ws|
      ensures ws[j].srcData == srcData + SumBytes(sizes.source, ws[..j])
      ensures ws[j].destData == destData + SumBytes(sizes.dest, ws[..j])
    {
      SpawnOffsetAt(hs, k, srcData, destData, sizes, config, j);
    }
  }

  /** The largest number of workers: the processor count capped at MAX_THREADS. */
  function MaxThreadCount(processorCount: nat, maxThreads: nat): (n: nat)
    ensures n <= processorCount && n <= maxThreads
    ensures n == processorCount || n == maxThreads
  {
    if processorCount < maxThreads then processorCount else maxThreads
  }

  /** The workers ThreadedCompressTexture spawns when nothing fails. */
  function Workers(height: nat, threads: nat, blockHeight: nat, srcData: int, destData: int,
                   sizes: BandSizes, config: seq<Param>): seq<Worker>
    requires blockHeight > 0
  {
    Spawn(Bands(height, threads, blockHeight), 0, srcData, destData, sizes, config)
  }

  /** Workers spawned for aligned bands are aligned, all but the last. */
  lemma SpawnAligned(hs: seq<nat>, srcData: int, destData: int, sizes: BandSizes,
                     config: seq<Param>, blockHeight: nat)
    requires AlignedBeforeLast(hs, blockHeight)
    ensures var ws := Spawn(hs, 0, srcData, destData, sizes, config);
            forall j :: 0 <= j < |ws| - 1 ==> IsMultiple(ws[j].rows, blockHeight)
  {
    var ws := Spawn(hs, 0, srcData, destData, sizes, config);
    SpawnOrdered(hs, 0, srcData, destData, sizes, config);
    forall j | 0 <= j < |ws| - 1
      ensures IsMultiple(ws[j].rows, blockHeight)
    {
      assert ws[j] in ws && ws[j + 1] in ws;
      assert ws[j].slot < ws[j + 1].slot;
      assert hs[ws[j].slot] > 0 && hs[ws[j + 1].slot] > 0;
    }
  }

  /** One worker's band ends where the next worker's begins, in both buffers. */
  lemma SpawnNextAt(hs: seq<nat>, srcData: int, destData: int, sizes: BandSizes,
                    config: seq<Param>, j: nat)
    requires j + 1 < |Spawn(hs, 0, srcData, destData, sizes, config)|
    ensures var ws := Spawn(hs, 0, srcData, destData, sizes, config);
            ws[j + 1].srcData == ws[j].srcData + sizes.source(ws[j].rows) &&
            ws[j + 1].destData == ws[j].destData + sizes.dest(ws[j].rows)
  {
    var ws := Spawn(hs, 0, srcData, destData, sizes, config);
    SpawnOffsetAt(hs, 0, srcData, destData, sizes, config, j);
    SpawnOffsetAt(hs, 0, srcData, destData, sizes, config, j + 1);
    SumBytesPrefix(sizes.source, ws, j);
    SumBytesPrefix(sizes.dest, ws, j);
  }

  /** Consecutive workers' bands are adjacent in both buffers. */
  lemma SpawnAdjacent(hs: seq<nat>, srcData: int, destData: int, sizes: BandSizes,
                      config: seq<Param>)
    ensures var ws := Spawn(hs, 0, srcData, destData, sizes, config);
            (|ws| > 0 ==> ws[0].srcData == srcData && ws[0].destData == destData) &&
            forall j :: 0 <= j < |ws| - 1 ==>
              ws[j + 1].srcData == ws[j].srcData + sizes.source(ws[j].rows) &&
              ws[j + 1].destData == ws[j].destData + sizes.dest(ws[j].rows)
  {
    var ws := Spawn(hs, 0, srcData, destData, sizes, config);
    forall j | 0 <= j < |ws| - 1
      ensures ws[j + 1].srcData == ws[j].srcData + sizes.source(ws[j].rows)
      ensures ws[j + 1].destData == ws[j].destData + sizes.dest(ws[j].rows)
    {
      SpawnNextAt(hs, srcData, destData, sizes, config, j);
    }
    if |ws| > 0 {
      SpawnOffsetAt(hs, 0, srcData, destData, sizes, config, 0);
      assert ws[..0] == [];
    }
  }

  /**
   * The partition the workers get: with at least one worker slot, their bands add up to
   * the image height; there are at most as many workers as slots, none with an empty band,
   * and every worker but the last has a whole number of blocks.
   */
  lemma WorkersPartitionImage(height: nat, threads: nat, blockHeight: nat, srcData: int,
                              destData: int, sizes: BandSizes, config: seq<Param>)
    requires blockHeight > 0
    ensures var ws := Workers(height, threads, blockHeight, srcData, destData, sizes, config);
            |ws| <= threads &&
            (threads > 0 ==> SumRows(ws) == height) &&
            (forall j :: 0 <= j < |ws| ==> ws[j].rows > 0) &&
            (forall j :: 0 <= j < |ws| - 1 ==> IsMultiple(ws[j].rows, blockHeight))
  {
    var hs := Bands(height, threads, blockHeight);
    var ws := Spawn(hs, 0, srcData, destData, sizes, config);
    SpawnRows(hs, 0, srcData, destData, sizes, config);
    BandsAligned(height, threads, blockHeight);
    SpawnAligned(hs, srcData, destData, sizes, config, blockHeight);
    assert hs[0..] == hs;
    forall j | 0 <= j < |ws|
      ensures ws[j].rows > 0
    {
      assert ws[j] in ws;
    }
  }

  /**
   * Consecutive workers' bands are adjacent in both buffers: the first starts at the base
   * addresses and each next one where the previous one's band ends, so no byte is
   * written twice or skipped.
   */
  lemma WorkersAdjacent(height: nat, threads: nat, blockHeight: nat, srcData: int,
                        destData: int, sizes: BandSizes, config: seq<Param>)
    requires blockHeight > 0
    ensures var ws := Workers(height, threads, blockHeight, srcData, destData, sizes, config);
            (|ws| > 0 ==> ws[0].srcData == srcData && ws[0].destData == destData) &&
            forall j :: 0 <= j < |ws| - 1 ==>
              ws[j + 1].srcData == ws[j].srcData + sizes.source(ws[j].rows) &&
              ws[j + 1].destData == ws[j].destData + sizes.dest(ws[j].rows)
  {
    SpawnAdjacent(Bands(height, threads, blockHeight), srcData, destData, sizes, config);
  }

  lemma {:induction false} SumBytesExtend(size: nat -> nat, ws: seq<Worker>, w: Worker)
    ensures SumBytes(size, ws + [w]) == SumBytes(size, ws) + size(w.rows)
  {
    if ws != [] {
      SumBytesExtend(size, ws[1..], w);
      assert (ws + [w])[1..] == ws[1..] + [w];
    }
  }

  /** The bytes of the first `j + 1` workers are those of the first `j` and then worker `j`'s. */
  lemma SumBytesPrefix(size: nat -> nat, ws: seq<Worker>, j: nat)
    requires j < |ws|
    ensures SumBytes(size, ws[..j + 1]) == SumBytes(size, ws[..j]) + size(ws[j].rows)
  {
    assert ws[..j + 1] == ws[..j] + [ws[j]];
    SumBytesExtend(size, ws[..j], ws[j]);
  }


  // ---------------------------------------------------------------------------------
  // Early exits and the reduction of exit codes.

  /**
   * The error of the first slot, from k on, that makes the loop return early: a codec that
   * could not be created, or, for a non-empty band, a buffer that could not be.
   */
  function Fault(hs: seq<nat>, slots: seq<Slot>, k: nat): (e: Option<CmpError>)
    requires k <= |hs| <= |slots|
    ensures e == Some(UnableToInitCodec) || e == Some(GenericError) || e.None?
    decreases |hs| - k
  {
    if k == |hs| then None
    else if !slots[k].codecCreated then Some(UnableToInitCodec)
    else if hs[k] > 0 && !(slots[k].srcBufferCreated && slots[k].destBufferCreated) then Some(GenericError)
    else Fault(hs, slots, k + 1)
  }

  /** The loop runs to completion exactly when every slot's factories succeed. */
  lemma {:induction false} FaultNoneIff(hs: seq<nat>, slots: seq<Slot>, k: nat)
    requires k <= |hs| <= |slots|
    ensures Fault(hs, slots, k).None? <==>
              forall i :: k <= i < |hs| ==>
                slots[i].codecCreated &&
                (hs[i] > 0 ==> slots[i].srcBufferCreated && slots[i].destBufferCreated)
    decreases |hs| - k
  {
    if k < |hs| {
      FaultNoneIff(hs, slots, k + 1);
    }
  }

  /**
   * The workers whose threads were started before the loop stopped: as Spawn, but ending at
   * the first slot whose codec, or whose buffers for a non-empty band, could not be created.
   */
  function Launched(hs: seq<nat>, slots: seq<Slot>, k: nat, srcData: int, destData: int,
                    sizes: BandSizes, config: seq<Param>): (ws: seq<Worker>)
    requires k <= |hs| <= |slots|
    ensures |ws| <= |hs| - k
    ensures forall w <- ws :: k <= w.slot < |hs| && w.rows == hs[w.slot] > 0 && w.config == config
    decreases |hs| - k
  {
    if k == |hs| || !slots[k].codecCreated then []
    else if hs[k] == 0 then Launched(hs, slots, k + 1, srcData, destData, sizes, config)
    else if !(slots[k].srcBufferCreated && slots[k].destBufferCreated) then []
    else
      [Worker(k, hs[k], srcData, destData, config)] +
      Launched(hs, slots, k + 1, srcData + sizes.source(hs[k]), destData + sizes.dest(hs[k]),
               sizes, config)
  }

  /** A slot whose codec cannot be created ends the loop with UNABLE_TO_INIT_CODEC. */
  lemma CodecFailureStops(hs: seq<nat>, slots: seq<Slot>, k: nat, srcData: int, destData: int,
                          sizes: BandSizes, config: seq<Param>)
    requires k < |hs| <= |slots| && !slots[k].codecCreated
    ensures Fault(hs, slots, k) == Some(UnableToInitCodec)
    ensures Launched(hs, slots, k, srcData, destData, sizes, config) == []
  {
  }

  /** A non-empty band whose buffers cannot be created ends the loop with ERR_GENERIC. */
  lemma BufferFailureStops(hs: seq<nat>, slots: seq<Slot>, k: nat, srcData: int, destData: int,
                           sizes: BandSizes, config: seq<Param>)
    requires k < |hs| <= |slots| && slots[k].codecCreated && hs[k] > 0
    requires !(slots[k].srcBufferCreated && slots[k].destBufferCreated)
    ensures Fault(hs, slots, k) == Some(GenericError)
    ensures Launched(hs, slots, k, srcData, destData, sizes, config) == []
  {
  }

  /** A slot with an empty band starts no worker and moves no address. */
  lemma LaunchedSkip(hs: seq<nat>, slots: seq<Slot>, k: nat, srcData: int, destData: int,
                     sizes: BandSizes, config: seq<Param>)
    requires k < |hs| <= |slots| && slots[k].codecCreated && hs[k] == 0
    ensures Fault(hs, slots, k) == Fault(hs, slots, k + 1)
    ensures Launched(hs, slots, k, srcData, destData, sizes, config) ==
            Launched(hs, slots, k + 1, srcData, destData, sizes, config)
  {
  }

  /**
   * A slot with a non-empty band whose codec and buffers were created starts its worker,
   * and the next band starts at `nextSrc` and `nextDest`.
   */
  lemma LaunchedStart(hs: seq<nat>, slots: seq<Slot>, k: nat, srcData: int, destData: int,
                      nextSrc: int, nextDest: int, sizes: BandSizes, config: seq<Param>)
    requires k < |hs| <= |slots| && slots[k].codecCreated && hs[k] > 0
    requires slots[k].srcBufferCreated && slots[k].destBufferCreated
    requires nextSrc == srcData + sizes.source(hs[k]) && nextDest == destData + sizes.dest(hs[k])
    ensures Fault(hs, slots, k) == Fault(hs, slots, k + 1)
    ensures Launched(hs, slots, k, srcData, destData, sizes, config) ==
            [Worker(k, hs[k], srcData, destData, config)] +
            Launched(hs, slots, k + 1, nextSrc, nextDest, sizes, config)
  {
  }

  /** When no slot faults, every non-empty band gets its worker. */
  lemma {:induction false} LaunchedWithoutFault(hs: seq<nat>, slots: seq<Slot>, k: nat,
                                                srcData: int, destData: int, sizes: BandSizes,
                                                config: seq<Param>)
    requires k <= |hs| <= |slots|
    requires Fault(hs, slots, k).None?
    ensures Launched(hs, slots, k, srcData, destData, sizes, config) ==
            Spawn(hs, k, srcData, destData, sizes, config)
    decreases |hs| - k
  {
    if k < |hs| {
      assert slots[k].codecCreated;
      if hs[k] == 0 {
        LaunchedWithoutFault(hs, slots, k + 1, srcData, destData, sizes, config);
      } else {
        LaunchedWithoutFault(hs, slots, k + 1, srcData + sizes.source(hs[k]),
                             destData + sizes.dest(hs[k]), sizes, config);
      }
    }
  }

  /** The exit codes of the workers, in the order their handles were stored. */
  function ExitCodes(ws: seq<Worker>, slots: seq<Slot>): (codes: seq<Option<CodecError>>)
    requires forall w <- ws :: w.slot < |slots|
    ensures |codes| == |ws|
    ensures forall j :: 0 <= j < |ws| ==> codes[j] == slots[ws[j].slot].exitCode
  {
    seq(|ws|, j requires 0 <= j < |ws| => slots[ws[j].slot].exitCode)
  }

  /**
   * The join loop (lines 427-436): while the running code is CE_OK, a successful query
   * replaces it with the worker's exit code; a failed query leaves it as it is.
   */
  function Reduce(codes: seq<Option<CodecError>>, err: CodecError): (r: CodecError)
    ensures r == err || Some(r) in codes
    ensures r != err ==> err == CeOk
    decreases |codes|
  {
    if codes == [] then err
    else Reduce(codes[1..], if err == CeOk && codes[0].Some? then codes[0].value else err)
  }

  /** An exit code the query reported as anything but CE_OK. */
  predicate IsFailure(code: Option<CodecError>) {
    code.Some? && code.value != CeOk
  }

  /** Once the running code is a failure it stays: later workers cannot override it. */
  lemma {:induction false} ReduceSticky(codes: seq<Option<CodecError>>, err: CodecError)
    requires err != CeOk
    ensures Reduce(codes, err) == err
    decreases |codes|
  {
    if codes != [] {
      ReduceSticky(codes[1..], err);
    }
  }

  /** With no reported failure the overall code is CE_OK. */
  lemma {:induction false} ReduceAllOk(codes: seq<Option<CodecError>>)
    requires forall i :: 0 <= i < |codes| ==> !IsFailure(codes[i])
    ensures Reduce(codes, CeOk) == CeOk
    decreases |codes|
  {
    if codes != [] {
      ReduceAllOk(codes[1..]);
    }
  }

  /** Otherwise the overall code is the first reported failure, in worker order. */
  lemma {:induction false} ReduceFirstFailure(codes: seq<Option<CodecError>>, i: nat)
    requires i < |codes| && IsFailure(codes[i])
    requires forall j :: 0 <= j < i ==> !IsFailure(codes[j])
    ensures Reduce(codes, CeOk) == codes[i].value
    decreases i
  {
    if i == 0 {
      ReduceSticky(codes[1..], codes[0].value);
    } else {
      ReduceFirstFailure(codes[1..], i - 1);
    }
  }

  /** The overall code is CE_OK exactly when no worker reported a failure. */
  lemma {:induction false} ReduceOkIff(codes: seq<Option<CodecError>>)
    ensures Reduce(codes, CeOk) == CeOk <==> forall i :: 0 <= i < |codes| ==> !IsFailure(codes[i])
    decreases |codes|
  {
    if codes != [] {
      if IsFailure(codes[0]) {
        ReduceSticky(codes[1..], codes[0].value);
      } else {
        ReduceOkIff(codes[1..]);
        assert forall i :: 1 <= i < |codes| ==> codes[i] == codes[1..][i - 1];
      }
    }
  }
}
