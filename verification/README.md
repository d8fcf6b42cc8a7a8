# Compressonator dispatch core in Dafny

This project models the dispatcher at the heart of Compressonator's texture compression
(`Compressonator/Source/Compress.cpp`). It covers five parts:

- **Format registry (`Formats`).** `GetCodecType` maps a `CMP_FORMAT` to the codec family
  (`CodecType`) that produces it. Several block formats are aliases (BC1 is DXT1, BC4 is ATI1N,
  and so on). Uncompressed layouts have no codec, and anything unlisted is `CT_Unknown`.
- **Error mapping (`Errors`).** `GetError` turns a codec's `CodecError` into the public
  `CMP_ERROR`.
- **Texture validator (`Validation`).** `CheckTexture` runs its checks in a fixed order: the
  version tag, the dimensions, the format range, the pitch rule for 4-byte formats, the data
  pointer, then the data size. The error names the source or the destination texture and is
  either "invalid texture" or "unsupported format".
- **Option translation (`Options`).** A codec is modelled as an object whose `SetParameter`
  calls are appended to a log. The model has:
  - the channel weights, each floored at `MINIMUM_WEIGHT_VALUE`
  - the fixed typed parameters
  - the compression speed chosen from the quality (the fast tiers are absent on the
    sequential path of a 64-bit build)
  - the per-codec switch of the sequential path (BC7, ASTC, GT, BC6H, BC6H_SF)
  - the free-form commands, capped at `AMD_MAX_CMDS`
- **Compression drivers (`Banding`, `Dispatch`).**
  - `CompressTexture` runs one codec over the whole image.
  - `ThreadedCompressTexture` refuses BC7, GT and ASTC. For every other codec it splits the
    destination rows into bands, one per worker slot (at most `min(processors, MAX_THREADS)`
    slots). Each band is as high as the remaining rows' share, rounded up to the codec's
    block height and capped at what remains. The last slot takes all remaining rows.
  - For each non-empty band, it creates the band's buffers at the current source and
    destination addresses, advances both addresses by the band's byte size, and starts a
    worker.
  - It then waits for the workers and folds their exit codes: the first failure reported, in
    worker order, is kept.

The code is specified against pure functions: `Bands`, `Spawn`/`Launched`, `Fault` and
`Reduce` in `Banding`, and `ThreadedWorkers`/`ThreadedFault`/`ThreadedOutcome` in
`Dispatch`. Lemmas prove:

- the bands cover the image exactly
- every band but the last non-empty one is a whole number of blocks
- workers' addresses follow each other without gap or overlap
- the result is `CMP_OK` exactly when no worker reported a failure

Things outside this file enter as parameters:
- **Threaded environment.** A `ThreadedEnv` holds the processor count, the codec's block
  height, the two `CalcBufferSize` functions and each slot's factory results and exit code.
- **Sequential environment.** A `SequentialEnv` holds the factory results and the outcome
  of `Compress`.
- **Buffer size.** `CMP_CalculateBufferSize` is a function parameter of `CheckTexture`.
- **Constants.** The header values (`sizeof` tags, `AMD_MAX_CMDS`, `MAX_THREADS`,
  `MINIMUM_WEIGHT_VALUE`, `AMD_CODEC_QUALITY_DEFAULT`, the format enumeration's bounds) are
  kept symbolic in `Header`.
- **Build switches.** `_WIN64` and `ARGB_32_SUPPORT` are fields of `Build`.

Two consequences of the code are worth stating:
- **Band rounding.** Each band's share is rounded UP to a multiple of the block height and
  then capped at the remaining rows (line 393). A band that is not a whole number of blocks
  has therefore taken every remaining row, and all later bands are empty.
- **No workers.** With zero processors there are no workers, and the threaded driver
  returns `CMP_OK` without compressing anything.

## Model

| member | source | states |
|---|---|---|
| Errors.GetError | Compressonator/Source/Compress.cpp:94-103 | CMP_OK exactly for CE_OK, CMP_ABORTED exactly for CE_Aborted, CMP_ERR_GENERIC exactly for every other codec error |
| Errors.FromExitCode | Compressonator/Source/Compress.cpp:432-433 | casting a raw exit code gives CE_OK, CE_Aborted or CE_Unknown exactly for their values, and any other value stays a code distinct from all three |
| Errors.GetErrorOfExitCode | Compressonator/Source/Compress.cpp:94-103 | a raw exit code maps to CMP_OK exactly when it is CE_OK's value, to CMP_ABORTED exactly for CE_Aborted's, and to CMP_ERR_GENERIC otherwise |
| Formats.GetCodecType | Compressonator/Source/Compress.cpp:36-92 | every uncompressed layout of the build gets no codec, and every block format gets a real codec (neither CT_None nor CT_Unknown) |
| Formats.CodecTypeClassifies | Compressonator/Source/Compress.cpp:36-92 | a format gets no codec (CT_None) exactly when it is an uncompressed layout of the build (the 32-bit integer layouts only with ARGB_32_SUPPORT); it is CT_Unknown exactly when it is neither such a layout nor a named block format, so every block format gets a codec |
| Formats.BC1AliasesDXT1 | Compressonator/Source/Compress.cpp:62-75 | BC1 and DXT1 both resolve to the DXT1 codec |
| Formats.BC2AliasesDXT3 | Compressonator/Source/Compress.cpp:63-76 | BC2 and DXT3 both resolve to the DXT3 codec |
| Formats.BC3AliasesDXT5 | Compressonator/Source/Compress.cpp:64-77 | BC3 and DXT5 both resolve to the DXT5 codec |
| Formats.BC4AliasesATI1N | Compressonator/Source/Compress.cpp:71-78 | BC4 and ATI1N both resolve to the ATI1N codec |
| Formats.BC5AliasesATI2NXY | Compressonator/Source/Compress.cpp:73-79 | BC5 and ATI2N_XY both resolve to the ATI2N_XY codec |
| Formats.EveryCodecTypeReached | Compressonator/Source/Compress.cpp:36-92 | every codec type, CT_None and CT_Unknown included, is the codec of some format |
| Validation.CheckTexture | Compressonator/Source/Compress.cpp:105-143 | the texture is accepted exactly when it is present and every check holds; the error is "unsupported format" exactly when tag and dimensions are fine but the format range or pitch rule fails, otherwise "invalid texture"; a non-OK result names the source exactly when the source is being checked |
| Validation.ZeroPitchAccepted | Compressonator/Source/Compress.cpp:127-131 | with a pitch of 0 only the format range can make a texture unsupported |
| Validation.PitchRuleExactBelowWrap | Compressonator/Source/Compress.cpp:129-131 | below a width of 2^30 the 32-bit pitch rule is the exact "pitch is 0 or at least 4 bytes per pixel" rule |
| Validation.PitchRuleWrapsAtLargeWidth | Compressonator/Source/Compress.cpp:129-131 | at a width of 2^30, `dwWidth*4` wraps to 0, so a 4-byte pitch for an ARGB_8888 row passes the rule |
| Options.Codec.SetParameter | Compressonator/Source/Compress.cpp:162-175 | each SetParameter call appends exactly its name and value to the codec's log |
| Options.ClampWeight | Compressonator/Source/Compress.cpp:163-171 | the weight sent is at least MINIMUM_WEIGHT_VALUE, equals the caller's weight above it and the minimum otherwise |
| Options.ResolvedSpeed | Compressonator/Source/Compress.cpp:177-190 | at the default quality the caller's speed is kept; otherwise below 0.3 SuperFast, in [0.3, 0.6) Fast and else Normal when the fast tiers exist, and always Normal when they do not |
| Options.CodecExtras | Compressonator/Source/Compress.cpp:193-220 | only BC7, ASTC, GT, BC6H and BC6H_SF get per-codec parameters, all ending with Quality; only BC7 gets more: six entries, MultiThreading, NumThreads (1 when multithreading is disabled), ModeMask, ColourRestrict and AlphaRestrict with the option values, then Quality |
| Options.CommandCount | Compressonator/Source/Compress.cpp:223-226 | the number of commands sent is NumCmds capped at AMD_MAX_CMDS, and none when NumCmds is not positive |
| Options.SetWeights | Compressonator/Source/Compress.cpp:160-172 | appends the four weight entries exactly when weighting is on and some weight is positive |
| Options.SetSpeed | Compressonator/Source/Compress.cpp:177-190 | appends one CompressionSpeed entry carrying the resolved speed |
| Options.SetCommonParameters | Compressonator/Source/Compress.cpp:160-190 | appends the weights, the adaptive-weighting, DXT1-alpha and alpha-threshold entries, then the speed |
| Options.SetBC7Extras | Compressonator/Source/Compress.cpp:195-207 | appends the six BC7 entries in source order |
| Options.SetSequentialTyped | Compressonator/Source/Compress.cpp:160-220 | appends the common typed entries, then the per-codec entries |
| Options.SetCodecExtras | Compressonator/Source/Compress.cpp:193-220 | appends the per-codec entries of the sequential switch and nothing for other codecs |
| Options.SequentialParams | Compressonator/Source/Compress.cpp:157-229 | CompressTexture's parameter log is empty exactly when the options are absent or wrongly sized; otherwise it has the weight entries, the four fixed entries, the per-codec entries and the capped commands |
| Options.ThreadedParams | Compressonator/Source/Compress.cpp:329-381 | a worker codec's parameter log is empty exactly when the options are absent or wrongly sized |
| Options.SetCommands | Compressonator/Source/Compress.cpp:223-229 | appends the first min(NumCmds, AMD_MAX_CMDS) commands in index order, each as a string parameter |
| Options.ConfigureSequential | Compressonator/Source/Compress.cpp:157-233 | the codec's log grows by exactly the sequential parameter log, which is empty for absent or wrongly sized options |
| Options.ConfigureThreaded | Compressonator/Source/Compress.cpp:329-383 | the worker codec's log grows by exactly the threaded parameter log (fast tiers always, no per-codec entries) |
| Options.UnusableOptionsSetNothing | Compressonator/Source/Compress.cpp:157 | absent options, or options whose size tag is wrong, configure nothing on either path |
| Options.TypedParamsLeadTheLog | Compressonator/Source/Compress.cpp:160-190 | on both paths the log opens with the weights (exactly when weighting is enabled, each floored), then adaptive weighting, DXT1 alpha, alpha threshold and the resolved speed |
| Options.TypedParamsHaveNoText | Compressonator/Source/Compress.cpp:160-220 | no typed parameter on either path carries a string value |
| Options.CommandsComeLast | Compressonator/Source/Compress.cpp:223-229 | on both paths the log ends with the capped commands in index order, and they are its only string values |
| Options.ThreadedMatchesSequential | Compressonator/Source/Compress.cpp:329-381 | for a codec without per-codec entries, and unless a 64-bit build resolves a non-default quality, a worker's log equals the sequential log |
| Options.ThreadedHasNoCodecExtras | Compressonator/Source/Compress.cpp:365-370 | no typed entry of a worker's log is Quality, MultiThreading or NumThreads |
| Banding.RoundUp | Compressonator/Source/Compress.cpp:393 | rounding up gives a whole number of blocks that is at least the share and less than one block above it |
| Banding.BandHeight | Compressonator/Source/Compress.cpp:387-397 | a band never exceeds the rows remaining; the last slot takes them all; any other band is at least the fair share, at most the share rounded up to the block height, and either takes all remaining rows or is a whole number of blocks less than one block above the share, so it is the smaller of the rounded-up share and the rows remaining |
| Banding.Bands | Compressonator/Source/Compress.cpp:318-397 | one band per slot, and with at least one slot the bands add up to the image height |
| Banding.BandsAligned | Compressonator/Source/Compress.cpp:389-394 | every non-empty band followed by another non-empty band is a whole number of blocks |
| Banding.Spawn | Compressonator/Source/Compress.cpp:399-422 | at most one worker per band; each worker's slot is one of the bands, its rows are that band's (never zero) and its codec carries the shared configuration |
| Banding.SpawnRows | Compressonator/Source/Compress.cpp:399-422 | the workers' rows add up to the rows of the bands they were spawned for |
| Banding.SpawnOrdered | Compressonator/Source/Compress.cpp:421 | workers are stored in strictly increasing slot order |
| Banding.SpawnComplete | Compressonator/Source/Compress.cpp:399-422 | every non-empty band gets a worker |
| Banding.SpawnOffsets | Compressonator/Source/Compress.cpp:408-409 | each worker's source and destination addresses are the base addresses plus the byte sizes of all earlier workers' actual bands |
| Banding.SpawnAdjacent | Compressonator/Source/Compress.cpp:401-409 | the first worker starts at the base addresses and each next one where the previous one's band ends, in both buffers |
| Banding.WorkersPartitionImage | Compressonator/Source/Compress.cpp:385-422 | no more workers than slots, none with an empty band, all bands but the last a whole number of blocks, and (with a slot) together exactly the image height |
| Banding.WorkersAdjacent | Compressonator/Source/Compress.cpp:399-409 | the workers' bands are adjacent in both buffers: no byte written twice or skipped |
| Banding.MaxThreadCount | Compressonator/Source/Compress.cpp:309 | the slot count is the smaller of the processor count and MAX_THREADS |
| Banding.Fault | Compressonator/Source/Compress.cpp:323-414 | the loop's early error is UNABLE_TO_INIT_CODEC, ERR_GENERIC, or none |
| Banding.FaultNoneIff | Compressonator/Source/Compress.cpp:323-414 | the loop runs to completion exactly when every slot's codec, and every non-empty band's two buffers, are created |
| Banding.Launched | Compressonator/Source/Compress.cpp:318-423 | the workers started before an early exit are a subset of the bands, never empty, in slot range |
| Banding.CodecFailureStops | Compressonator/Source/Compress.cpp:323-326 | a slot whose codec cannot be created ends the loop with UNABLE_TO_INIT_CODEC and starts no further worker |
| Banding.BufferFailureStops | Compressonator/Source/Compress.cpp:411-414 | a non-empty band whose buffers cannot be created ends the loop with ERR_GENERIC and starts no further worker |
| Banding.LaunchedSkip | Compressonator/Source/Compress.cpp:399 | an empty band starts no worker and moves neither address |
| Banding.LaunchedStart | Compressonator/Source/Compress.cpp:399-421 | a non-empty band with its buffers starts its worker at the current addresses, and the next band starts after its bytes |
| Banding.LaunchedWithoutFault | Compressonator/Source/Compress.cpp:318-423 | when no slot faults, the workers started are exactly one per non-empty band |
| Banding.ExitCodes | Compressonator/Source/Compress.cpp:428-433 | one exit code per started worker, in the order the handles were stored |
| Banding.Reduce | Compressonator/Source/Compress.cpp:427-436 | the join loop's overall code is either the starting code or one of the queried exit codes, and it can change only from CE_OK |
| Banding.ReduceSticky | Compressonator/Source/Compress.cpp:432-433 | once the running code is a failure, later workers cannot change it |
| Banding.ReduceAllOk | Compressonator/Source/Compress.cpp:427-436 | with no reported failure the overall code is CE_OK |
| Banding.ReduceFirstFailure | Compressonator/Source/Compress.cpp:427-436 | otherwise the overall code is the first reported failure in worker order |
| Banding.ReduceOkIff | Compressonator/Source/Compress.cpp:427-436 | the overall code is CE_OK exactly when no worker reported a failure |
| Dispatch.ThreadedFault | Compressonator/Source/Compress.cpp:304-414 | the early error is CMP_ABORTED exactly for the excluded codecs, and otherwise UNABLE_TO_INIT_CODEC, ERR_GENERIC or none |
| Dispatch.ThreadedWorkers | Compressonator/Source/Compress.cpp:309-423 | the excluded codecs start no worker; there are at most min(processors, MAX_THREADS) workers, each with a non-empty band and the threaded parameter log |
| Dispatch.ThreadedOutcome | Compressonator/Source/Compress.cpp:302-439 | the excluded codecs give CMP_ABORTED, and CMP_OK is only returned when the loop ran to completion |
| Dispatch.Abandoned | Compressonator/Source/Compress.cpp:323-414 | workers are abandoned only after an early error of an allowed codec, and only workers the driver started |
| Dispatch.CompressTexture | Compressonator/Source/Compress.cpp:147-263 | UNABLE_TO_INIT_CODEC exactly when the codec cannot be created; the codec is configured with the sequential log; OK (or ABORTED) exactly when codec and both buffers exist and Compress returns CE_OK (or CE_Aborted); otherwise ERR_GENERIC |
| Dispatch.StartWorkers | Compressonator/Source/Compress.cpp:309-423 | the loop's early error is the specified fault, and the handle table's filled prefix holds exactly the specified started workers |
| Dispatch.RunSlots | Compressonator/Source/Compress.cpp:317-423 | the loop over the slots returns the first fault and stores the launched workers in order |
| Dispatch.StartSlot | Compressonator/Source/Compress.cpp:320-422 | one pass returns the slot's fault, starting nothing; otherwise it keeps the band table in step and stores the slot's worker, if any, after the earlier ones |
| Dispatch.CreateThreadedCodec | Compressonator/Source/Compress.cpp:323-383 | a fresh worker codec configured with exactly the threaded log |
| Dispatch.StoreHandle | Compressonator/Source/Compress.cpp:421 | the new handle goes right after the ones already stored, which are unchanged |
| Dispatch.NextBand | Compressonator/Source/Compress.cpp:387-397 | the height the loop computes is the partition's band height, and the rows left are those the remaining bands share |
| Dispatch.RoundedShare | Compressonator/Source/Compress.cpp:392-393 | the loop's rounding formula gives the partition's band height |
| Dispatch.JoinWorkers | Compressonator/Source/Compress.cpp:425-436 | the join loop's code is the fold of the workers' exit codes, and every handle is closed |
| Dispatch.ThreadedCompressTexture | Compressonator/Source/Compress.cpp:302-439 | returns the specified outcome, starts the specified workers, and abandons exactly the started workers when an early error occurs |
| Dispatch.ThreadedCompressTextureJoined | Compressonator/Source/Compress.cpp:302-439 | the same outcome and workers, with no worker left abandoned |
| Dispatch.ExcludedCodecsAbort | Compressonator/Source/Compress.cpp:304-307 | BC7, GT and ASTC are refused with CMP_ABORTED before any worker starts; otherwise ABORTED comes only from the workers' exit codes |
| Dispatch.ThreadedWorkersPartitionImage | Compressonator/Source/Compress.cpp:385-422 | without an early error the threaded driver's workers are the partition's workers for the destination height |
| Dispatch.ThreadedOkIff | Compressonator/Source/Compress.cpp:427-438 | the threaded driver returns CMP_OK exactly when the codec is allowed, no slot faults and no worker reports a failure |
| Dispatch.AbandonedOnlyOnEarlyExit | Compressonator/Source/Compress.cpp:323-414 | workers are abandoned exactly when an early error ends the loop after some worker started |
| Dispatch.EarlyExitAbandonsWorker | Compressonator/Source/Compress.cpp:323-326 | with two slots and at least one row per slot, a started first worker and a failed second codec make the driver return UNABLE_TO_INIT_CODEC with that worker still running |

## Left out

- Threads are not modelled as concurrent processes. `CreateThread`, `WaitForMultipleObjects`
  and `GetExitCodeThread` are modelled by their effect: a started worker, a join, and each
  slot's exit-code query result.
- The codecs themselves are not modelled: `CreateCodec`, `CCodec::Compress`, `GetBlockHeight`,
  `CreateBuffer`, `CreateCodecBuffer`, `GetCodecBufferType`, `CalcBufferSize` and
  `CMP_CalculateBufferSize` are external. Their results are parameters of the environment.
- Floating-point exception masking (`DISABLE_FP_EXCEPTIONS`) is left out, and so is the
  conversion of the weights and quality to `CODECFLOAT`: reals stand for them.
- The feedback callback and its two user words only pass through to the codec and are left
  out.
- Freeing codecs and buffers (`SAFE_DELETE`, the thread-data destructor) and `CloseHandle`
  are modelled only as the list of workers left unjoined.
- `CATICompressThreadData` and the handle table are merged: `ahThread` holds one `Worker`
  record (slot, band, addresses, codec log) per started thread.
- Pointer arithmetic is unbounded: the source and destination addresses are integers, and
  overflow of a `CMP_BYTE*` is not modelled.
- Banding.BandHeight: the DWORD expression `dwHeight + dwBlockHeight - 1` is computed without
  32-bit wrap-around, so shares within a block of 2^32 rows are not modelled as wrapping.
- A block height of 0, which would divide by zero at line 393, is excluded by
  `Dispatch.WellFormed`.
- The `assert` calls are debug-build checks and are left out; the model follows the
  release-build branches.
- Which driver a caller picks, and the caller's own validation, are in other files and are
  not part of this model.
- The `_DEBUG`-only commented-out parameter in the sequential switch is not code and has no
  model.

## Findings

| source | as written | input that shows it | evidently intended | confidence | as-written member | corrected member |
|---|---|---|---|---|---|---|
| Compressonator/Source/Compress.cpp:323-326 | an early `return` (lines 326 and 414) leaves the loop while workers started for earlier slots are still running; their thread data (codec and buffers) is destroyed on return and their handles are never closed | 2 or more worker slots, at least one destination row per slot, slot 0 creates its codec and buffers, slot 1's `CreateCodec` returns NULL | wait for the workers already started and close their handles before returning the error | not executed | Dispatch.EarlyExitAbandonsWorker | Dispatch.ThreadedCompressTextureJoined |
