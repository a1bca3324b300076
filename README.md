# A verified model of the gem5 thesis replacement policies and run scripts

This project models, in Dafny, two independent parts of a gem5-based master's thesis repository.

**The full-system run scripts.** These are `run_fs.py`, `run_fs_checkpoints.py` and `run_fs_mt_checkpoint.py`.
- Each script validates its command line. The model writes the check as a function returning either the scaled arguments or an error.
- Each script installs exit-event handlers. They are Python generators that update module globals. In the model, a handler is a class whose fields are those globals, with one method per resumption of the generator. Each method is tied to a pure step function.
- The simulator's effects are abstract actions in a returned list: switching cores, resetting or dumping statistics, arming the next MAX_INSTS event, and saving a checkpoint.
- Invariants are proved over whole runs:
  - the timing core is active exactly in WARMUP and ROI;
  - `completed_rois` never exceeds `--max_rois`;
  - `total_ticks` never decreases;
  - each restore run resets and dumps statistics exactly once;
  - periodic checkpoints get pairwise distinct directory names.

**The cache replacement policies.** These are Hawkeye, its multi-core Flock variant, and Mockingjay, together with their samplers.
- Hawkeye's side includes the 8-way history sampler with bit-packed entries, the OPTgen occupancy vector, the PC-based saturating predictor and the 32-round CRC.
- Mockingjay's side includes the 5-way sampled cache, the modular timestamp arithmetic, the temporal-difference step, the sampled-set test, the PC signature with its 3-round CRC, and the reuse-distance predictor.
- Replacement data are classes whose fields the methods update in place.
- Fixed-width integers are modelled explicitly:
  - `u32`/`u64` newtypes and wrap-around increments;
  - the `int8_t` ETR stored modulo 256;
  - the 64-bit to 32-bit `int` store of `ratio_max`;
  - `bv64` words for the packed sampler entries.

The victim rule shared by the three `getVictim`s lives in the module `Selection`: the first invalid candidate or else the earliest one with the largest key. The LRU discipline shared by both sampler sets lives in `SamplerLru`. There it is proved that from an empty set a way that is invalid or of age 0 always exists, so the `assert` in each `insert` cannot fire.

Where the code and its evident intent disagree, the model keeps both versions. The code as written is modelled with a lemma exhibiting the failure. The corrected definition, with its intended property proved, is the one the rest of the model uses (see "## Findings").

## Model

| member | source | states |
|---|---|---|
| Engine.NatToString | configs/sim_scripts/run_fs_checkpoints.py:307 | `str()` of a tick: a non-empty run of decimal digits whose last digit is the tick modulo 10, one digit exactly below 10 |
| Engine.IntToString | configs/sim_scripts/run_fs_checkpoints.py:193 | `str()` of any integer: non-empty, starting with `-` exactly when the integer is negative, digits everywhere else |
| Engine.IntToStringInjective | configs/sim_scripts/run_fs_checkpoints.py:193 | different integers, negative ones included, are rendered as different strings |
| Engine.NatToStringInjective | configs/sim_scripts/run_fs_checkpoints.py:316 | different ticks are rendered as different strings |
| Engine.JoinPath | configs/sim_scripts/run_fs_checkpoints.py:307 | `(dir / name).as_posix()` for a normalised, non-empty directory string: the directory, one `/`, then the name |
| Engine.CheckpointNamesDistinct | configs/sim_scripts/run_fs_checkpoints.py:307-318 | checkpoints saved at different ticks in one directory get different paths |
| Workload.SuiteOf | configs/sim_scripts/run_fs_checkpoints.py:151-188 | bc, bfs, cc and pr read road graphs, sssp and tc their synthetic graphs, anything else is a PARSEC benchmark |
| Workload.BenchmarkCommand | configs/sim_scripts/run_fs_checkpoints.py:149-195 | a GAP kernel's command starts with `cd /home/gem5/gapbs;`, every other benchmark's with `cd /home/gem5/parsec-benchmark;`, and every command ends with `;` |
| Workload.BenchmarkCommandInjective | configs/sim_scripts/run_fs_checkpoints.py:149-195 | for one size and core count, two benchmarks never get the same command, so the command names the benchmark it runs |
| Workload.BenchmarkCommandCores | configs/sim_scripts/run_fs_checkpoints.py:189-195 | a PARSEC command differs for every core count (`-n <cores>`), a GAP command does not depend on it |
| RunFs.Scaled | configs/sim_scripts/run_fs.py:59-61 | a present interval is multiplied by 1,000,000; an absent one stays absent |
| RunFs.Validate | configs/sim_scripts/run_fs.py:47-73 | accepted exactly when the arguments are acceptable (sample mode needs all three intervals, a truthy `max_rois` of at least 1, and a truthy `max_rois` for `--continue`; outside sample mode no truthy `ff_interval`, `max_rois` or `--continue`; a truthy `init_ff` of at least 1); the missing-interval error exactly when an interval is absent in sample mode; accepted intervals and a truthy `init_ff` scaled by 10^6, everything else unchanged |
| RunFs.WorkBeginStep | configs/sim_scripts/run_fs.py:196-218 | resets `completed_rois` to 0 and continues; FF_INIT with `Schedule(init_ff)` when `init_ff` is truthy, else FF_WORK with `Schedule(ff_interval)` in sample mode, else ROI with exactly one Switch and one ResetStats and `start_tick := now` |
| RunFs.CloseRoi | configs/sim_scripts/run_fs.py:233-235 | closing an ROI adds one completed ROI and `now - start_tick` to `total_ticks` |
| RunFs.WorkEndStep | configs/sim_scripts/run_fs.py:228-244 | always one final ResetStats, NO_WORK, continue and no scheduling; one DumpStats and a closed ROI exactly in ROI; one Switch exactly in ROI or WARMUP |
| RunFs.MaxInstsStep | configs/sim_scripts/run_fs.py:252-305 | in ROI: DumpStats then Switch, ROI closed, FF_WORK; stops exactly when the cap is reached without `--continue` (after a ResetStats); with `--continue` the cap gives exactly DumpStats and Switch; schedules `ff_interval` exactly when the cap is not reached. WARMUP becomes ROI with ResetStats, `Schedule(roi)` and a new start tick; FF_WORK becomes WARMUP with Switch and `Schedule(warmup)`; FF_INIT goes to FF_WORK or ROI; NO_WORK changes nothing |
| RunFs.Orchestrator.constructor | configs/sim_scripts/run_fs.py:318-321 | the globals start in NO_WORK with zero ticks and ROIs and an empty effect trace |
| RunFs.Orchestrator.WorkBeginHandler | configs/sim_scripts/run_fs.py:190-218 | one resumption of `workbegin_handler` updates the globals to `WorkBeginStep` and appends its effects to the trace |
| RunFs.Orchestrator.WorkEndHandler | configs/sim_scripts/run_fs.py:220-244 | one resumption of `workend_handler` updates the globals to `WorkEndStep` and appends its effects |
| RunFs.Orchestrator.MaxInstsHandler | configs/sim_scripts/run_fs.py:246-305 | one resumption of `maxinsts_handler` updates the globals to `MaxInstsStep` and appends its effects |
| RunFs.BootInv | configs/sim_scripts/run_fs.py:318-321 | the state at `simulator.run()` satisfies the run invariant |
| RunFs.DeliverInv | configs/sim_scripts/run_fs.py:309-316 | delivering any admissible event through the handler table keeps the invariant (the timing core is active exactly in WARMUP and ROI, the ROI cap holds, at most one MAX_INSTS pending) and never lowers `total_ticks` |
| RunFs.WorkBeginInv | configs/sim_scripts/run_fs.py:196-218 | a WORKBEGIN keeps the invariant: its only switch enters ROI |
| RunFs.WorkEndInv | configs/sim_scripts/run_fs.py:228-244 | a WORKEND keeps the invariant: it switches back exactly when leaving WARMUP or ROI |
| RunFs.MaxInstsInv | configs/sim_scripts/run_fs.py:252-305 | a MAX_INSTS keeps the invariant in every phase |
| RunFs.RoiEndInv | configs/sim_scripts/run_fs.py:254-272 | the MAX_INSTS ending an ROI switches once, respects the cap and arms at most the next fast-forward |
| RunFs.RunInv | configs/sim_scripts/run_fs.py:190-305 | over any admissible event sequence: the switched core is active exactly in WARMUP and ROI, `completed_rois` never exceeds `max_rois`, and `total_ticks` never decreases |
| RunFs.RunFromBoot | configs/sim_scripts/run_fs.py:318-323 | from the start of simulation the invariant holds after any admissible run and `total_ticks` is never negative |
| RunFs.ExitReportFor | configs/sim_scripts/run_fs.py:325-331 | the m5-exit message exactly for the m5-exit cause; "max_rois met" exactly for the max-instructions cause with a truthy `max_rois` and no `--continue`; any other cause is reported as unexpected |
| RunFs.HaltReported | configs/sim_scripts/run_fs.py:264-270 | a run the handlers stop was stopped by the MAX_INSTS that closed the ROI reaching `max_rois` exactly, so it is reported as "max_rois met" |
| RunFsCheckpoints.ScaleChecked | configs/sim_scripts/run_fs_checkpoints.py:83-97 | one numeric flag: rejected exactly when truthy and below its least value; otherwise scaled by 10^6 when truthy and unchanged when not |
| RunFsCheckpoints.Validate | configs/sim_scripts/run_fs_checkpoints.py:64-97 | accepted exactly when all the exclusions and numeric checks hold; no-workload error exactly when there is no workload and neither restore nor init checkpoint; creation with restore always rejected; accepted flags keep everything except the three numeric flags, which keep their truthiness and are scaled by 10^6 |
| RunFsCheckpoints.CacheFor | configs/sim_scripts/run_fs_checkpoints.py:106-118 | no caches exactly when a checkpoint-creating flag is given |
| RunFsCheckpoints.CoreFor | configs/sim_scripts/run_fs_checkpoints.py:128-139 | the atomic core exactly when creating checkpoints; O3 exactly when not creating and `--o3` is given |
| RunFsCheckpoints.ChkptDir | configs/sim_scripts/run_fs_checkpoints.py:239-247 | a checkpoint directory exactly when creating: the init-checkpoint path first, then the ROI path, then `checkpoint_path` |
| RunFsCheckpoints.CheckpointToLoad | configs/sim_scripts/run_fs_checkpoints.py:248-256 | fails exactly when restoring or starting from a directory that does not exist; otherwise boots from `--restore`, else `--start-from`, else from nothing |
| RunFsCheckpoints.ReadfileFor | configs/sim_scripts/run_fs_checkpoints.py:259-266 | the hack-back script exactly with `--init-checkpoint`; none exactly when restoring; else `--command`, else the benchmark command (whose benchmark and size validation guarantees) |
| RunFsCheckpoints.ModeOf | configs/sim_scripts/run_fs_checkpoints.py:343-366 | the handler table by precedence: periodic, then ROI checkpoint, then restore, then init checkpoint, then plain |
| RunFsCheckpoints.ModeOfConfigured | configs/sim_scripts/run_fs_checkpoints.py:343-366 | for validated flags: restore mode exactly with `--restore`, init mode exactly with `--init-checkpoint`, plain mode exactly without creation or restore; a checkpoint directory exactly in the creating modes; MAX_INSTS installed exactly in periodic and restore mode |
| RunFsCheckpoints.WorkBeginGen | configs/sim_scripts/run_fs_checkpoints.py:279-284 | first resumption: ResetStats, `start_tick := now`, continue; later ones: exhausted with no effect |
| RunFsCheckpoints.WorkEndGen | configs/sim_scripts/run_fs_checkpoints.py:286-289 | first resumption: DumpStats and stop; later ones: exhausted; the globals are untouched |
| RunFsCheckpoints.RoiBeginGen | configs/sim_scripts/run_fs_checkpoints.py:291-298 | first resumption: ResetStats, then save to the checkpoint directory, then stop; later ones: exhausted |
| RunFsCheckpoints.PeriodicBeginGen | configs/sim_scripts/run_fs_checkpoints.py:300-310 | first resumption: ResetStats, `Schedule(take_checkpoints)`, save `chkpt.<start_tick>`, continue; later ones: exhausted |
| RunFsCheckpoints.PeriodicMaxInstsGen | configs/sim_scripts/run_fs_checkpoints.py:312-320 | every resumption increments `checkpoint_num`, saves `chkpt.<now>`, reschedules and continues |
| RunFsCheckpoints.RestoreMaxInstsGen | configs/sim_scripts/run_fs_checkpoints.py:322-336 | with a positive warmup the first resumption resets the stats, sets `start_tick` and schedules `insts` if truthy, then continues; the next one (the first without warmup) dumps and stops; any later one is exhausted |
| RunFsCheckpoints.CheckpointGen | configs/sim_scripts/run_fs_checkpoints.py:338-341 | first resumption: save to the checkpoint directory and stop; later ones: exhausted |
| RunFsCheckpoints.Startup | configs/sim_scripts/run_fs_checkpoints.py:378-385 | nothing unless restoring; with a positive warmup only `Schedule(warmup)`; otherwise ResetStats followed by `Schedule(insts)` when `insts` is truthy |
| RunFsCheckpoints.Handlers.constructor | configs/sim_scripts/run_fs_checkpoints.py:374 | `start_tick` 0, no generator resumed yet, empty trace |
| RunFsCheckpoints.Handlers.WorkBeginHandler | configs/sim_scripts/run_fs_checkpoints.py:279-284 | one resumption updates the globals and trace as `WorkBeginGen` and advances only its own count |
| RunFsCheckpoints.Handlers.WorkEndHandler | configs/sim_scripts/run_fs_checkpoints.py:286-289 | one resumption updates the trace as `WorkEndGen` and advances only its own count |
| RunFsCheckpoints.Handlers.CheckpointRoiBeginHandler | configs/sim_scripts/run_fs_checkpoints.py:291-298 | one resumption updates the globals and trace as `RoiBeginGen` |
| RunFsCheckpoints.Handlers.CheckpointsWorkBeginHandler | configs/sim_scripts/run_fs_checkpoints.py:300-310 | one resumption updates the globals and trace as `PeriodicBeginGen` |
| RunFsCheckpoints.Handlers.CheckpointsMaxInstsHandler | configs/sim_scripts/run_fs_checkpoints.py:312-320 | one resumption updates `checkpoint_num` and the trace as `PeriodicMaxInstsGen` |
| RunFsCheckpoints.Handlers.RestoreMaxInstsHandler | configs/sim_scripts/run_fs_checkpoints.py:322-336 | one resumption updates the globals and trace as `RestoreMaxInstsGen` |
| RunFsCheckpoints.Handlers.CheckpointHandler | configs/sim_scripts/run_fs_checkpoints.py:338-341 | one resumption updates the trace as `CheckpointGen` |
| RunFsCheckpoints.Handlers.Dispatch | configs/sim_scripts/run_fs_checkpoints.py:343-372 | the simulator resumes the generator the selected table installs for the event, and only that one advances |
| RunFsCheckpoints.RestoreBoot | configs/sim_scripts/run_fs_checkpoints.py:378-385 | a restored run starts inside its invariant: stats reset at start-up exactly when it has no warmup |
| RunFsCheckpoints.RestoreDeliver | configs/sim_scripts/run_fs_checkpoints.py:353-357 | each delivered event keeps the restore invariant (reset count, dump only when stopped, which resumption comes next) |
| RunFsCheckpoints.RestoreRunFrom | configs/sim_scripts/run_fs_checkpoints.py:322-336 | any admissible sequence of events keeps the restore invariant |
| RunFsCheckpoints.RestoreRun | configs/sim_scripts/run_fs_checkpoints.py:324-336 | a restored run resets and dumps the stats at most once each, never resumes an exhausted generator, and when stopped by MAX_INSTS has reset and dumped exactly once |
| RunFsCheckpoints.NamesDistinct | configs/sim_scripts/run_fs_checkpoints.py:307-318 | strictly increasing ticks give pairwise distinct checkpoint paths |
| RunFsCheckpoints.PeriodicSaves | configs/sim_scripts/run_fs_checkpoints.py:300-320 | a handler of the periodic table saves nothing or one checkpoint named after the current tick |
| RunFsCheckpoints.PeriodicDeliver | configs/sim_scripts/run_fs_checkpoints.py:312-320 | each delivered event at a later tick keeps the periodic invariant (saved paths match the saved ticks, `checkpoint_num` is one more than the MAX_INSTS count, MAX_INSTS never stops the run) |
| RunFsCheckpoints.PeriodicRunFrom | configs/sim_scripts/run_fs_checkpoints.py:312-320 | any admissible run at increasing ticks keeps the periodic invariant |
| RunFsCheckpoints.PeriodicRun | configs/sim_scripts/run_fs_checkpoints.py:300-320 | from start-up, at strictly increasing ticks: all saved checkpoint paths are distinct, `checkpoint_num` is one more than the MAX_INSTS count, and MAX_INSTS never stops the run |
| RunFsCheckpoints.ExitReportFor | configs/sim_scripts/run_fs_checkpoints.py:390-400 | `workend` gets the ROI-end message, the max-instructions cause the instructions-reached one, `checkpoint` the boot-checkpoint one and `workbegin` the ROI-start-checkpoint one, each exactly for that cause; exactly the other causes are unexpected, reported with their cause |
| RunFsCheckpoints.StopReported | configs/sim_scripts/run_fs_checkpoints.py:279-398 | a run a handler stops gets that handler's message: WORKEND "ROI end"; MAX_INSTS only in restore mode, "INSTS reached"; CHECKPOINT only in init mode; WORKBEGIN only in ROI-checkpoint mode |
| RunFsMtCheckpoint.Check | configs/sim_scripts/run_fs_mt_checkpoint.py:59-67 | accepted exactly when validated; no-benchmark, no-size and checkpoint-with-restore errors each exactly under its own condition, in source order |
| RunFsMtCheckpoint.CacheFor | configs/sim_scripts/run_fs_mt_checkpoint.py:76-88 | no caches exactly with `--checkpoint` |
| RunFsMtCheckpoint.StartCore | configs/sim_scripts/run_fs_mt_checkpoint.py:101 | KVM exactly without `--nokvm`, atomic otherwise |
| RunFsMtCheckpoint.SwitchCore | configs/sim_scripts/run_fs_mt_checkpoint.py:102 | O3 exactly with `--o3`, timing otherwise |
| RunFsMtCheckpoint.ChkptDir | configs/sim_scripts/run_fs_mt_checkpoint.py:204-213 | fails exactly when the restore directory does not exist; bound exactly when `--checkpoint` or `--restore` is given, with `--restore` winning |
| RunFsMtCheckpoint.CheckpointToLoad | configs/sim_scripts/run_fs_mt_checkpoint.py:222 | the board boots from the restore directory, and only with `--restore` |
| RunFsMtCheckpoint.ReadfileFor | configs/sim_scripts/run_fs_mt_checkpoint.py:223 | the hack-back script exactly with `--checkpoint`, else the benchmark command |
| RunFsMtCheckpoint.WorkBeginGen | configs/sim_scripts/run_fs_mt_checkpoint.py:226-233 | first resumption: Switch then ResetStats, `start_tick := now`, continue; later ones: exhausted, nothing changes |
| RunFsMtCheckpoint.WorkEndGen | configs/sim_scripts/run_fs_mt_checkpoint.py:235-238 | first resumption: DumpStats and stop; later ones: exhausted |
| RunFsMtCheckpoint.CheckpointGen | configs/sim_scripts/run_fs_mt_checkpoint.py:240-243 | first resumption: save to `chkptDir` and stop, or raise before saving when `chkptDir` is unbound; later ones: exhausted |
| RunFsMtCheckpoint.Handlers.constructor | configs/sim_scripts/run_fs_mt_checkpoint.py:255 | `start_tick` 0, nothing resumed, empty trace |
| RunFsMtCheckpoint.Handlers.WorkBeginHandler | configs/sim_scripts/run_fs_mt_checkpoint.py:226-233 | one resumption updates `start_tick` and the trace as `WorkBeginGen` |
| RunFsMtCheckpoint.Handlers.WorkEndHandler | configs/sim_scripts/run_fs_mt_checkpoint.py:235-238 | one resumption updates the trace as `WorkEndGen` |
| RunFsMtCheckpoint.Handlers.CheckpointHandler | configs/sim_scripts/run_fs_mt_checkpoint.py:240-243 | one resumption updates the trace as `CheckpointGen` |
| RunFsMtCheckpoint.DeliverInv | configs/sim_scripts/run_fs_mt_checkpoint.py:246-253 | each delivered event keeps the invariant: one Switch and one ResetStats once WORKBEGIN has run, one DumpStats exactly when WORKEND stopped the run |
| RunFsMtCheckpoint.RunInv | configs/sim_scripts/run_fs_mt_checkpoint.py:226-253 | any admissible event sequence keeps that invariant |
| RunFsMtCheckpoint.RunEffects | configs/sim_scripts/run_fs_mt_checkpoint.py:226-238 | over a whole run: at most one Switch, exactly as many resets as switches, at most one dump, and a dump exactly when WORKEND stopped the run |
| RunFsMtCheckpoint.RoiRun | configs/sim_scripts/run_fs_mt_checkpoint.py:226-238 | WORKBEGIN then WORKEND gives exactly Switch, ResetStats, DumpStats, with `start_tick` the begin tick, stopped by WORKEND |
| RunFsMtCheckpoint.CheckpointRun | configs/sim_scripts/run_fs_mt_checkpoint.py:204-243 | with `--checkpoint`, CHECKPOINT saves exactly to the checkpoint directory and stops the run |
| RunFsMtCheckpoint.ExitReportFor | configs/sim_scripts/run_fs_mt_checkpoint.py:263-269 | "ROI end" exactly for "workend", the checkpoint message exactly for "checkpoint", every other cause unexpected |
| RunFsMtCheckpoint.StopReported | configs/sim_scripts/run_fs_mt_checkpoint.py:235-267 | a run stopped by WORKEND or CHECKPOINT gets that handler's message; WORKBEGIN never stops a run |
| Bits.Inc64 | src/mem/cache/tags/hawkeye_sampler.cc:28 | `access++` on a `uint64_t`: one more, except that the maximum wraps to 0 |
| Bits.Sub64 | src/mem/cache/replacement_policies/flock_hawkeye_rp.cc:423 | 64-bit subtraction as an unsigned word: the difference when it is not negative, otherwise the difference plus 2^64. gem5's `Counter` is `int64_t`, and its signed difference has the same 64 bits, so the same `int` once stored |
| Bits.ToInt32 | src/mem/cache/replacement_policies/flock_hawkeye_rp.hh:64 | a 64-bit value stored into the 32-bit `int` `ratio_max` keeps its low 32 bits in two's complement, a value congruent modulo 2^32 inside the `int` range |
| Bits.Tick | src/mem/cache/tags/hawkeye_sampler.cc:137 | `(counter + 1) % timer_size`: always below `timer_size` |
| Bits.Log2 | src/mem/cache/tags/hawkeye_sampler.cc:117-118 | `(int) std::log2(n)` of a positive integer: the largest `r` with `2^r <= n` |
| Bits.Log2OfPow2 | src/mem/cache/tags/hawkeye_sampler.cc:117-118 | the logarithm of a power of two is its exponent |
| Bits.Field | src/mem/cache/tags/hawkeye_sampler.cc:10-11 | `bits(x, i, l)`: an `l`-bit field, always below `2^l` |
| Bits.CrcRoundLinear | src/mem/cache/tags/hawkeye_sampler.cc:19 | one CRC round is linear over XOR: the round of `a ^ b` is the XOR of the rounds of `a` and `b` |
| SamplerLru.FreeExists | src/mem/cache/tags/hawkeye_sampler.hh:83-99 | under the LRU invariant a non-empty set always has a way that is invalid or has age 0, so the assert after the loop holds |
| SamplerLru.EmptyInv | src/mem/cache/tags/hawkeye_sampler.hh:71 | a set of freshly constructed (invalid) ways satisfies the LRU invariant |
| SamplerLru.AgeAll | src/mem/cache/tags/hawkeye_sampler.hh:85-89 | every valid way with age above 0 becomes one younger; nothing else changes |
| SamplerLru.Place | src/mem/cache/tags/hawkeye_sampler.hh:85-92 | after choosing way `c`: `c` becomes valid with age `ways - 1` and the new tag, every other way is aged |
| SamplerLru.PlaceCount | src/mem/cache/tags/hawkeye_sampler.hh:92 | filling a way adds one valid way exactly when it was invalid |
| SamplerLru.FreeWay | src/mem/cache/tags/hawkeye_sampler.hh:84 | the chosen way is invalid only in a set that is not full, and valid with age 0 only in a full set, where every other valid way has age at least 1 |
| SamplerLru.PlaceInv | src/mem/cache/tags/hawkeye_sampler.hh:83-99 | filling a free way keeps the valid ages pairwise distinct and exactly `ways - numValid .. ways - 1` |
| SamplerLru.PlaceInRange | src/mem/cache/tags/hawkeye_sampler.hh:85-90 | after the fill every valid age lies in `ways - numValid .. ways - 1` |
| SamplerLru.PlaceDistinct | src/mem/cache/tags/hawkeye_sampler.hh:85-90 | after the fill the valid ages are pairwise distinct |
| SamplerLru.PlaceCovered | src/mem/cache/tags/hawkeye_sampler.hh:85-90 | after the fill every age in `ways - numValid .. ways - 1` is held by a valid way |
| SamplerLru.RetagInv | src/mem/cache/tags/hawkeye_sampler.hh:109-110 | rewriting only a way's packed word keeps the LRU invariant |
| SamplerLru.AgeWays | src/mem/cache/tags/hawkeye_sampler.hh:85-89 | the aging loop over the way array leaves exactly `AgeAll` of the old ways |
| HawkeyeSampler.PackRoundTrip | src/mem/cache/tags/hawkeye_sampler.hh:48-91 | `getAddress`, `getPC` and `getTimestamp` of the word `insert` packs return exactly the 16-bit address, 16-bit PC and 8-bit timestamp packed |
| HawkeyeSampler.SetPCWritesPC | src/mem/cache/tags/hawkeye_sampler.hh:60-65 | after `setPC` the PC field is the new PC |
| HawkeyeSampler.SetPCKeepsHigh | src/mem/cache/tags/hawkeye_sampler.hh:60-65 | `setPC` keeps every bit from 24 up, so the address field too |
| HawkeyeSampler.SetPCKeepsTimestamp | src/mem/cache/tags/hawkeye_sampler.hh:60-65 | `setPC` keeps the timestamp |
| HawkeyeSampler.SetTimestampFields | src/mem/cache/tags/hawkeye_sampler.hh:67-69 | `setTimestamp` writes bits 0..7 and keeps every bit above them |
| HawkeyeSampler.TimestampKeepsFields | src/mem/cache/tags/hawkeye_sampler.hh:67-69 | `setTimestamp` keeps the address and PC fields |
| HawkeyeSampler.FirstFree | src/mem/cache/tags/hawkeye_sampler.hh:83-84 | the first way that is invalid or valid with age 0, or none when no way is |
| HawkeyeSampler.InsertedInv | src/mem/cache/tags/hawkeye_sampler.hh:79-100 | from a set satisfying the LRU invariant `insert` always finds a way and keeps the invariant |
| HawkeyeSampler.FindTag | src/mem/cache/tags/hawkeye_sampler.hh:104-105 | the first way whose address field equals the tag, valid or not; none exactly when no way's does |
| HawkeyeSampler.TouchedFields | src/mem/cache/tags/hawkeye_sampler.hh:109-110 | the way `access` rewrites keeps its address field and now carries the new PC and timestamp |
| HawkeyeSampler.AccessedHit | src/mem/cache/tags/hawkeye_sampler.hh:102-116 | after a hit the same way is found again, with the new PC and timestamp, the same age and valid bit, and the LRU invariant kept |
| HawkeyeSampler.EmptySetHitsZero | src/mem/cache/tags/hawkeye_sampler.hh:102-116 | in a freshly constructed set address tag 0 matches way 0, although no way is valid |
| HawkeyeSampler.CacheSet.constructor | src/mem/cache/tags/hawkeye_sampler.hh:71 | eight invalid ways with age 0 and word 0 |
| HawkeyeSampler.CacheSet.Insert | src/mem/cache/tags/hawkeye_sampler.hh:79-100 | the ways become `Inserted` of the old ways: the first free way is filled as the youngest and the other valid ways age; the LRU invariant is kept |
| HawkeyeSampler.CacheSet.Access | src/mem/cache/tags/hawkeye_sampler.hh:102-116 | hits exactly when some way's address field equals the tag; a hit reports that way's old PC and timestamp and rewrites only them |
| HawkeyeSampler.CacheSet.Lookup | src/mem/cache/tags/hawkeye_sampler.cc:135-136 | `access`, and on a miss `insert`: the ways become `Accessed` or `Inserted` of the old ones, and the invariant is kept |
| HawkeyeTraining.Dist | src/mem/cache/tags/hawkeye_sampler.cc:43-53 | the number of `(i + 1) % size` steps between two slots: below the size, zero exactly for the same slot |
| HawkeyeTraining.Next | src/mem/cache/tags/hawkeye_sampler.cc:52 | `(i + 1) % size`: the next slot, wrapping to 0 after the last |
| HawkeyeTraining.NextStep | src/mem/cache/tags/hawkeye_sampler.cc:44-52 | a step of the walk from `last` that has not reached `curr` brings it one slot nearer |
| HawkeyeTraining.DistInjective | src/mem/cache/tags/hawkeye_sampler.cc:44-63 | different slots are at different distances from `last`, so the walk visits each slot once |
| HawkeyeTraining.Charged | src/mem/cache/tags/hawkeye_sampler.cc:59-64 | the second loop: each slot of the circular window `[last, curr)` is incremented as a `uint32_t` |
| HawkeyeTraining.EmptyWindow | src/mem/cache/tags/hawkeye_sampler.cc:43-64 | a reuse in the same quantum (`last == curr`) is always cached and charges nothing |
| HawkeyeTraining.ChargedExact | src/mem/cache/tags/hawkeye_sampler.cc:59-64 | when the window fits and the cache size is below 2^32, charging adds exactly 1 inside the window and 0 outside |
| HawkeyeTraining.ChargedBounded | src/mem/cache/tags/hawkeye_sampler.cc:40-72 | a history whose slots are all at most the cache size stays so after `should_cache` |
| HawkeyeTraining.OccupancyVector.constructor | src/mem/cache/tags/hawkeye_sampler.cc:23-25 | a zeroed history of `capacity` slots, the counters at 0 |
| HawkeyeTraining.OccupancyVector.AddAccess | src/mem/cache/tags/hawkeye_sampler.cc:27-30 | one more access (64-bit wrap-around) and the current slot zeroed; nothing else changes |
| HawkeyeTraining.OccupancyVector.AddPrefetch | src/mem/cache/tags/hawkeye_sampler.cc:36-38 | the current slot zeroed, nothing counted |
| HawkeyeTraining.OccupancyVector.ShouldCache | src/mem/cache/tags/hawkeye_sampler.cc:40-72 | caches exactly when no slot of the window `[last, curr)` has reached the cache size; then every slot of the window is charged, otherwise the history is unchanged; exactly one of the cache and don't-cache counters grows |
| HawkeyeTraining.OccupancyVector.GetNumOptHits | src/mem/cache/tags/hawkeye_sampler.cc:74-79 | the number of reuses OPT cached |
| HawkeyeTraining.TrainedSaturates | src/mem/cache/tags/hawkeye_sampler.cc:90-102 | on a counter in range a training step is `min(c + 1, max)` on an OPT hit and `max(c - 1, 0)` on a miss, and stays in range |
| HawkeyeTraining.TopBitUpperHalf | src/mem/cache/tags/hawkeye_sampler.cc:106 | the top bit of an in-range counter is set exactly when the counter is in the upper half |
| HawkeyeTraining.PCBasedPredictor.constructor | src/mem/cache/tags/hawkeye_sampler.cc:81-84 | `num_entries` counters (left uninitialised) and `max_value = 2^bits - 1` |
| HawkeyeTraining.PCBasedPredictor.Train | src/mem/cache/tags/hawkeye_sampler.cc:90-102 | only the counter of `last_PC % num_entries` changes, by one saturating step towards the OPT decision |
| HawkeyeTraining.PCBasedPredictor.Predict | src/mem/cache/tags/hawkeye_sampler.cc:104-107 | friendly exactly when the top bit of the counter of `CRC(PC) % num_entries` is set |
| HawkeyeTraining.PredictUpperHalf | src/mem/cache/tags/hawkeye_sampler.cc:94-106 | a counter kept in `[0, max]` by training predicts friendly exactly in the upper half of its range |
| HawkeyeTraining.SampledSetCases | src/mem/cache/tags/hawkeye_sampler.cc:12 | set 0 is always sampled, and with exactly 64 cache sets every set is |
| HawkeyeTraining.SetIndex | src/mem/cache/tags/hawkeye_sampler.cc:129 | the sampler set of an address is below the number of sampler sets |
| HawkeyeTraining.HistorySampler.constructor | src/mem/cache/tags/hawkeye_sampler.cc:113-119 | `num_sets` sampler sets, every way invalid; the log2 constants computed; the counters left uninitialised |
| HawkeyeTraining.HistorySampler.State | src/mem/cache/tags/hawkeye_sampler.hh:123-125 | the ways of each sampler set and the timestamp counters, as values |
| HawkeyeTraining.HistorySampler.Sample | src/mem/cache/tags/hawkeye_sampler.cc:126-146 | an unsampled cache set: no hit and nothing changes. A sampled one: the current timestamp is the set's counter cut to 8 bits and the counter advances modulo `timer_size`; hits exactly when a way carries the address tag, reporting that way's PC and timestamp; a hit rewrites the way, a miss inserts; no other sampler set changes |
| HawkeyeTraining.HistorySampler.Step | src/mem/cache/tags/hawkeye_sampler.cc:132-142 | for sampler set `k`: look up, insert on a miss, advance that set's counter; all other sets unchanged |
| MockingjaySampler.EntryGenRoundTrip | src/mem/cache/tags/mockingjay_sampler.hh:36-64 | the getters recover exactly the packed fields: the address tag masked to 10 bits, the hashed PC masked to 11 bits, and the 8-bit timestamp |
| MockingjaySampler.SetTimestampFields | src/mem/cache/tags/mockingjay_sampler.hh:72-74 | `setTimestamp` writes bits 0..7 and keeps every bit above them |
| MockingjaySampler.SetPCAsWritten | src/mem/cache/tags/mockingjay_sampler.hh:66-70 | `setPC` as written keeps every bit from 19 up and the timestamp byte; what it writes into the PC field is stated by SetPCAsWrittenMixes |
| MockingjaySampler.SetPCAsWrittenMixes | src/mem/cache/tags/mockingjay_sampler.hh:66-70 | as written, the new PC field is the new PC OR-ed with the low three bits of the old PC |
| MockingjaySampler.SetPCAsWrittenCounterexample | src/mem/cache/tags/mockingjay_sampler.hh:66-70 | an entry holding PC 1, given PC 0, reads back PC 1 |
| MockingjaySampler.SetPCWritesPC | src/mem/cache/tags/mockingjay_sampler.hh:66-70 | with the corrected low mask, `setPC` leaves exactly the new 11-bit PC in the PC field |
| MockingjaySampler.SetPCKeepsRest | src/mem/cache/tags/mockingjay_sampler.hh:66-70 | with the corrected low mask, `setPC` keeps every bit from 19 up and the timestamp |
| MockingjaySampler.LastInvalid | src/mem/cache/tags/mockingjay_sampler.hh:87-91 | the first scan of `insert`: the highest-indexed invalid way, or none when all are valid |
| MockingjaySampler.LastZero | src/mem/cache/tags/mockingjay_sampler.hh:93-99 | the second scan: the highest-indexed way of age 0, or none |
| MockingjaySampler.InsertVictimFree | src/mem/cache/tags/mockingjay_sampler.hh:84-110 | from a set satisfying the LRU invariant the victim exists (the assert at line 101 holds), may be overwritten, and filling it keeps the invariant |
| MockingjaySampler.FindTag | src/mem/cache/tags/mockingjay_sampler.hh:113-114 | the first way whose address field equals the packet's tag; none exactly when no way's does |
| MockingjaySampler.WaysReadAsWritten | src/mem/cache/tags/mockingjay_sampler.hh:112-120 | the number of ways the `access` loop as written reads: at least one, and no more than the set holds when a way matches; a miss is AccessMissOverruns |
| MockingjaySampler.AccessMissOverruns | src/mem/cache/tags/mockingjay_sampler.hh:113 | on a miss the loop as written reads 128 ways of a five-way set, 123 of them outside it |
| MockingjaySampler.AccessStaysInside | src/mem/cache/tags/mockingjay_sampler.hh:113-120 | on a hit the loop stops inside the set |
| MockingjaySampler.TouchedKeepsAddress | src/mem/cache/tags/mockingjay_sampler.hh:117-118 | the way a hit rewrites keeps its address field and carries the new timestamp |
| MockingjaySampler.SetTimestampKeepsAddress | src/mem/cache/tags/mockingjay_sampler.hh:72-74 | `setTimestamp` keeps the address field |
| MockingjaySampler.WideTagNeverHits | src/mem/cache/tags/mockingjay_sampler.hh:36-38 | a tag of 11 or more bits (0x400 or above) is stored cut to 10 bits, so after inserting it the same packet still misses |
| MockingjaySampler.AddressBelow | src/mem/cache/tags/mockingjay_sampler.hh:54-56 | the address field read back is always below 2^10 |
| MockingjaySampler.NarrowTagHits | src/mem/cache/tags/mockingjay_sampler.hh:84-120 | a tag of at most 10 bits hits on its next access once inserted |
| MockingjaySampler.CacheSet.constructor | src/mem/cache/tags/mockingjay_sampler.hh:76 | five invalid ways with age 0 and word 0 |
| MockingjaySampler.CacheSet.Insert | src/mem/cache/tags/mockingjay_sampler.hh:84-110 | the ways become `Inserted` of the old ways: the last invalid way, or else the last of age 0, is filled as the youngest and the other valid ways age; the LRU invariant is kept |
| MockingjaySampler.CacheSet.Access | src/mem/cache/tags/mockingjay_sampler.hh:112-124 | hits exactly when some way's address field equals the tag; a hit reports that way's old PC and timestamp and rewrites them; the loop reads only the five ways |
| MockingjayTraining.TimeElapsed | src/mem/cache/tags/mockingjay_sampler.cc:16-22 | `time_elapsed`, for any `global` and `local`: adding the result to `local` gives `global` modulo 256 |
| MockingjayTraining.TimeElapsedInverse | src/mem/cache/tags/mockingjay_sampler.cc:16-22 | for 8-bit timestamps the elapsed time is itself 8-bit, and adding it to `local` modulo 256 gives `global` |
| MockingjayTraining.TemporalDifference | src/mem/cache/tags/mockingjay_sampler.cc:24-38 | `temporal_difference` for any inputs: equal values are kept, a larger sample raises by at most one and never above `inf_rd`, a smaller one lowers towards it and never below 0 |
| MockingjayTraining.TemporalDifferenceStep | src/mem/cache/tags/mockingjay_sampler.cc:24-38 | from a value in `[0, inf_rd]` the step moves by at most one, towards the sample and never past it, stays in `[0, inf_rd]`, and moves exactly when the two differ by at least 16 and the bound allows it |
| MockingjayTraining.IsSampledSetCases | src/mem/cache/tags/mockingjay_sampler.cc:40-44 | set 0 is always sampled, and when every cache set is sampled the test always passes |
| MockingjayTraining.Low16Mask | src/mem/cache/tags/mockingjay_sampler.cc:57-66 | `(x << 48) >> 48` keeps exactly the low 16 bits |
| MockingjayTraining.PcSignature | src/mem/cache/tags/mockingjay_sampler.cc:46-69 | `get_pc_signature` is a 16-bit value (three CRC rounds of the extended PC, cut by `(x << 48) >> 48`) |
| MockingjayTraining.PcSignatureIgnoresHit | src/mem/cache/tags/mockingjay_sampler.cc:58-67 | with more than one CPU the signature does not depend on the hit bit |
| MockingjayTraining.U16 | src/mem/cache/tags/mockingjay_sampler.cc:96 | an `int` returned as `uint16_t` is reduced into `[0, 2^16)` |
| MockingjayTraining.ReuseDistPredictor.constructor | src/mem/cache/tags/mockingjay_sampler.cc:71-79 | every counter starts at -1, `max_value = 2^bits - 1`, `max_rd = max_value - 22` |
| MockingjayTraining.ReuseDistPredictor.Predict | src/mem/cache/tags/mockingjay_sampler.cc:96-114 | every prediction fits in 16 bits; a trained counter `c` within `max_rd` whose quotient fits is predicted as `c / granularity` aging-clock periods; with the all-`-1` table the constructor builds (and `train` never changes) the answer is 0 with one CPU and `etr_inf` cut to 16 bits otherwise; in full, the case table of `predict` for the signature's counter |
| MockingjayTraining.SetIndexAsWritten | src/mem/cache/tags/mockingjay_sampler.cc:143 | `set_index` as written: below `2^(log2(num_sets) + log2(cache_sets))`, which can exceed the `num_sets` sampler sets (SetIndexAsWrittenOverruns) |
| MockingjayTraining.SetIndexAsWrittenOverruns | src/mem/cache/tags/mockingjay_sampler.cc:143 | with two sampler sets and two cache sets, block address 3 selects sampler set 3, past the end of `sample_data` |
| MockingjayTraining.SetIndex | src/mem/cache/tags/mockingjay_sampler.cc:143 | the corrected index keeps the low `log2(num_sets)` bits, always a sampler set |
| MockingjayTraining.SetIndexPow2 | src/mem/cache/tags/mockingjay_sampler.cc:143 | with `2^k` sampler sets the corrected index is the block address modulo `2^k` |
| MockingjayTraining.AddrTagAsWritten | src/mem/cache/tags/mockingjay_sampler.cc:144 | `addr_tag` as written with the 16-bit `ADDRESS_TAG_MASK`: it agrees with the corrected 10-bit tag whenever the shifted address fits in 10 bits, and AddrTagAsWrittenTooWide shows where it does not |
| MockingjayTraining.AddrTagAsWrittenTooWide | src/mem/cache/tags/mockingjay_sampler.cc:144 | the 16-bit mask lets address bit 10 through: address 0x400 gives tag 0x400, which the 10-bit entry cannot hold |
| MockingjayTraining.AddrTag | src/mem/cache/tags/mockingjay_sampler.cc:144 | the corrected tag is cut to the 10 bits an entry stores |
| MockingjayTraining.SampledCache.constructor | src/mem/cache/tags/mockingjay_sampler.cc:120-129 | `num_sets` sampler sets of invalid ways, every timestamp counter 0, a timer wrapping at `1 << timer_size`, the log2 constants |
| MockingjayTraining.SampledCache.Sample | src/mem/cache/tags/mockingjay_sampler.cc:136-169 | reports whether the cache set is sampled; an unsampled one changes nothing. A sampled one: the current timestamp is the set's counter cut to 8 bits, the counter advances modulo the timer, the sampler hits exactly when a way carries the tag (reporting that way's PC and timestamp), a hit rewrites the way and a miss inserts; no other sampler set changes. `evict` is false on a hit, and on a miss true exactly when no way was invalid |
| HawkeyeRp.ReplData.constructor | src/mem/cache/replacement_policies/hawkeye_rp.hh:48 | a new entry has RRPV 0 in an n-bit counter and is averse and invalid |
| HawkeyeRp.ReplData.Mark | src/mem/cache/replacement_policies/hawkeye_rp.cc:113-118 | a hit line gets RRPV 0 when friendly and the saturated RRPV when averse, records the context, and keeps its friendliness and valid bit |
| HawkeyeRp.ReplData.Fill | src/mem/cache/replacement_policies/hawkeye_rp.cc:160-169 | a filled line takes the predicted friendliness with its RRPV, becomes valid and records the context, keeping the line invariant |
| HawkeyeRp.Valids | src/mem/cache/replacement_policies/hawkeye_rp.cc:73 | the valid bits of the candidates, one per candidate, in order |
| HawkeyeRp.Rrpvs | src/mem/cache/replacement_policies/hawkeye_rp.cc:78 | the RRPVs of the candidates, one per candidate, in order |
| HawkeyeRp.RrpvForValid | src/mem/cache/replacement_policies/hawkeye_rp.cc:113-117 | the RRPV given on a hit or fill is inside the counter's range, at most 6 for a friendly line and at least 1 for an averse one |
| HawkeyeRp.AgingKeepsBound | src/mem/cache/replacement_policies/hawkeye_rp.cc:91-94 | aging a line keeps its counter in range and a friendly line at most 6, so the panic cannot fire; only a valid friendly line below 6 moves, by exactly one below saturation |
| HawkeyeRp.Invalidate | src/mem/cache/replacement_policies/hawkeye_rp.cc:39-49 | the line becomes invalid and averse; its RRPV and context are kept |
| HawkeyeRp.FindVictim | src/mem/cache/replacement_policies/hawkeye_rp.cc:53-83 | the search picks the shared victim rule (first invalid candidate, else the earliest with the largest RRPV) and reports whether an invalid candidate stopped it |
| HawkeyeRp.AgeFriendly | src/mem/cache/replacement_policies/hawkeye_rp.cc:85-95 | every candidate's RRPV takes one aging step; validity, friendliness and context stay |
| HawkeyeRp.GetVictim | src/mem/cache/replacement_policies/hawkeye_rp.cc:53-98 | the victim is the first invalid candidate, else the earliest with the largest RRPV; the friendly lines are aged only when every candidate was valid, and otherwise no RRPV changes |
| HawkeyeRp.CacheSetOf | src/mem/cache/replacement_policies/hawkeye_rp.cc:120 | the set index of an address is below the number of cache sets |
| HawkeyeRp.TrainIndicesAsWritten | src/mem/cache/replacement_policies/hawkeye_rp.cc:131-136 | the current timestamp is reduced modulo the vector size but the last timestamp is passed on unreduced |
| HawkeyeRp.LastTimestampOutOfRange | src/mem/cache/replacement_policies/hawkeye_rp.cc:131-136 | a stored last timestamp of 200 reaches a 128-slot vector as slot 200, past its end |
| HawkeyeRp.TrainIndices | src/mem/cache/replacement_policies/hawkeye_rp.cc:131-136 | both slots lie inside the vector and agree with the code whenever the last timestamp already fits |
| HawkeyeRp.OptOf | src/mem/cache/tags/hawkeye_sampler.hh:123-125 | an occupancy vector's state as a value, of the vector's length |
| HawkeyeRp.OptStep | src/mem/cache/replacement_policies/hawkeye_rp.cc:136-137 | one OPTgen decision followed by recording the access keeps the vector's length |
| HawkeyeRp.OptStepInvariant | src/mem/cache/tags/hawkeye_sampler.cc:27-72 | after a decision and an access no slot exceeds the associativity, the current slot is open, one access and exactly one of cache and don't-cache are counted |
| HawkeyeRp.LearnStep | src/mem/cache/replacement_policies/hawkeye_rp.cc:136-137 | the training step on a sampler hit keeps the vector length and the number of predictor counters |
| HawkeyeRp.LearnStepInvariant | src/mem/cache/replacement_policies/hawkeye_rp.cc:136-137 | training keeps the occupancy bound, counts one access and one decision, keeps every counter within its maximum and moves only the counter of the last PC |
| HawkeyeRp.Observe | src/mem/cache/replacement_policies/hawkeye_rp.cc:136-137 | `should_cache` then `add_access` on the vector leave it in the state and with the decision that OptStep gives |
| HawkeyeRp.Learn | src/mem/cache/replacement_policies/hawkeye_rp.cc:136-137 | the predictor's counters and the vector end as LearnStep gives, and the sampler is unchanged |
| HawkeyeRp.TrainOnSample | src/mem/cache/replacement_policies/hawkeye_rp.cc:124-138 | the sampler samples the access; on a sampler hit the vector and predictor are trained with its outputs, on a miss they are untouched |
| HawkeyeRp.NewVectors | src/mem/cache/replacement_policies/hawkeye_rp.cc:29-31 | one fresh, distinct, zeroed occupancy vector of the configured size per cache set |
| HawkeyeRp.Hawkeye.TrainState | src/mem/cache/replacement_policies/hawkeye_rp.cc:27-31 | what one access can train (sampler, predictor, the set's vector) as a value of the configured sizes |
| HawkeyeRp.Hawkeye.constructor | src/mem/cache/replacement_policies/hawkeye_rp.cc:14-31 | the policy starts with an empty sampler, a predictor and per set one empty occupancy vector with the cache's associativity |
| HawkeyeRp.Hawkeye.SetOf | src/mem/cache/replacement_policies/hawkeye_rp.cc:120 | the set index of an address names one of the occupancy vectors |
| HawkeyeRp.Hawkeye.Train | src/mem/cache/replacement_policies/hawkeye_rp.cc:129-138 | one access is sampled with its set, and a sampler hit trains that set's vector and the predictor |
| HawkeyeRp.Hawkeye.Touch | src/mem/cache/replacement_policies/hawkeye_rp.cc:100-139 | on a request carrying a PC and context the line gets the RRPV of its prediction and the context and the access trains the policy; any other packet changes neither the line nor the training state |
| HawkeyeRp.Hawkeye.Reset | src/mem/cache/replacement_policies/hawkeye_rp.cc:145-190 | on a response carrying a PC and context the line takes the predictor's verdict for the PC (read before training), its RRPV, becomes valid and records the context, and the access trains the policy; any other packet changes nothing |
| HawkeyeRp.Hawkeye.FillLine | src/mem/cache/replacement_policies/hawkeye_rp.cc:158-169 | the filled line takes the top bit of the PC's predictor counter as its friendliness, the matching RRPV, the valid bit and the context |
| FlockHawkeyeRp.Core.NotOwned | src/mem/cache/replacement_policies/flock_hawkeye_rp.hh:75-84 | a core's sampler, predictor and two vectors never include the policy object itself |
| FlockHawkeyeRp.Core.State | src/mem/cache/replacement_policies/flock_hawkeye_rp.hh:75-84 | one core's sampler, counters and two vectors as a value, of the sizes it was built with |
| FlockHawkeyeRp.Core.constructor | src/mem/cache/replacement_policies/flock_hawkeye_rp.cc:32-37 | a core starts with every sampled way invalid, a predictor and two empty occupancy vectors with the cache's associativity |
| FlockHawkeyeRp.Core.Train | src/mem/cache/replacement_policies/flock_hawkeye_rp.cc:198-209 | the core's sampler samples the access; on a sampler hit the predictor learns OPTgen's decision on the main vector, the projection vector takes its own step and its decision is dropped; on a miss they are unchanged |
| FlockHawkeyeRp.NewCore | src/mem/cache/replacement_policies/flock_hawkeye_rp.cc:33-36 | one fresh valid core with both vectors as freshly built |
| FlockHawkeyeRp.NewCores | src/mem/cache/replacement_policies/flock_hawkeye_rp.cc:32-37 | one fresh core per CPU, no two sharing any object, all vectors as freshly built |
| FlockHawkeyeRp.Merged | src/mem/cache/replacement_policies/flock_hawkeye_rp.cc:65-79 | merging a request's readings adds no key, lowers no count, leaves other contexts' entries and puts the request's instruction count on every entry it changes |
| FlockHawkeyeRp.MergeStats | src/mem/cache/replacement_policies/flock_hawkeye_rp.cc:69-78 | the merge loop ends with the statistics Merged gives |
| FlockHawkeyeRp.Counted | src/mem/cache/replacement_policies/flock_hawkeye_rp.cc:94-97 | counting a request adds at most this level's key and keeps every other entry |
| FlockHawkeyeRp.CountedKeepsMissesBelow | src/mem/cache/replacement_policies/flock_hawkeye_rp.cc:94-97 | counting adds one access and one miss exactly on a miss, a missing entry starts from zero, and misses stay at most accesses |
| FlockHawkeyeRp.AccessStatsFrame | src/mem/cache/replacement_policies/flock_hawkeye_rp.cc:64-97 | `access` adds only a request's own level key, keeps other contexts' entries, and changes no statistic for a non-request |
| FlockHawkeyeRp.DramStepAsWritten | src/mem/cache/replacement_policies/flock_hawkeye_rp.cc:81-90 | the DRAM update as written never raises a stored count, and changes the state only on a response with DRAM stats, setting `dram_ready` |
| FlockHawkeyeRp.DramAsWrittenStuck | src/mem/cache/replacement_policies/flock_hawkeye_rp.cc:81-90 | as written the DRAM counters never leave the zeros the constructor writes, and a response with 5 accesses and 3 row hits is dropped |
| FlockHawkeyeRp.DramStep | src/mem/cache/replacement_policies/flock_hawkeye_rp.cc:81-90 | the DRAM counters never decrease, once ready stay ready, take any response reading that lowers neither, and ignore packets without DRAM statistics |
| FlockHawkeyeRp.DramStepRecords | src/mem/cache/replacement_policies/flock_hawkeye_rp.cc:81-90 | the response of 5 accesses and 3 row hits is recorded by the corrected step and dropped by the code as written |
| FlockHawkeyeRp.ZeroRatios | src/mem/cache/replacement_policies/flock_hawkeye_rp.hh:61-67 | the constructor's ratio counters are one per core, each counter and maximum 0 |
| FlockHawkeyeRp.ZeroPartitions | src/mem/cache/replacement_policies/flock_hawkeye_rp.cc:39 | the constructor's partitions are one per core, each 0 |
| FlockHawkeyeRp.RatioStep | src/mem/cache/replacement_policies/flock_hawkeye_rp.cc:103-117 | one access: the counter restarts at 0 or counts one more, and `ratio_max` is kept |
| FlockHawkeyeRp.RatioStepBounded | src/mem/cache/replacement_policies/flock_hawkeye_rp.cc:103-118 | one access keeps a ratio counter in `[0, max(ratio_max, 0)]` and leaves its maximum |
| FlockHawkeyeRp.RatioCycle | src/mem/cache/replacement_policies/flock_hawkeye_rp.cc:103-118 | from 0 with maximum m the counter runs 0..m and is due exactly at m, so a core's lines age once every m + 1 accesses |
| FlockHawkeyeRp.RatioSteps | src/mem/cache/replacement_policies/flock_hawkeye_rp.cc:103-118 | one access advances every core's counter, keeping their number |
| FlockHawkeyeRp.RatioAged | src/mem/cache/replacement_policies/flock_hawkeye_rp.cc:104-113 | a line's RRPV after the ratio loop: kept, or one more but at most 6, and moved only for a valid line whose core's counter is due |
| FlockHawkeyeRp.RatioAgedKeepsBound | src/mem/cache/replacement_policies/flock_hawkeye_rp.cc:104-113 | ratio aging keeps the counter in range and a friendly line at most 6, moves a line by at most one, and leaves invalid lines and unknown contexts alone |
| FlockHawkeyeRp.AgeOwned | src/mem/cache/replacement_policies/flock_hawkeye_rp.cc:105-113 | every valid candidate of the due core below 6 gains one, saturating; nothing else changes |
| FlockHawkeyeRp.MinNonzero | src/mem/cache/replacement_policies/flock_hawkeye_rp.cc:408-417 | the smallest nonzero count, present among the counts, or none when every count is zero |
| FlockHawkeyeRp.MinNonzeroPrefix | src/mem/cache/replacement_policies/flock_hawkeye_rp.cc:411-417 | a scan that keeps the smaller nonzero count at each step computes MinNonzero |
| FlockHawkeyeRp.ChosenAsWritten | src/mem/cache/replacement_policies/flock_hawkeye_rp.cc:408-417 | the loop as written keeps a count greater than the best so far, so it ends with the largest count, which is one of the counts |
| FlockHawkeyeRp.WithRatios | src/mem/cache/replacement_policies/flock_hawkeye_rp.cc:419-427 | assigning ratios keeps one counter per core |
| FlockHawkeyeRp.AgingRatiosAsWritten | src/mem/cache/replacement_policies/flock_hawkeye_rp.cc:405-424 | `setAgingCounter` as written keeps one counter per core, keeps every counter value, and leaves the cores with no accesses alone; the ratio it computes is AgingAsWrittenNegative |
| FlockHawkeyeRp.AgingAsWrittenNegative | src/mem/cache/replacement_policies/flock_hawkeye_rp.cc:413-424 | with access counts 1 and 2 the code as written gives core 0 `ratio_max` -1, which its assertion rejects |
| FlockHawkeyeRp.AgingRatios | src/mem/cache/replacement_policies/flock_hawkeye_rp.cc:405-429 | the corrected `setAgingCounter` keeps one counter per core |
| FlockHawkeyeRp.RatioMaxForExact | src/mem/cache/replacement_policies/flock_hawkeye_rp.cc:423-424 | for counts up to 2^31 the stored ratio is exactly `count / min - 1` and not negative, so the assertion holds |
| FlockHawkeyeRp.AgingRatiosSound | src/mem/cache/replacement_policies/flock_hawkeye_rp.cc:405-429 | dividing by the smallest nonzero count, every core with accesses gets a ratio of at least 0, the least-accessed core 0, a core with more accesses never a smaller one, and counters and idle cores are kept |
| FlockHawkeyeRp.AccessCounts | src/mem/cache/replacement_policies/flock_hawkeye_rp.cc:412-413 | one access count per core at this level |
| FlockHawkeyeRp.FillRrpvAsWritten | src/mem/cache/replacement_policies/flock_hawkeye_rp.cc:233-237 | as written a filled line gets the RRPV meant for the opposite prediction |
| FlockHawkeyeRp.FillAsWrittenBreaksLineInvariant | src/mem/cache/replacement_policies/flock_hawkeye_rp.cc:233-237 | with 3 or more RRPV bits the code as written gives a friendly filled line an RRPV above 6, which `getVictim`'s panic forbids, while `touch` gives it 0 |
| FlockHawkeyeRp.NewStats | src/mem/cache/replacement_policies/flock_hawkeye_rp.cc:42-44 | the constructor writes an empty entry for each core at this level and nothing else |
| FlockHawkeyeRp.FlockHawkeye.constructor | src/mem/cache/replacement_policies/flock_hawkeye_rp.cc:16-44 | the policy starts with one fresh core per CPU, every ratio counter and partition 0, one empty statistics entry per core, and DRAM counters 0 and not ready |
| FlockHawkeyeRp.FlockHawkeye.TrainCore | src/mem/cache/replacement_policies/flock_hawkeye_rp.cc:198-209 | an access trains the core of its context and no other |
| FlockHawkeyeRp.FlockHawkeye.Touch | src/mem/cache/replacement_policies/flock_hawkeye_rp.cc:169-210 | on a request with a PC and context the line gets the RRPV of its prediction and the context and the context's core is trained; any other packet changes nothing |
| FlockHawkeyeRp.FlockHawkeye.Reset | src/mem/cache/replacement_policies/flock_hawkeye_rp.cc:216-265 | on a request with a PC and context the line takes the verdict of its context's predictor read before training, the RRPV `touch` would give it, becomes valid and records the context, then that core is trained; any other packet changes nothing |
| FlockHawkeyeRp.FlockHawkeye.FillAndTrain | src/mem/cache/replacement_policies/flock_hawkeye_rp.cc:225-264 | filling the line from the core's verdict and then training that core, as Reset states once its guard holds |
| FlockHawkeyeRp.FlockHawkeye.FillLine | src/mem/cache/replacement_policies/flock_hawkeye_rp.cc:229-240 | the line takes the top bit of the PC's counter in its core's predictor, the RRPV `touch` uses, the valid bit and the context |
| FlockHawkeyeRp.FlockHawkeye.TickRatios | src/mem/cache/replacement_policies/flock_hawkeye_rp.cc:103-118 | every core's counter advances one step and the candidates of the due cores age; nothing else changes |
| FlockHawkeyeRp.FlockHawkeye.Access | src/mem/cache/replacement_policies/flock_hawkeye_rp.cc:64-119 | the statistics become the request's merged readings plus this level's count, the DRAM counters take the corrected step, the ratio counters advance and the due cores' candidates age; partitions and cores are untouched |
| FlockHawkeyeRp.FlockHawkeye.SetAgingCounter | src/mem/cache/replacement_policies/flock_hawkeye_rp.cc:405-429 | the ratios become AgingRatios of the access counts at this level |
| MockingjayRp.ToInt8 | src/mem/cache/replacement_policies/mockingjay_rp.hh:34 | storing into the `int8_t` ETR gives a value in [-128, 128), unchanged when it already fits, congruent modulo 256 otherwise |
| MockingjayRp.AgedEtr | src/mem/cache/replacement_policies/mockingjay_rp.hh:41-45 | one aging step keeps the ETR an `int8_t`, leaves an ETR at or beyond the bound, lowers one inside it by one, and wraps -128 to 127 |
| MockingjayRp.AbsMaxFor | src/mem/cache/replacement_policies/mockingjay_rp.hh:50 | the ETR bound of an n-bit counter is 2^(n-1) - 1 |
| MockingjayRp.AbsMaxFitsInt8 | src/mem/cache/replacement_policies/ReplacementPolicies.py:233 | at the default of 3 ETR bits the bound is 3, and for up to 8 bits it fits an `int8_t` |
| MockingjayRp.AgingTimesStaysInRange | src/mem/cache/replacement_policies/mockingjay_rp.hh:41-45 | from inside [-bound, bound], any number of agings never raises the ETR and never takes it below -bound |
| MockingjayRp.AgingReachesFloor | src/mem/cache/replacement_policies/mockingjay_rp.hh:41-45 | from inside the bound, `etr + bound` agings reach exactly -bound, which further aging keeps |
| MockingjayRp.AgingFixedAtBound | src/mem/cache/replacement_policies/mockingjay_rp.hh:41-45 | an ETR at or beyond the bound is left by any number of agings |
| MockingjayRp.AgingWrapsWhenTooWide | src/mem/cache/replacement_policies/mockingjay_rp.hh:34-50 | with 9 or more ETR bits the bound exceeds 128, so aging at -128 wraps the counter to 127 |
| MockingjayRp.ReplData.constructor | src/mem/cache/replacement_policies/mockingjay_rp.hh:50 | a new entry is invalid with ETR 0 and bound 2^(n-1) - 1 |
| MockingjayRp.ReplData.Aging | src/mem/cache/replacement_policies/mockingjay_rp.hh:41-45 | the ETR takes one aging step, stays an `int8_t`, and the valid bit is untouched |
| MockingjayRp.Invalidate | src/mem/cache/replacement_policies/mockingjay_rp.cc:36-44 | the line becomes invalid with ETR 0 |
| MockingjayRp.Valids | src/mem/cache/replacement_policies/mockingjay_rp.cc:64 | the valid bits of the candidates, one per candidate, in order |
| MockingjayRp.Etrs | src/mem/cache/replacement_policies/mockingjay_rp.cc:69 | the ETRs of the candidates, one per candidate, in order |
| MockingjayRp.GetVictim | src/mem/cache/replacement_policies/mockingjay_rp.cc:46-79 | the victim is the first invalid candidate, else the earliest with the largest ETR; nothing changes |
| Selection.FirstInvalid | src/mem/cache/replacement_policies/hawkeye_rp.cc:67-75 | the first invalid entry from a position, with every entry before it valid, or none when all are valid |
| Selection.FirstInvalidAt | src/mem/cache/replacement_policies/mockingjay_rp.cc:58-66 | an invalid entry preceded only by valid ones is the one the search stops at |
| Selection.ArgMax | src/mem/cache/replacement_policies/hawkeye_rp.cc:77-82 | the strict `>` update ends on an index whose key is at least every key and strictly above every earlier one |
| Selection.ArgMaxUnique | src/mem/cache/replacement_policies/flock_hawkeye_rp.cc:145-150 | the earliest maximum is the only index with those two properties |
| Selection.Victim | src/mem/cache/replacement_policies/hawkeye_rp.cc:53-83 | the candidate returned is the first invalid one when there is one, else the earliest with the largest key |
| Selection.SatMax | src/mem/cache/replacement_policies/hawkeye_rp.hh:37 | an n-bit saturating counter's maximum is 2^n - 1 |
| Selection.SatInc | src/mem/cache/replacement_policies/hawkeye_rp.cc:91-92 | `++` on the counter adds one below the maximum and stays at the maximum |
| Selection.SatMaxThreeBits | src/mem/cache/replacement_policies/ReplacementPolicies.py:199 | with the default of 3 RRPV bits or more the counter reaches 7, above the 6 the policies compare with |

## Left out

- Simulator effects (`processor.switch`, `m5.stats.reset`/`dump`, `schedule_max_insts`, `save_checkpoint`, `simulator.run`) are abstract actions, and `m5.curTick()` is an input to each handler step. Their implementations belong to gem5 and are not part of this model.
- Wall-clock time (`time.time()`), every `print`, `warn` and `DPRINTF`, and the gem5 board and hierarchy construction are not modelled. They are output or wiring with no decision logic. The choices the flags make (cache, core type, readfile, checkpoint directories, handler table) are modelled.
- Filesystem access (`Path.mkdir`, `exists`, `as_posix`) is not modelled. Whether the restore directory exists is a boolean input, and paths are strings joined with `/`.
- RunFs.RunInv: holds only for event sequences in which WORKBEGIN arrives in NO_WORK with no MAX_INSTS armed, i.e. a single region of interest per run. With a stale MAX_INSTS event still armed, the cap on completed ROIs can be exceeded, so the invariant is stated under that admissibility condition. The same applies to RunFs.RunFromBoot.
- A one-shot handler generator resumed after it ends raises StopIteration in Python. This is modelled as the outcome `Exhausted` with no actions. Exceptions inside gem5, and what gem5 does with them, are not modelled.
- `run_fs_multithread.py` is not part of this model. Its two handlers are the same code as the WORKBEGIN and WORKEND handlers of `run_fs_mt_checkpoint.py`.
- Floating point is not modelled:
  - Flock's `getCurrFCP`, `getProjFCP` and `setNewPartition`;
  - `cpi_stats`, `cache_latency_stats` and `dram_latency`;
  - the `double` values of the request's cache statistics. Only their counts are carried, as unsigned 64-bit numbers.
- Flock's `repartition` and `reaging` counters are declared but never used, so they are not modelled.
- The request's cache-statistics `unordered_map` is walked as a sequence of readings. The model proves properties for every order but not which order gem5's hash map yields.
- Flock's `getVictim` and `invalidate` are the same code as Hawkeye's. The model uses `HawkeyeRp.GetVictim` and `HawkeyeRp.Invalidate` for both policies.
- The `access` of Hawkeye is empty, and the packet-less `touch`/`reset` overloads of all policies only panic. None of these are modelled.
- With Mockingjay, `touch` and `reset` are declared in `mockingjay_rp.hh` but defined nowhere. The constructor in `mockingjay_rp.cc` initialises members the header does not declare. The `age_ctr` array is allocated and never used. The policy's own `touch`/`reset`/constructor are therefore not modelled; its replacement data, `aging`, `invalidate` and `getVictim` are.
- MockingjayTraining.ReuseDistPredictor.Train: `train` is an empty function in the source, so the model's method changes nothing and carries no contract.
- `HistorySampler::sample` is declared with seven parameters, but the policies call it with six. The model keeps the declaration's `log2_num_pred_entries` as an explicit parameter. Mockingjay's `sample` (`mockingjay_sampler.cc`) also calls `access` and `insert` with five arguments and takes `*evict` from `insert`. The only definitions are in `mockingjay_sampler.hh`: `void insert(SampledCachePacket *)` at line 84 and `bool access(SampledCachePacket *, ...)` at line 112. The model follows those definitions.
- MockingjayTraining.SampledCache.Sample: on a sampler miss the source sets `*evict` from an `insert` that returns nothing, so the source defines no value there. The model reports whether the insert replaced a valid line. It also returns false or 0 for the outputs the source leaves unwritten: all of them for an unsampled set, and `last_PC`/`last_timestamp` on a miss.
- `hawkeye_rp.hh` describes an older Hawkeye: no `context_id`, and one sampler, one occupancy vector and one predictor object where the `.cc` keeps a vector per cache set. The model follows `hawkeye_rp.cc` and the Flock header's field layout.
- The predictor counters of `PCBasedPredictor` and the sampler timestamp counters are allocated without initialisation. The model leaves their contents arbitrary, so every property holds whatever they start with.
- HawkeyeRp.Hawkeye.Touch and HawkeyeRp.Hawkeye.Reset require that the replacement-data object is not one of the policy's own objects. In gem5 this holds because the cache owns the replacement data. The same holds for FlockHawkeyeRp.FlockHawkeye.Touch, FlockHawkeyeRp.FlockHawkeye.Reset and FlockHawkeyeRp.FlockHawkeye.Access, whose candidates must be distinct and outside the policy.
- FlockHawkeyeRp.FlockHawkeye.Touch: requires the packet's context to name one of the cores when the guard holds. The source indexes `samplers[contextId]` without a check, which is undefined behaviour otherwise. The same holds for FlockHawkeyeRp.FlockHawkeye.Reset.
- FlockHawkeyeRp.RatioMaxForExact: proves the stored `ratio_max` exact only for access counts up to 2^31. Beyond that, the 64-bit quotient stored into a 32-bit `int` wraps, which Bits.ToInt32 models but no lemma characterises.
- The 64-bit access, miss and decision counters wrap around at 2^64, as Bits.Inc64 models.
- FlockHawkeyeRp.CountedKeepsMissesBelow: states that misses stay at most accesses only short of the 64-bit wrap-around.
- Bits.CrcRoundLinear: linearity over XOR is proved for one CRC round, not for the 32 rounds of `CRC` or the 3 of `CRC_HASH`. The induction over rounds is sound, but its 64-bit obligations exceed the verifier's resource limit.
- `panic_if`, `assert` and `gem5_assert` are modelled as proof obligations or as lemmas showing when they fire. Aborting the simulation is not modelled.

## Findings

| source | as written | input that shows it | evidently intended | confidence | as-written member | corrected member |
|---|---|---|---|---|---|---|
| src/mem/cache/tags/mockingjay_sampler.hh:66-70 | `setPC` keeps the old word's bits under `ENTRY_PC_MASK` (0x7FF) instead of the timestamp's 8 bits, so the old PC's low three bits are OR-ed into the new PC | an entry holding PC 1 given PC 0 reads back PC 1 | keep only bits 0..7 below the PC field, so `getPC(setPC(w, p)) == p` | not executed | MockingjaySampler.SetPCAsWrittenCounterexample | MockingjaySampler.SetPCWritesPC |
| src/mem/cache/tags/mockingjay_sampler.hh:113 | `access` searches `i < 128` over an array of five ways | any miss; the loop reads way indices 5..127, memory past the set, where a neighbouring word whose address field matches would be reported as a hit and rewritten | search the `NUM_WAYS_SAMPLER` (5) ways | not executed | MockingjaySampler.AccessMissOverruns | MockingjaySampler.CacheSet.Access |
| src/mem/cache/tags/mockingjay_sampler.cc:143 | `set_index` masks `log2(num_sets) + log2(cache_sets)` bits of the block address | two sampler sets, two cache sets, block address 3: set index 3, past the end of `sample_data` | keep `log2(num_sets)` bits, an index below `num_sets` | not executed | MockingjayTraining.SetIndexAsWrittenOverruns | MockingjayTraining.SetIndex |
| src/mem/cache/tags/mockingjay_sampler.cc:144 | `addr_tag` is masked to 16 bits, but an entry stores only 10 | tag 0x400: stored as 0, so the same block never hits after insertion | mask with the 10-bit entry address mask | not executed | MockingjaySampler.WideTagNeverHits | MockingjaySampler.NarrowTagHits |
| src/mem/cache/replacement_policies/hawkeye_rp.cc:131-136 | the current timestamp is reduced modulo the vector size but the 8-bit last timestamp is not | a last timestamp of 200 with the default 128-slot vector indexes slot 200 of `liveness_history` | reduce the last timestamp modulo the vector size too | not executed | HawkeyeRp.LastTimestampOutOfRange | HawkeyeRp.TrainIndices |
| src/mem/cache/replacement_policies/flock_hawkeye_rp.cc:411-424 | the loop meant to find the smallest access count keeps the largest, so other cores get `count / max - 1 = -1` | access counts 1 and 2: core 0 gets `ratio_max` -1 and the `gem5_assert` fires | divide by the smallest nonzero count, so every ratio is at least 0 | not executed | FlockHawkeyeRp.AgingAsWrittenNegative | FlockHawkeyeRp.AgingRatiosSound |
| src/mem/cache/replacement_policies/flock_hawkeye_rp.cc:233-237 | `reset` saturates a friendly line and zeroes an averse one, the opposite of `touch` and of Hawkeye | 3-bit RRPV, friendly fill: RRPV 7, above the 6 that `getVictim`'s `panic_if` allows a friendly line | friendly lines inserted at 0, averse at the maximum | not executed | FlockHawkeyeRp.FillAsWrittenBreaksLineInvariant | FlockHawkeyeRp.FlockHawkeye.Reset |
| src/mem/cache/replacement_policies/flock_hawkeye_rp.cc:84 | a DRAM reading is taken only if both counts are at most the stored ones, which start at 0 | a response reporting 5 accesses and 3 row hits is dropped; the counters stay 0 forever | take a reading when neither count goes down | not executed | FlockHawkeyeRp.DramAsWrittenStuck | FlockHawkeyeRp.DramStepRecords |
