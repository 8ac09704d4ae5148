# isolator: the Gibbs sampler driver and the alignment scan, in Dafny

isolator estimates transcript expression from RNA-seq alignments. This
project models two parts of it.

**The alignment scan** (`src/sam_scan.cpp`) reads a coordinate-sorted
SAM/BAM stream once. It:

- counts the alignments of each read, per mate, in a trie of packed 16-bit
  counters;
- gives every interval of interest its reference id from the header;
- sorts the intervals by `(tid, start, end)`;
- sweeps the stream, keeping `j0` at the first unfinished interval.
  Each alignment goes to every interval that contains it. Every interval is
  finished once, either when no later alignment can reach it or at the end.
  A mapped record out of coordinate order aborts the scan.

**The Gibbs sampler driver** (`src/analyze.cpp`) covers:

- the sample registry (`add_sample`);
- the tables and seeds the constructor derives;
- the arrays `run()` sizes and `choose_initial_values` fills;
- one sweep `sample(optimize)`:
  - the quantification samplers' hyperparameters are scattered from the
    condition-level parameters;
  - every sampler is run and its state copied into a row of Q;
  - the driver makes its own draws on flattened work vectors;
  - the condition-level thread groups, then the experiment-level ones, work
    through 250-wide blocks of transcripts or spliced tgroups;
- the phase schedule of `run()`: optimisation rounds, the priors engaged,
  sample 0 written, the burn-in flags cleared, burn-in, the output loop and
  the shutdown of the threads.

Parameter samplers are opaque functions of the arguments the source passes
them (`Params.Draw`, `Params.QuantDraw`). The unit index stands for that
unit's random number generator.

Modules, in dependency order:

- `Ranges`: counted-loop index ranges.
- `AlnCount`: the packed counter trie.
- `SamScan`: interval order, tid lookup, sort and sweep.
- `Setup`: spliced tgroups and generator seeds.
- `Dispatch`: queues, blocks, the stopping range, and the "each index once" bookkeeping.
- `Params`: parameter arrays, index tables and per-unit updates.
- `Workers`: one class per thread type, with `run()` loops and `end_burnin`.
- `Scatter`: `qsampler_update_hyperparameters`.
- `Flatten`: the work vectors.
- `Sweep`: one iteration as a function of the parameters.
- `Gather`: driver-side rounds and the shutdown.
- `Sampler`: the driver's state as a class, and `sample()`.
- `Phases`: the event schedule of `run()`.
- `Analysis`: the registry, initial values and `run()`.

Three points of the phase order that the model keeps as the code has them:

- `end_burnin()` is called on every thread right after the optimisation
  rounds (src/analyze.cpp:2028-2040), before the burn-in loop, so the
  burn-in iterations run with the flag already cleared. The forced 1.0
  shapes and sigmas apply only to optimising iterations.
- `write_output(0)` runs even when `num_samples` is 0, so `run()` writes
  `max(1, num_samples)` samples (`Phases.Written`).
- The experiment-splice thread's `burnin_state` is set by `end_burnin` but
  never read by its `run()`.

## Model

| member | source | states |
|---|---|---|
| AlnCount.BumpMate1 | src/sam_scan.cpp:25-30 | the stored word's mate-1 counter is the old one plus 1 modulo 2^16, the mate-2 counter is unchanged, and bits 32..63 are clear |
| AlnCount.BumpMate2 | src/sam_scan.cpp:33-38 | the stored word's mate-2 counter is the old one plus 1 modulo 2^16, the mate-1 counter is unchanged, and bits 32..63 are clear |
| AlnCount.AlnCountTrie.constructor | src/sam_scan.cpp:13-16 | the trie starts empty |
| AlnCount.AlnCountTrie.IncMate1 | src/sam_scan.cpp:25-30 | only the slot of `id` changes; an absent id starts from 0; the slot takes the bumped mate-1 counter; every slot keeps bits 32..63 clear |
| AlnCount.AlnCountTrie.IncMate2 | src/sam_scan.cpp:33-38 | only the slot of `id` changes; an absent id starts from 0; the slot takes the bumped mate-2 counter; every slot keeps bits 32..63 clear |
| AlnCount.AlnCountTrie.Get | src/sam_scan.cpp:41-46 | an id never inserted reads as (0, 0) |
| AlnCount.FreshMate1Count | src/sam_scan.cpp:25-46 | after any sequence of increments on a fresh slot, the mate-1 counter equals the number of mate-1 increments modulo 2^16 |
| AlnCount.FreshMate2Count | src/sam_scan.cpp:25-46 | after any sequence of increments on a fresh slot, the mate-2 counter equals the number of mate-2 increments modulo 2^16 |
| SamScan.LessIrreflexive | src/sam_scan.cpp:73-78 | no interval is less than itself |
| SamScan.LessTransitive | src/sam_scan.cpp:73-78 | `operator<` is transitive |
| SamScan.LessIncomparable | src/sam_scan.cpp:73-78 | two intervals are incomparable exactly when their (tid, start, end) agree, so the order is a strict weak order |
| SamScan.AssignTids | src/sam_scan.cpp:132-136 | every interval takes the header's id of its sequence name, or -1 when the header lacks the name; nothing else changes |
| SamScan.SortIntervals | src/sam_scan.cpp:138 | the intervals end sorted by `operator<` and are a permutation of those before |
| SamScan.OfferAlignment | src/sam_scan.cpp:184-204 | `j0` never decreases and stays at most n; the intervals finished are exactly j0..j1-1, in order, and each lies wholly before the alignment; every interval receives the alignment exactly when it contains it (same tid, start <= pos <= end, alignment end <= end) |
| SamScan.OrderAdvance | src/sam_scan.cpp:164-171 | a mapped record at or after the last mapped position becomes the new last position, and the records so far stay in coordinate order |
| SamScan.OrderSkip | src/sam_scan.cpp:162 | an unmapped record, or one with tid < 0, leaves the last position and the order unchanged |
| SamScan.OrderBroken | src/sam_scan.cpp:164-169 | a mapped record before the last mapped position breaks coordinate order |
| SamScan.SkippedKeepsIntervals | src/sam_scan.cpp:162 | a skipped record changes no interval's alignments |
| SamScan.SkippedKeepsCounts | src/sam_scan.cpp:162 | a skipped record changes no count |
| SamScan.CountRecord | src/sam_scan.cpp:174-181 | a second-mate record bumps its read's mate-2 counter, any other record its mate-1 counter |
| SamScan.CountAndOffer | src/sam_scan.cpp:173-204 | after one mapped record, the trie holds the counts of the prefix so far, and every interval holds the prefix's alignments it contains |
| SamScan.Sweep | src/sam_scan.cpp:140-207 | the scan aborts exactly when the mapped records are out of coordinate order, at the first offending record. Otherwise every interval is finished exactly once in increasing order, the trie counts every mapped record, and every interval holds exactly the alignments it contains, in stream order |
| SamScan.FinishRest | src/sam_scan.cpp:207 | the closing loop finishes every interval from `j0` on, in increasing order, so that with the ones before every interval is finished exactly once |
| SamScan.Scan | src/sam_scan.cpp:97-213 | the intervals are sorted and are a permutation of the tid-assigned ones; the sweep's guarantees hold over that order |
| SamScan.ContainedExactly | src/sam_scan.cpp:184-204 | an alignment is in an interval's list exactly when it is in the stream and the interval contains it |
| SamScan.CountMatesSlot | src/sam_scan.cpp:173-181 | a read's slot after the scan replays, from its slot before, the increments of that read's mapped records in stream order |
| SamScan.ScanCounts | src/sam_scan.cpp:41-46 | after scanning into an empty trie, `get` of any read returns its numbers of mapped first-mate and second-mate records, each modulo 2^16 |
| Setup.SplicedTgroupIndexes | src/analyze.cpp:1327-1333 | lists, in strictly increasing order, exactly the tgroups with more than one transcript |
| Setup.SeedPools | src/analyze.cpp:1335-1347 | the driver's generator is seeded `rng_seed`; splice generator i gets `rng_seed + i` and transcript generator t gets `rng_seed + S + t`, both modulo 2^32 |
| Setup.SeedsDistinct | src/analyze.cpp:1335-1347 | with at most 2^32 generators in the pools, no two pool generators share a seed; the driver's seed equals that of the first pool generator |
| Dispatch.Work | src/analyze.cpp:975-979 | a worker processes the longest prefix of its queue that holds no range with `first == -1`; the item after that prefix, if any, stops it |
| Dispatch.PushBlocks | src/analyze.cpp:2193-2196 | the queue gains exactly the blocks [i, min(n, i + 250)) for i = 0, 250, ... below n |
| Dispatch.PopBlockNotices | src/analyze.cpp:2203-2205 | the driver pops exactly one notice per block |
| Dispatch.PushIndexes | src/analyze.cpp:2122-2124 | the tick queue gains the sample indexes 0..K-1 in order |
| Dispatch.PopCount | src/analyze.cpp:2183-2185 | the driver pops exactly K tocks |
| Dispatch.BlocksTile | src/analyze.cpp:2193-2196 | there are ceil(n / 250) blocks, none of them empty; block b starts at 250 b; each ends where the next starts; the first starts at 0 and the last ends at n |
| Dispatch.BlocksCover | src/analyze.cpp:2193-2196 | the blocks visit every index below n exactly once, in increasing order |
| Dispatch.BlocksAreWork | src/analyze.cpp:2193-2196 | no block stops a worker |
| Dispatch.BlocksFit | src/analyze.cpp:2193-2196 | the indexes the blocks visit are all below n and pairwise distinct |
| Dispatch.WorkIdx | src/analyze.cpp:1491-1492 | a tick worker processes the longest prefix of its queue without -1; the item after it, if any, is -1 |
| Dispatch.RangeIsWork | src/analyze.cpp:2122-2124 | the sample indexes pushed contain no -1, so a tick worker processes them all |
| Params.MeanShapeStep | src/analyze.cpp:981-1017 | a transcript gets one new mean per condition; its shape is forced to 1.0 while the burn-in flag is set |
| Params.EtaPass | src/analyze.cpp:673-715 | after the eta pass every eta of the tgroup is back at 1.0 and the shapes are kept |
| Params.MuPass | src/analyze.cpp:717-735 | the mu pass changes only mu |
| Params.SigmaUpdate | src/analyze.cpp:737-763 | a splice sigma is 1.0 while the burn-in flag is set and at least the floor `analyze_min_splice_sigma` otherwise |
| Params.SigmaPass | src/analyze.cpp:737-764 | the sigma pass changes only sigma; every sigma is 1.0 while the flag is set and at least the floor otherwise |
| Params.SpliceStep | src/analyze.cpp:656-765 | the eta, mu and sigma passes in order keep the tgroup's shapes |
| Params.SpliceStepResets | src/analyze.cpp:714-762 | after a tgroup's update every eta is 1.0; every sigma is 1.0 during burn-in and at least the floor after it |
| Workers.ConditionMeanShapeWorker.constructor | src/analyze.cpp:933-968 | wired to the given arrays and queues, with the burn-in flag set |
| Workers.ConditionMeanShapeWorker.EndBurnin | src/analyze.cpp:970-973 | clears the burn-in flag |
| Workers.ConditionMeanShapeWorker.SampleTranscript | src/analyze.cpp:981-1017 | transcript t, not updated before in this drain, takes the means and shape `MeanShapeStep` gives it; Q and the experiment means are unchanged |
| Workers.ConditionMeanShapeWorker.SampleRange | src/analyze.cpp:981-1018 | every transcript of the range takes its target |
| Workers.ConditionMeanShapeWorker.ProcessRange | src/analyze.cpp:981-1019 | the m-th range of work is applied and exactly one notice is pushed |
| Workers.ConditionMeanShapeWorker.Next | src/analyze.cpp:977-1020 | one pop: a stopping range or an empty queue ends the drain having written nothing; any other range is the next range of work, and it is applied with one notice |
| Workers.ConditionMeanShapeWorker.Drain | src/analyze.cpp:977-1020 | the loop for fixed targets: every transcript of the ranges before the stop takes its target, and there is one notice per range |
| Workers.ConditionMeanShapeWorker.Run | src/analyze.cpp:975-1021 | drains the queue up to and including the first stopping range. Every transcript of every range before it takes the value `MeanShapeStep` computes from the arrays at the start, and every other transcript is unchanged. Exactly one notice is pushed per range |
| Workers.ExperimentMeanWorker.constructor | src/analyze.cpp:1176-1196 | wired to the given arrays and queues |
| Workers.ExperimentMeanWorker.SampleTranscript | src/analyze.cpp:1207-1222 | transcript t takes the experiment mean drawn from its value, the experiment shape and its condition means |
| Workers.ExperimentMeanWorker.SampleRange | src/analyze.cpp:1207-1222 | every transcript of the range takes its draw |
| Workers.ExperimentMeanWorker.ProcessRange | src/analyze.cpp:1207-1224 | the m-th range of work is applied and exactly one notice is pushed |
| Workers.ExperimentMeanWorker.Next | src/analyze.cpp:1203-1225 | one pop: a stop or an empty queue ends the drain with nothing written; otherwise one range is applied with one notice |
| Workers.ExperimentMeanWorker.Drain | src/analyze.cpp:1203-1225 | the loop for fixed targets: every transcript of the ranges before the stop takes its draw, with one notice per range |
| Workers.ExperimentMeanWorker.Run | src/analyze.cpp:1198-1226 | drains the queue up to the first stop. Every transcript of every range before it takes its draw from the values at the start, every other one is unchanged, and one notice is pushed per range |
| Workers.ConditionSpliceWorker.constructor | src/analyze.cpp:589-628 | wired to the given arrays and queues, with the burn-in flag set |
| Workers.ConditionSpliceWorker.EndBurnin | src/analyze.cpp:631-634 | clears the burn-in flag |
| Workers.ConditionSpliceWorker.SampleGroup | src/analyze.cpp:656-765 | spliced tgroup j, not updated before in this drain, takes the mu, sigma and eta `SpliceStep` gives it; Q and the experiment splice means are unchanged |
| Workers.ConditionSpliceWorker.SampleRange | src/analyze.cpp:656-765 | every tgroup of the range takes its target |
| Workers.ConditionSpliceWorker.ProcessRange | src/analyze.cpp:656-767 | the m-th range of work is applied and exactly one notice is pushed |
| Workers.ConditionSpliceWorker.Next | src/analyze.cpp:652-768 | one pop: a stop or an empty queue ends the drain with nothing written; otherwise one range is applied with one notice |
| Workers.ConditionSpliceWorker.Drain | src/analyze.cpp:652-768 | the loop for fixed targets: every tgroup of the ranges before the stop takes its target, with one notice per range |
| Workers.ConditionSpliceWorker.Run | src/analyze.cpp:637-769 | drains the queue up to the first stop. Every spliced tgroup of every range before it takes the parameters `SpliceStep` computes from the arrays at the start, every other one is unchanged, and one notice is pushed per range |
| Workers.ExperimentSpliceWorker.constructor | src/analyze.cpp:823-852 | wired to the given arrays and queues, with the burn-in flag set |
| Workers.ExperimentSpliceWorker.EndBurnin | src/analyze.cpp:855-858 | clears the burn-in flag |
| Workers.ExperimentSpliceWorker.SampleGroup | src/analyze.cpp:869-888 | spliced tgroup j takes the experiment splice means drawn from `condition_splice_mu` |
| Workers.ExperimentSpliceWorker.SampleRange | src/analyze.cpp:869-888 | every tgroup of the range takes its draws |
| Workers.ExperimentSpliceWorker.ProcessRange | src/analyze.cpp:869-890 | the m-th range of work is applied and exactly one notice is pushed |
| Workers.ExperimentSpliceWorker.Next | src/analyze.cpp:865-891 | one pop: a stop or an empty queue ends the drain with nothing written; otherwise one range is applied with one notice |
| Workers.ExperimentSpliceWorker.Drain | src/analyze.cpp:865-891 | the loop for fixed targets: every tgroup of the ranges before the stop takes its draws, with one notice per range |
| Workers.ExperimentSpliceWorker.Run | src/analyze.cpp:861-892 | drains the queue up to the first stop. Every tgroup of every range before it takes its draws from the values at the start, every other one is unchanged, and one notice is pushed per range |
| Workers.TickWorker.constructor | src/analyze.cpp:1476-1486 | wired to the samplers, Q and the queues, with `optimize_state` false |
| Workers.TickWorker.SetOptimizeState | src/analyze.cpp:1524-1527 | the flag takes the given value |
| Workers.TickWorker.Tick | src/analyze.cpp:1492-1504 | for popped index i not popped before in this drain, sampler i optimises exactly when the flag is set and samples otherwise; only row i of Q changes, and it takes that sampler's state |
| Workers.TickWorker.Run | src/analyze.cpp:1488-1509 | drains the tick queue up to the first -1. Every row whose index came before it holds its sampler's new state, every other row is unchanged, and one tock is pushed per index |
| Scatter.ScatterGroupsMiss | src/analyze.cpp:1864-1872 | a transcript in none of the spliced tgroups scattered so far keeps its value |
| Scatter.ScatterGroupsHit | src/analyze.cpp:1864-1872 | the k-th transcript of a scattered spliced tgroup holds that tgroup's k-th value |
| Scatter.HyperForValues | src/analyze.cpp:1849-1873 | sampler i of condition c gets scale[i], condition c's means and every shape. Transcript k of spliced tgroup j gets `condition_splice_mu[c][j][k]` and `condition_splice_sigma[j][k]`. Every transcript of no spliced tgroup gets 0.0 and 0.1 |
| Scatter.SamplerHyper | src/analyze.cpp:1850-1872 | the per-sampler loop body computes exactly the hyperparameters `HyperForValues` describes |
| Scatter.UpdateHyperparameters | src/analyze.cpp:1847-1874 | every sampler's hyperparameters are those of its sample's condition |
| Flatten.FlattenAt | src/analyze.cpp:2136-2140 | entry k of row j lands at the row's offset plus k |
| Flatten.FlattenWhole | src/analyze.cpp:1899-1913 | the flattened sigmas are exactly `flattened_sigma_size` long |
| Flatten.CopyRows | src/analyze.cpp:2136-2140 | the running-index double loop leaves the rows flattened, at the buffer's size |
| Flatten.ResidualAt | src/analyze.cpp:2150-2157 | the deviation of condition c, tgroup j, transcript k sits after c whole blocks, at the position `experiment_splice_mu[j][k]` has when flattened |
| Flatten.FlattenResiduals | src/analyze.cpp:2150-2157 | `experiment_splice_sigma_work` becomes the deviations, condition after condition, at the buffer's size |
| Flatten.FillWork | src/analyze.cpp:1912-1913 | the sigma work vector becomes the flattened sigmas and the residual work vector the residuals, each at the size `run()` gives it |
| Sweep.IterateResets | src/analyze.cpp:714-1007 | after any iteration every eta is 1.0. While the burn-in flag is set, every condition shape and splice sigma is 1.0; otherwise every splice sigma is at least the floor |
| Gather.TickDispatch | src/analyze.cpp:2118-2124 | every tick thread takes the optimize flag; the sample indexes 0..K-1 are queued |
| Gather.TickCollect | src/analyze.cpp:2183-2185 | once the K tocks are popped, every row of Q holds its sampler's state and both queues are empty |
| Gather.MeanShapeBlocks | src/analyze.cpp:2193-2196 | draining the transcript blocks gives every transcript its target, with one notice per block |
| Gather.SpliceBlocks | src/analyze.cpp:2198-2201 | draining the tgroup blocks gives every spliced tgroup its target, with one notice per block |
| Gather.ExperimentMeanBlocks | src/analyze.cpp:2212-2215 | every experiment mean takes its draw, with one notice per block |
| Gather.ExperimentSpliceBlocks | src/analyze.cpp:2217-2220 | every experiment splice mean takes its draw, with one notice per block |
| Gather.SentinelsStop | src/analyze.cpp:2058-2061 | a worker finding only stopping ranges stops on the first and does no work |
| Gather.StopIndexesStop | src/analyze.cpp:2057 | a tick worker finding only -1 stops on the first and does no work |
| Gather.JoinTick | src/analyze.cpp:2057-2065 | the tick threads stop with Q unchanged and no tock pushed |
| Gather.JoinMeanShape | src/analyze.cpp:2058-2066 | the mean/shape threads stop and change nothing |
| Gather.JoinExperimentMean | src/analyze.cpp:2059-2067 | the experiment mean threads stop and change nothing |
| Gather.JoinSplice | src/analyze.cpp:2060-2068 | the splice threads stop and change nothing |
| Gather.JoinExperimentSplice | src/analyze.cpp:2061-2069 | the experiment splice threads stop and change nothing |
| Gather.ConditionRound | src/analyze.cpp:2189-2209 | every transcript and every spliced tgroup holds its condition-level target; all four queues end empty |
| Gather.ExperimentRound | src/analyze.cpp:2211-2228 | every experiment mean and experiment splice mean holds its draw; all four queues end empty |
| Gather.PushStops | src/analyze.cpp:2056-2062 | each of the five queues receives exactly one stopping item per thread |
| Gather.JoinAll | src/analyze.cpp:2064-2070 | every task queue ends empty; no parameter and no notice queue changes |
| Sampler.DriverScalars | src/analyze.cpp:2129-2181 | the driver's three draws and the experiment shape are what `Sweep.Draws` specifies, and the work vectors keep their sizes |
| Sampler.Gibbs.UpdateHyper | src/analyze.cpp:2116 | the parameters become `Sweep.Hyperparameters` of those before |
| Sampler.Gibbs.DriverDraws | src/analyze.cpp:2129-2181 | the parameters become `Sweep.Draws` of those before |
| Sampler.Gibbs.StartTicks | src/analyze.cpp:2118-2124 | every tick thread holds the flag and the tick queue holds the indexes 0 .. K-1; the parameters and the other queues are untouched |
| Sampler.Gibbs.CollectTicks | src/analyze.cpp:2183-2185 | the parameters become `Sweep.Ticks` of those before, with every queue empty |
| Sampler.Gibbs.ConditionStage | src/analyze.cpp:2189-2209 | the parameters become `Sweep.ConditionLevel` under the threads' burn-in flag |
| Sampler.Gibbs.ExperimentStage | src/analyze.cpp:2211-2228 | the parameters become `Sweep.ExperimentLevel` of those before |
| Sampler.Gibbs.TickRound | src/analyze.cpp:2116-2185 | the ticks and the driver's draws together; every queue ends empty |
| Sampler.Gibbs.Rounds | src/analyze.cpp:2189-2228 | the condition level, then the experiment level; every queue ends empty |
| Sampler.Gibbs.Sample | src/analyze.cpp:2114-2229 | one `sample(optimize)` turns the parameters into `Sweep.Iterate` of them under the burn-in flag; every queue ends empty |
| Sampler.Gibbs.EndBurnin | src/analyze.cpp:2028-2040 | every thread's burn-in flag is cleared, and no parameter or queue changes |
| Sampler.Gibbs.QueueStops | src/analyze.cpp:2056-2062 | each task queue of the driver holds one stopping item per thread, every notice queue stays empty, no parameter changes |
| Sampler.Gibbs.Join | src/analyze.cpp:2064-2070 | from the stopping items queued, every queue ends empty and no parameter changes |
| Sampler.Gibbs.Shutdown | src/analyze.cpp:2056-2070 | the threads stop; no parameter changes and every queue ends empty |
| Phases.OutputsWrites | src/analyze.cpp:2050-2054 | the output loop writes samples lo..hi-1 in increasing order |
| Phases.OutputsIterations | src/analyze.cpp:2050-2054 | the output loop runs one sampling (not optimising) iteration per sample written |
| Phases.MiddleCounts | src/analyze.cpp:2018-2040 | between optimisation and burn-in only sample 0 is written and no iteration runs |
| Phases.TailCounts | src/analyze.cpp:2045-2062 | from burn-in on, `burnin + max(1, num_samples) - 1` sampling iterations run and only the output loop writes |
| Phases.ScheduleCounts | src/analyze.cpp:2013-2062 | `run()` writes samples 0..max(1, num_samples)-1, each exactly once and in increasing order. It runs `num_opt_rounds` optimising iterations and `burnin + max(1, num_samples) - 1` sampling ones |
| Phases.SchedulePhases | src/analyze.cpp:2013-2062 | the optimising iterations come first, with the burn-in flag set. The priors are engaged right after them exactly when `nopriors` is unset, then sample 0 is written. Every iteration has the burn-in flag set exactly when it optimises. The shutdown comes last |
| Analysis.ChainAdd | src/analyze.cpp:2045-2054 | a iterations followed by b more are a + b iterations |
| Analysis.SamplesAt | src/analyze.cpp:2050-2054 | entry u of the samples holds the parameters after u + 1 iterations |
| Analysis.SamplesAfter | src/analyze.cpp:2045-2054 | after a burn-in of `burnin` iterations, sample i >= 1 holds the parameters `burnin + i` iterations after sample 0 |
| Analysis.SpliceRows | src/analyze.cpp:1897-1910 | each spliced tgroup's sigmas are 0.1 and its etas 1.0, one per transcript; `flattened_sigma_size` is the length of the flattened sigmas |
| Analysis.InitialValues | src/analyze.cpp:1879-1921 | the arrays have the sizes of the layout. Means are `zero_eps`, shapes 1.0, splice means 0.5, sigmas 0.1 and etas 1.0. The driver scalars are 2.0, 1.0, 0.5 and 1.0. The work vectors get sizes S and C·S, where S is `flattened_sigma_size` |
| Analysis.Step | src/analyze.cpp:2046 | one `sample()` advances the chain by one iteration and keeps the burn-in flag |
| Analysis.SampleLoop | src/analyze.cpp:2045-2048 | `count` iterations under an unchanged burn-in flag |
| Analysis.OutputLoop | src/analyze.cpp:2050-2054 | output i holds the parameters after i iterations of the loop |
| Analysis.Warmup | src/analyze.cpp:2013-2040 | the optimising iterations, the priors unless `nopriors`, sample 0 written, then the flags cleared; sample 0 holds the parameters after the optimisation rounds |
| Analysis.Posterior | src/analyze.cpp:2045-2054 | burn-in, then the output loop: the events are `burnin` sampling iterations and then the output loop's; sample 0 is the state it starts from, and the later samples are those of the chain that starts `burnin` sampling iterations after it |
| Analysis.Drive | src/analyze.cpp:2013-2070 | the whole phase schedule. Sample 0 is the optimised state; sample i >= 1 is `burnin + i` sampling iterations after it |
| Analysis.Arrays | src/analyze.cpp:1879-1921 | fresh, distinct arrays holding the given parameters |
| Analysis.Threads | src/analyze.cpp:1944-2008 | one fresh worker per thread group, wired to the driver's arrays, with empty queues and every burn-in flag set |
| Analysis.Build | src/analyze.cpp:1879-2008 | a sampler holding the given parameters, wired and idle, with the burn-in flag set |
| Analysis.Launch | src/analyze.cpp:1944-2070 | from filled arrays, the threads and the phases: the events are the phase schedule, sample 0 is the state after the optimisation rounds, and sample i >= 1 is `burnin + i` sampling iterations after it |
| Analysis.DenseId | src/analyze.cpp:1367-1372 | a registered condition's id is below the number of conditions and names that condition |
| Analysis.DenseExtend | src/analyze.cpp:1368-1371 | a new condition name takes the next id and keeps the ids dense |
| Analysis.ListedExtend | src/analyze.cpp:1374-1378 | appending sample K to its condition's list, grown if needed, keeps every sample listed by exactly its own condition, in increasing order |
| Analysis.Analyze.constructor | src/analyze.cpp:1256-1347 | no sample yet. The spliced tgroups are exactly the tgroups with more than one transcript, in increasing order. The seeds are `rng_seed`, then `rng_seed + i`, then `rng_seed + S + t` |
| Analysis.Analyze.AddSample | src/analyze.cpp:1364-1379 | a new name takes the next condition id and an existing name keeps its id. The sample is appended with that condition, K grows by one, and K becomes the last entry of its condition's list, grown if needed |
| Analysis.Analyze.Run | src/analyze.cpp:1877-2111 | the arrays sized and initialised; with `dryrun` nothing more; otherwise the phase schedule, with samples as `Drive` states them |
| Analysis.SampleListedOnce | src/analyze.cpp:1364-1379 | condition ids are dense and distinct; every registered sample appears exactly once in its own condition's list and in no other |

## Left out

- The per-parameter sampler classes (src/analyze.cpp:32-581) and src/shredder.cpp are slice samplers and optimisers over floating point. They are the opaque `Params.Draw`, and the quantification samplers' `sample`/`optimize`/`state` are the opaque `Params.QuantDraw`. Random number generator state is not modelled: a draw depends only on its unit index and arguments. So two draws of one unit with equal arguments are equal in the model, where the source's generator would advance between them: for example two transcripts k of one tgroup in `ExperimentSpliceMuCall`, or two conditions in `ConditionMeanCall`.
- Floating point: every `float`/`double` is a `real`. A division by zero, an infinity or NaN in the source gives 0 in `Params.Div`. `fastlog` and `assert_finite` are not modelled.
- Threads: `boost::thread` start/join and the blocking `Queue` are not modelled. A queue is a sequence, and each thread group is one worker that drains the whole queue before the driver pops the notices. Interleavings are not modelled. Which thread takes which range does not matter here, because draws do not depend on the thread. The queue class (src/queue.hpp) is not part of this model.
- `Dispatch.Queue.Pop`: requires a non-empty queue where the real thread would block.
- `Analysis.Analyze.Run`: does not model the failure on an empty experiment. With no transcripts (N = 0), the source throws `std::out_of_range` in the first `sample()`, at `condition_shape.at(0)` (src/analyze.cpp:2133), and in `write_output` at `experiment_mean.at(0)` (src/analyze.cpp:2241). With no samples (K = 0), `write_output(0)` throws at `scale.at(0)` (src/analyze.cpp:2271). The per-sampler `data.at(0)`, `xs_mu.at(0)` and `xs.at(0)` (src/analyze.cpp:757, 884, 1011-1013) throw the same way on empty input. The model accepts K = 0 and N = 0 and completes the whole schedule with its outputs, because `Params.Draw` and the snapshot functions are total.
- `Workers.ConditionMeanShapeWorker.Run`, `Workers.ExperimentMeanWorker.Run`, `Workers.ConditionSpliceWorker.Run` and `Workers.ExperimentSpliceWorker.Run` require the queued ranges to lie inside the index space and not to overlap (`Dispatch.Fits`). The driver's blocks meet this (`Dispatch.BlocksFit`). The model does not describe overlapping ranges, which would update a unit twice.
- `Workers.TickWorker.Run` requires every queued index other than -1 to be below K and no index to be queued twice (`Dispatch.IdxFits`). The driver's push of 0..K-1 meets this. The source indexes `samplers[index]` unchecked. A repeated index would run the stateful sampler a second time and copy a different state into its row, which the model does not describe.
- `Workers.Overwrite`: a sampler state longer than its row of Q, which would overrun the row in the source, is cut to the row's length.
- `compute_scaling` (src/analyze.cpp:2336-2366, called from `sample()` at 2187) is left out as floating-point quantile normalisation. `scale` keeps the 1.0 that `run()` gives it, so `Sweep.Config.scale` is `Fill(K, 1.0)`. The source also rewrites every row of Q in place, dividing by the old scale and multiplying by the new one, before the condition-level threads read Q. The model does not rescale Q: `Sweep.ConditionLevel` and every later draw read Q exactly as `Sweep.Ticks` left it.
- `setup_samplers` and `SamplerInitThread` (src/analyze.cpp:1383-1469, 1542-1567) construct the quantification samplers from data outside this model. Their initial Q and hyperparameters are the parameters `q0` and `hp0` of `Analysis.Analyze.Run`.
- HDF5 output (`setup_output`, `write_output`, src/analyze.cpp:1570-1830, 2232-2333) is I/O. A write is a `Phases.WriteOutput(i)` event plus the ghost snapshot of the parameters written.
- `engage_priors` is a `Phases.EngagePriors` event only: it belongs to the quantification samplers, which are opaque here.
- Logging, progress tasks and the total fragment count are not modelled. The constants `num_threads`, `num_opt_rounds`, `zero_eps`, `analyze_min_splice_sigma` and `analyze_experiment_shape` are parameters (`threads`, `optRounds`, `zeroEps`, `minSigma`, `experimentShape`).
- Layout: `condition_mean` (condition by transcript) is held transcript-major, so `cm[t][i]` is `condition_mean(i, t)`. `condition_splice_mu[i][j][k]` is held tgroup-major, as `csm[j][i][k]`. The fill loops of `run()` and `choose_initial_values` are comprehensions.
- The experiment tgroup shape draw is commented out in the source and is not modelled.
- `AlnCount.AlnCountTrie.Get`: its own contract states only the (0, 0) of an id never inserted. The unpacking of a stored slot into its two counters is stated for scanned tries by `SamScan.ScanCounts`.
- `Params.MeanShapeStep`, `Params.EtaPass` and `Params.MuPass` state shapes, resets and what they leave unchanged. The drawn values are opaque and are pinned down only as applications of `Params.Draw` to the arguments the source passes.
- In the scan: BAM opening and reading, `samtell` progress, `bam_calend`, `PosTable::add`, the hattrie and khash internals, and the interval read sets are not modelled. A record is a value carrying its computed end. The header hash is a map, an interval's read set is the list of alignments handed to it, and `finish()` is the list of positions finished. The library `sort` is modelled by any sort meeting its contract, here an insertion sort.
- `SamScan.Sweep`: on abort (`Logger::abort` ends the process) the contract states only where the scan stopped, not the partial counts.
- An `unsigned long` slot is 64 bits (LP64). On a 32-bit `long`, the mask `0xffff0000` would behave the same.
