# Verified model of the PIM tool chain of Ramulator 2

A Dafny model of the logic that turns transformer workloads into LPDDR5-PIM command
traces, predicts their cost, compiles DRAM timing tables and connects the simulator to
gem5. What is proved holds for every input, every record list, every schedule or every
run of events; where a property of the code is false, the exact condition under which it
holds is proved instead, with a witness.

`dafny verify dfyconfig.toml` checks everything.

## What is modelled

**Address maps** (`MixedRadix`, `Addressing`, `FlatBank`, `BankOrders`). The byte-address map
and the flat-bank decomposition are mixed-radix bijections; `BankOrders` proves when the two
bank orders agree. `Division` has the quotient facts they use.

**Lowering** (`HostStream`, `Lowering`, `Lowerers`, `Trace`, `Emission`). A semantic record list becomes
an opcode trace while every rank's mode (`SB`, `HAB`, `HAB_PIM`) and broadcast flag are
tracked. `Lowerers.Lowerer` has the source's mutable lists and one method for each closure
and branch; each method is proved equal to a function on values in `Lowering`. `Trace` has
the mode contract, the Python sequence validator and the C++ frontend's expansion of compact
records. `ModeSafety` proves that replay keeps the contract and that the tracked modes are
the replayed ones; `ModeBoundaries`, `HostOrder` and `RankFallback` prove the limits of
that statement. `KindEffects` proves what each record kind issues under each MAC mode; `Work`
and `MacReplay` prove that bytes and MAC requests are conserved, and `CompactReplay` and
`SerialReplay` prove which records are replayed with the coordinates the generator computes
for their requests.

**Transformer traces** (`Records`, `DataFlow`, `Relinking`, `Manifests`, `Blocks`, `Ffn`, `Moe`,
`Attention`, `AttentionContexts`, `DecodeScores`, `DecodeAttention`, `PrefillAttention`,
`Delivery`, `Linkage`, `Assembly`, `LayerParts`, `AttentionParts`, `OutputParts`,
`AttentionMath`, `TailMath`, `LayerMath`, `Layers`, `LayerCoverage`). Block
generators emit records with ids, dependencies and input and output tensors. The layer
assembly renumbers, retargets, relinks and deduplicates them. `Records.Sound` is the
invariant behind all of it: a record follows those before it when its id is larger, its
dependencies are there, and every tensor it reads is external, a port still to be connected,
or an output of a record it depends on. `DataFlow` gives the tensors values: a record computes
an expression over what it finds at its dependencies (`DataFlow.Means`), so that a whole trace
is proved to compute attention, its output projection and the network after it, and not only
to be connected.

**Prediction** (`CausalTiling`, `PrefillFormula`). The closed form for one dense prefill
layer against the generated trace, bucket by bucket.

**gem5 adapter** (`PortProtocol`, `PortAdapter`, `PortInvariants`, `PortRetries`, `PortRuns`). Events of
the environment (requests, send events, retries, callbacks, ticks) are the steps of a state
machine; a peer's requests from inside `sendTimingResp` and `sendRetryReq` are part of the
step. `PortAdapter.Adapter` has the C++ fields and methods, proved against the steps.

**Timing tables** (`Timing`, `BusTiming`, `LatencyText`). Lowering of symbolic constraints
to first-cycle entries, bus occupancy entries, and evaluation of latency expressions by text
substitution.

**Manifests** (`ExperimentManifest`). Defaults, checks, what an accepted manifest says, and
the projection property.

## Where the code does not do what it is for

- A host record returns only the rank of its first address to `SB`, so on a device with more
  than one rank some strided record touches a rank in `HAB` (`ModeBoundaries.HostIssuesSafeExactly`);
  which record lists are safe can be read off the list (`HostOrder.HostSafeExactly`).
- A compact record carries neither `burst_length` nor the controller's bank order, so replay
  sends requests elsewhere than the generator computes unless the configuration agrees with
  the record (`CompactReplay.OwnRequestsExactly`). The decode defaults do not agree
  (`CompactReplay.DecodeDefaultsExample`).
- Without a layout the sequence validator takes level 1 for the rank, and rejects traces of
  configurations whose records can move that level (`RankFallback.FallbackPassesExactly`).
- A compact record's own coordinates may lie in a rank that is not in `SB` when a step of Rank
  spans other numbers of banks in the two bank orders (`ModeBoundaries.OwnRankSafeExactly`).
- Serial lowering repeats the first request of each bank position: it picks the bank by
  dividing the position by `burst_length` and never moves on to later rows and columns, so
  long records replay other coordinates than the generator computes
  (`SerialReplay.OwnSeriallyExactly`, `SerialReplay.PositionsAreBanksExactly`).
- Preloads of weights overlap when a tile has more than ten transactions or an expert more than
  a thousand, and a weight without an expert has the address of expert 999
  (`Work.WeightsApartExactly`, `Work.SharedSlot`).
- In a mixture-of-experts layer the router takes in the output projection, but the dispatch
  hands the experts the layer's hidden input (`Moe.DispatchedMath` in the value that
  `Layers.GenerateMoeDecode` states).
- Timing groups are emitted as full products and then restrict schedules more than the
  constraint asks (`Timing.LoweringExactly`).
- A peer that refuses a response and has a write answered on the same port from inside the
  refused call fails the assert at `resources/gem5_wrappers/ramulator2_base.cc:176`
  (`PortInvariants.SendStepExactly`).
- A latency literal that runs into a name is glued to the name's digits; a glued zero is an
  error (`LatencyText.GluedLiteral`, `LatencyText.GluedZero`).
- A read that expects no response can drain the adapter without a signal
  (`PortRuns.DrainSignalledExactly`).
- A read can be answered on another port than its own, in some run, exactly when one address
  may be read through two ports (`PortRuns.OwnPortExactly`).
- One-tick commands get no bus entry; the entries mean disjoint occupancy only together with
  the controller's rule of one command a tick (`BusTiming.OccupancyExact`).

## Model

| member | source | states |
|---|---|---|
| Addressing.AddrVecFromByteAddress | python/ramulator/dram/addressing.py:156-213 | the mapping loop accepts exactly the in-capacity addresses of a well-formed layout and returns their mixed-radix digits; neither the leftover-value error nor `validate_addr_vec` can fire |
| Addressing.ValidateAddrVec | python/ramulator/dram/addressing.py:129-153 | without wildcards and for integer coordinates, accepts exactly the vectors of full length whose coordinates lie in their levels |
| Addressing.MapIdentifiesTransaction | python/ramulator/dram/addressing.py:156-213 | Horner evaluation of the result recovers `address // tx_bytes`; two addresses map to one vector exactly when they lie in one transaction |
| Addressing.MapIsOnto | python/ramulator/dram/addressing.py:156-213 | every in-range coordinate vector is the image of every byte of its transaction, and of no address outside the capacity |
| FlatBank.DecomposeFlatBank | python/ramulator/workload_surrogate/generate_lpddr5_pim_concrete.py:325-343 | the in-place decomposition writes the digits of the bank index, in interleave or controller order, and rejects exactly the indices outside the bank count |
| FlatBank.FlatBankRecovered | python/ramulator/workload_surrogate/generate_lpddr5_pim_concrete.py:325-343 | the coordinates that decomposition writes evaluate back to the bank index, in either order |
| FlatBank.FlatBankOnto | python/ramulator/workload_surrogate/generate_lpddr5_pim_concrete.py:325-343 | every coordinate tuple of the bank levels is written by some bank index, in either order |
| FlatBank.PlacePointwise | python/ramulator/workload_surrogate/generate_lpddr5_pim_concrete.py:338-343 | a bank level takes the same coordinate whatever vector it is written into; other levels keep theirs |
| FlatBank.RankForFlatBank | python/ramulator/workload_surrogate/generate_lpddr5_pim_concrete.py:519-534 | the scan returns the digit of the Rank level, the fallback when Rank is no bank level, and rejects out-of-range indices |
| FlatBank.RankAgreesInInterleaveOrder | python/ramulator/workload_surrogate/generate_lpddr5_pim_concrete.py:519-534 | in interleave order the rank used for target selection is the one decomposition writes, wherever Rank stands |
| FlatBank.RankAgreesInEitherOrder | python/ramulator/workload_surrogate/generate_lpddr5_pim_concrete.py:519-534 | with Rank first both orders agree with target selection |
| FlatBank.EveryRankHasABank | python/ramulator/workload_surrogate/generate_lpddr5_pim_concrete.py:519-534 | every rank is the rank of some bank unit, wherever Rank stands among the bank levels |
| Work.AllBanksTargetEveryRank | python/ramulator/workload_surrogate/generate_lpddr5_pim_concrete.py:536-541 | when Rank is a bank level of full size, a bank sequence that names every bank unit, in any order, targets every rank once, in ascending order |
| Work.RetargetedTargetsEveryRank | python/ramulator/pimscope/experiment.py:77-87 | so a retargeted record, `list(range(total_bank_units))`, is lowered on every rank |
| FlatBank.LayoutBanksLeadWithRank | python/ramulator/dram/addressing.py:59-71 | rotating BankGroup and PseudoChannel to the back keeps every level once with its size and Rank in front, so the assumptions of the lemmas above hold of every layout |
| BankOrders.LayoutListsSlowerFirst | python/ramulator/dram/addressing.py:59-71 | the rotated order lists the levels that are neither BankGroup nor PseudoChannel in hierarchy order, then BankGroup, then PseudoChannel |
| BankOrders.NeighboursAlternate | python/ramulator/dram/addressing.py:59-71 | so consecutive bank units never share the fastest level, when it has two values |
| BankOrders.PlacedAlikeExactly | python/ramulator/workload_surrogate/generate_lpddr5_pim_concrete.py:325-343 | the interleave order and the controller order give every bank the same coordinates if and only if the bank levels with more than one value stand in hierarchy order |
| BankOrders.RanksAlikeExactly | python/ramulator/workload_surrogate/generate_lpddr5_pim_concrete.py:325-343 | they give every bank the same rank if and only if Rank has one value or the levels after it in the interleave order hold as many banks as those below it in the hierarchy |
| HostStream.HostAddressChunks | python/ramulator/workload_surrogate/generate_lpddr5_pim_concrete.py:212-276 | the chunk generator, both policies, errors included; its loops terminate |
| HostStream.ChunksExpandToStream | python/ramulator/workload_surrogate/generate_lpddr5_pim_concrete.py:212-276 | expanding the chunks of one call, in order, gives exactly the policy's address sequence |
| HostStream.TokenInCapacity | python/ramulator/workload_surrogate/generate_lpddr5_pim_concrete.py:259-276 | every bounded address is a whole transaction below the capacity |
| HostStream.ChunksWellSized | python/ramulator/workload_surrogate/generate_lpddr5_pim_concrete.py:237-276 | every chunk has between one and `max_repeat` elements |
| Work.HostRecordReplaysItsStream | python/ramulator/workload_surrogate/generate_lpddr5_pim_concrete.py:549-597 | replaying what one host record lowers to issues, repeats and chunk splits included, the single stream of `repeat * count` strided addresses, and nothing else |
| Work.WeightRecordReplaysItsBytes | python/ramulator/workload_surrogate/generate_lpddr5_pim_concrete.py:601-650 | a materialized weight record writes one contiguous stream of transactions that covers its bytes |
| Work.WeightsApartExactly | python/ramulator/workload_surrogate/generate_lpddr5_pim_concrete.py:308-323 | preloads of `n` transactions of two weights of one op never write the same address if and only if their slots are at least `n` apart, where a tile has ten slots, an expert a thousand, a stage a hundred thousand and a layer a million |
| Work.SharedSlot | python/ramulator/workload_surrogate/generate_lpddr5_pim_concrete.py:308-323 | a weight without an expert has the address of expert 999 |
| Lowerers.SplitRepeat | python/ramulator/workload_surrogate/generate_lpddr5_pim_concrete.py:52-63 | pieces of at most the limit that sum to the repeat; errors on non-positive arguments |
| Lowerers.AddrVecFromSemantic | python/ramulator/workload_surrogate/generate_lpddr5_pim_concrete.py:124-198 | all validation branches and the row, column and bank coordinates of one request |
| Lowerers.Lowerer.constructor | python/ramulator/workload_surrogate/generate_lpddr5_pim_concrete.py:396-404 | every rank starts in SB without a broadcast |
| Lowerers.Lowerer.TransitionToSingleBank | python/ramulator/workload_surrogate/generate_lpddr5_pim_concrete.py:464-474 | emits SB exactly when the rank is not in SB, and tracks it |
| Lowerers.Lowerer.TransitionToHostAllBank | python/ramulator/workload_surrogate/generate_lpddr5_pim_concrete.py:476-487 | emits HAB exactly when the rank is not in HAB, and clears its broadcast |
| Lowerers.Lowerer.EnsureLoad | python/ramulator/workload_surrogate/generate_lpddr5_pim_concrete.py:489-503 | one broadcast for each stay in HAB |
| Lowerers.Lowerer.TransitionToPimAllBank | python/ramulator/workload_surrogate/generate_lpddr5_pim_concrete.py:505-517 | its contract excludes the error of line 514 for a rank that is loaded |
| Lowerers.Lowerer.EmitHost | python/ramulator/workload_surrogate/generate_lpddr5_pim_concrete.py:549-597 | the host branch as the source runs it: chunks, mode changes, repeats, in order |
| Lowerers.Lowerer.EmitAllBank | python/ramulator/workload_surrogate/generate_lpddr5_pim_concrete.py:674-715 | the rank-local all-bank branch over the sorted target ranks |
| Lowerers.Lowerer.EmitPerBank | python/ramulator/workload_surrogate/generate_lpddr5_pim_concrete.py:717-819 | the per-bank branch, compact or serial |
| Lowerers.Lowerer.EmitSerial | python/ramulator/workload_surrogate/generate_lpddr5_pim_concrete.py:788-819 | each bank position gets its share, a mode change and its splits, in order |
| Lowerers.Lowerer.EmitLoad | python/ramulator/workload_surrogate/generate_lpddr5_pim_concrete.py:820-847 | a broadcast load on every rank; accounting-only moves emit nothing, unknown ones are errors |
| Lowerers.Lowerer.EmitComputeAll | python/ramulator/workload_surrogate/generate_lpddr5_pim_concrete.py:848-888 | every request on every rank with its own HAB, PIM_BCAST, HAB_PIM, PIM_MAC_AB, SB |
| Lowerers.Lowerer.Emit | python/ramulator/workload_surrogate/generate_lpddr5_pim_concrete.py:543-888 | dispatch on the record kind, skips and errors included; the rows of `KindEffects` say which kinds broadcast and what each issues |
| Lowerers.LowerSemanticRecords | python/ramulator/workload_surrogate/generate_lpddr5_pim_concrete.py:346-895 | the whole lowering with its mutable lists equals the value-level lowering that `KindEffects`, `Work`, `MacReplay` and `ModeSafety` are about |
| KindEffects.ComputeKinds | python/ramulator/workload_surrogate/generate_lpddr5_pim_concrete.py:409-423 | with interleaving and more than one bank, `per_kind` broadcasts FFNProjection, MoERouter and MoEExpertFFN, `all_bank` every compute kind: all target ranks execute the same number of all-bank MACs, just enough for the requests, and no bank one of its own; in every other case the record issues one per-bank MAC for each request and no all-bank MAC |
| KindEffects.LoadKinds | python/ramulator/workload_surrogate/generate_lpddr5_pim_concrete.py:820-847 | a broadcast load sends its operand to every rank as often as the record has requests, and issues no MAC |
| KindEffects.ComputeAllKind | python/ramulator/workload_surrogate/generate_lpddr5_pim_concrete.py:848-888 | PIMComputeAll: every rank executes the record's requests in order, each at its own coordinates, and no bank a MAC of its own |
| KindEffects.HostKinds | python/ramulator/workload_surrogate/generate_lpddr5_pim_concrete.py:549-597 | a HostRead reads and a HostWrite writes its own strided stream, and neither does the other |
| KindEffects.SilentKinds | python/ramulator/workload_surrogate/generate_lpddr5_pim_concrete.py:543-548 | accounting-only records, weights that stay resident and unknown kinds emit nothing |
| Lowering.ResolvedTargetIsValid | python/ramulator/workload_surrogate/generate_lpddr5_pim_concrete.py:378-407 | what the entry checks establish about the rank level and rank count |
| ModeSafety.LoweredTraceIsModeSafe | python/ramulator/workload_surrogate/generate_lpddr5_pim_concrete.py:403-888 | for every accepted record list, replaying the trace with every rank in SB keeps the mode contract of README.md:461 and passes the sequence validator; record ids are consecutive and all ranks exist |
| ModeSafety.LowerRecordKeeps | python/ramulator/workload_surrogate/generate_lpddr5_pim_concrete.py:403-404 | `rank_modes` and the broadcast flags equal the replayed state after every record of every kind |
| ModeSafety.CompactRanksAreTargets | python/ramulator/workload_surrogate/generate_lpddr5_pim_concrete.py:717-733 | every rank a compact record expands to was returned to SB first |
| ModeBoundaries.OwnRankSafeExactly | python/ramulator/workload_surrogate/generate_lpddr5_pim_concrete.py:717-783 | for bank counts that `validate_record` accepts, a record also finds the rank of its own `addr_vec` in SB, for every record list, if and only if compact MACs are never used, the bank map accepts no PIM record, or a step of Rank spans as many banks in the interleave order as in the hierarchy |
| ModeBoundaries.OrdersAgreeExactly | python/ramulator/workload_surrogate/generate_lpddr5_pim_concrete.py:519-541 | the rank of a bank in controller order is the rank used for target selection, for every bank, exactly under that last condition |
| ModeBoundaries.RankFirstOrdersAgree | python/ramulator/dram/addressing.py:59-71 | a layout with Rank first is on the safe side of that condition |
| ModeBoundaries.HostIssuesSafeExactly | python/ramulator/workload_surrogate/generate_lpddr5_pim_concrete.py:578-587 | strided host records never touch a rank outside SB, for every record list of a configuration, if and only if there is one rank: a chunk returns only the rank of its first address |
| HostOrder.HostSafeExactly | python/ramulator/workload_surrogate/generate_lpddr5_pim_concrete.py:543-888 | for every record list on any number of ranks: no host access touches a rank outside SB if and only if no address of a host chunk lies in a rank that an earlier broadcast load took to HAB and neither a later compute record nor the first address of this or an earlier chunk has returned; the ranks in question are computed from the records alone |
| HostOrder.HostFirstIsSafe | python/ramulator/workload_surrogate/generate_lpddr5_pim_concrete.py:543-888 | in particular when the list accesses the host before it loads a broadcast |
| Emission.RecordAdds | python/ramulator/workload_surrogate/generate_lpddr5_pim_concrete.py:543-888 | a record without host data appends only records at its own addresses, and unless it loads a broadcast all ranks that were in SB are in SB again after it |
| RankFallback.FallbackPassesExactly | python/ramulator/workload_surrogate/lpddr5_pim_concrete_trace.py:333-366 | without an address layout, where the lowering sees one rank and the validator takes level 1 for it, the validator's mode automaton passes for every record list if and only if level 1 is neither row nor column and has one value as a bank level |
| Trace.ValidateModes | python/ramulator/workload_surrogate/lpddr5_pim_concrete_trace.py:370-432 | the mode automaton alone: it accepts exactly the traces the replay function accepts, for any position of the Rank level |
| Trace.ContractImpliesValidator | python/ramulator/workload_surrogate/lpddr5_pim_concrete_trace.py:388-432 | a trace that keeps the contract passes the validator, in the same final state |
| Work.AllBankWorkConserved | python/ramulator/workload_surrogate/generate_lpddr5_pim_concrete.py:674-715 | with and without a layout, each target rank gets `n` PIM_MAC_AB repeats with `total <= n * bank_len < total + bank_len`, every other rank none |
| Work.SplitsSum | python/ramulator/workload_surrogate/generate_lpddr5_pim_concrete.py:52-63 | split repeats sum to the repeat |
| MacReplay.CompactRecordReplaysItsRequests | src/ramulator/frontend/impl/memory_trace/lpddr5_pim_concrete_trace.cpp:712-789 | replaying the compact records with the frontend's expansion issues one MAC for each request, in order, across all splits, at the coordinates the generator computes for a record with `interleave_depth` as burst length and the interleave bank order |
| CompactReplay.OwnRequestsExactly | python/ramulator/workload_surrogate/generate_lpddr5_pim_concrete.py:124-198 | for a burst length and a bank order, every record accepted as a compact record issues exactly the coordinates the generator computes for its own requests, if and only if the dwell is `max(1, burst_length)` (or the device has one cell) and, for records in controller order, the bank levels with more than one value stand in hierarchy order |
| CompactReplay.AcceptedIsPossible | python/ramulator/workload_surrogate/lpddr5_pim_concrete_trace.py:224-313 | the configurations of that theorem are all that accept any compact record |
| CompactReplay.DeviceResolves | python/ramulator/workload_surrogate/generate_lpddr5_pim_concrete.py:378-407 | the device of the two examples below is what its configuration resolves to |
| CompactReplay.DecodeDefaultsExample | python/ramulator/workload_surrogate/decode_only_manifest.py:57-61 | a record with burst length 8 in controller order, on a one-rank LPDDR5 device with dwell 4, does not issue its own requests |
| CompactReplay.BankOrderExample | python/ramulator/workload_surrogate/generate_lpddr5_pim_concrete.py:325-343 | on the same device the two orders give bank 1 different coordinates |
| MacReplay.SerialRecordConservesRequests | python/ramulator/workload_surrogate/generate_lpddr5_pim_concrete.py:788-819 | the serial form issues, up to order, a round-robin stream in which request `k` has the coordinates of position `k` modulo the number of banks; the next row says when those are its own |
| SerialReplay.OwnSeriallyExactly | python/ramulator/workload_surrogate/generate_lpddr5_pim_concrete.py:788-819 | for a span, burst length, request count, column count and row count, every record accepted on the serial path issues each of its own requests, at the coordinates the generator computes, exactly once up to order, if and only if the requests fit into one dwell or one pass over the positions, or all have the same row and column and no dwell is lost; on a device with one bank only rows and columns matter |
| SerialReplay.PositionsAreBanksExactly | python/ramulator/workload_surrogate/generate_lpddr5_pim_concrete.py:168 | in every accepted serial record with a given span and burst length position `i` is bank `i` of the sequence, if and only if `burst_length` is at most 1, there is one position, or the device has one bank |
| SerialReplay.SerialBurstsExample | python/ramulator/workload_surrogate/decode_only_manifest.py:57-61 | bursts of 8 on two banks of an LPDDR5 device without interleaving: a record of sixteen requests is not replayed with its own |
| CausalTiling.TileRanges | python/ramulator/workload_surrogate/generate_full_transformer.py:2175-2182 | the loop produces consecutive non-empty tiles that cover the tokens, and the same list as the predictor's comprehension (backend.py:541-542) |
| CausalTiling.CausalPairCount | python/ramulator/workload_surrogate/generate_full_transformer.py:2185-2191 | the loop computes the per-query sum |
| CausalTiling.PairsAreCounted | python/ramulator/workload_surrogate/generate_full_transformer.py:2185-2191 | that sum is the number of (query, key) pairs in the tile with key <= query |
| CausalTiling.CausalTilingExact | python/ramulator/workload_surrogate/generate_full_transformer.py:2536-2538 | over any two tilings of a prompt of P tokens the counts sum to P(P+1)/2 |
| PrefillAttention.GeneratePrefillAttention | python/ramulator/workload_surrogate/generate_full_transformer.py:2525-2754 | succeeds on every valid manifest, so the error of line 2750 is unreachable; emits a self-contained block with the stated work and one terminal record for each head and query tile, its attention to exactly the key tiles with a legal pair; nothing but the results is left unread |
| PrefillFormula.AttentionMacPerLayer | python/ramulator/pimscope/backend.py:550-567 | the predictor's nested loops |
| PrefillFormula.Predict | python/ramulator/pimscope/backend.py:585-658 | the closed form; bf16 has no resource table |
| PrefillFormula.PredictionMatchesLayer | python/ramulator/pimscope/backend.py:604-658 | for every model with positive dimensions and every prompt, each predicted bucket (projections, attention, FFN) is the work of the generator it stands for, and the experts bucket is empty |
| PrefillFormula.PredictionCoversTriangle | python/ramulator/pimscope/backend.py:550-567 | the predicted lanes cover every product of the causal triangle, with fewer than two requests idle for each tile pair |
| Layers.PredictionMatchesTrace | python/ramulator/pimscope/backend.py:585-658 | in the whole generated prefill trace the MAC requests of every layer, sorted by what the records are, equal the predicted buckets, with none for routers or experts, and the total is the layer count times their sum |
| Ffn.GenerateFfn | python/ramulator/workload_surrogate/generate_full_transformer.py:2757-3058 | gated and ReLU variants: a block whose only open inputs are the hidden tiles, with 3 or 2 projections of work in each layer; every output but the layers' own is read by a later record that depends on its maker, and each layer's output is, as an expression over its tiles and weights, the feed-forward network of all its hidden tiles |
| Ffn.OutputWaitsForLayer | python/ramulator/workload_surrogate/generate_full_transformer.py:2836-2848 | each layer's output reaches, through dependencies, every record of its layer: every hidden tile set up, every weight, every projection |
| Moe.GenerateMoe | python/ramulator/workload_surrogate/generate_full_transformer.py:3061-3407 | router, dispatch, experts and combine form a block with no open input, with the requests of one router and of up, gate and down for every selected expert in each layer; nothing but the layers' outputs is left unread, and each is the combination of its selected experts' networks of the tokens the router dispatched |
| Moe.OutputWaitsForExperts | python/ramulator/workload_surrogate/generate_full_transformer.py:3061-3407 | each layer's output reaches every record of its layer: router, selection, dispatch and all three projections of every selected expert |
| Moe.OverlapPermutesExperts | python/ramulator/workload_surrogate/generate_full_transformer.py:3216-3217 | the overlapped schedule visits every selected expert exactly once |
| DecodeScores.RelinkScores | python/ramulator/workload_surrogate/generate_full_transformer.py:2503-2508 | the pass that relinks a head's scores rewrites exactly those records |
| DecodeScores.HeadScores | python/ramulator/workload_surrogate/generate_full_transformer.py:2487-2508 | a head's residency, key reads and scores: score `j` is computed from the head's query and key tile `j` |
| AttentionContexts.HeadContexts | python/ramulator/workload_surrogate/generate_full_transformer.py:2294-2417 | softmax over all scores, context tiles and reduction: however many tiles there are, one terminal record remains, and it is the softmax-weighted sum of the value tiles |
| Attention.PartAttends | python/ramulator/workload_surrogate/generate_full_transformer.py:2294-2417 | that sum is attention written out: one softmax of all scores of the query with the keys, each share weighing its own value |
| DecodeAttention.GenerateDecodeAttention | python/ramulator/workload_surrogate/generate_full_transformer.py:2461-2522 | serialized and overlapped schedules emit the same work and one terminal record for each head and layer, the head's attention to all its cache tiles; the lanes of the requests cover the `2 * layers * heads * past_len * head_dim` products, with less than one request idle for each score and each context; nothing but the results is left unread |
| Relinking.Renumber | python/ramulator/workload_surrogate/generate_full_transformer.py:3410-3418 | ids and dependencies go through the id map, unknown dependencies stay |
| Relinking.RenumberShifts | python/ramulator/workload_surrogate/generate_full_transformer.py:3410-3418 | for a block numbered from zero that is a shift of every id and dependency |
| Relinking.PlacedSound | python/ramulator/workload_surrogate/generate_full_transformer.py:3421-3439 | a block that is sound on its own is sound, renumbered and retargeted, after any trace that ends before it |
| Relinking.RewiredSound | python/ramulator/workload_surrogate/generate_full_transformer.py:3899-3909 | relinking keeps soundness whenever each new input comes from a new dependency |
| Relinking.DedupedSound | python/ramulator/workload_surrogate/generate_full_transformer.py:3799-3827 | so does replacing the per-head query residencies by the first one and dropping the rest |
| Linkage.Carried | python/ramulator/workload_surrogate/generate_full_transformer.py:3899-3909 | a block renumbered, retargeted and relinked computes in its place what it computed on its own, with what the layer connects wherever it takes something in |
| Linkage.CarriedDeduped | python/ramulator/workload_surrogate/generate_full_transformer.py:3799-3827 | a block without its duplicate query residencies computes in its place what it computed on its own, with the layer's query for every head's |
| Delivery.FindTerminalIds | python/ramulator/workload_surrogate/generate_full_transformer.py:1867-1890 | reductions first, then the contexts no reduction reads |
| Delivery.TerminalsDeliver | python/ramulator/workload_surrogate/generate_full_transformer.py:1867-1890 | the terminals and what the reductions read together are all contexts and reductions, each once |
| Delivery.DeliveredOnce | python/ramulator/workload_surrogate/generate_full_transformer.py:1867-1890 | so each context is read by exactly one of its layer's reductions and output projection |
| AttentionParts.AddDecodeAttention | python/ramulator/workload_surrogate/generate_full_transformer.py:3794-3827 | relinking to the cache appends and deduplication keep work, results and data flow |
| AttentionParts.AddPrefillAttention | python/ramulator/workload_surrogate/generate_full_transformer.py:3899-3909 | every residency is connected to the layer's own Q, K or V projection |
| AttentionMath.DecodeAttends | python/ramulator/workload_surrogate/generate_full_transformer.py:3799-3827 | in its layer, every head attends with the layer's query projection to its own cache tiles |
| AttentionMath.PromptAttends | python/ramulator/workload_surrogate/generate_full_transformer.py:3899-3909 | in its layer, every head and query tile attends with the layer's query projection to tiles of the layer's key and value projections |
| AttentionMath.CacheReadWaits | python/ramulator/workload_surrogate/generate_full_transformer.py:3794-3827 | every read of a key or value tile from the cache depends on the record that appends the layer's new key or value |
| LayerParts.Prelude | python/ramulator/workload_surrogate/generate_full_transformer.py:3772-3794 | layer start, projections and cache writes, with the ids later blocks look up by op; each cache write stores its own projection |
| OutputParts.AddOutput | python/ramulator/workload_surrogate/generate_full_transformer.py:3828-3845 | the output projection depends on the terminals and nothing else and reads exactly their outputs and its weight |
| LayerMath.OutputCollects | python/ramulator/workload_surrogate/generate_full_transformer.py:3828-3845 | the output projection computes from the attention of every head (and query tile), each where its terminal's tensor stands |
| OutputParts.AddTail | python/ramulator/workload_surrogate/generate_full_transformer.py:3847-3852 | the block after attention reads the output projection |
| TailMath.TailMeans | python/ramulator/workload_surrogate/generate_full_transformer.py:3847-3852 | the block after attention, in its place, computes the same network with the output projection wherever it takes in hidden tiles or the router's input |
| TailMath.TailWaits | python/ramulator/workload_surrogate/generate_full_transformer.py:3847-3852 | the layer's last record reaches its output projection through dependencies |
| Layers.GenerateDenseDecode | python/ramulator/workload_surrogate/generate_full_transformer.py:3757-3859 | accepts exactly the supported manifests; the trace is complete: sound, ids increasing, every layer delivered, the work of every layer as stated in each bucket; and each layer computes the feed-forward network of the output projection of all heads' attention, its last record waits for that projection, and its reads of the cache wait for the appends |
| Layers.GenerateDensePrefill | python/ramulator/workload_surrogate/generate_full_transformer.py:3862-3942 | the same for dense prefill, with one result for each head and query tile, attending to the layer's own keys and values |
| Layers.GenerateMoeDecode | python/ramulator/workload_surrogate/generate_full_transformer.py:3486-3609 | the same for mixture-of-experts decode: each layer has the work of its attention block in the projection and attention buckets and that of its router and selected experts in a bucket of their own, and combines its selected experts; the router takes in the output projection, while the dispatch reads the layer's hidden input |
| LayerMath.LastWaitsForOutput | python/ramulator/workload_surrogate/generate_full_transformer.py:3847-3852 | in every generated trace the record of each layer's last tensor reaches that layer's output projection through dependencies |
| Layers.CompleteTraceIsOrderedGraph | python/ramulator/workload_surrogate/generate_full_transformer.py:3511-3609 | in every complete trace ids are distinct and increasing, every dependency names an earlier surviving record, and (all ports connected) whatever a record reads is an output of one of its dependencies or produced nowhere in the trace |
| Layers.AttentionDeliveredOnce | python/ramulator/workload_surrogate/generate_full_transformer.py:3828-3840 | in every layer of a complete trace each AttentionContext is consumed exactly once |
| LayerCoverage.DenseDecodeCovers | python/ramulator/workload_surrogate/generate_full_transformer.py:3757-3859 | in every layer of a dense decode trace and every bucket, the lanes of the requests cover the products of the layer's matrices, written in the manifest's dimensions, with less than one request idle for each record |
| LayerCoverage.ExpertDecodeCovers | python/ramulator/workload_surrogate/generate_full_transformer.py:3486-3609 | the same for mixture-of-experts decode: key and value projections of `kv_heads * head_dim`, a router over all experts, three projections for each selected expert |
| PortAdapter.Adapter.constructor | resources/gem5_wrappers/ramulator2_base.cc:31-52 | empty queues and counters |
| PortAdapter.Adapter.NbrOutstanding | resources/gem5_wrappers/ramulator2_base.cc:180-188 | reads, writes and all queued responses |
| PortAdapter.Adapter.Drain | resources/gem5_wrappers/ramulator2_base.cc:369-374 | drained exactly when nothing is outstanding |
| PortAdapter.Adapter.AccessAndRespond | resources/gem5_wrappers/ramulator2_base.cc:333-367 | queues a response and schedules a send unless one is pending or a retry is awaited |
| PortAdapter.Adapter.RecvTimingReq | resources/gem5_wrappers/ramulator2_base.cc:239-320 | accepts exactly when no retry is owed and the memory system takes the request; the refused port owes a retry |
| PortAdapter.Adapter.SendResponse | resources/gem5_wrappers/ramulator2_base.cc:146-178 | with the peer's calls made from inside `sendTimingResp`; a failing assert is an error result |
| PortAdapter.Adapter.SendEventFires | resources/gem5_wrappers/ramulator2_base.cc:390-396 | the scheduled event runs `sendResponse` with its flag cleared |
| PortAdapter.Adapter.RecvRespRetry | resources/gem5_wrappers/ramulator2_base.cc:322-331 | the peer's retry of a refused response |
| PortAdapter.Adapter.ReadCompleted | resources/gem5_wrappers/ramulator2_base.cc:262-275 | the read callback answers the oldest packet of its address on the captured port |
| PortAdapter.Adapter.WriteCompleted | resources/gem5_wrappers/ramulator2_base.cc:296-301 | the write callback |
| PortAdapter.Adapter.Tick | resources/gem5_wrappers/ramulator2_base.cc:190-211 | the retry loop, with requests made from inside `sendRetryReq`: exactly the retried requests of the ports that owe one when their turn comes are taken, in order |
| PortRetries.RefusedOwes | resources/gem5_wrappers/ramulator2_base.cc:309-319 | a refused request leaves its port owing a retry and nothing else behind |
| PortRetries.TickTakesRetries | resources/gem5_wrappers/ramulator2_base.cc:198-206 | over all ports: the packets taken are those that the owing ports, in port order, send until one of theirs is refused; what is taken is asked, counted and stored in that order, and exactly the ports refused again go on owing |
| PortRetries.RetriedRead | resources/gem5_wrappers/ramulator2_base.cc:198-206 | one owing port and one accepted read: that packet is asked, counted and stored, and nothing is owed any more |
| PortRetries.IdleTick | resources/gem5_wrappers/ramulator2_base.cc:198-206 | a tick in which no port owes a retry asks nobody and changes nothing |
| PortInvariants.SendStepExactly | resources/gem5_wrappers/ramulator2_base.cc:146-178 | a send or retry step fails an assert if and only if the peer refuses and a write of its own, made inside the refused call, got a response queued on that port |
| PortInvariants.SentIsOffered | resources/gem5_wrappers/ramulator2_base.cc:155-158 | the packet removed from the queue is the one that was offered, whatever the peer's calls queued meanwhile |
| PortRuns.StepKeepsInv | resources/gem5_wrappers/ramulator2_base.cc:146-374 | every event keeps all invariants and fails an assert exactly in the case above |
| PortRuns.NoAssertFails | resources/gem5_wrappers/ramulator2_base.cc:146-178 | over every run of polite events no assert fails, and between events a port's queue is non-empty exactly when exactly one of retry awaited and send scheduled holds |
| PortRuns.ReadsConserved | resources/gem5_wrappers/ramulator2_base.cc:262-292 | over every such run the read counter is the total size of the stored queues, no stored queue is empty and no counter goes below zero |
| PortRuns.DrainSignalledExactly | resources/gem5_wrappers/ramulator2_base.cc:168-169 | a step that brings the outstanding count from positive to zero signals if and only if it does not complete a read that expects no response |
| PortRuns.SilentReadExample | resources/gem5_wrappers/ramulator2_base.cc:262-275 | a run that drains without a signal |
| PortRuns.SentInQueueOrder | resources/gem5_wrappers/ramulator2_base.cc:146-178 | on every port, sent followed by waiting is queued, in order, across any refusals and retries |
| PortRuns.ReadsAnsweredInOrder | resources/gem5_wrappers/ramulator2_base.cc:266-270 | reads of one address are answered in arrival order, whatever order they complete in |
| PortRuns.ResponsesOnOwnPort | resources/gem5_wrappers/ramulator2_base.cc:262-275 | when every address is read through one port, all queued responses are on the port their packet arrived on |
| PortRuns.SharedAddressMisroutes | resources/gem5_wrappers/ramulator2_base.cc:262-275 | for any two ports and any address, a polite run of three events in which the later reader gets the other's packet |
| PortRuns.OwnPortExactly | resources/gem5_wrappers/ramulator2_base.cc:262-275 | over every polite run, whatever ports may read an address, all responses are queued on the port their packet arrived on if and only if no address may be read through two ports |
| Timing.Lower | python/ramulator/dram/spec.py:236-260 | one entry for each adjusted latency, with exactly the commands that some pair of that latency has on either side |
| Timing.LoweringPreserves | python/ramulator/dram/spec.py:229-260 | any schedule that meets the entries keeps the nominal latency between last cycles, for every selection of constrained issue pairs |
| Timing.LoweringExactly | python/ramulator/dram/spec.py:236-260 | the entries mean the constraint, for every schedule and selection, if and only if no two pairs with a binding latency share it while their commands differ in cycle count |
| Timing.UniformIsExact | python/ramulator/dram/spec.py:236-260 | one cycle count on either side is enough |
| Timing.MixedCyclesExample | python/ramulator/dram/spec.py:236-260 | a constraint over one-cycle and two-cycle commands for which it fails |
| BusTiming.GenerateBuses | python/ramulator/dram/spec.py:297-332 | entries of each bus, one-tick commands skipped: with row and column commands, a schedule keeps each of those two lists free of overlap if and only if it meets the returned entries and issues one command a tick on each; without, the same of all commands |
| BusTiming.BusOccupancyExact | python/ramulator/dram/spec.py:315-332 | on one bus, a schedule in time order has pairwise disjoint occupancy intervals if and only if it meets the entries and issues one command a tick |
| BusTiming.OccupancyExact | python/ramulator/dram/spec.py:309-332 | the same for single-bus and dual-bus standards, with no blocking between buses |
| BusTiming.SameTickCollides | python/ramulator/dram/spec.py:326-327 | an instance that meets the entries and collides, for want of the one-per-tick rule |
| LatencyText.EvalByText | python/ramulator/dram/spec.py:334-349 | for every sum or difference of names and literals, any spacing and any non-negative timings, substituting text and evaluating it equals evaluating the tree, unresolved names included |
| LatencyText.SubstituteShow | python/ramulator/dram/spec.py:338-344 | the scan replaces exactly the name terms |
| LatencyText.GluedLiteral | python/ramulator/dram/spec.py:338-345 | a literal that runs into a name is glued to the name's digits |
| LatencyText.GluedZero | python/ramulator/dram/spec.py:338-345 | a glued zero makes a numeral with a leading zero, which is an error |
| ExperimentManifest.ResolveHardware | python/ramulator/pimscope/config.py:222-372 | defaults merged with the supplied sections, then checked |
| ExperimentManifest.MergeAll | python/ramulator/pimscope/config.py:223-242 | the loops over scalar fields, overrides and sections: supplied scalars and overrides replace, sections update field by field |
| ExperimentManifest.AcceptedFollows | python/ramulator/pimscope/config.py:453-484 | an accepted manifest resolves to one with exactly the top-level keys, complete sections, hardware and workload that pass every check and agree on the datatype; every field the user wrote has his value, every other the default |
| ExperimentManifest.AcceptedExactly | python/ramulator/pimscope/config.py:453-484 | a raw manifest is accepted, and resolves to a given one, if and only if it has the schema version (by default the current one), known keys and sections that can be filled in, and the given one fills it in with the defaults to a complete manifest that passes every check |
| ExperimentManifest.ResolvedExactly | python/ramulator/pimscope/config.py:453-484 | the manifests that resolve to themselves are exactly the complete ones that pass every check |
| ExperimentManifest.HardwareProjects | python/ramulator/pimscope/config.py:222-372 | resolving resolved hardware changes nothing |
| ExperimentManifest.WorkloadProjects | python/ramulator/pimscope/config.py:404-450 | nor does resolving a resolved workload |
| ExperimentManifest.ResolutionProjects | python/ramulator/pimscope/config.py:453-484 | resolution is a projection: it accepts its own output and returns it unchanged |
| ExperimentManifest.FingerprintIdentifies | python/ramulator/pimscope/schema.py:79-84 | with a fingerprint of any type that tells the two resolved manifests apart, every stored manifest that resolves, complete or not, passes the comparison of result validation exactly when it resolves to the original's resolution; a complete one exactly when it is that resolution |

## Left out

- Record text: provenance, notes, non-claims, citations, energy and power metadata, and the numeric fields of records that no property reads (tile metadata, rows, columns, `compute_shape`, `dag_hint`).
- `validate_record`: field checks with no effect on the lowered records, but for those of compact records; `max_expanded_records` is a check of the same kind.
- Types of raw fields: a missing or mistyped integer is an error result only where the code tests for it; conversions by `int(...)` are taken as exact, and C++ integers as unbounded.
- ModeSafety.LoweredTraceIsModeSafe: assumes `max_repeat_per_record` positive, since the splitting loops do not terminate otherwise; the rank level is the resolved one. Without a layout the validator's own choice of level is the subject of `RankFallback`.
- Addressing.ValidateAddrVec: the wildcard mode and the rejection of non-integer coordinates are not modelled.
- Trace.ValidateModes: field checks, the expansion limit and the choice of the rank level are outside the automaton; the field checks of compact records are in `CompactReplay`.
- RankFallback.FallbackPassesExactly: addresses have at least two levels; with one level the validator's index fails. It also refuses compact records without a layout, which the mode automaton does not see.
- HostStream.ChunksExpandToStream: addresses are unbounded integers; a stride or capacity near 64 bits is not wrapped.
- SerialReplay.OwnSeriallyExactly: for layouts whose bank counts are the level sizes and whose row, column and bank levels differ, and records whose banks exist; the limit on `repeat` is not part of acceptance.
- CompactReplay.OwnRequestsExactly: the limit on the `repeat` of one record is not part of acceptance; it holds of every piece when `max_repeat_per_record` is at most 1,000,000.
- Ids: `rec_0000` strings are modelled as the numbers they print; tensor names as terms, so the text replacement of `L0.` and `layer_00` by `_retarget_layer_zero_record` acts on the layer field.
- One-layer calls: the layer assembly generates every block with one layer; the Q/K/V/O projection and cache-write generators are modelled for that call only.
- Layers.GenerateDenseDecode: a prefill-phase attention manifest is accepted by the code; then key and value tiles stay unconnected; neither the data-flow part of `CompleteTraceIsOrderedGraph` nor what its heads attend to is claimed of such a trace.
- Linkage.Carried: values are expressions over operations and named tensors, not numbers; the layer assembly links every prompt tile to the whole query, key or value tensor, so in a layer the tiles of one tensor have the same expression.
- PrefillFormula.Predict: the two device classes have resource tables with equal lane counts, so the class is not a parameter.
- Manifest text checks of the transformer generators (required keys, non-claims, activation names) and the bank defaults validation.
- PortRuns.NoAssertFails: the environment retries a response only after refusing it, runs a send event only when scheduled, and fires each callback once for a request in flight and not during its acceptance; clocks, memory contents, atomic and functional accesses, packet deletion and the assert of line 345 that `access` turned the packet into a response are not modelled.
- Timing.Lower: latencies and cycle counts are integers; the rounding of fractional half-tick values and the sorting of the following commands are not modelled.
- Timing.LoweringExactly: which earlier issue constrains a later one (level, window, sibling) is an arbitrary selection, the same for a constraint and its entries; the device's clock tables are not modelled.
- LatencyText.EvalByText: Python's `eval` is modelled for ASCII sums and differences of decimal literals, which is the form of every latency in the repository's standards; other operators, signs and names of Python builtins are not.
- ExperimentManifest.ResolutionProjects: names are terms, strings are blank when they hold only spaces, tabs and line breaks, and the model catalogue is a parameter.
- JEDEC presets, secondary timings, code generation, C++ parsing, export, command line, visualizer, process handling, file loading and the C++ controller.
