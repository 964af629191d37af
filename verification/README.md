# Verification model of the golbang scheduler

golbang serves language-model requests by continuous batching: a scheduler binds requests to
slots, reuses cached prefixes, plans one batch for all slots, decodes with speculative drafts and
streams the text. These Dafny modules model that scheduler and prove what its design promises.
The GPU engine is reduced to the contract the scheduler relies on, the target model to an
arbitrary function from token history to the next token.

| module | models |
|---|---|
| `SeqKvs` | the engine seen through one sequence: cells, dumps, restores and removals that may fail |
| `Speculation`, `PlannedRun` | one job: prefill, verify, roll-back, checkpoint restore, replay, finish; the same over planned batches |
| `BindPath`, `Serving` | binding a prompt through cells, anchor chain, RAM and disk; a request end to end |
| `PrefixStores`, `AnchorChains`, `HostRam` | the bounded snapshot store, the per-slot chains, the host-RAM cap over both |
| `DiskCodec`, `DiskTier` | the file format and the disk tier with restart |
| `Quota`, `BatchPlanner`, `Sampling` | the water-filling quota, one batch, handing its rows back |
| `PlanRuns`, `SchedulerLoop` | applying a batch; whole runs, with exact-once prefill and bounded waiting |
| `CtxCap`, `PoolRun`, `Oversold`, `JoinWaiting` | caps and admission in 32-bit arithmetic, the shared pool over runs and where it is oversold, the join pass |
| `Markers`, `Reasoning`, `ToolCalls`, `Utf8Stream` | streaming splitters |
| `VisionSeqs` | prompts with images |
| `Common` | options, common prefixes, sums over maps |

The main results: `Speculation.Job.RunAnyRoom`, `PlannedRun.Run` and `Serving.ServeSession` (reuse and
speculation are invisible, and exactly when they are not), `BindPath.Slot.BindText` (sound under
every failing call, with the reused length fixed when none fails), `SchedulerLoop.Loop.PrefillStaysExact`, `Iterate`, `ShortRestFinishes` and
`PrefillFinishes` (exact-once under any budget, short rests at once, nobody waits forever), `Quota.SplitPrefillQuota`,
`PoolRun.RecomputedCapsFit` and `Pool.Iterate`, `CtxCap.AdmissionNeverStrands`,
`HostRam.HostMemory.Enforce`, `DiskTier.Restart`, `JoinWaiting.Joiner.JoinPass`, the three `Stream`
methods and `VisionSeq.ReuseForBind`.

What the proofs showed about the code:

- A replay whose batch has no room for a single draft keeps its drafts although the position moved
  on (`Speculation.Job.DecodeStep`). The emitted tokens are still a prefix of plain decoding, but the
  context cap may then end the request early. `RunAnyRoom` gives the exact condition: the delivered
  result is the plain one if and only if every decode was clear of the cap (its drafts are dumped and
  rejected, none is confirmed, the confirmed ones leave a cell, or the next token ends the job).
  `StaleReplayEndsEarly` follows a request from its bind into the failing case; with room for one draft
  at every replay it cannot arise (`Run`), and batches that cover what all slots ask for give every
  slot that room (`PlannedRun.Run`).
- `prune_chain_beyond_reuse` compares lengths only. What it leaves heads the new prompt if and only
  if every anchor left lies within the common head of session and prompt
  (`PrunedAnchorsHeadThePrompt`); `ForeignAnchorSurvives` is a bind that leaves another. A slot is
  ready for its next request exactly when its chain holds heads of the last prompt only
  (`Serving.ServeRequest`), and otherwise its next bind may take the wrong cells (`Serving.WrongBind`).
- The caps of three or more slots can oversell the pool (`ThreeCapsOversell`). They fit if and only
  if the offers they make beyond the occupancy fit the free gap (`RecomputedCapsFit`): with two active
  slots, with at most one below its share, or with none above it they do.
- Without speculation nothing is held back for a joiner's own first decode, and a prefill-only batch
  leaves the decoding slots where they are, so from the third slot on admitted joins can oversell the
  pool (`Oversold.JoinOversells`). Prefill-only batches are harmless if and only if there is a cell for
  every slot that may come to decode (`StartersAreExact`); a join keeps that over a whole run if it
  leaves a cell for every active slot, or two for every decoding slot its new share cramps, less one
  (`Pool.Join`, `Pool.Iterate`), which with one other slot it always does. With speculation on the
  reserve covers it.
- The disk lookup does not compare the key in the file: after a clash of file names it serves another
  key's data (`ClashIsServed`, `PutKeepsReads`). And an entry beyond the format's sanity limits is
  written but never read back, hiding shorter ones (`SearchOversized`, `PrefixDisk.FindOnDisk`).
- A pre-generation stop at the bound position would hide a demand stop from
  `prefill_remaining_to_stop`; the way a bind arms them excludes that (`BindArmsStops`).
- The policy trait says that duplicates in a join answer are ignored; `join_waiting` filters
  duplicate requests only (`DuplicateSlotsPass`), so no slot is bound twice as long as the answer names
  none twice (`DistinctSlotsStay`), as the arrival-order policy does (`PrefixAwareJoin`).

## Model

| member | source | states |
|---|---|---|
| SeqKvs.SeqKv.RmFrom | golbang-core/src/scheduler.rs:776-801 | A removal takes every cell from a position on and the orphans with them, or refuses and changes nothing; a recurrent sequence refuses to shrink by more than its roll-back window. |
| SeqKvs.SeqKv.StateSet | golbang-core/src/scheduler.rs:776-801 | An accepted partial restore leaves a head of the dump (possibly short of it, possibly with orphaned cells behind); a refused one leaves anything. |
| SeqKvs.SeqKv.FullSet | golbang-core/src/scheduler.rs:776-801 | An accepted full-state restore onto a cleared sequence leaves exactly the dump or reports no cells; on a reliable engine a nonempty dump is accepted and restored. |
| SeqKvs.SeqKv.DecodeAndSample | golbang-core/src/scheduler.rs:3120-3268 | Tokens at the next positions extend the cells, and row i is sampled from the history that ends with token i. |
| SeqKvs.RowAt | golbang-core/src/scheduler.rs:1417-1444 | Row i of a batch never depends on a token behind it. |
| Speculation.PlainIsGreedy | golbang-core/src/generate.rs:151-196 | The one-token-at-a-time decoder emits only what the target picks after the prompt and its own output, and never ends as cancelled or timed out. |
| Speculation.GreedyIsUnique | golbang-core/src/generate.rs:151-196 | Two generations of a prompt in which every token is the target's pick are one a prefix of the other. |
| Speculation.AcceptDrafts | golbang-core/src/speculative.rs:366-382 | The accepted tokens are the longest common head of samples and drafts plus one more sample. |
| Speculation.AcceptedFollowTarget | golbang-core/src/speculative.rs:366-382 | If the rows were sampled over the drafts, every accepted token is the target's pick after the history and the accepted tokens before it. |
| Speculation.MatchedAgain | golbang-core/src/scheduler.rs:1507-1511 | Counting the matches a second time on the accepted tokens gives the same number. |
| Speculation.Job.constructor | golbang-core/src/slot.rs:200-271 | A bound job starts with its reused head resident, position and limits right. |
| Speculation.Job.PushToken | golbang-core/src/scheduler.rs:1611-1673 | One sampled token: emitted unless it ends generation or has no piece; the job finishes for end, length, stop string or context cap, in that priority. |
| Speculation.Job.EmitOne | golbang-core/src/scheduler.rs:1563-1587 | Pushing the target's next pick keeps what the plain decoder would deliver, exactly unless the position already counts later tokens of the batch and reaches the cap while the plain decoder would go on; then the job ends with a prefix of it, for length, short of both limits. |
| Speculation.Job.EmitAll | golbang-core/src/scheduler.rs:1563-1587 | Emitting tokens the target agrees with keeps the generation the target's and stops at the first finish; the result changes exactly when several tokens reach the cap and the plain decoder would not have ended with the first. |
| Speculation.Job.PrefillChunk | golbang-core/src/scheduler.rs:1159-1200 | A prefill chunk extends the resident head of the prompt; the last one samples and emits the first token; the result of the request is unchanged. |
| Speculation.Job.PrefillStep | golbang-core/src/scheduler.rs:459-463 | A prefill iteration as a whole: after the last chunk the job already carries the head of the proposal that its budgets allow into its first decode, and the result is unchanged. |
| Speculation.Job.SnapshotSpec | golbang-core/src/scheduler.rs:1330-1360 | A dump of exactly the resident cells is taken when the drafts outrun the in-place roll-back window. |
| Speculation.Job.RestoreSpecCheckpoint | golbang-core/src/scheduler.rs:1362-1378 | Restoring the checkpoint brings back exactly the cells it was taken of, without orphans and without asking for a wider shrink. |
| Speculation.Job.RejectToCheckpoint | golbang-core/src/scheduler.rs:1515-1536 | Rejected drafts with a dump: the cells are those before the verify, and the accepted tokens become the drafts of a replay. |
| Speculation.Job.RollBack | golbang-core/src/scheduler.rs:1537-1542 | Rejected drafts without a dump: exactly the accepted head stays, and the removal fits the roll-back window. |
| Speculation.Job.ConfirmedMatch | golbang-core/src/scheduler.rs:1515-1536 | Drafts left by a restore match every row when they are verified again, however many of them fit the batch. |
| Speculation.Job.JudgeDrafts | golbang-core/src/scheduler.rs:1479-1511 | The verdict on a verify batch: accepted tokens are the target's picks, and confirmed drafts all match. |
| Speculation.Job.VerifyAndEmit | golbang-core/src/scheduler.rs:1479-1588 | A verify step keeps cells, position and record together, emits at most one token more than it verified and never asks for a roll-back wider than the window; rejected drafts under a dump leave the confirmed ones and one more as the drafts of a replay; the result changes exactly when the verified drafts were not clear of the cap. |
| Speculation.Job.EmitAccepted | golbang-core/src/scheduler.rs:1563-1587 | Emission after the cells hold exactly the accepted head keeps them aligned even when the job finishes in the middle; the result changes exactly when several tokens reach the cap and the first would not have ended it. |
| Speculation.Job.EmitSampled | golbang-core/src/scheduler.rs:1446-1477 | Verification when drafts were decoded, otherwise the plain token; the result changes exactly when the verified drafts were not clear of the cap. |
| Speculation.Job.FillDrafts | golbang-core/src/scheduler.rs:1686-1757 | A replay keeps its drafts; any other job takes the head of the proposal that the speculation, context and generation budgets allow. |
| Speculation.Job.VerifyBatch | golbang-core/src/scheduler.rs:1330-1588 | The batch and its verification: the same with the drafts as they are left before anything is drafted anew. |
| Speculation.Job.DecodeStep | golbang-core/src/scheduler.rs:1330-1588 | One decode of a slot for any drafter and any room in the batch: invariants kept, no two steps in a row without an emission or a finish, the tokens always a prefix of the plain result; the result changes if and only if the drafts decoded were not clear of the cap, and then the job has ended for length short of both limits; a replay that gets no room keeps its drafts and moves on one position. |
| Speculation.Job.FinishSlot | golbang-core/src/scheduler.rs:1804-1891 | At whatever point a job stops, the remembered tokens and the resident cells are one a prefix of the other. |
| Speculation.Job.Generate | golbang-core/src/scheduler.rs:1446-1588 | The decodes behind a prefill end with exactly the plain result when every replay gets room for one draft. |
| Speculation.Job.Run | golbang-core/src/scheduler.rs:377-463 | Lossless speculation over a whole run: with fixed limits the job ends, with exactly the tokens and the finish reason of the plain decoder, for any drafter from the first decode on, any chunking and any batch room (one draft for a replay). |
| Speculation.Job.RunAnyRoom | golbang-core/src/scheduler.rs:377-463 | With any room at all the run still ends with a prefix of the plain tokens; it delivers exactly the plain result if and only if every decode was clear of the cap, equivalently unless it ended for length short of both limits, and that takes a replay that waited without room. |
| Speculation.StaleReplayEndsEarly | golbang-core/src/scheduler.rs:1697-1701 | From the bind on: a one-token request with a limit of four under a cap of five, whose replay waits once for room, ends with at most three tokens, a proper prefix of the four the plain decoder delivers. |
| Speculation.Job.Serve | golbang-core/src/scheduler.rs:377-463 | Any interleaving of prefill, decodes, iterations that leave the slot out, changing caps and a stop at any point: only the target's picks were emitted, and the record agrees with the cells. |
| PlannedRun.PlanWhole | golbang-core/src/batch.rs:83-122 | A batch with room for what the other slots ask for, a pending token and the drafts a slot may carry, gives the slot all of its drafts. |
| PlannedRun.Run | golbang-core/src/scheduler.rs:377-488 | Lossless speculation over planned batches: a job whose batches have that room delivers exactly the plain tokens and reason, whoever shares them, whatever is drafted and however often it is left out. |
| Serving.ServeRequest | golbang-core/src/scheduler.rs:377-463 | End to end: bind with any leftovers, restore, prefill with snapshots, speculate. The outcome is that of a plain decoder that prefills the whole prompt; the slot then remembers the prompt and a head of the output, and its chain holds a snapshot of the whole prompt; it is ready for the next request if and only if its chain holds only heads of the prompt, and that is so if every anchor the bind left was shared with it. |
| Serving.TakeCapture | golbang-core/src/scheduler.rs:1229-1292 | A snapshot of the resident head: on a reliable engine the anchor it asks for joins the chain at its place, as a tool head instead of the other tool heads, and nothing goes that the bounds do not demand; a keyed one is in the store if the caps allow, and nothing else changes either. |
| Serving.PrefillOne | golbang-core/src/scheduler.rs:1153-1302 | A chunk between two armed stops moves the job and the planner's cursor alike and keeps the result; only anchors of the prompt join the chain, and after the last chunk the whole prompt is one of them. |
| Serving.ServeSession | golbang-core/src/scheduler.rs:377-463 | A session of requests on one slot: every outcome is the plain decoder's, up to the first bind that leaves the slot with an anchor of another prompt, and the session is served to its end if every anchor a bind leaves is shared. |
| Serving.WrongBind | golbang-core/src/scheduler.rs:2483-2597 | Three binds of a recurrent slot: the snapshot of an earlier session outlives an unrelated prompt, and the bind of a prompt that shares one token with that ends with the snapshot's cells as its head. |
| BindPath.SharedMeansHead | golbang-core/src/scheduler.rs:2408-2421 | An anchor of a session heads a new prompt if and only if it is no longer than the common head of session and prompt (or, kept past its session, if that is shared whole and the anchor goes on like the prompt). |
| BindPath.PrunedAnchorsHeadThePrompt | golbang-core/src/scheduler.rs:2408-2421 | Whatever the reuse came from, the anchors its pruning leaves all head the new prompt if and only if all are shared; on a chain within its session, if and only if none is longer than the common head. |
| BindPath.ForeignAnchorSurvives | golbang-core/src/scheduler.rs:2408-2421 | A slot that served one token and kept its snapshot binds an unrelated prompt: the chain afterwards still holds that snapshot, no head of the prompt. |
| BindPath.Slot.ReuseForBind | golbang-core/src/prefix_cache.rs:308-322 | The reused length is the longest common head that leaves a prompt token and is covered; zero forgets the session. |
| BindPath.Slot.TrimSeqTo | golbang-core/src/scheduler.rs:2788-2797 | Success means exactly n cells of the old ones and no orphans, and that they could be cut so; failure means the old cells; a reliable engine never fails where they can. |
| BindPath.Slot.BestChainAnchor | golbang-core/src/scheduler.rs:2454-2462 | The longest anchor within reach, and none only if none is. |
| BindPath.Slot.PruneChain | golbang-core/src/scheduler.rs:2408-2421 | Exactly the anchors of at most reuse + 1 tokens survive. |
| BindPath.Slot.FullPrefill | golbang-core/src/scheduler.rs:2593-2597 | Giving up leaves an empty sequence, a chain that fits it, and the session forgotten exactly if asked. |
| BindPath.Slot.RestoreAnchor | golbang-core/src/scheduler.rs:2511-2579 | The chain tier ends with exactly the returned head of an anchor that goes along with the session, whichever call is refused or comes up short; on a reliable engine the cells are the anchor's own, right or wrong; a recurrent sequence is never cut below what it restored. |
| BindPath.Slot.RestoreFull | golbang-core/src/scheduler.rs:2601-2773 | The disk tier ends with exactly the returned head resident, or with nothing; on a reliable engine it brings back every nonempty dump within the search. |
| BindPath.Slot.RestorePartial | golbang-core/src/scheduler.rs:2601-2773 | The RAM tier ends with exactly the returned head resident, or with nothing; on a reliable engine it brings back every nonempty dump, cut to the search, unless a recurrent sequence would have to be cut. |
| BindPath.Slot.RestoreHostSnapshot | golbang-core/src/scheduler.rs:2601-2773 | A hit leaves exactly the returned head resident, a miss leaves the sequence as it was or empty. On a reliable engine the length is fixed: a disk answer goes first on a fresh sequence or when no stored head is usable, else the longest usable stored head, cut to the search; nothing only if there is neither, the dump is empty, or a recurrent sequence would have to be cut. |
| BindPath.Slot.Settle | golbang-core/src/scheduler.rs:2483-2597 | Whatever fails, the cells cover exactly the returned length of the prompt, shorter than the prompt, and the chain is the old one pruned for exactly that length. On a reliable engine a reuse the cells can be cut to is kept whole; else the longest anchor in reach is restored, cut to the reuse; else the host tiers bring back what they can. |
| BindPath.Slot.BindText | golbang-core/src/scheduler.rs:845-961 | A bind succeeds exactly for a nonempty prompt below the cap; then, if cells and anchors go along with the session, position, offset and cells are the same reused head; limits and stops are armed as promised; the chain is the old one pruned for that head, with all heads of the prompt exactly if all left are shared. On a reliable engine the length reused is fixed from both sides: the whole reuse when the cells can be cut to it, else the longest anchor in reach cut to the reuse, else the longest usable head of store or disk. |
| BindPath.Slot.SomethingServes | golbang-core/src/scheduler.rs:2483-2597 | On a reliable engine every reuse is served by the cells, by an anchor in reach, or by the host tiers, so one of the three lengths of a bind always applies. |
| BindPath.HostBringsOne | golbang-core/src/scheduler.rs:2601-2773 | For given store, disk answer and prompt the host tiers bring back one length. |
| BindPath.Slot.NextTurnReuses | golbang-core/src/scheduler.rs:2483-2505 | A prompt that goes on from the remembered session reuses all of its resident cells. |
| PrefixStores.ScoreIsTotal | golbang-core/src/prefix_cache.rs:1176-1188 | Entries of different ticks never tie, so the eviction victim does not depend on the map's iteration order. |
| PrefixStores.PrefixStore.PickLongestVictim | golbang-core/src/prefix_cache.rs:1192-1198 | The victim beats every other candidate, in whatever order the map is walked. |
| PrefixStores.PrefixStore.RemoveEntry | golbang-core/src/prefix_cache.rs:1162-1168 | A removal takes the entry, its tick and its marks, and exactly its bytes off the total. |
| PrefixStores.PrefixStore.EvictIfOverCap | golbang-core/src/prefix_cache.rs:1150-1158 | Ends under both caps; whatever went outranked everything that stayed: unreferenced first, plain before demanded, then longest, then oldest; and with the last victim back a cap would be exceeded. |
| PrefixStores.PrefixStore.EvictGlobalOverCap | golbang-core/src/prefix_cache.rs:1206-1214 | Ends under the cap or with only stub-length entries; stubs are never dropped, whatever went outranked every candidate that stayed, and with the last victim back the cap would be exceeded. |
| PrefixStores.EvictionOrder | golbang-core/src/prefix_cache.rs:1176-1188 | An entry goes, against every candidate that stays, referenced only if that is, then in demand only if that is, then no shorter, and of one length the older. |
| PrefixStores.PrefixStore.PutWith | golbang-core/src/prefix_cache.rs:945-963 | A put keeps the books balanced and the caps, stores the dump when it fits and evicts no more than needed, upgrades but never demotes the demand mark, and ignores a key whose length is not the dump's. |
| PrefixStores.PutMarks | golbang-core/src/prefix_cache.rs:945-963 | A put marks its own entry only: in demand if it is or was, its references kept, and used last. |
| PrefixStores.PrefixStore.FindRam | golbang-core/src/prefix_cache.rs:1092-1111 | The longest stored head of the prompt within reuse + 1, in whatever order the map is walked; a miss means there is none. |
| PrefixStores.PrefixStore.RefreshEntryRefs | golbang-core/src/prefix_cache.rs:1025-1038 | An entry is referenced exactly if its key heads a live session's prompt. |
| PrefixStores.HeadByCount | golbang-core/src/prefix_cache.rs:1092-1111 | Comparing the common-prefix length with the key length decides whether the key heads the prompt. |
| Common.CommonPrefixLen | golbang-core/src/prefix_cache.rs:29-36 | The common head, and no longer one. |
| AnchorChains.LatestIsMaximum | golbang-core/src/scheduler.rs:2439-2445 | On an ascending chain the last anchor is the longest. |
| AnchorChains.TrimPrefixChain | golbang-core/src/scheduler.rs:2275-2313 | Drops unprotected anchors, shortest first, until both bounds hold or only protected ones are left, and none without need: with the longest dropped one back a bound would be exceeded; the latest length never changes. |
| AnchorChains.Prune | golbang-core/src/scheduler.rs:2408-2421 | Keeps the head of the chain of at most reuse + 1 tokens. |
| AnchorChains.Push | golbang-core/src/scheduler.rs:2244-2266 | The chain stays strictly ascending, the new anchor joins and replaces only one of its length, tool-head stubs survive, the bounds on anchors and bytes hold unless only protected ones remain, and nothing is dropped while there is room. |
| AnchorChains.Insert | golbang-core/src/scheduler.rs:2244-2266 | The new anchor joins at its place and replaces only one of the same length. |
| AnchorChains.WithStubAscends | golbang-core/src/scheduler.rs:1257-1263 | Keeping one tool-head stub leaves the chain ascending. |
| AnchorChains.WithStubMembers | golbang-core/src/scheduler.rs:1257-1263 | Exactly the other tool-head stubs go. |
| HostRam.HostMemory.TrimChainsSessionOrder | golbang-core/src/scheduler.rs:2386-2404 | Chains are trimmed idle before active and longest-retained first, a later slot only when the earlier ones have nothing unprotected left, and none without need: with the chain of the last one trimmed back the cap would be exceeded. |
| HostRam.HostMemory.EvictStore | golbang-core/src/scheduler.rs:2336-2367 | Stage one, by references counted anew: what goes scored higher than every candidate that stays, stubs stay, and with the last one dropped back the cap would be exceeded; it ends under the cap or with only stub-length entries. |
| HostRam.HostMemory.Enforce | golbang-core/src/scheduler.rs:2336-2367 | The two-stage loop terminates under the cap or with nothing left that may be dropped; the store gives first, in order of score under fresh reference marks, and only as long as it and the whole chains exceed the cap; a chain is touched only once the store is down to its stubs, and only while all that is left exceeds the cap; no slot's latest length changes; nothing changes when it starts under the cap. |
| HostRam.LiveHeadsAreInUse | golbang-core/src/scheduler.rs:2371-2381 | An entry counts as referenced exactly if some slot's session would resend a prompt it heads. |
| HostRam.SessionOrder | golbang-core/src/scheduler.rs:2386-2404 | Every slot exactly once, sorted by who is sacrificed first, equal ones by index. |
| Quota.Hungry | golbang-core/src/batch.rs:250-252 | Exactly the slots below their demand, ascending. |
| Quota.Round | golbang-core/src/batch.rs:256-270 | A round hands out at most what is left and never nothing; a complete one lifts every slot to one level, an exhausted one stops within one token of it. |
| Quota.SplitPrefillQuota | golbang-core/src/batch.rs:242-276 | Water filling terminates, hands out exactly the smaller of the cap and all demands, and is max-min fair to within one token. |
| Quota.EveryoneServed | golbang-core/src/batch.rs:242-276 | With a token for everyone in the cap, no slot that wants tokens gets none. |
| BatchPlanner.PlanJob.RemainingToStop | golbang-core/src/slot.rs:324-334 | The next chunk is never longer than the remainder and never empty while there is one; with both stops ahead of the position it ends at the nearer of them or at the prompt end. |
| BatchPlanner.DecodeSeg | golbang-core/src/batch.rs:101-120 | A decoding slot's segment: pending token and drafts in order at consecutive positions, every row sampled. |
| BatchPlanner.PrefillSeg | golbang-core/src/batch.rs:166-181 | A prefilling slot's segment: the next prompt tokens in order at consecutive positions, logits only on the last prompt token. |
| BatchPlanner.DecodeSegment | golbang-core/src/batch.rs:101-120 | As many drafts as the batch has room for, all of them unless it fills up. |
| BatchPlanner.DecodePass | golbang-core/src/batch.rs:83-122 | At most the cap; every slot has nothing or its own segment in the batch; with enough decode slots nobody with a pending token is left out of a batch that is not full, and if the cap covers all pending tokens and drafts, everyone decodes all of them. |
| BatchPlanner.PrefillSlots | golbang-core/src/batch.rs:136-151 | Exactly the slots of the order with prompt left, each once. |
| BatchPlanner.PrefillPass | golbang-core/src/batch.rs:162-183 | Each prefill slot gets its own chunk once, slots that do not prefill keep theirs, and the token count is the sum of the quotas. |
| BatchPlanner.PlanEx | golbang-core/src/batch.rs:70-186 | A batch has at most n_batch tokens, its logit slots line up one to one with its logit tokens and each slot's rows stand together; every slot has nothing, its decode segment or its next chunk up to an armed stop; prefill shares the rest max-min fairly, no chunk is longer than the budget's, and with nobody decoding and room left none is shorter; decoding slots go first and are not mixed with prefill at a mix cap of zero. |
| Sampling.GroupSamples | golbang-core/src/scheduler.rs:1417-1444 | Every slot is handed exactly its own samples in row order, and over a planned batch in one piece. |
| Sampling.RowsPerSlot | golbang-core/src/scheduler.rs:1417-1444 | A slot is handed one sample for each of its own logit rows in the batch. |
| PlanRuns.ApplyChunk | golbang-core/src/scheduler.rs:1161-1212 | Cursor and position move by the chunk, reached stops are cleared, a finished prompt starts decoding; a snapshot is asked for exactly at a stride stub, an armed stop or the prompt end, under the exact head as key, and it joins the chain exactly at the prompt end, at the last stride stub, or at a pre-generation stop alone. |
| PlanRuns.StopsAreHit | golbang-core/src/scheduler.rs:1177-1211 | A chunk never steps over an armed stop; ending there clears it and snapshots exactly that length; the stops stay armed correctly. |
| PlanRuns.ApplyChunks | golbang-core/src/scheduler.rs:1159-1302 | Every consumed entry moves its own slot once, and nothing else is moved or snapshotted. |
| PlanRuns.ApplyPlan | golbang-core/src/scheduler.rs:1153-1319 | All slots after a batch: prefilled ones behind their chunk, decoded ones behind their last batch position, the rest untouched. |
| PlanRuns.HostStubBoundaries | golbang-core/src/scheduler.rs:2223-2240 | The stride stubs are the multiples of 2048 from 6144 to 16384 that end a micro-batch, and the last of them is 16384. |
| SchedulerLoop.MaxPrefillRemaining | golbang-core/src/batch.rs:197-205 | An upper bound on every prompt remainder that some prefilling slot attains. |
| SchedulerLoop.ForContext | golbang-core/src/policy.rs:125-137 | Decode room for every slot, never a mixed batch; with several slots chunks of one micro-batch and a yield after 16 decode iterations of at most 256 tokens, with one slot chunks of the whole batch and no yield. |
| SchedulerLoop.ResolveBudget | golbang-core/src/scheduler.rs:493-508 | Without a requested budget the context's own; a requested one field by field as it is where it fits the batch, cut to it where not, and never without a prefill token or a decode slot. |
| SchedulerLoop.BindArmsStops | golbang-core/src/scheduler.rs:925-945 | The stops a bind arms lie ahead of the position and cannot shadow each other. |
| SchedulerLoop.SlotAdvances | golbang-core/src/batch.rs:162-183 | One planned and applied iteration extends a slot's prefill record by exactly its next prompt tokens. |
| SchedulerLoop.CaughtAdvances | golbang-core/src/scheduler.rs:1177-1211 | A chunk snapshots behind everything snapshotted before, and at any stop it reaches. |
| SchedulerLoop.NobodyOvertaken | golbang-core/src/batch.rs:216-235 | A slot with prompt left that consumes nothing saw the yield counter grow, and that counter stops at 16. |
| SchedulerLoop.RunCovers | golbang-core/src/batch.rs:216-235 | The counter never exceeds the decode-only iterations just before. |
| SchedulerLoop.Loop.Bind | golbang-core/src/slot.rs:415-419 | Binding starts a fresh record for its own slot only. |
| SchedulerLoop.Loop.PlanNext | golbang-core/src/scheduler.rs:387-407 | The counter and a plan that owes every slot its share. With a slot decoding: a rest of at most two chunks is planned at once, in full chunks, without any decode and with every prefill slot in it; a longer one that waited its turns likewise in yield chunks; and otherwise every slot that decodes is in a batch that has room, with all of its drafts when the batch covers what they ask for. Under the context's own budget it moves every prefill slot or decodes without prefilling. |
| SchedulerLoop.PlainNeed | golbang-core/src/batch.rs:83-122 | Without drafts a batch that covers the slot count covers what they ask for, so it never splits the decoding slots. |
| SchedulerLoop.Loop.Advance | golbang-core/src/scheduler.rs:387-463 | Under any budget and any order, one iteration keeps every slot's prefill record exact and its job in place, and gives the turn to short rests, to long ones that are due, or to the decodes. |
| SchedulerLoop.Loop.PrefillStaysExact | golbang-core/src/scheduler.rs:377-489 | Under any budget, over any number of iterations in any orders and whatever the other slots do: what went through the engine for a slot is prompt[offset..] once each, in order, at consecutive positions, and all of it once the slot decodes; each stop its bind armed is snapshotted exactly once, at its length, when the cursor gets there. |
| SchedulerLoop.Loop.Iterate | golbang-core/src/scheduler.rs:387-407 | Under the context's own budget with n_batch at least the slot count: in any 17 consecutive iterations a slot that stays in prefill consumes a token, long-prefill yields are preceded by 16 decode-only iterations, and for a short rest every prefilling slot moves while every decoding one stays as it is. |
| SchedulerLoop.Loop.ShortRestFinishes | golbang-core/src/batch.rs:216-235 | A short rest finishes with no decode in between: within as many iterations as its longest remainder has tokens every prefilling slot decodes, and every slot that was decoding at the start stands where it stood. |
| SchedulerLoop.Loop.Others | golbang-core/src/scheduler.rs:344-377 | Binds, ends and decodes of other slots leave a slot's record and its waiting time alone. |
| SchedulerLoop.Loop.PrefillFinishes | golbang-core/src/scheduler.rs:387-407 | Every prefill finishes within 17 iterations a token, counted by the loop itself and whatever happens on the other slots, having fed the whole suffix exactly once and snapshotted every stop armed ahead of it exactly once. |
| CtxCap.CapForJoinAntitone | golbang-core/src/ctx_cap.rs:78-87 | A joiner's cap never grows with the others' occupancy or their number, saturation and integer division included. |
| CtxCap.AdmissionNeverStrands | golbang-core/src/ctx_cap.rs:113-138 | A deferred request is admitted on an empty pool; an admitted one stays admitted at every smaller load; a clamped one is clamped at every load. |
| CtxCap.DecisionMeans | golbang-core/src/ctx_cap.rs:113-138 | An unlimited request is always admitted; for any other, admit, defer and clamp are exactly prompt and wanted tokens within the cap, within the solo cap only, beyond it. |
| CtxCap.JoinFits | golbang-core/src/ctx_cap.rs:63-87 | A prompt below its join cap fits the pool beside the others and a verify step of every active slot. |
| CtxCap.TwoCapsFit | golbang-core/src/ctx_cap.rs:51-75 | Two active slots' caps add up to at most the pool behind the reserve, or to what is already resident, and none is below its own occupancy. |
| CtxCap.SoloCapFits | golbang-core/src/ctx_cap.rs:51-75 | The same for a lone slot. |
| CtxCap.CapStaysWithin | golbang-core/src/ctx_cap.rs:51-75 | A cap never exceeds the configured maximum or the pool, unless more is already resident. |
| CtxCap.SoloCapIs | golbang-core/src/ctx_cap.rs:78-87 | A joiner of an empty pool gets the configured maximum or everything behind the reserve, whichever is less. |
| CtxCap.CapIsUsedPlusOffer | golbang-core/src/ctx_cap.rs:51-75 | A cap is what the slot holds plus an offer: what its share leaves it to gain, cut at the one gap behind the reserve that all slots are offered. |
| CtxCap.ThreeCapsOversell | golbang-core/src/ctx_cap.rs:51-75 | Three slots using 50000, 10000 and 1 of 90000 get caps that add up to 110000. |
| PoolRun.RecomputeSlotCaps | golbang-core/src/scheduler.rs:2094-2124 | Every active slot gets the cap and the generation limit its occupancy and the others' call for; empty ones stay empty. |
| PoolRun.RecomputedCapsFit | golbang-core/src/scheduler.rs:2094-2124 | For any number of slots the recomputed caps add up to what is held plus the offers; they fit the pool behind the reserve (or what is resident) if and only if the offers fit the gap, and each covers what its slot holds. |
| PoolRun.FairSharesFit | golbang-core/src/scheduler.rs:2094-2124 | With nobody above the fair share the offers fit. |
| PoolRun.OneHungryFits | golbang-core/src/scheduler.rs:2094-2124 | With at most one slot below its share the offers fit. |
| PoolRun.TwoActiveFit | golbang-core/src/scheduler.rs:2094-2124 | With at most two active slots, of however many, the offers fit. |
| PoolRun.SettledLeavesTwo | golbang-core/src/scheduler.rs:1652-1668 | A job that goes on from an emission leaves two cells under its cap, because its generation limit ends it one cell before the cap does; every outcome keeps position, count and phase together. |
| PoolRun.NextDecodeFits | golbang-core/src/ctx_cap.rs:43-47 | In a safe state the next batch, drafts of every slot included, stays inside the pool. |
| PoolRun.DecodeKeepsSafe | golbang-core/src/scheduler.rs:1652-1668 | When the caps fit, a batch with every decoding slot in it keeps the state safe on any number of slots, whatever it accepts, replays or finishes and whatever prefill rides along; with speculation on, any batch does. |
| PoolRun.HeldIs | golbang-core/src/ctx_cap.rs:31-47 | With speculation on, what is held back is one verify step for every active slot. |
| PoolRun.StartersAreExact | golbang-core/src/batch.rs:216-235 | Without speculation, prefill-only batches keep the state safe, whatever comes of them, if and only if there is a cell for every slot that decodes and for every one that would go on from its first token. |
| PoolRun.ReadyStarts | golbang-core/src/batch.rs:216-235 | In a ready state whose offers fit there is a cell for every such slot. |
| PoolRun.ReadyKept | golbang-core/src/scheduler.rs:387-488 | An iteration keeps a ready state ready if the offers fit: with speculation on for any batch, without it for one that has all decoding slots or none. |
| PoolRun.Pool.Join | golbang-core/src/scheduler.rs:655-761 | Deferred exactly as the admission decision says, bound exactly for a nonempty prompt below its cap, with everyone's cap recomputed; the pool is then safe, and ready, if and only if the prompt leaves what can be read off the slots before the join: what is held back, and without speculation a cell for every active slot or two for every cramped one, less a single cell. With speculation on, or with one other slot, it always does; otherwise nothing changes. |
| PoolRun.Pool.Settle | golbang-core/src/scheduler.rs:1479-1673 | What a batch makes of a slot: left out it stays as it is; prompt tokens move it, the last one starts it; an emission moves it and ends it at its limit or its cap; a rejected verification goes back. |
| PoolRun.Pool.Leave | golbang-core/src/scheduler.rs:1804-1891 | A departure keeps the pool safe and ready. |
| PoolRun.Pool.Iterate | golbang-core/src/scheduler.rs:387-488 | For any number of slots an iteration with any events, prefill-only ones included, keeps the pool ready if the offers fit when the caps are recomputed, and with two active slots always, speculation on or off. |
| Oversold.JoinThird | golbang-core/src/scheduler.rs:655-761 | In the run below: the third prompt is admitted and bound, leaves a cell for each decoding slot, and the offers fit. |
| Oversold.JoinOversells | golbang-core/src/scheduler.rs:387-488 | From an empty pool of twelve cells without speculation, over three admitted joins and two prefill-only batches: three slots decode on ten resident cells and the next batch needs three more. |
| Oversold.TwoStartersNeedMore | golbang-core/src/batch.rs:216-235 | One cell beyond what is held is not enough for two joiners: a safe state with offers that fit, in which both may start. |
| JoinWaiting.PickEmptySlot | golbang-core/src/policy.rs:247-269 | A free same-session slot with the longest common head, else the one with the least to lose; first of equals; none only if all are used. |
| JoinWaiting.SameSessionMeans | golbang-core/src/policy.rs:213-222 | A slot and a prompt are of one session exactly when they share a first token and all that the bar asks for but the last, of the newest anchor if there is one and else of all that was remembered. |
| JoinWaiting.ResidentIsLargest | golbang-core/src/policy.rs:28-36 | What a join could discard is the longest of remembered tokens, prefix length and newest anchor. |
| JoinWaiting.PrefixAwareJoin | golbang-core/src/policy.rs:224-245 | As many pairs as slots and requests allow: the first requests in arrival order, each with the best slot that no earlier one got. |
| JoinWaiting.FilterMatches | golbang-core/src/scheduler.rs:620-631 | The filter takes the first pair of each queued request that names an empty slot. |
| JoinWaiting.TakenOnce | golbang-core/src/scheduler.rs:620-631 | No request is taken twice, only empty slots are taken, and every queued request the answer gives an empty slot is taken. |
| JoinWaiting.DistinctSlotsStay | golbang-core/src/scheduler.rs:620-631 | If the answer names no slot twice, no slot is taken twice. |
| JoinWaiting.DuplicateSlotsPass | golbang-core/src/scheduler.rs:620-631 | Two requests an answer gives the same empty slot both pass the filter. |
| JoinWaiting.Joiner.JoinOne | golbang-core/src/scheduler.rs:650-761 | At the load it finds, a request stays queued exactly when admission defers it and is bound exactly when, not deferred, its prompt is nonempty and below its join cap; a bound one takes its slot and no other and adds its prompt to the load. |
| JoinWaiting.Joiner.JoinPass | golbang-core/src/scheduler.rs:552-769 | As many of the queue as there are empty slots get a turn, in arrival order: each is bound, fails or stays exactly as admission and cap say at the load the earlier ones left, and a bound one holds the best slot that no earlier request was given; everybody else stays. No slot is bound twice, and the remaining queue is the old one with the others left out, in order. |
| JoinWaiting.IdlePoolTakesFirst | golbang-core/src/scheduler.rs:650-761 | On an idle pool the first request of the queue is bound if its prompt fits alone. |
| JoinWaiting.NothingLost | golbang-core/src/scheduler.rs:634-765 | The old queue is the remaining one and the bound or failed requests together, none twice. |
| Markers.FirstStays | golbang-core/src/reasoning.rs:331-348 | With markers that cannot begin inside one another, a marker once seen stays the first one, whatever follows. |
| Markers.FirstInKept | golbang-core/src/reasoning.rs:350-358 | Searching on in the kept suffix finds what searching the whole text would. |
| Markers.KeepOfKept | golbang-core/src/tools.rs:708-720 | The kept suffix is the same whether computed from the whole text or from what was kept before. |
| Markers.SuffixThatIsTagPrefix | golbang-core/src/reasoning.rs:360-368 | The longest proper head of the marker the text ends with. |
| Reasoning.EndsAreSeparated | golbang-core/src/reasoning.rs:8-20 | No tag or tool-call opener can begin inside another one. |
| Reasoning.NextPhaseMarker | golbang-core/src/reasoning.rs:331-348 | The earliest end of the phase, and whether it is the phase's own tag. |
| Reasoning.SuffixThatIsAnyTagPrefix | golbang-core/src/reasoning.rs:350-358 | The longest end of the text that could still become a marker of the phase. |
| Reasoning.MarkerStep | golbang-core/src/reasoning.rs:142-170 | A complete marker splits any longer text in the same way. |
| Reasoning.KeepStep | golbang-core/src/reasoning.rs:186-202 | Without a marker, everything but the kept suffix can go out, whatever follows. |
| Reasoning.LegacyKeepsEverything | golbang-core/src/reasoning.rs:149-167 | The legacy format's content is the text, character by character. |
| Reasoning.SameThoughts | golbang-core/src/reasoning.rs:149-167 | Both extracting formats agree on the reasoning. |
| Reasoning.ReasoningParser.Drain | golbang-core/src/reasoning.rs:129-208 | What went out and what is held account for the text so far whatever follows; only a proper head of a marker is held; a flush gives the one-pass split. |
| Reasoning.ReasoningParser.Push | golbang-core/src/reasoning.rs:101-113 | The same after every push, for every continuation of the stream. |
| Reasoning.ReasoningParser.Finish | golbang-core/src/reasoning.rs:115-127 | The rest is split in one pass and nothing stays held. |
| Reasoning.Stream | golbang-core/src/reasoning.rs:101-209 | However the text is cut, pushes and finish together give its one-pass split: for every way to read the text as prose and thoughts in turn, each up to its tag and a thought also up to a tool call, the thoughts are the reasoning and the prose is the content (the whole text in the legacy format); prose, one closed thought and a rest give the thought, the prose and what the rest gives; without extraction all is content. |
| Reasoning.ReadingIsSplit | golbang-core/src/reasoning.rs:142-208 | A text properly read as prose and thoughts splits into them: a tag between them is dropped, a tool call ends a thought and stays in the content, an unclosed thought is all reasoning. |
| Reasoning.EveryTextReads | golbang-core/src/reasoning.rs:142-208 | Every text can be read so, from either phase. |
| Reasoning.NothingButTagsDropped | golbang-core/src/reasoning.rs:142-208 | Reasoning and content are together the text less the tags between them. |
| ToolCalls.StartsAreSeparated | golbang-core/src/tools.rs:18-27 | No tool-call opener can begin inside another one. |
| ToolCalls.FindStart | golbang-core/src/tools.rs:704-706 | The earliest start of any opener. |
| ToolCalls.LongestStartPrefix | golbang-core/src/tools.rs:708-720 | The longest end of the text that could still become an opener. |
| ToolCalls.RepresentsIsUnique | golbang-core/src/tools.rs:64-86 | The text alone, not its cutting, determines what went out and what is held. |
| ToolCalls.ToolCallParser.Push | golbang-core/src/tools.rs:64-86 | Prose before the first opener has gone out and the rest is held; before one appears, only a head of one is held. |
| ToolCalls.ToolCallParser.Finish | golbang-core/src/tools.rs:88-99 | The held block is handed over whole. |
| ToolCalls.Stream | golbang-core/src/tools.rs:64-99 | However the text is cut, prose and block are the two sides of the first opener and make up the text. |
| DiskCodec.LeRoundTrip | golbang-core/src/prefix_cache.rs:674-695 | Little-endian integers that fit their width read back. |
| DiskCodec.LeIsCanonical | golbang-core/src/prefix_cache.rs:702-739 | Every field has one encoding. |
| DiskCodec.KeyRoundTrip | golbang-core/src/prefix_cache.rs:723-726 | Signed tokens read back from their two's-complement bytes. |
| DiskCodec.WriteEntry | golbang-core/src/prefix_cache.rs:674-695 | A file is the header's bytes followed by the data. |
| DiskCodec.HeaderRoundTrip | golbang-core/src/prefix_cache.rs:702-739 | A header within the limits reads back as written, whatever follows it. |
| DiskCodec.HeaderIsCanonical | golbang-core/src/prefix_cache.rs:702-739 | A file is read as a header only if it starts with exactly that header's bytes, and the header is within the limits. |
| DiskCodec.EntryRoundTrip | golbang-core/src/prefix_cache.rs:674-747 | A written entry reads back whole if key and data are within the sanity limits, and is rejected otherwise. |
| DiskTier.ClashIsServed | golbang-core/src/prefix_cache.rs:601-626 | Two keys with one file name, put one after the other with data of one length: the lookup of the first returns the data of the second. |
| DiskTier.PutKeepsReads | golbang-core/src/prefix_cache.rs:572-594 | After a put of another key, an intact entry within the limits still reads back as stored if and only if the file names differ or the data is the same. |
| DiskTier.MirrorsInsert | golbang-core/src/prefix_cache.rs:572-594 | A put over a directory that mirrors the index leaves one that does if and only if no other indexed key has the file name. |
| DiskTier.Scan | golbang-core/src/prefix_cache.rs:521-569 | The index holds exactly the keys of acceptable files, with their length, file and size, and the byte count is the sum. |
| DiskTier.PrefixDisk.Open | golbang-core/src/prefix_cache.rs:476-495 | A reopened tier is the scan, cut oldest-first to the cap and no further than needed. |
| DiskTier.PrefixDisk.EvictOverCap | golbang-core/src/prefix_cache.rs:649-664 | Ends within the cap; nothing kept was used before something dropped; and with the newest dropped entry back the cap would be exceeded. |
| DiskTier.PrefixDisk.Put | golbang-core/src/prefix_cache.rs:572-594 | A put succeeds exactly when the file system takes the write or there is nothing to write; books and cap hold after it; a failed or malformed one changes nothing; the directory keeps mirroring the index if no other indexed key has the file name, and, when nothing is dropped, only then. |
| DiskTier.PrefixDisk.LongestKey | golbang-core/src/prefix_cache.rs:601-615 | The longest stored head of the prompt within the search length, in whatever order the index is walked. |
| DiskTier.PrefixDisk.FindOnDisk | golbang-core/src/prefix_cache.rs:601-626 | A hit is the longest stored head of the prompt with what its file reads back as, marked as used now, and a miss means there is no such head or its file does not read back at the recorded length; over a mirrored directory the head is served as last put if and only if it is within the format's limits. |
| DiskTier.SearchOversized | golbang-core/src/prefix_cache.rs:601-626 | A stored prompt beyond the key limit makes the search of a prompt that goes on from it miss, at the length a bind searches, although a shorter stored head is within the limits and reads back. |
| DiskTier.OversizedHides | golbang-core/src/prefix_cache.rs:572-626 | Two puts on a fresh tier lead there: the lookup for a prompt one token longer misses. |
| DiskTier.ScanOfMirror | golbang-core/src/prefix_cache.rs:521-569 | A scan of a mirrored directory finds exactly the indexed keys within the limits, each with the same length, file and size. |
| DiskTier.RestartMirrors | golbang-core/src/prefix_cache.rs:521-569 | A directory that mirrored an index mirrors what a scan makes of it. |
| DiskTier.Restart | golbang-core/src/prefix_cache.rs:476-569 | Reopening rebuilds the index: every entry within the limits, the same but for its tick, and nothing else; the directory mirrors it, with the data last put, so puts and lookups go on as before. |
| VisionSeqs.VisionSeq.constructor | golbang-core/src/prefix_cache.rs:95-118 | Chunks are flattened to cells and image spans at the right starts. |
| VisionSeqs.VisionSeq.ImageCovering | golbang-core/src/prefix_cache.rs:132-136 | An image whose cells include the index, if there is one. |
| VisionSeqs.VisionSeq.PosNext | golbang-core/src/prefix_cache.rs:139-153 | The position behind the fewest whole parts with at least n cells. |
| VisionSeqs.VisionSeq.SizeUpToPos | golbang-core/src/prefix_cache.rs:156-169 | The cells of the fewest whole parts whose position is at least the given one. |
| VisionSeqs.VisionSeq.WalksInvert | golbang-core/src/prefix_cache.rs:139-169 | At part boundaries cells to position and position to cells are inverse. |
| VisionSeqs.VisionSeq.CommonPrefix | golbang-core/src/prefix_cache.rs:172-194 | The longest head on which both prompts agree part by part, whole images by a known id. |
| VisionSeqs.VisionSeq.ReuseForBind | golbang-core/src/prefix_cache.rs:198-211 | The longest common head of whole parts that leaves a cell, if the GPU covers its position; zero only otherwise. |
| VisionSeqs.VisionSeq.TruncateToPos | golbang-core/src/prefix_cache.rs:219-236 | Keeps the longest head of whole parts whose position is at most the given one. |
| VisionSeqs.VisionSeq.Remember | golbang-core/src/prefix_cache.rs:280-286 | The prompt and its generated cells, cut at the position the GPU holds. |
| Utf8Stream.EncodeRoundTrip | golbang-core/src/generate.rs:235-279 | Text encoded as in RFC 3629 is valid and decodes to itself. |
| Utf8Stream.DecodeRoundTrip | golbang-core/src/generate.rs:255-278 | Valid bytes decode to scalar values and are their encoding, so overlong forms and surrogates are not valid. |
| Utf8Stream.PrefixReads | golbang-core/src/generate.rs:255-278 | Whole characters at the head of a text read the same in every longer one. |
| Utf8Stream.CutIsOpen | golbang-core/src/generate.rs:262-272 | A cut of valid text leaves a proper head of one character. |
| Utf8Stream.TakenOpen | golbang-core/src/generate.rs:255-278 | With nothing broken in the buffer, the whole characters go out and the head stays. |
| Utf8Stream.Utf8Buf.Push | golbang-core/src/generate.rs:241-278 | As long as everything pushed can still become valid UTF-8, its whole characters are out, in order, and at most three bytes, the head of one character, are held; whatever is pushed, nothing but such a head keeps a push from giving something out. |
| Utf8Stream.Utf8Buf.Flush | golbang-core/src/generate.rs:246-253 | After a whole valid text the flush has nothing left to give, and after one cut inside a character it gives one replacement. |
| Utf8Stream.Stream | golbang-core/src/generate.rs:235-279 | However valid UTF-8 is cut, pushes and flush give its text. |

## Left out

- Engine internals, GPU, drafters and samplers: drafts and room in a batch are arbitrary, the target is a function, each engine call keeps to `SeqKvs`.
- Decode errors and `fail_all_active`: a decode either succeeds or the whole batch fails and every job ends.
- Think-budget and DSML forcing, which replace sampled tokens: the runs are stated with both guards idle.
- Vision binds: only the arithmetic of their sequences (`VisionSeqs`) is modelled.
- `observe_boundary` and `record_prompt`: the demand boundary of a bind is an arbitrary input.
- Metrics, logging, clocks, timeouts as time, channels and HTTP: a stop may come at any point instead.
- Release of retained prefixes under pressure: idle cells do not count against the pool here, as in the cap arithmetic.
- The ngram table, `pld_draft`, `pool_fit_ladder`, tool-call grammars and stop-string trimming: easy or outside the scheduler's promises.
- Wrap-around of byte counters, ticks and positions outside `CtxCap` and `PoolRun`: unbounded integers stand for 64-bit counters and 32-bit positions far from their limits.
- The contents of file names: any function of the key; the results that need it ask for distinct names among the stored keys.
- File removal that fails and leftover temporary files: a removal succeeds, a write succeeds or changes nothing.
- Recency across a reopen: scanned entries take arbitrary ticks, so only what is kept below the cap is claimed.
- Text as bytes: markers and text are sequences of characters; a marker head that ends inside a character cannot match text that does not.
- Speculation.Job.Run: full equality with the plain decoder is claimed when every replay gets room for one draft; `RunAnyRoom` says exactly when it holds without that.
- BindPath.Slot.BindText: a full-state restore is taken to be all of the dump or nothing, as the code checks only that the sequence is not empty.
- PoolRun.Pool.Iterate: ready again when the offers fit, because the caps of three slots can oversell the pool (`CtxCap.ThreeCapsOversell`); without speculation for batches that do not split the decoding slots, as those with room for every slot never do (`SchedulerLoop.PlainNeed`); and for a draft limit below the 32-bit maximum, as the source takes it from a signed number.
- Speculation.Job.Serve: stated on an engine whose decodes, dumps and roll-backs within the window succeed; on others the same calls may leave anything behind.
- JoinWaiting.Joiner.JoinPass: stated for the arrival-order policy and text requests; encoding happens before the pass.
- Utf8Stream.Stream: stated for valid streams; broken bytes are replaced one by one between pushes but run by run in the flush, so no one reading of them fits both.
- Serving.ServeRequest: one slot at a time on an engine whose calls succeed; the host-RAM cap over several slots (`HostRam`) and the disk writes of its snapshots are modelled apart.
- Serving.ServeSession: goes on to the first bind that leaves a foreign anchor; after one the next bind may be wrong (`WrongBind`), and so may the snapshots it adds to the store.
- BatchPlanner.PlanEx: a slot's id is its index, and the order names no slot twice.
- PoolRun.Pool.Join: the sum of the slots' cells is taken to fit 32 bits.
