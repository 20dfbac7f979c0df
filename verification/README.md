# Authenticated garbling, modelled and proved

This project models the two-party authenticated-garbling core of `emp-ag2pc` and the session layer above it, and proves
that what a session reveals is what a plaintext session reveals. Check everything with
`dafny verify dfyconfig.toml` from this directory.

## The model

Both parties are modelled as one joint state, so the relation between ALICE's (party 1, the garbler) and BOB's (party 2,
the evaluator) fields can be stated directly.

- **Blocks and shares.** A block is the set of its one-bits (`Blocks`), so XOR is symmetric difference; the width is left
  open. A share of a bit is a MAC under the peer's key and an own key, correlated in both directions, with bit 0 of every
  key clear (`Shares.Paired`). Bit 0 of both global keys is 1, and bit 1 is 1 at party 1 and 0 at party 2, as pinned at
  setup (`Shares.GoodDeltas`). The correlated-OT session is an arbitrary stream of correlated shares
  (`TriplePools.Linked`), and the tweaked hash is an arbitrary function of a tweak index and a block.
- **AND triples** (`LeakyAnds`, `Buckets`, `TriplePools`, `BucketSizes`). The loops of `triple_pool.h` over in-place arrays: leaky
  AND in batches of eight, bucket folds with arbitrary public shifts, the batched F_eq check, and the Beaver reconciliation. Each
  loop is proved to compute what `Buckets.Call` says one call is at both parties, and the algebra is proved about that. The parity
  bits that the parties open to each other may arrive flipped.
- **Circuits and recording** (`Circuits`, `Recordings`). A body is the list of gate calls it makes, repeated constants
  included; every context with constant dedup emits the same stream for it. A canonical program is a stream that is its own
  recording.
- **The five passes** (`LivenessPasses`, `SlotMaskPasses`, `GarblePasses`, `EvaluatePasses`, `GammaCheckPasses`). Each is a
  class over the shared `RunStates.RunState`, with the source's counters, caches, freelist and slot arrays. Each is proved
  equal to a reference with one private cell per wire (`Cells`), through `RunStates.SlotsHold`: a wire that still owns its
  slot finds its own state there. `Allocators` proves that slots change hands soundly and that the footprint is exact.
  `HalfGates` proves the references jointly correct, and `GammaChecks` says when the c_gamma check passes.
- **The engine** (`Engines`, `AndFreeRuns`, `MaskOffsets`, `Replays`). Both parties' passes in order, from well-formed inputs
  (`SecureWireBundles.Encode`) to well-formed outputs. `MaskOffsets` follows a difference between the parties' opened masks
  through a run; `Replays` compares a body with its recording, pass by pass; `TamperedRuns` opens the outputs of a run whose
  ciphertexts were changed on the way.
- **Streaming** (`ChunkPipes`, `Framing`, `Streams`, `SequentialRuns`). The bounded pipe with its critical sections as atomic methods, and the
  four garble/send/receive/evaluate threads under any scheduler. The passes themselves are run one after the other;
  `SequentialRuns` shows that this is one schedule of the threads, and `Streams.RunThreads` that every other one delivers the
  same entries.
- **Recorder, planner, protocol and session** (`Recorders`, `FlushPlans`, `Flushes`, `FlushMasks`, `Protocols`,
  `CarriedStates`, `Sessions`, `HonestAborts`, `RawReveals`).
  The two parties record the same calls, so one recorder stands for both; everything else is kept for each party. Every wire
  id has a plaintext value, fixed when it is handed out; it is pending, carried, waiting (in an unfinished input batch) or
  stale.
- **Whole sessions** (`Cones`, `Ledgers`, `ClearSessions`, `SessionBooks`, `SessionRuns`). A user program is a list of calls over
  handles. `Ledgers` keeps what the calls alone determine: which wires exist, what recorded wires depend on (`Cones`), and how each
  call ends. `ClearSessions` interprets the calls in the clear; `SessionRuns.Client.Execute` runs them on the session and proves
  that both agree, refusals included.

## Main results

1. `TriplePools.ComputeInplace`: for every number of ANDs, hash, public coins and flips of the opened parity bits, the batched
   F_eq check passes if and only if nothing was flipped, and then correlated operand shares have become correlated shares of
   their products, for exactly `(3B - 2) n` COTs.
2. `Allocators.AllocationIsSound`, `Allocators.FootprintIsExact`, `Allocators.LastReadFrees`, and the `Finished` lemma of each pass: slot recycling is
   invisible, and the slot count is exactly inputs, permanent outputs, and the peak of recyclable wires held at once.
3. `HalfGates.EvaluationIsCorrect`: honest runs evaluate correctly at every wire. `GammaChecks.CheckPassesIff`,
   `GammaChecks.GammaCheckIsExact` and `GammaChecks.HonestCheckPassesIff`: when the c_gamma check passes, for arbitrary
   ciphertexts and arbitrary opened input masks; over agreed masks, exactly when every recovered AND mask is right; over honest
   ciphertexts, exactly when no difference between the input masks disturbs an AND.
4. `Engines.RunSource`: one circuit through all passes at both parties, with the exact condition under which two honest parties
   fail, and the exact outputs on whose masks they disagree. `TamperedRuns.RunReceivedAndDecode`: the same with arbitrary
   ciphertexts received over agreed masks; the run aborts exactly when a recovered AND mask is wrong, and otherwise BOB and the
   public read the plaintext outputs.
5. `FlushPlans.PlanFlush` and `FlushPlans.PlanKeepsMeaning`: planning is exact and preserves meaning.
6. `Streams.RunThreads` and `ChunkPipes.Interleave`: no overrun, no deadlock, termination, and delivery in order under every
   interleaving.
7. `SessionRuns.Client.Execute`: the session refines the plaintext session, with the exact call at which it stops and why, the exact
   bits ALICE reads at every reveal, and the exact reveals the COT check covers. A program whose calls are accepted
   (`ClearSessions.Accepted`) and travel (`ClearSessions.Travelled`), both read off the calls, runs to its end.

## Where the code does less than its comments say

- `secure_wires.h:25-26` says both parties hold the opened masks after a run. A run without an AND skips the garbler's
  re-propagation (`engine.h:249-257`), so the garbler's masks of XOR and NOT outputs stay at the 0 written by slot
  assignment. Two things follow.
  - ALICE misreads. `AndFreeRuns` and `AliceReads` give the smallest example and the exact condition for one run;
    `Sessions.Session.Reveal` says for every reveal that she reads the values flipped exactly at the wires whose carried masks
    differ at the two parties. BOB and the public always read the right values.
  - Two honest parties can fail their own c_gamma check. `HonestAborts.NotThenAnd` is the smallest session: reveal NOT a to
    BOB, then reveal the AND of that wire with b. It fails if and only if a's opened mask is 0 and the garbler's MAC of b is not
    zero. In general a run fails if and only if at some AND the differences between the parties' operand masks select unequal
    MACs (`MaskOffsets.Undisturbed`, `MaskOffsets.DisturbedIff`); a flush, if and only if this happens at a needed AND of its
    chunk (`Sessions.FlushPasses`). A caller is safe when every argument is agreed on, or reaches no AND through XOR and NOT
    gates (`Engines.SafeArgumentsPass`).

  Which wires are agreed on is exact as well: `Engines.RunOutputsOff` for a run, `Sessions.FlushOff` for a flush. What keeps
  agreed masks agreed can be read off a circuit (`Engines.OutputMasksTravel`) or a chunk (`Flushes.FlushTravels`).
- `README.md:105-107`, `README.md:257` and `triple_pool.h:168-175` say the COT consistency check runs before every reveal. The
  code runs it only at the end of the engine's run (`engine.h:191`), and a reveal enters the engine only for a pending wire
  (`ag2pc_session.h:372-384`). So a reveal is covered if and only if something it reveals or keeps is pending, or nothing was
  minted since the last engine run (`Sessions.Session.Reveal`). Over whole programs: if and only if it flushes a pending wire, or
  no bit of ALICE or BOB was shared since the last engine run before it (`ClearSessions.RevealCoveredIff`).
  `RawReveals.RevealRawInput` is the smallest uncovered session: input, then reveal.

## Model

| member | source | states |
|---|---|---|
| `Shares.PairedXor` | emp-ag2pc/backend/secure_wires.h:6-29 | XORing two authenticated shares at both parties keeps the MAC relation in both directions, with bit 0 of the keys clear, and hides the XOR of the hidden bits |
| `Shares.PairedSel` | emp-ag2pc/backend/triple_pool.h:364-369 | multiplying a share by a public bit keeps the MAC relation and hides the product |
| `Shares.PairedFlip` | emp-ag2pc/backend/triple_pool.h:307-319 | adding a public bit by flipping bit 0 of one party's MAC and moving the other's key by Delta ^ e0 keeps the MAC relation and adds the bit to the hidden one |
| `Shares.MacAuthenticatesBit` | emp-ag2pc/backend/protocol.h:250-257 | the MAC a party expects for a claimed share bit equals the sender's MAC if and only if the claim is the sender's bit |
| `LeakyAnds.RecoveredSum` | emp-ag2pc/backend/triple_pool.h:247-286 | S_1 ^ S_2 = (ab ^ r)(Delta_1 ^ Delta_2) for one candidate, any hash, any tweak, all share bits |
| `LeakyAnds.OpenedBit` | emp-ag2pc/backend/triple_pool.h:297-310 | the XOR of the two parties' LSB1(S) is exactly ab ^ r |
| `LeakyAnds.LValuesAgreeIff` | emp-ag2pc/backend/triple_pool.h:307-328 | whatever bits the two parties fold in, their L values agree if and only if both bits are ab ^ r |
| `Buckets.LeakyCheckIsExact` | emp-ag2pc/backend/triple_pool.h:307-328 | over a whole layer and whatever bits either party opened, the L-vectors fed to F_eq agree if and only if every bit at either party is right |
| `Buckets.RightBitsFold` | emp-ag2pc/backend/triple_pool.h:297-319 | folding the right bits into a layer of correlated shares makes every candidate an authenticated AND |
| `TriplePools.ShipCiphertexts` | emp-ag2pc/backend/triple_pool.h:247-265 | the garbler loop over batches of eight ships, for candidate k, the ciphertext under the tweak the trace records for it, which is gid + k, and uses a whole number of batches of tweaks |
| `TriplePools.RecoverS` | emp-ag2pc/backend/triple_pool.h:266-286 | the evaluator loop recovers S of candidate k under the tweak its own trace records for it, which is gid + k |
| `TriplePools.FoldOpened` | emp-ag2pc/backend/triple_pool.h:307-319 | region 2 becomes r ^ d in place at either party, regions 0 and 1 stay, and S becomes the L-vector |
| `TriplePools.ExchangeCiphertexts` | emp-ag2pc/backend/triple_pool.h:236-287 | both directions of a layer give each party the S values of its shares and its peer's, under the next L tweaks; all four tweak counters and traces stay in step, and no tweak in them repeats |
| `TriplePools.OpenAndFold` | emp-ag2pc/backend/triple_pool.h:297-328 | each party opens the parity of its S and the peer's as it arrived, folds it into region 2, and feeds F_eq exactly its L-vector, whichever bits were flipped on the way |
| `TriplePools.LeakyAndHalfGate` | emp-ag2pc/backend/triple_pool.h:236-332 | one leaky-AND layer at both parties: what is opened, folded in and fed to F_eq is exactly that of the layer's shares under the next L tweaks |
| `TriplePools.TraceGrows` | emp-ag2pc/backend/triple_pool.h:231-276 | the tweaks of one more layer, padding to eight included, are all new and leave the next tweak new |
| `Buckets.SrcRotates` | emp-ag2pc/backend/triple_pool.h:334-348 | the split reindexing is the rotation (i + r) mod L |
| `TriplePools.AbsorbLayer` | emp-ag2pc/backend/triple_pool.h:345-354 | the first loop of a bucket fold XORs the reindexed a and c regions in place and computes this party's b-difference bits from the untouched b region |
| `TriplePools.CorrectLayer` | emp-ag2pc/backend/triple_pool.h:364-369 | the second loop adds the reindexed a region to c wherever the opened b-difference is set |
| `Buckets.FoldKeepsProduct` | emp-ag2pc/backend/triple_pool.h:345-369 | c ^ c' ^ (b ^ b')a' = (a ^ a')b on authenticated shares |
| `TriplePools.BucketOneLayer` | emp-ag2pc/backend/triple_pool.h:334-373 | one bucket fold at both parties: a and c absorb the layer rotated by the shift, c takes the layer's a wherever the opened b-difference is set, b stays |
| `Buckets.FoldIsProducts` | emp-ag2pc/backend/triple_pool.h:334-373 | folding a layer of authenticated ANDs into another, at any shift, gives a layer of authenticated ANDs |
| `TriplePools.FeqReceiver` | emp-ag2pc/backend/helper.h:134-146 | whatever is opened to it, the second party accepts only the digest committed to before it sent its own |
| `TriplePools.FeqCheck` | emp-ag2pc/backend/helper.h:118-147 | commit, reply, open: party 1 compares the reply, party 2 the committed digest, and both accept if and only if the two digests agree |
| `TriplePools.SacrificeLayer` | emp-ag2pc/backend/triple_pool.h:396-404 | one sacrifice: the next 3L shares of the COT session are minted, leaky-ANDed under the next tweaks, fed to F_eq, and folded into the accumulator at that layer's coin mod L |
| `TriplePools.LayeredBucketIntoAcc` | emp-ag2pc/backend/triple_pool.h:375-406 | B - 1 sacrifices leave exactly the accumulator, F_eq feeds, COT position and tweaks of the call after B layers |
| `Buckets.Call.AccAbsorbsA` | emp-ag2pc/backend/triple_pool.h:345-354 | region a of the accumulator is the gate's own operand, with the share (i + coin mod L) mod L of each sacrifice layer XORed in |
| `Buckets.Call.AccKeepsB` | emp-ag2pc/backend/triple_pool.h:334-373 | region b of the accumulator is the gates' own operand b throughout |
| `Buckets.Call.AccIsProducts` | emp-ag2pc/backend/triple_pool.h:375-406 | after any number of untouched layers the accumulator is a layer of authenticated ANDs |
| `Buckets.Call.FeqIsExact` | emp-ag2pc/backend/triple_pool.h:307-328 | after any number of layers both parties fed F_eq the same if and only if every parity bit of every layer reached both of them as it was sent |
| `Buckets.Call.SigmasHideProducts` | emp-ag2pc/backend/triple_pool.h:461-501 | the sigma shares of an untouched call are correlated and hide the product of each gate's operands |
| `TriplePools.BeaverOpenings` | emp-ag2pc/backend/triple_pool.h:461-472 | the b-side openings are identically 0; the a-side bits are those of a ^ X |
| `Buckets.SigmaHidesProduct` | emp-ag2pc/backend/triple_pool.h:486-501 | the reconciled sigma of opened xb, yb keeps the MAC relation and hides (X ^ xb)(Y ^ yb) |
| `TriplePools.Reconcile` | emp-ag2pc/backend/triple_pool.h:486-501 | the reconciliation loop computes sigma at every index |
| `TriplePools.RepresentativeLayer` | emp-ag2pc/backend/triple_pool.h:434-444 | layer 0 is the leaky AND of each gate's own operand shares with the next L shares of the COT session as r |
| `TriplePools.BuildTriples` | emp-ag2pc/backend/triple_pool.h:422-459 | the layers of one call leave exactly its accumulator; the batched F_eq check passes if and only if no opened parity bit of any layer was flipped; the four tweak states end in step, their traces record one tweak for each candidate of each layer, and no tweak twice |
| `TriplePools.ComputeInplace` | emp-ag2pc/backend/triple_pool.h:408-501 | for every num_ands, hash, coins, correlated operand shares and flips of opened bits, the F_eq check passes if and only if nothing was flipped, and then the call ends in exactly its sigma shares, correlated and hiding lambda_a AND lambda_b at every index; it mints (3B - 2) num_ands COTs with B the least sufficient bucket, or none when num_ands is 0; the four tweak states end in step, having recorded one tweak for each of the B num_ands candidates hashed, no two alike |
| `TriplePools.TriplePool.GenCotShares` | emp-ag2pc/backend/triple_pool.h:146-166 | fills exactly the requested span with the session's next shares and marks the session unchecked |
| `TriplePools.TriplePool.MaybeFlushCotCheck` | emp-ag2pc/backend/triple_pool.h:176-188 | afterwards nothing is minted since the last check |
| `BucketSizes.GetBucketSize` | emp-ag2pc/backend/triple_pool.h:204-214 | terminates with the least B >= 2 such that max(size, 1024)^(B - 1) > 2^ssp, and B <= ssp/10 + 2 |
| `BucketSizes.BoundSuffices` | emp-ag2pc/backend/triple_pool.h:204-214 | a bucket of ssp/10 + 2 meets the bound for every size |
| `BucketSizes.BucketNeverGrows` | emp-ag2pc/backend/triple_pool.h:204-214 | a larger call never needs a larger bucket |
| `Circuits.RequireRecordCanonical` | emp-ag2pc/backend/canonical.h:14-25 | accepts a program if and only if it is canonical: gate i drives num_inputs + i, operands come earlier, at most one gate of each constant, outputs in range |
| `Circuits.CountsDecideUniqueness` | emp-ag2pc/backend/canonical.h:16-24 | the two constant counters are at most 1 if and only if no constant is emitted twice |
| `Recordings.RecordIsCanonical` | emp-ag2pc/session/ag2pc_ctx.h:28-40 | recording any body with constant dedup gives a canonical stream, and the two caches are right after every call |
| `Recordings.RecordKeepsMeaning` | emp-ag2pc/session/ag2pc_ctx.h:28-40 | every value of a body, repeated constants included, is computed by the wire the recording gave it |
| `Recordings.CanonicalReplaysAsItself` | emp-ag2pc/backend/engine.h:225-240 | on a canonical program a context's wire counter equals the program's wire id at every gate, so the scratch map is the identity |
| `Recordings.RecordingIsIdempotent` | emp-ag2pc/backend/engine.h:58-105 | recording a recording changes nothing |
| `Engines.RecordingReplaysItself` | emp-ag2pc/backend/engine.h:217-241 | replaying the recording of a body gives the gate stream and the output wires of the live body |
| `Engines.AcceptedIffRecorded` | emp-ag2pc/backend/canonical.h:14-25 | a stored program is accepted if and only if it is the recording of some body, whatever wires the body outputs |
| `Replays.PrepareBothWays` | emp-ag2pc/backend/engine.h:217-241 | driving liveness and the slot/mask pass over a body and over its recording, from equal inputs and masks, gives equal last uses, pins, slot maps, slot counts, operand shares, and equal live cells |
| `Replays.GarbleBothWays` | emp-ag2pc/backend/engine.h:217-241 | the garbler's path over a body and over its recording, from equal inputs, masks, sigma shares and hash, puts the same items on the wire and leaves equal slot maps and live shares, labels and masks |
| `Replays.CheckBothWays` | emp-ag2pc/backend/engine.h:247-257 | the garbler's c_gamma re-check over a body and over its recording, from the same received AND masks, gives the same witnesses to compare, the same slot map, and equal live shares and re-propagated masks |
| `Replays.EvaluateBothWays` | emp-ag2pc/backend/engine.h:217-241 | the same for the evaluator's path over one received stream, AND masks and witnesses included |
| `LivenessPasses.LivenessPass.Emit` | emp-ag2pc/backend/pass_ctx.h:47-52 | a fresh wire is appended unread; counters and pins follow the gate stream so far |
| `LivenessPasses.LivenessPass.AndGate` | emp-ag2pc/backend/pass_ctx.h:59-63 | keeps last_use equal to the last reading gate of every wire, and persist to inputs and AND outputs |
| `LivenessPasses.LivenessPass.PublicBit` | emp-ag2pc/backend/pass_ctx.h:54-58 | a repeated constant reuses its wire, a first one is emitted; liveness stays exact |
| `LivenessPasses.LivenessPass.Commit` | emp-ag2pc/backend/pass_ctx.h:75-83 | a committed wire is pinned if and only if it is an input, an AND output or an output of the circuit; its last use is the gate that reads it last, and -1 if none does |
| `LivenessPasses.LivenessPass.Run` | emp-ag2pc/backend/pass_ctx.h:32-84 | driving the pass over any body yields exactly the recorded stream and its value-to-wire map |
| `Allocators.GateStepIsSound` | emp-ag2pc/backend/pass_ctx.h:125-142 | allocating a gate's output and freeing operands at their last read keeps the allocation sound: a slot changes hands only after its last reader |
| `Allocators.AllocationIsSound` | emp-ag2pc/backend/pass_ctx.h:125-195 | after any prefix of any ordered stream, two wires share a slot only when the earlier is recyclable and never read again; inputs, AND outputs and pinned outputs are never displaced |
| `Allocators.FootprintIsExact` | emp-ag2pc/backend/pass_ctx.h:125-142 | num_slots = inputs + the gate outputs that are AND outputs or outputs of the circuit + the peak number of other gate outputs that hold a slot at once, one that was read for the last time holding none |
| `Allocators.LastReadFrees` | emp-ag2pc/backend/pass_ctx.h:139-142 | after its last read, the slot of a wire that is no input, AND output or circuit output is free for reuse |
| `RunStates.LastUseIsLastRead` | emp-ag2pc/backend/pass_ctx.h:47-73 | a wire's last use is the gate that reads it last, and -1 if none does |
| `RunStates.OperandIsCurrent` | emp-ag2pc/backend/pass_ctx.h:139-195 | when a gate reads an operand, no later wire has taken its slot |
| `RunStates.PersistentIsAlone` | emp-ag2pc/backend/pass_ctx.h:125-142 | a persistent wire's slot is its own to the end |
| `RunStates.WriteHolds` | emp-ag2pc/backend/pass_ctx.h:125-195 | writing a wire into its slot keeps every wire that still owns its slot readable |
| `SlotMaskPasses.SlotMaskPass.AllocSlot` | emp-ag2pc/backend/pass_ctx.h:125-138 | takes the last recycled slot for a recyclable wire if there is one, else a fresh slot at the end of both arrays |
| `SlotMaskPasses.SlotMaskPass.FreeIfDead` | emp-ag2pc/backend/pass_ctx.h:139-142 | recycles the slot exactly when the gate is the wire's last reader and the wire is not pinned |
| `SlotMaskPasses.SlotMaskPass.NextLambdaGamma` | emp-ag2pc/backend/pass_ctx.h:116-123 | hands out the COT session's masks one by one, in order, drawing whole batches |
| `SlotMaskPasses.SlotMaskPass.AndGate` | emp-ag2pc/backend/pass_ctx.h:155-170 | keeps the pass equal to one private cell per wire: operand shares read from recycled slots are the operands' own, repA and repB collect them, the output gets the next mask |
| `SlotMaskPasses.SlotMaskPass.XorGate` | emp-ag2pc/backend/pass_ctx.h:171-185 | the same for XOR, whose share is the XOR of the operands' shares |
| `SlotMaskPasses.SlotMaskPass.NotGate` | emp-ag2pc/backend/pass_ctx.h:186-195 | the same for NOT |
| `SlotMaskPasses.SlotMaskPass.PublicBit` | emp-ag2pc/backend/pass_ctx.h:144-154 | the same for a first constant; a repeated one changes nothing |
| `SlotMaskPasses.SlotMaskPass.Run` | emp-ag2pc/backend/pass_ctx.h:91-204 | driven over any body that records to the planned stream, the pass ends with every wire placed |
| `SlotMaskPasses.SlotMaskPass.Finished` | emp-ag2pc/backend/pass_ctx.h:91-204 | at the end the slots hold every live wire's share and initial mask, repA and repB are the operand shares of the ANDs in order, and the footprint is exact |
| `GarblePasses.GarblePass.AndGate` | emp-ag2pc/backend/pass_ctx.h:287-327 | the label and the staged entry of AND i are the reference's, read through recycled slots, under tweak i |
| `GarblePasses.GarblePass.GarbleAnd` | emp-ag2pc/backend/pass_ctx.h:291-320 | computes the output label, the two ciphertexts and the parity bit of one AND |
| `GarblePasses.GarblePass.Stage` | emp-ag2pc/backend/pass_ctx.h:318-325 | a staged entry goes after the ones before it; a full chunk is published and filling goes on in the other slot |
| `GarblePasses.GarblePass.Publish` | emp-ag2pc/backend/pass_ctx.h:238-246 | what the sender writes for a chunk is its ciphertexts and then its parity bits |
| `GarblePasses.GarblePass.End` | emp-ag2pc/backend/pass_ctx.h:250-254 | after the end, everything on the wire is the framing of all entries, the last chunk included and no empty one |
| `GarblePasses.GarblePass.Run` | emp-ag2pc/backend/pass_ctx.h:217-328 | driven over any body that records to the planned stream, the pass reaches its end |
| `GarblePasses.GarblePass.Finished` | emp-ag2pc/backend/pass_ctx.h:217-328 | at the end every wire that owns its slot has its own share and zero label there |
| `Framing.FrameAt` | emp-ag2pc/backend/pass_ctx.h:356-368 | the part of the stream at a chunk boundary is the framing of that chunk |
| `Framing.FramedGrows` | emp-ag2pc/backend/pass_ctx.h:238-254 | shipping one more chunk after full ones appends its framing |
| `Framing.FrameReadsBack` | emp-ag2pc/backend/pass_ctx.h:318-320 | entry i read back from a chunk is what was framed as entry i |
| `EvaluatePasses.EvaluatePass.Receive` | emp-ag2pc/backend/pass_ctx.h:356-368 | the receiver's own chunk size is the sender's, and the slot it fills holds the entries sent there |
| `EvaluatePasses.EvaluatePass.NextEntry` | emp-ag2pc/backend/pass_ctx.h:409-416 | the entry AND i consumes is entry i of the stream, across chunk boundaries |
| `EvaluatePasses.EvaluatePass.EvaluateAnd` | emp-ag2pc/backend/pass_ctx.h:417-439 | computes the evaluator's label and the recovered mask b ^ LSB1(t) |
| `EvaluatePasses.EvaluatePass.AndGate` | emp-ag2pc/backend/pass_ctx.h:409-457 | label, recovered mask and c_gamma witness of AND i are the reference's, read through recycled slots |
| `EvaluatePasses.EvaluatePass.XorGate` | emp-ag2pc/backend/pass_ctx.h:387-398 | the same for XOR |
| `EvaluatePasses.EvaluatePass.Run` | emp-ag2pc/backend/pass_ctx.h:334-458 | driven over any body that records to the planned stream, the pass reaches its end |
| `EvaluatePasses.EvaluatePass.Finished` | emp-ag2pc/backend/pass_ctx.h:334-458 | at the end every wire that owns its slot has its own share, label and mask there, and the AND masks and witnesses are recorded in order |
| `GammaCheckPasses.GammaCheckPass.AndGate` | emp-ag2pc/backend/pass_ctx.h:501-511 | the mask received for AND i and the garbler's witness are the reference's, read through recycled slots |
| `GammaCheckPasses.GammaCheckPass.Finished` | emp-ag2pc/backend/pass_ctx.h:464-512 | at the end every wire that owns its slot has its re-propagated mask there, and the witnesses are recorded in order |
| `HalfGates.AndIsCorrect` | emp-ag2pc/backend/pass_ctx.h:287-439 | one honestly garbled AND: the recovered mask is (La ^ la)(Lb ^ lb) ^ lg and the evaluated label is label0 ^ Lambda Delta_1 |
| `HalfGates.EvaluationIsCorrect` | emp-ag2pc/backend/pass_ctx.h:217-458 | for every canonical circuit, at every wire the evaluator holds label0 ^ Lambda Delta_1 and Lambda is the plaintext value blinded by the wire's secret mask |
| `GammaChecks.WitnessesAgreeIff` | emp-ag2pc/backend/pass_ctx.h:441-454 | one AND, the garbler's operand masks La', Lb' and the evaluator's La, Lb arbitrary: the two c_gamma witnesses agree if and only if (La ^ La') MAC_b ^ (Lb ^ Lb') MAC_a equals Delta_2 times the recovered mask being wrong |
| `GammaChecks.CheckPassesIff` | emp-ag2pc/backend/engine.h:247-274 | for arbitrary received ciphertexts and arbitrary opened input masks at either party, the two witness vectors agree if and only if at every AND what the mask differences select from the garbler's MACs is what a wrong recovered mask adds |
| `GammaChecks.HonestCheckPassesIff` | emp-ag2pc/backend/engine.h:247-274 | over honestly garbled entries and arbitrary opened input masks, the check passes if and only if no AND is disturbed by the differences between the parties' input masks |
| `MaskOffsets.DisturbedIff` | emp-ag2pc/backend/pass_ctx.h:501-511 | an AND with a difference at one operand passes if and only if the garbler's MAC of the other operand is zero; with differences at both, if and only if the two MACs are equal; with none, always |
| `MaskOffsets.SafeArgumentsDoNotDisturb` | emp-ag2pc/backend/pass_ctx.h:464-512 | no AND is disturbed when every argument is one the parties agree on or one that reaches no AND through XOR and NOT gates |
| `MaskOffsets.AgreedOutputOff` | emp-ag2pc/backend/engine.h:249-257 | after a run over agreed inputs the masks of an output differ if and only if the run has no AND, the output is neither input nor constant, and the circuit gives 1 there on the input masks |
| `GammaChecks.GammaCheckIsExact` | emp-ag2pc/backend/engine.h:247-274 | when the parties agree on the opened input masks: for arbitrary received ciphertexts and parity bits, the two witness vectors agree if and only if every recovered AND mask is right |
| `GammaChecks.RightMasksDecode` | emp-ag2pc/backend/engine.h:247-274 | whatever ciphertexts arrived, if every recovered AND mask is right then every wire's opened mask at the evaluator is its plaintext value blinded by its secret mask |
| `GammaChecks.PassedCheckDecodes` | emp-ag2pc/backend/engine.h:247-274 | when the parties agree on the opened input masks and the check passes, every wire's mask at both parties is its plaintext value blinded by its secret mask |
| `GammaChecks.HonestRunPassesCheck` | emp-ag2pc/backend/engine.h:247-274 | an honest run passes the check when the parties agree on the opened input masks |
| `GammaChecks.CheckerMaskOff` | emp-ag2pc/backend/pass_ctx.h:464-512 | whatever ciphertexts were received, the garbler's re-propagated mask of a wire differs from the evaluator's exactly when a difference between the input masks reaches the wire through XOR and NOT gates |
| `GammaChecks.CheckerSeesSameMasks` | emp-ag2pc/backend/pass_ctx.h:464-512 | when the parties agree on the opened input masks, the garbler's re-propagation gives the evaluator's mask at every wire, whatever ciphertexts were received |
| `HalfGates.SharesArePaired` | emp-ag2pc/backend/pass_ctx.h:144-195 | the two parties' shares of every wire stay correlated |
| `Engines.Prepare` | emp-ag2pc/backend/engine.h:121-168 | liveness, input load and slot assignment at one party leave every wire's share, the initial masks and the operand shares in place, with an exact footprint |
| `Engines.MakeTriples` | emp-ag2pc/backend/engine.h:170-182 | the sigma shares are those of the bucketed call over each AND's operand shares; they hide the product of its operand masks, so the two parties' runs are joint |
| `Engines.GarblerPhase` | emp-ag2pc/backend/engine.h:247-248 | the garbler's pass ships exactly the framing of all entries |
| `Engines.EvaluatorPhase` | emp-ag2pc/backend/engine.h:262-264 | the evaluator's pass over whatever stream arrived ends with its labels, masks and witnesses |
| `Engines.OpenMasks` | emp-ag2pc/backend/engine.h:243-274 | whatever ciphertexts the evaluator received, the c_gamma exchange, which runs only when there is an AND, passes if and only if the witnesses fit at every AND, and the garbler's masks then differ from the evaluator's exactly at the wires OutputOff names |
| `Engines.GatherSlots` | emp-ag2pc/backend/engine.h:194-206 | gathering by slot finds each output's own state |
| `Engines.OutputsEncode` | emp-ag2pc/backend/engine.h:194-206 | the two gathered bundles are well formed and stand for the plaintext outputs |
| `Engines.CheckAndGather` | emp-ag2pc/backend/engine.h:184-211 | whatever ciphertexts were received: the run fails exactly when the witnesses do not fit, and otherwise each party gathers its outputs' own shares, labels and masks, with the COT check run at both |
| `Engines.RunReceived` | emp-ag2pc/backend/engine.h:121-211 | a run over agreed input masks in which arbitrary ciphertexts and parity bits arrive in place of those garbled: it succeeds if and only if every recovered AND mask is right, and then shares and masks of the outputs stand for the plaintext outputs; masks and sigma shares are those the COT session and the bucketing give |
| `TamperedRuns.RunReceivedAndDecode` | emp-ag2pc/backend/engine.h:121-211 | over agreed input masks, any received ciphertexts, and any flips of the opened bits: the run aborts exactly when some recovered AND mask is wrong, the opening is refused exactly when a bit was flipped, and otherwise BOB and the public read the plaintext outputs; nothing sent makes them read a wrong bit |
| `Engines.RunSource` | emp-ag2pc/backend/engine.h:121-211 | from well-formed inputs a run fails its check if and only if an AND is disturbed by the differences between the parties' input masks, never when they agree; otherwise it leaves well-formed bundles for the plaintext outputs, whose opened masks differ exactly where OutputOff says: from agreed inputs nowhere if there is an AND or every output is an input or a constant, and without an AND exactly at the other outputs the circuit does not send to 0; the count of ANDs is exact and nothing is left unchecked in the COT session; the outputs carry the run's own shares and labels, over masks fresh from the COT session |
| `Engines.SafeArgumentsPass` | emp-ag2pc/backend/engine.h:243-274 | a run whose every argument the parties agree on, or that reaches no AND through XOR and NOT gates, passes its check whatever the shares |
| `Engines.RunProgram` | emp-ag2pc/backend/engine.h:217-241 | a stored program is refused if and only if it is not canonical or the bundles have the wrong shape or width, and then the COT check has not run; otherwise it fails its check if and only if an AND is disturbed, and else ends as RunSource does, with nothing left unchecked at either party |
| `AndFreeRuns.EvaluatorMaskIsLinear` | emp-ag2pc/backend/pass_ctx.h:387-408 | without ANDs the evaluator's masks are the circuit applied to the input masks |
| `AndFreeRuns.MasksAgreeIff` | emp-ag2pc/backend/engine.h:249-257 | in an AND-free run over agreed input masks, the parties agree on an output's mask if and only if it is an input or a constant, or the circuit sends those masks to 0 there |
| `AndFreeRuns.PlainIsAffine` | emp-ag2pc/backend/pass_ctx.h:387-408 | without ANDs every wire is an affine function of the input masks |
| `AndFreeRuns.AlwaysZeroIff` | emp-ag2pc/backend/engine.h:249-257 | an AND-free circuit gives 0 at a wire for all input masks if and only if it gives 0 there on the zero vector and on each of the n unit vectors |
| `AndFreeRuns.AlwaysAgreeIff` | emp-ag2pc/backend/engine.h:249-257 | the parties agree on an output of an AND-free run for all input masks if and only if it is an input, a constant, or a linear gate that gives 0 on the zero vector and on each unit vector |
| `AndFreeRuns.NotAloneDisagrees` | emp-ag2pc/backend/engine.h:249-257 | a lone NOT of an input with opened mask 0 leaves the garbler with mask 0 and the evaluator with mask 1 |
| `AliceReads.RunAndDecode` | emp-ag2pc/backend/engine.h:249-257 | after an AND-free run over agreed inputs ALICE decodes the plaintext outputs if and only if every output is an input or a constant, or a linear gate that sends the opened input masks to 0 |
| `AliceReads.DecodeLoneNot` | emp-ag2pc/backend/engine.h:249-257 | after a lone NOT, ALICE reads the right value if and only if the input's opened mask is 1 |
| `ChunkPipes.ChunkPipe.ProducerSlot` | emp-ag2pc/backend/helper.h:62-66 | hands out the slot after the queue, never the one being drained |
| `ChunkPipes.ChunkPipe.Fill` | emp-ag2pc/backend/helper.h:62-73 | writing the slot being filled touches neither the queue nor the slot being drained |
| `ChunkPipes.ChunkPipe.Publish` | emp-ag2pc/backend/helper.h:67-73 | the filled slot's contents join the queue at its end |
| `ChunkPipes.ChunkPipe.Close` | emp-ag2pc/backend/helper.h:74-80 | closing changes nothing in the queue; a slot taken but not published is given up |
| `ChunkPipes.ChunkPipe.ConsumerSlot` | emp-ag2pc/backend/helper.h:82-87 | gives the oldest chunk's slot, and null exactly when everything published was released and the pipe is closed |
| `ChunkPipes.ChunkPipe.Release` | emp-ag2pc/backend/helper.h:88-95 | the oldest chunk leaves the queue; the slot being filled keeps its index and contents |
| `ChunkPipes.FillingIsApart` | emp-ag2pc/backend/helper.h:62-66 | the slot after the queue is none of the queue's slots |
| `ChunkPipes.InFlightShifts` | emp-ag2pc/backend/helper.h:88-95 | moving the head on keeps the rest of the queue in place and the free slot where it was |
| `ChunkPipes.Interleave` | emp-ag2pc/backend/helper.h:39-104 | under every schedule of the two threads the consumer holds a prefix of the items, in order, and all of them once told the pipe is drained |
| `Streams.FillKeeps` | emp-ag2pc/backend/pass_ctx.h:318-325 | a staging buffer is never overrun, and what is published is cut at batch boundaries |
| `Streams.SendKeeps` | emp-ag2pc/backend/pass_ctx.h:238-246 | a step of the sender puts the next part of the framed stream on the wire |
| `Streams.ReceiveFlags` | emp-ag2pc/backend/pass_ctx.h:356-368 | the receiver publishes the chunk the garbler published: sizes match on both ends and the bytes are that chunk's |
| `Streams.EvaluatorKeeps` | emp-ag2pc/backend/pass_ctx.h:412-416 | the evaluator reads entry i for AND i and never meets a drained pipe |
| `Streams.StepKeeps` | emp-ag2pc/backend/pass_ctx.h:222-416 | every step of every thread is safe and keeps the joint invariant of garbler, sender, receiver and evaluator |
| `Streams.SomeoneMoves` | emp-ag2pc/backend/pass_ctx.h:222-416 | no deadlock: until all four threads have ended, one can move |
| `Streams.StepDecreases` | emp-ag2pc/backend/pass_ctx.h:222-416 | every step of every thread lowers a bound on the steps left |
| `Streams.RunThreads` | emp-ag2pc/backend/pass_ctx.h:222-416 | under any scheduler, for any number of entries, all four threads end and the evaluator has read exactly the garbler's entries in order |
| `SequentialRuns.SendersFirst` | emp-ag2pc/backend/pass_ctx.h:222-254 | garbler and sender alone can run to their ends, and then the wire holds the framing of all entries and nothing was read |
| `SequentialRuns.PassesAreASchedule` | emp-ag2pc/backend/pass_ctx.h:222-416 | the garbler's pass followed by the evaluator's pass is one schedule of the four threads: what the first ships is the wire after its senders-first part, and the second is run over the entries the rest of it delivers |
| `FlushPlans.MarkNeeded` | emp-ag2pc/backend/flush_plan.h:44-61 | the work list terminates and marks exactly the backward closure of the kept wires |
| `FlushPlans.NoteInput` | emp-ag2pc/backend/flush_plan.h:63-72 | an operand from outside the chunk becomes the next program input once, if it is materialized, and otherwise the plan fails |
| `FlushPlans.DiscoverInputs` | emp-ag2pc/backend/flush_plan.h:63-78 | the inputs found are exactly the materialized wires that marked gates read from outside, once each and in the order they are first read; ok says none is missing |
| `FlushPlans.Compact` | emp-ag2pc/backend/flush_plan.h:80-93 | renumbering in emission order renames each needed gate, operands included |
| `FlushPlans.CollectOutputs` | emp-ag2pc/backend/flush_plan.h:95-103 | outputs are the kept local wires, once each, in keep order, under their new names |
| `FlushPlans.PlanFlush` | emp-ag2pc/backend/flush_plan.h:34-105 | ok if and only if every wire a needed gate reads from outside is materialized; inputs are exactly those wires, once each, in the order the needed gates first read them, and outputs the kept local wires, once each, in keep order; a successful plan renames exactly the needed gates |
| `FlushPlans.FirstSeenIsOrdered` | emp-ag2pc/backend/flush_plan.h:63-103 | the order of inputs and outputs: exactly the members of the list read, once each, any two of them in the order in which the list shows them first |
| `FlushPlans.PlanIsCanonical` | emp-ag2pc/backend/flush_plan.h:80-93 | every successful plan is a canonical program |
| `FlushPlans.PlanKeepsMeaning` | emp-ag2pc/backend/flush_plan.h:34-105 | for every chunk, keep list and values of earlier wires, the compacted program on the input ids gives at each output what running the whole chunk gives to that output id |
| `Cones.ConesAreRight` | emp-ag2pc/backend/flush_plan.h:44-78 | what a recorded wire depends on, computed forward gate by gate, is what the planner's backward closure finds: the same outside reads and the same ANDs |
| `Cones.OutsideReads` | emp-ag2pc/backend/flush_plan.h:63-78 | the wires a flush needs from outside the chunk are the union of what its kept wires depend on |
| `Cones.TravelsByCones` | emp-ag2pc/backend/engine.h:249-257 | a flush keeps opened masks right if and only if an AND lies below some kept wire or all of them are constants |
| `FlushPlans.RunningExplains` | emp-ag2pc/session/ag2pc_ctx.h:70-78 | running a chunk in order over any earlier values gives every gate's output its gate's value and leaves earlier wires alone |
| `Flushes.FlushTravelsIff` | emp-ag2pc/backend/engine.h:249-257 | the side condition of a flush's run can be read off the chunk: some needed gate is an AND, or every kept wire of the chunk is a constant |
| `Flushes.FlushOutputs` | emp-ag2pc/session/ag2pc_session.h:386-398 | the engine's outputs of a plan are the values of its output ids |
| `Flushes.PlanAnds` | emp-ag2pc/session/ag2pc_session.h:72-73 | a plan's program has exactly the ANDs that the kept wires need, dead code excluded |
| `FlushMasks.PlanKeepsOffsets` | emp-ag2pc/backend/flush_plan.h:80-93 | each wire of the compacted program carries the mask difference of the recorder id it renames |
| `FlushMasks.PlanKeepsShares` | emp-ag2pc/backend/flush_plan.h:80-93 | each wire of the compacted program carries the garbler's share of the recorder id it renames, the needed ANDs taking the fresh masks in order |
| `FlushMasks.FlushPassesIff` | emp-ag2pc/session/ag2pc_session.h:386-398 | the check of a flush's run passes if and only if no needed AND of the chunk is disturbed by the differences between the carried masks |
| `FlushMasks.FlushOutputsOff` | emp-ag2pc/session/ag2pc_session.h:386-400 | after a flush the masks of a kept wire differ if and only if a needed AND exists and a difference reached the wire, or none exists and the wire is no constant and the chunk gives 1 there on the evaluator's masks |
| `FlushMasks.AgreedFlush` | emp-ag2pc/session/ag2pc_session.h:386-400 | a flush whose needed gates read only agreed wires passes its check, and leaves its kept wires agreed if a needed gate is an AND or all of them are constants |
| `Protocols.OpeningIsExact` | emp-ag2pc/backend/protocol.h:204-257 | with an injective digest, a claimed share vector passes the peer's check if and only if it is the sender's, in both directions |
| `Protocols.Protocol.BeginInputs` | emp-ag2pc/backend/protocol.h:150-159 | counts the call, then accepts a request if and only if the counts match and every owner is ALICE or BOB |
| `Protocols.Protocol.Layout` | emp-ag2pc/backend/protocol.h:160-199 | owners and own bits are laid end to end, own bits only where this party owns |
| `Protocols.Protocol.Pack` | emp-ag2pc/backend/protocol.h:222-227 | packs exactly the owned bits in order and lists exactly the other party's wires |
| `Protocols.Protocol.OpenMasks` | emp-ag2pc/backend/protocol.h:259-265 | the opened masks fold both share bits, own bits, and the peer's bits at the peer's wires only |
| `Protocols.ScatterCompletes` | emp-ag2pc/backend/protocol.h:220-265 | scattering the peer's packed bits completes every mask at the right index |
| `Protocols.AuthenticateWires` | emp-ag2pc/backend/protocol.h:172-276 | one draw, one opening and one label message give both parties well-formed wires for the owners' bits and the same masks, over the next shares of the COT session and the garbler's labels; the phase aborts exactly when an opened mask bit was flipped on the way to either party |
| `Protocols.ProcessInputs` | emp-ag2pc/backend/protocol.h:146-287 | for any owners and bits, each returned bundle is well formed for its owner's bits, the parties agree on its masks, and it holds the next shares of the COT session and the next labels of the garbler, in order; a bad request is refused before any draw, and the phase aborts exactly when an opened mask bit was flipped on the way; the call counter goes up by one; one COT is drawn per wire, and the parties are left with unchecked COTs exactly if they had some before or a wire was drawn |
| `Protocols.PublicWiresEncode` | emp-ag2pc/backend/protocol.h:122-139 | public wires are well formed, agreed and stand for the public bits with no interaction |
| `Protocols.Decode` | emp-ag2pc/backend/protocol.h:289-353 | opening wires whose shares and masks stand for a value is refused exactly when a share bit was flipped on the way; otherwise BOB and the public get the value, ALICE the value off by the disagreement of the masks, nobody else a bit; malformed bundles are refused |
| `Protocols.AliceDecodes` | emp-ag2pc/backend/protocol.h:346-349 | what ALICE decodes is the value if and only if the parties agree on the masks |
| `Protocols.InputRoundTrip` | emp-ag2pc/backend/protocol.h:146-353 | for any list of owners, any slice of any of the returned bundles decodes to its owner's bits at every recipient, and to nothing elsewhere |
| `SecureWireBundles.EncodeSlices` | emp-ag2pc/backend/secure_wires.h:38-50 | a slice of well-formed bundles is well formed for the slice of the values |
| `SecureWireBundles.EncodeAppends` | emp-ag2pc/backend/engine.h:39-50 | appending well-formed bundles appends their values |
| `Recorders.Recorder.AllocId` | emp-ag2pc/session/ag2pc_ctx.h:63-66 | ids are consecutive and never restart; at UINT32_MAX the call errors and nothing changes |
| `Recorders.Recorder.PublicBit` | emp-ag2pc/session/ag2pc_ctx.h:28-37 | each constant is recorded once per chunk and then reused |
| `Recorders.Recorder.BinaryGate` | emp-ag2pc/session/ag2pc_ctx.h:38-39 | an operand that was never allocated is refused; otherwise exactly one gate over the next id is appended |
| `Recorders.Recorder.NotGate` | emp-ag2pc/session/ag2pc_ctx.h:40 | the same for NOT |
| `Recorders.Recorder.ReserveIds` | emp-ag2pc/session/ag2pc_ctx.h:44-48 | consecutive fresh ids that are not pending, or an overflow error exactly when they run out |
| `Recorders.Recorder.DropChunk` | emp-ag2pc/session/ag2pc_ctx.h:51-55 | empties chunk, pending set and constant caches |
| `Recorders.RecordingKeepsOk` | emp-ag2pc/session/ag2pc_ctx.h:57-78 | recording a gate keeps the chunk ordered, the pending set exact and the caches right |
| `CarriedStates.StatesPartition` | emp-ag2pc/session/ag2pc_session.h:26-30 | in every reachable state the allocated ids split into pending, carried, waiting and stale, and the chunk drives increasing ids from earlier operands |
| `CarriedStates.Gather` | emp-ag2pc/session/ag2pc_session.h:316-331 | fails exactly when some wire has no carried state, and otherwise gathers the wires in caller order |
| `CarriedStates.Load` | emp-ag2pc/session/ag2pc_session.h:302-308 | stores the bundle under the ids and leaves all other carried state alone |
| `CarriedStates.GatheredEncodes` | emp-ag2pc/session/ag2pc_session.h:316-331 | carried wires gathered at both parties are well formed for the wires' values |
| `CarriedStates.LoadingIsOk` | emp-ag2pc/session/ag2pc_session.h:302-314 | materializing well-formed wires keeps the session state consistent |
| `CarriedStates.RecordingIsOk` | emp-ag2pc/session/ag2pc_session.h:3-9 | recording a gate keeps the session state consistent, the output's value being the gate's |
| `Sessions.Session.Authenticate` | emp-ag2pc/session/ag2pc_session.h:252-260 | owner ALICE, BOB or PUBLIC gets well-formed agreed wires for the owner's bits; any other owner errors |
| `Sessions.Session.Input` | emp-ag2pc/session/ag2pc_session.h:84-93 | fresh consecutive ids are carried with the owner's bits as values, over the next shares of the COT session and the next labels unless the owner is public; nothing becomes stale or revives; one input phase is counted unless the owner is public; everything minted is checked afterwards if and only if it was before and no bit of ALICE or BOB was shared; ids overflow exactly when they run out |
| `Sessions.Session.Materialize` | emp-ag2pc/session/ag2pc_session.h:309-314 | fresh ids for a bundle carry its values; overflow is the only failure |
| `Sessions.Session.MaterializeInto` | emp-ag2pc/session/ag2pc_session.h:302-308 | stores under reserved ids and takes exactly those off the waiting list; a width mismatch errors |
| `Sessions.Session.Flush` | emp-ag2pc/session/ag2pc_session.h:372-401 | errors as stale exactly when a kept wire or a wire read by a needed gate no longer exists, and fails its check exactly when the differences between the carried masks disturb a needed AND, and then nothing has changed; otherwise the chunk is gone, exactly the kept pending wires joined the carried ones, their masks differ exactly where the chunk says, the AND count grows by exactly the needed ANDs, and everything minted is checked if and only if it was before or a kept wire was pending |
| `Sessions.Session.Reveal` | emp-ag2pc/session/ag2pc_session.h:142-161 | BOB and the public learn the plaintext values of the wires, ALICE those values flipped exactly at the wires whose opened masks differ at the two parties, others nothing; errors exactly on a bad recipient, a stale wire or a disturbed AND; the COT check covers the opened wires if and only if something revealed or kept was pending or nothing minted was unchecked before |
| `RawReveals.RevealRawInput` | emp-ag2pc/session/ag2pc_session.h:142-161 | the smallest reveal the COT check does not cover: share at least one bit of ALICE's and open it at once; nothing fails, and both parties still hold unchecked COTs |
| `ClearSessions.CheckedIff` | emp-ag2pc/backend/triple_pool.h:176-188 | after any legal user program everything minted is checked if and only if no bit of ALICE or BOB was shared since the last run of the engine |
| `ClearSessions.RevealCoveredIff` | emp-ag2pc/session/ag2pc_session.h:142-161 | in any legal user program the COT check covers a reveal if and only if the reveal flushes something pending, or no bit of ALICE or BOB was shared since the last run of the engine before it |
| `HonestAborts.RevealNot` | emp-ag2pc/session/ag2pc_session.h:142-161 | revealing a lone NOT to BOB never fails and shows him the right bit; the parties then disagree on the new wire's mask exactly when the operand's is 0 |
| `HonestAborts.NotThenAnd` | emp-ag2pc/session/ag2pc_session.h:142-161 | an honest session aborts: after revealing NOT a to BOB, revealing its AND with b fails the c_gamma check if and only if a's opened mask is 0 and the garbler's MAC of b is not zero |
| `Sessions.Session.Checkpoint` | emp-ag2pc/session/ag2pc_session.h:163-175 | afterwards exactly the kept wires are carried, nothing is pending, the values are unchanged, where the masks of each kept wire differ is exact, and everything minted is checked if and only if it was before or a kept wire was pending |
| `Sessions.Session.AppendArgs` | emp-ag2pc/session/ag2pc_session.h:352-364 | run arguments must all be carried; their bundles in order are well formed for their values and hold their masks and shares |
| `Sessions.Session.RunBody` | emp-ag2pc/session/ag2pc_session.h:191-217 | a live body over carried arguments gives fresh carried ids with the plaintext outputs as values, outside the recorder, unless the differences between the arguments' masks disturb an AND, exactly then the check fails, or the ids run out; where the outputs' masks differ and the AND count are exact, and everything minted is checked |
| `Sessions.Session.RunCompiled` | emp-ag2pc/session/ag2pc_session.h:177-189 | the same for a stored program, which is refused exactly when an argument is not carried, the width differs, or it is not canonical |
| `Sessions.InputBatch.Add` | emp-ag2pc/session/ag2pc_session.h:105-117 | hands out consecutive waiting ids whose values are the owner's bits; refused exactly after the batch finished, and ids overflow exactly when they run out |
| `Sessions.InputBatch.Finish` | emp-ag2pc/session/ag2pc_session.h:118-122 | finishes once; every id added becomes carried with its value, through one input phase if any owner is not public and none otherwise; everything minted stays checked if and only if no entry holds a bit of ALICE or BOB |
| `Sessions.Session.FinishBatch` | emp-ag2pc/session/ag2pc_session.h:262-286 | public entries are stored locally and all others by one input phase; a bad owner errors |
| `Sessions.Session.FinishSecret` | emp-ag2pc/session/ag2pc_session.h:281-285 | all of ALICE's and BOB's entries go through exactly one input phase and end under their own ids |
| `Sessions.FlushIsOk` | emp-ag2pc/session/ag2pc_session.h:393-400 | storing a flush's outputs and dropping the chunk keeps the session state consistent and revives no stale id |
| `Sessions.FitsStill` | emp-ag2pc/session/ag2pc_session.h:95-101 | an open batch is unaffected by calls that only hand out new ids |
| `SessionBooks.FlushRead` | emp-ag2pc/session/ag2pc_session.h:372-401 | whether a flush is stale, runs the engine and keeps masks agreed can be read off the ledger that the calls alone determine |
| `Ledgers.OnlyChecksDisturb` | emp-ag2pc/session/ag2pc_session.h:55-236 | how a call ends is decided by the calls, except that a c_gamma check may fail |
| `SessionRuns.Client.Do` | emp-ag2pc/session/ag2pc_session.h:55-236 | any single call of a user program ends exactly as the calls so far say: the wires that exist, ids left, batches finished, owners, recipients and programs decide it, except that its c_gamma check fails exactly when the call is disturbed; a completed call keeps session and plaintext session in step, the COT check included, revives no stale id, and keeps agreed masks agreed if it travels; a failed check changes no wire |
| `SessionRuns.Client.Execute` | emp-ag2pc/session/ag2pc_session.h:55-236 | for every user program over inputs, batches, gates, runs, checkpoints and reveals: it stops at the first call that the calls alone say is refused, with that refusal, or at a disturbed check, and otherwise at its end, so a program whose calls are accepted and travel runs to its end from agreed masks; by then BOB and the public learned the plaintext session's values, ALICE learned them flipped exactly where, at that reveal, the parties' opened masks of the wires differed, nobody else learned a bit, and all that was learned before is kept; the COT check covered exactly the reveals the plaintext session says |
| `SessionRuns.AliceLearnsIff` | emp-ag2pc/session/ag2pc_session.h:142-161 | at any reveal to ALICE she learned the plaintext values if and only if the parties' opened masks of its wires differed nowhere |
| `SessionRuns.Client.DoReveal` | emp-ag2pc/session/ag2pc_session.h:142-161 | a reveal is refused exactly on a bad recipient or a wire that no longer exists, fails its check exactly when disturbed, and otherwise adds to what each party learned what the plaintext session shows that recipient, for ALICE flipped exactly at the wires whose opened masks differ after its flush, and notes where they differ and whether the COT check covers the reveal |
| `SessionRuns.Client.DoRunBody` | emp-ag2pc/session/ag2pc_session.h:191-217 | a run is refused exactly when an argument is not carried or the ids run out, fails its check exactly when disturbed, and otherwise gives its handles the plaintext outputs |
| `SessionRuns.Client.DoFinish` | emp-ag2pc/session/ag2pc_session.h:118-122 | finishing a batch is refused exactly when it finished before or names an unknown owner, and leaves all other open batches intact |

## Left out

- OT extension, PRG, AES/MITCCRH and Fiat-Shamir internals: the COT session is an arbitrary stream of correlated shares, the tweaked hash an arbitrary function with the same seed at both parties, fresh labels and public shifts arbitrary parameters.
- Digests: hashes that a check compares, and the F_eq commitment, are taken to be injective and kept as what was hashed.
- Privacy, simulation and the statistical leakage of bucketing: only the functional and integrity algebra is stated.
- Floating point in `get_bucket_size`: the comparison of logarithms is stated on exact integers.
- Sockets, framing of bytes by the operating system and thread pools: channels are unbounded queues and every thread has a worker.
- `Engines.RunSource`: runs garbling before evaluation; that this is one schedule of the four streaming threads is `SequentialRuns.PassesAreASchedule`, and that every other one delivers the same entries is `Streams.RunThreads`.
- `Streams.RunThreads`: keeps its two pipes as bounded queues; that a pipe with its critical sections is one is `ChunkPipes.Interleave`.
- Tampering in a whole session: each phase is proved exact for what may arrive changed (`TriplePools.ComputeInplace` for opened parity bits, `Protocols.ProcessInputs` and `Protocols.Decode` for opened share bits, `TamperedRuns.RunReceivedAndDecode` for ciphertexts over agreed masks); the triple ciphertexts, the b-difference and Beaver bits, the packed input bits and the label messages are as sent, and whole sessions with one cheating party are not composed.
- `Sessions.InputBatch.Finish`, `Sessions.Session.RunBody`: that the stored wires are the input phase's and the run's own shares and labels is stated at `Protocols.ProcessInputs` and `Engines.RunSource`, and for a single input at `Sessions.Session.Input`, not again for a batch or a run.
- The typed value layer, circuit compilation and context checks: wires are ids and values are bits; the width check of `run_artifact` against its result type belongs to that layer.
- `validate_program` and `execute_program` are not part of this model; their documented effect is written out in `Circuits.RequireRecordCanonical` and in the passes' `Run` loops.
- The parties' two recorders: they see the same calls, so one is modelled; the same holds for the two flush plans.
- A session after an error: errors abort; what is claimed is that a refused or failed flush, reveal or checkpoint has changed no wire.
- 32-bit counters of the engine: natural numbers, except the recorder's own overflow guard, which is modelled.
- Block width: left open, since no argument depends on it.
- Profiling, examples, benchmarks and error texts.
