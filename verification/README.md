# Memory expansion control plane: a verified model

The system governs memory capacity that lives outside a host's own RAM. Providers back regions,
regions are grouped in pools, workers publish evidence about regions, consumers reserve, commit and
release capacity, and a coordinator epoch fences everything that predates a restart. This project
models the coordinator's state and all the operations on it, the selection of a region, the binary
formats on the wire and on disk, and proves what they guarantee.

## How the project is laid out

| files | contents |
|---|---|
| `Words`, `Crc`, `Polynomials`, `Bursts`, `Wire`, `Cursor` | fixed-width words, CRC-32 (section 3.2.9 of IEEE Std 802.3), the polynomial remainder it is and the damage it detects, the record format, the byte cursors |
| `Types`, `Payloads`, `Canonical`, `Frames`, `Layouts` | the entities, the four typed payload codecs, which of their bytes read back and are canonical, frames and stream reassembly, and every format byte by byte |
| `Ledgers`, `Sums`, `Records` | the capacity ledger, sums over reservation tables, the whole state |
| `Ranking`, `Selection`, `Evaluation`, `Preferences`, `Answers` | the unique ranking, eligibility and scores, the selection algorithm, what decides the order, and why a region is refused |
| `Operations`, `Scenarios` | every operation as a function from a state to a state and an error, and a small deployment for concrete runs |
| `Invariants`, `Preservation` | the inductive invariant and its preservation by every operation and run |
| `Progress`, `Lifecycles`, `Guarantees`, `Fencing`, `History`, `Boots`, `Refusals` | what holds over runs, of lifecycle tables, for callers, for bulk withdrawals, for stale callers, for worker incarnations, for refused calls |
| `Admission`, `Endings`, `Aftermath`, `Registries` | for every operation: exactly when it is accepted, and what becomes of each reservation, each region, each provider and every other table |
| `Bindings`, `Service`, `Membership` | what a granted reservation is bound to, what accepted evidence makes a region serve, which regions a pool's requests are given |
| `Effects`, `Conservation`, `Fates` | what each operation leaves alone, where the bytes of ended reservations go, and what becomes of them over whole runs |
| `Withdrawals`, `Runtime` | the object with its in-place loops, proved to perform exactly those operations |
| `Audit`, `Verdicts` | the program's own audit, with wrapping sums, and exactly which runs it passes |
| `StateFile`, `Persistence`, `Store`, `Restarts` | the state file, what load makes of it, the methods that read and write it, and what is known after a restart |

The invariant (`Invariants.Inv`) ties the tables together. Every region's ledger closes, and its
reserved and committed buckets equal the byte sums of the RESERVED and of the COMMITTED or ACTIVE
reservations on it. Every live reservation is bound to structure that exists at exactly the bound
generations, under the current epoch, on a region that is not RETIRED and on a provider that is not
RETIRED; a RESERVED one is never on a DRAINING or UNAVAILABLE region. CURRENT evidence belongs to
this epoch and these generations. `Runtime.Fabric` is the mutable object; its loops fence
reservations one at a time in any order, and each method is proved equal to one step of `Operations`.

Nine places where documentation, comments or checks of the program promise more than its code does are
recorded with a concrete failing input and with the exact condition, over every call or run: that a failed
call leaves the state unchanged (`Refusals`), that lifecycle changes follow the tables (`Lifecycles`), the
audit's revalidation check and its pool-member check (`Verdicts`), the rule that a worker boot is never
admitted twice (`Boots`), the accounting of what a reservation held when its region is reincarnated
(`Conservation`, `Fates`), the detection of one damaged byte in a frame (`Frames`), the loading of what was
saved (`Persistence`), and the reverse index by which a pool's requests find its members (`Membership`).

`Admission`, `Endings`, `Aftermath` and `Registries` describe the twenty-five operations a second time, not by what
they execute but by subject: one condition per call, then one outcome per reservation, region and table. The
lemmas there connect the two descriptions for every state that satisfies the invariant.

## Model

| member | source | states |
|---|---|---|
| `Crc.Crc32` | src/persistence.cpp:23-39 | the table-driven checksum equals the bit-by-bit CRC-32 of the same bytes, for every input |
| `Polynomials.ChecksumIsRemainder` | src/persistence.cpp:23-39 | a number is the checksum of a message if and only if it is below 2^32 and its complement, reflected, is congruent to the message polynomial, first 32 bits complemented, modulo x^32+x^26+x^23+x^22+x^16+x^12+x^11+x^10+x^8+x^7+x^5+x^4+x^2+x+1, written by its exponents |
| `Polynomials.RemainderUnique` | src/persistence.cpp:23-39 | no two numbers below 2^32 are congruent modulo that polynomial, so the congruence names one checksum |
| `Polynomials.AbsorbIsRemainder` | src/persistence.cpp:35-38 | the register, reflected, stays congruent to everything read so far, from any start value |
| `Polynomials.GeneratorMirrored` | src/persistence.cpp:30 | the constant of the shift is that polynomial without its top term, reflected |
| `Crc.TableStepIsEightBitSteps` | src/persistence.cpp:27-37 | one table lookup is eight shifts of the reflected polynomial |
| `Crc.ChecksumDetectsOneByte` | src/protocol.cpp:13-27 | two equal-length messages that differ in exactly one byte have different checksums |
| `Bursts.AbsorbIsShift` | src/persistence.cpp:35-38 | feeding any message into the register is shifting it through as one little-endian number |
| `Bursts.ChecksumDetectsBurst` | src/protocol.cpp:13-27 | two equal-length messages that differ only within 32 consecutive bits, at any bit position, have different checksums |
| `Bursts.ChecksumDetectsFourBytes` | src/protocol.cpp:13-27 | so have two that differ only within four consecutive bytes |
| `Cursor.Reader.ReadWord` | src/persistence.cpp:45-64 | a little-endian word is read only if all its bytes are there, and the cursor moves past exactly those |
| `Cursor.Reader.ReadText` | src/persistence.cpp:65-72 | a counted text is read only within the 1024-byte limit and the bytes left |
| `Cursor.Writer.WriteWord` | src/protocol.cpp:45-48 | appends exactly the low bytes of the word, least significant first |
| `Cursor.ReadRecord` | src/protocol.cpp:128-164 | the cursor-driven reader accepts exactly the buffers that are one whole record, with no trailing bytes |
| `Cursor.WriteRecord` | src/protocol.cpp:116-127 | the cursor-driven writer emits exactly the record's encoding |
| `Wire.RecordRoundTrip` | src/protocol.cpp:29-54 | decoding an encoding gives back the values, for every record within the text and count limits |
| `Wire.RecordExact` | src/protocol.cpp:29-54 | whatever the reader accepts is the encoding of what it returns |
| `Wire.NeighboursRejected` | src/protocol.cpp:38-40 | no strict prefix and no strict extension of an encoding is accepted |
| `Wire.ReadableIffBounded` | src/protocol.cpp:37-50 | an encoding whose counts are not truncated reads back if and only if every text and count is within the limits |
| `Payloads.EvidenceRoundTrip` | src/protocol.cpp:116-164 | region evidence survives encode and decode unchanged |
| `Payloads.EvidenceSelfDelimiting` | src/protocol.cpp:128-164 | strict prefixes and extensions of encoded evidence are rejected |
| `Payloads.RequirementsRoundTrip` | src/protocol.cpp:167-216 | consumer requirements survive encode and decode unchanged |
| `Payloads.RequirementsSelfDelimiting` | src/protocol.cpp:184-216 | strict prefixes and extensions of encoded requirements are rejected |
| `Payloads.SelectionRoundTrip` | src/protocol.cpp:219-265 | selection results, with ranked factors and refusals, survive encode and decode unchanged |
| `Payloads.SelectionSelfDelimiting` | src/protocol.cpp:233-265 | strict prefixes and extensions of an encoded selection are rejected |
| `Payloads.ReservationRoundTrip` | src/protocol.cpp:268-306 | reservations, including states outside the enumeration, survive encode and decode unchanged |
| `Payloads.ReservationSelfDelimiting` | src/protocol.cpp:278-306 | strict prefixes and extensions of an encoded reservation are rejected |
| `Canonical.EvidenceReadableIff` | src/protocol.cpp:116-164 | encoded evidence below 2^32 bytes decodes to itself if its provenance is within the limit and is refused otherwise |
| `Canonical.RequirementsReadableIff` | src/protocol.cpp:167-216 | encoded requirements below 2^32 bytes decode to themselves if both kind lists are within the limit and are refused otherwise |
| `Canonical.SelectionReadableIff` | src/protocol.cpp:219-265 | an encoded selection below 2^32 bytes decodes to itself if all texts and lists, nested ones too, are within the limits and is refused otherwise |
| `Canonical.ReservationReadableIff` | src/protocol.cpp:268-306 | an encoded reservation below 2^32 bytes decodes to itself, its state byte named, if its note is within the limit and is refused otherwise |
| `Canonical.EvidenceReencodesIff` | src/protocol.cpp:128-164 | re-encoding accepted evidence gives the same bytes if and only if its flag byte is 0 or 1 |
| `Canonical.RequirementsReencodeIff` | src/protocol.cpp:184-216 | re-encoding accepted requirements gives the same bytes if and only if all eleven flag bytes are 0 or 1 |
| `Canonical.ReachableSpeltTwo` | src/protocol.cpp:128-164 | evidence of a reachable region has a second spelling that is accepted and never written |
| `Canonical.SelectionReencodes` | src/protocol.cpp:233-265 | re-encoding any accepted selection gives the same bytes |
| `Canonical.ReservationReencodes` | src/protocol.cpp:278-306 | re-encoding any accepted reservation gives the same bytes |
| `Layouts.EvidenceLayout` | src/protocol.cpp:116-126 | encoded evidence is its 21 fields in order, each word little-endian of its width and the provenance counted |
| `Layouts.RequirementsLayout` | src/protocol.cpp:167-182 | encoded requirements are twelve demands, two counted kind lists and ten choices, in order |
| `Layouts.SelectionLayout` | src/protocol.cpp:219-231 | an encoded selection is its head, the counted ranking with counted factors, and the counted refusals |
| `Layouts.ReservationLayout` | src/protocol.cpp:268-276 | an encoded reservation is its 23 fields in order, the state as one byte from 0 to 10 |
| `Layouts.TextLimit` | src/protocol.cpp:30-55 | a counted text is read back if and only if it has at most 1024 bytes |
| `Layouts.CountLimit` | src/protocol.cpp:184-216 | a repetition is read if and only if it counts at most 8192 rows and all of them can be read |
| `Layouts.FrameLayout` | src/protocol.cpp:78-90 | a frame is "MEFW", 1, type, length, checksum and payload; above 1048576 bytes the encoder refuses |
| `Layouts.FrameAcceptedIff` | src/protocol.cpp:92-113 | a buffer is decoded to a frame if and only if it starts with that layout of a frame of a type from 1 to 24 and of legal size |
| `Frames.FrameRoundTrip` | src/protocol.cpp:78-113 | a frame of known type and legal size decodes to itself whatever bytes follow, consuming exactly header and payload |
| `Frames.FramePrefixIncomplete` | src/protocol.cpp:92-113 | every strict prefix of a frame is INCOMPLETE, never a frame and never an error |
| `Frames.FrameExact` | src/protocol.cpp:92-113 | an accepted buffer starts with the encoding of the frame returned |
| `Frames.DamagedFrameVerdict` | src/protocol.cpp:92-113 | the verdict on a frame with exactly one damaged byte, for every position: an error, except that another known type or, with the same checksum, a shorter length is accepted, and a longer legal length leaves the frame incomplete |
| `Frames.DamagedTypeVerdict` | src/protocol.cpp:100-110 | a damaged type byte is an error if and only if the new type is unknown; otherwise the same payload is accepted under the other type |
| `Frames.DamagedLengthVerdict` | src/protocol.cpp:102-111 | a damaged length byte is an error above the maximum, leaves the frame incomplete above the payload, and below it gives a shorter frame if and only if the shorter payload has the same checksum |
| `Frames.CommitReadAsRelease` | src/protocol.cpp:100-109 | one changed byte turns any COMMIT frame into a RELEASE of the same payload |
| `Frames.PayloadBurstRefused` | src/protocol.cpp:105-108 | a frame whose payload is damaged in up to 32 consecutive bits is an error |
| `Frames.FourPayloadBytesRefused` | src/protocol.cpp:105-108 | so is one whose payload is damaged in up to four consecutive bytes |
| `Frames.DecisionStable` | src/protocol.cpp:92-113 | once a buffer is decided, later bytes never change the decision |
| `Frames.ParseResumes` | src/coordinator.cpp:153-175 | parsing may stop at any point of a stream and resume from the bytes it left, with the same frames and verdict |
| `Frames.Receive` | src/coordinator.cpp:153-175 | for every stream, well formed or not, and every cutting into chunks, the loop dispatches the frames of the whole stream in order with the same verdict |
| `Frames.Drain` | src/coordinator.cpp:165-175 | the inner loop dispatches exactly the frames of the buffer and terminates because each takes at least 16 bytes |
| `Frames.SentFramesDelivered` | src/protocol.cpp:78-113 | the concatenated encodings of any frames are received as exactly those frames |
| `Ledgers.TransferFromClosed` | include/memory_expansion_fabric/capacity.hpp:58-136 | on a closed ledger a move succeeds if and only if the source bucket holds enough; closure is kept, and a refusal changes nothing |
| `Ledgers.SetOnlineFromClosed` | include/memory_expansion_fabric/capacity.hpp:45-56 | setting the online capacity succeeds exactly between the obligations and the total, keeps closure, and a refusal changes nothing |
| `Ledgers.CapacityLedger.Invariant` | include/memory_expansion_fabric/capacity.hpp:31-41 | the overflow-safe test is true exactly when the five buckets sum to the online capacity and that is within the total |
| `Ledgers.CapacityLedger.SetOnlineBytes` | include/memory_expansion_fabric/capacity.hpp:45-56 | the 64-bit code, overflow checks included, performs the specified change of online capacity |
| `Ledgers.CapacityLedger.Reserve` | include/memory_expansion_fabric/capacity.hpp:58-64 | free to reserved, undone on overflow |
| `Ledgers.CapacityLedger.Commit` | include/memory_expansion_fabric/capacity.hpp:65-71 | reserved to committed, undone on overflow |
| `Ledgers.CapacityLedger.Release` | include/memory_expansion_fabric/capacity.hpp:72-78 | reserved to free, undone on overflow |
| `Ledgers.CapacityLedger.Complete` | include/memory_expansion_fabric/capacity.hpp:79-85 | committed to free, undone on overflow |
| `Ledgers.CapacityLedger.BeginDrain` | include/memory_expansion_fabric/capacity.hpp:86-92 | free to draining, undone on overflow |
| `Ledgers.CapacityLedger.EndDrain` | include/memory_expansion_fabric/capacity.hpp:93-99 | draining to unavailable, undone on overflow |
| `Ledgers.CapacityLedger.CancelDrain` | include/memory_expansion_fabric/capacity.hpp:100-106 | draining to free, undone on overflow |
| `Ledgers.CapacityLedger.MarkUnavailable` | include/memory_expansion_fabric/capacity.hpp:107-113 | free to unavailable, undone on overflow |
| `Ledgers.CapacityLedger.Restore` | include/memory_expansion_fabric/capacity.hpp:114-120 | unavailable to free, undone on overflow |
| `Ledgers.CapacityLedger.FenceReserved` | include/memory_expansion_fabric/capacity.hpp:123-129 | reserved to unavailable, undone on overflow |
| `Ledgers.CapacityLedger.FenceCommitted` | include/memory_expansion_fabric/capacity.hpp:130-136 | committed to unavailable, undone on overflow |
| `Ranking.RankingUnique` | src/selection.cpp:261-267 | any two listings of the scored regions in comparator order are equal |
| `Ranking.RankIsRanking` | src/selection.cpp:261-267 | such a listing exists and is the ranking |
| `Selection.EligibleIff` | src/selection.cpp:11-124 | a region of a known provider is ELIGIBLE if and only if it meets every hard constraint; unknown facts never count as met |
| `Selection.CandidateFacts` | src/selection.cpp:13-43 | what every ranked region satisfies: online or degraded, current evidence, enough free bytes, provider not retired, policy known, pool joined |
| `Selection.DirectWhenAttached` | src/selection.cpp:158-163 | DIRECT is reported from attachments exactly when one that applies to the consumer proves it |
| `Answers.RefusedForFirstUnmet` | src/selection.cpp:11-124 | a region's verdict is the reason of the first item it does not meet on a flat list of 26 conditions in the order they are asked, capabilities read from the entries of both lists |
| `Answers.AccessDecided` | src/selection.cpp:154-170 | the access reported is DIRECT if any attachment open to the consumer says so, else what the first that says anything says, else what the provider declares |
| `Answers.OutcomeDecided` | src/selection.cpp:268-302 | the outcome is decided by whether there is a candidate, how the first is reached, the fallback flags, and whether some considered region only lacks evidence or revalidation |
| `Preferences.RankedByWorth` | src/selection.cpp:233-267 | of two candidates one is ranked first if and only if it has more points out of 105, or as many and the lower id, points being read from the region records |
| `Preferences.BetterIsBefore` | src/selection.cpp:126-267 | a candidate no worse than another in locality, latency, bandwidth, room, access and health, and better in one, is ranked before it |
| `Preferences.LocalityAgainstBandwidth` | src/selection.cpp:240-259 | of two candidates alike but for locality and bandwidth, LOCAL is ranked before FABRIC if and only if it lacks less than 45 per cent of the widest bandwidth, or exactly that and has the lower id |
| `Preferences.ScoreIsWorth` | src/selection.cpp:238-260 | a hundred times the score of a candidate is its points |
| `Preferences.LatencyEnds` | src/selection.cpp:241-242 | a latency earns nothing if and only if it is unknown or the slowest, and otherwise in proportion to its distance from the slowest |
| `Preferences.WidestEarnsAll` | src/selection.cpp:243-244 | a bandwidth earns all its points if and only if it is the widest, and none if and only if it is unknown beside a known one |
| `Preferences.EntryExplained` | src/selection.cpp:246-260 | each entry names its region, provider, pool and size, has its points as score, and publishes six named factors that give the observed value and account for the points |
| `Preferences.ListWellOrdered` | src/selection.cpp:261-267 | nowhere in a selection's list is a later entry better than an earlier one in some respect without being worse in another |
| `Guarantees.RankedScoresBounded` | src/selection.cpp:238-260 | under the invariant, over exact reals, every score in a ranking lies in [0, 1.05] |
| `Selection.ScoreExplained` | src/selection.cpp:253-259 | the published factors explain the score: it is their weighted sum |
| `Evaluation.FindBestAccess` | src/selection.cpp:154-170 | the loop with early exits computes the specified access kind |
| `Evaluation.EvaluateEligibility` | src/selection.cpp:11-124 | the sequential tests, loops included, name the first failed constraint in order |
| `Evaluation.Partition` | src/selection.cpp:197-231 | whatever order the map yields, exactly the candidates and exactly the refusals are collected, each once |
| `Evaluation.Maxima` | src/selection.cpp:233-237 | the running maxima bound every candidate and are attained |
| `Evaluation.MaxLatencyOfState` | src/selection.cpp:233-237 | the latency maximum is a function of the region map, not of the walk |
| `Evaluation.MaxBandwidthOfState` | src/selection.cpp:233-237 | the bandwidth maximum is a function of the region map, not of the walk |
| `Evaluation.Sort` | src/selection.cpp:261-267 | the result holds exactly the given candidates in strict comparator order |
| `Evaluation.SortedIsRanking` | src/selection.cpp:261-267 | a sorted list of the scored candidates is the one ranking of the state |
| `Evaluation.Evaluate` | src/selection.cpp:173-302 | ranked list, refusals and outcome are functions of the state and request alone, for every enumeration order |
| `Invariants.WithdrawKeeps` | src/fabric.cpp:157-186 | withdrawing any set of reservations for any cause keeps the invariant |
| `Preservation.SetEpochKeeps` | src/fabric.cpp:208-238 | an epoch advance keeps the invariant |
| `Preservation.RegisterProviderKeeps` | src/fabric.cpp:263-307 | registering or reincarnating a provider keeps the invariant by fencing |
| `Preservation.RegisterRegionKeeps` | src/fabric.cpp:327-365 | registering or reincarnating a region keeps the invariant by fencing |
| `Preservation.RegisterPoolKeeps` | src/fabric.cpp:367-388 | registering or reincarnating a pool keeps the invariant by fencing |
| `Preservation.RegisterPolicyKeeps` | src/fabric.cpp:390-411 | registering or reincarnating a policy keeps the invariant by fencing |
| `Preservation.PublishEvidenceKeeps` | src/fabric.cpp:476-547 | publishing evidence keeps the invariant, also when it is refused late |
| `Preservation.BeginDrainKeeps` | src/fabric.cpp:575-603 | beginning a drain keeps the invariant |
| `Preservation.MarkUnavailableKeeps` | src/fabric.cpp:641-661 | withdrawing a region's capacity keeps the invariant |
| `Preservation.RetireProviderKeeps` | src/fabric.cpp:682-702 | retiring a provider and its regions keeps the invariant |
| `Preservation.RetireRegionKeeps` | src/fabric.cpp:704-720 | retiring a region keeps the invariant |
| `Preservation.MarkWorkerDeadKeeps` | src/fabric.cpp:755-790 | a worker's death keeps the invariant |
| `Preservation.ReserveKeeps` | src/reservation.cpp:14-78 | a new reservation keeps the invariant |
| `Preservation.CommitKeeps` | src/reservation.cpp:80-159 | a commit keeps the invariant |
| `Preservation.ReleaseKeeps` | src/reservation.cpp:161-193 | a release keeps the invariant |
| `Preservation.StepKeeps` | src/fabric_impl.hpp:70-92 | each of the twenty-five operations keeps the invariant, in success and in failure |
| `Preservation.RunKeeps` | src/fabric_impl.hpp:70-92 | every run from a state with the invariant ends in one |
| `Preservation.ReachableInv` | src/fabric.cpp:191-193 | every state reachable from a new coordinator satisfies the invariant |
| `Progress.StepForward` | src/fabric.cpp:105-139 | every operation moves forward: no generation or epoch goes back, RETIRED stays until a higher generation, each reservation keeps its bindings and changes state only along the table, and one at rest never changes |
| `Progress.RunForward` | src/fabric.cpp:105-139 | the same over any run; a reservation that left the live states never becomes live again |
| `Lifecycles.LifecyclesFollowTablesIff` | src/fabric.cpp:36-103 | every region and provider lifecycle change any operation makes to the same incarnation, guarded or not, is one the tables allow, if and only if the operation neither cancels the drain of a DRAINING region nor recovers an UNAVAILABLE or DEGRADED one |
| `Lifecycles.FollowsAlongIff` | src/fabric.cpp:36-103 | all lifecycle changes of a run are in the tables if and only if no call of the run is one of those two |
| `Lifecycles.CancelDrainFollowsIff` | src/fabric.cpp:625-639 | cancelDrain stays within the table only when it is refused |
| `Lifecycles.DrainThenCancel` | src/fabric.cpp:575-639 | whoever may begin a drain may cancel it at once, which steps outside the table |
| `Lifecycles.CancelledDrainStepsOutside` | src/fabric.cpp:625-639 | a concrete run that drains a region and cancels, against the table |
| `Lifecycles.RecoverRegionFollowsIff` | src/fabric.cpp:663-680 | recoverRegion stays within the table if and only if it is refused or the region was awaiting revalidation |
| `Admission.AdmittedIff` | src/fabric.cpp:208-803 | under the invariant each of the twenty-five operations is accepted if and only if a stated condition on the state, the arguments and the authority holds |
| `Admission.RegistrationAdmittedIff` | src/fabric.cpp:243-465 | the conditions for registration, reincarnation and pool membership, with no invariant needed |
| `Admission.LifecycleAdmittedIff` | src/fabric.cpp:476-720 | the conditions for evidence, attachments, drains, outages, recovery and retirement |
| `Admission.UsageAdmittedIff` | src/reservation.cpp:14-193 | the conditions for workers, selection, reservation, commit and release |
| `Endings.EveryOutcome` | src/fabric.cpp:157-186 | for every operation and reservation: fencing turns RESERVED into FENCED and COMMITTED or ACTIVE into REVALIDATION_REQUIRED, a new epoch turns all three into REVALIDATION_REQUIRED, a drain start turns RESERVED into CANCELLED, commit and release do theirs, and every reservation a call does not reach is unchanged |
| `Endings.EpochOutdates` | src/fabric.cpp:226-236 | after a real epoch advance every reservation that held capacity awaits revalidation |
| `Aftermath.EveryRegion` | src/fabric.cpp:208-790 | for every accepted operation and region: lifecycle, evidence, unpromised buckets, attachments and memberships are as spelled out for that call, and all else is unchanged |
| `Aftermath.NewRegions` | src/fabric.cpp:359-364 | regions become known by registration alone, and then with nothing online, nothing observed and in no pool |
| `Aftermath.EpochSuspends` | src/fabric.cpp:212-222 | after a real epoch advance RETIRED, DRAINING and UNAVAILABLE regions keep their lifecycle, all others await revalidation, and free and draining are unchanged |
| `Aftermath.WorkerDeathSuspends` | src/fabric.cpp:766-780 | a worker's death does the same to exactly the regions its present incarnation vouched for, and leaves lifecycle, evidence, free and draining of the others alone |
| `Registries.EveryProvider` | src/fabric.cpp:536-545 | for every accepted operation and provider: it registers, drains and goes offline with its region, comes online with healthy evidence, retires, or stays as it was |
| `Registries.EveryTable` | src/fabric.cpp:208-803 | for every accepted operation: epoch, domains, pools, policies, consumers and workers change exactly as spelled out |
| `Bindings.GrantedAsRequested` | src/reservation.cpp:14-78 | a request succeeds if and only if authority, size and consumer are in order and something is ranked; the one new reservation is on the region ranked first, carries the request's consumer, policy, pool and size and the caller's worker, boot and epoch, is bound to every generation as it is, and took its bytes from free |
| `Bindings.SupersededForGood` | src/fabric.cpp:367-411 | after any run, an accepted re-registration of the pool or policy the request named, of the region or of its provider, or an epoch advance, leaves the reservation not live for the rest of any run |
| `Service.EvidenceAcceptedIff` | src/fabric.cpp:476-533 | evidence is accepted if and only if it is properly attributed, its online capacity lies between what is owed and the total, and the region's lifecycle takes its health |
| `Service.EvidenceRecorded` | src/fabric.cpp:510-546 | accepted evidence is on record exactly as published, lifecycle and ledger follow it, the provider may come online, and nothing else changes |
| `Service.EvidenceServesIff` | src/fabric.cpp:476-547 | once evidence is accepted the region is eligible for a request if and only if the structure fits, the published latency, bandwidth, locality, health and reachability satisfy it, size and obligations fit the published capacity, and the provider is neither RETIRED nor FAILED |
| `Membership.GivenIffIndexed` | src/selection.cpp:197-206 | a request that names a pool is given a region if and only if it is indexed under the pool and eligible |
| `Membership.IndexedAfter` | src/fabric.cpp:413-465 | for every operation, exactly when a region is indexed under a pool afterwards: an accepted addition indexes it if and only if the pool did not list it before |
| `Membership.ListedAfter` | src/fabric.cpp:413-465 | for every operation, exactly when a pool lists a region afterwards |
| `Membership.AgreedAfterIff` | src/fabric.cpp:367-465 | while index and lists agree, a call keeps them so if and only if it registers neither a region some pool lists nor a pool whose list differs from the index |
| `Membership.AgreedAlongIff` | src/fabric.cpp:367-465 | they agree all along a run if and only if no call of the run is one of the two |
| `Membership.StaysOut` | src/fabric.cpp:427-436 | a region listed without being indexed is in no ranking for the pool, through any run that does not take it off the list or replace the list, however often it is added |
| `Membership.ReturnedStaysOut` | src/fabric.cpp:349-364 | a listed region that is registered again is such a region, and its addition at the new generation is accepted without effect on selection |
| `Membership.RemovedAndAddedIsGiven` | src/fabric.cpp:413-465 | taking it off the list and adding it again is accepted and indexes it |
| `Membership.ListedAndNeverGiven` | src/fabric.cpp:367-388 | a concrete run of four calls after which a pool's eligible listed member is ranked for no request of the pool and cannot be added |
| `Membership.LoadedAgrees` | src/persistence.cpp:362-369 | after a load index and lists agree, so a restart gives the pool what it was never given before |
| `Guarantees.LiveReservationsBound` | src/reservation.cpp:39-76 | in every reachable state each live reservation names existing region, provider, policy and pool at exactly its bound generations, its region's own provider, and the current epoch |
| `Guarantees.LedgersAgree` | src/snapshot.cpp:85-105 | in every reachable state each ledger closes and its reserved and committed buckets equal the byte sums of the reservations |
| `Guarantees.NothingReservedWhereDraining` | src/fabric.cpp:575-661 | a DRAINING or UNAVAILABLE region has no RESERVED reservation and reserved is zero |
| `Guarantees.NothingLiveOnRetired` | src/fabric.cpp:682-720 | no live reservation rests on a RETIRED region or provider |
| `Guarantees.RetiredLedgerEmpty` | src/fabric.cpp:704-720 | a RETIRED region's ledger has nothing reserved and nothing committed |
| `Guarantees.RankedEvidenceCurrent` | src/selection.cpp:31-40 | every ranked region has CURRENT evidence of this epoch and region generation, and of this provider generation when its own provider is the source |
| `Guarantees.EvidenceDecidesService` | src/fabric.cpp:506-546 | accepted evidence puts the region in service if and only if it reports it reachable in tolerable health and the backing provider is neither RETIRED nor FAILED |
| `Guarantees.CommitSucceedsIff` | src/reservation.cpp:80-159 | committing a RESERVED reservation succeeds if and only if the holder asks with acceptable authority, the consumer was not reincarnated, the region's evidence is still CURRENT and the one reserved on, and the region is not awaiting revalidation; all binding, epoch, capacity and ledger failures are unreachable |
| `Guarantees.CommitMoves` | src/reservation.cpp:155-158 | a commit moves exactly its bytes from reserved to committed and changes nothing else |
| `Guarantees.ReleaseAlwaysSucceeds` | src/reservation.cpp:161-193 | releasing a live reservation under acceptable authority always succeeds and returns exactly its bytes to free |
| `Guarantees.NoSecondEnding` | src/reservation.cpp:89-91 | over any run a reservation whose story is over stays exactly as it is, can neither be released nor committed, and trying changes nothing |
| `Guarantees.RankedIsReservable` | src/reservation.cpp:25-37 | if anything is ranked, reserving in the same state succeeds on the first of the ranking and takes exactly the requested bytes |
| `Guarantees.ReservedIsCommittable` | src/reservation.cpp:80-159 | the new reservation can be committed at once if and only if its consumer is unregistered or still at that generation |
| `Conservation.Balance` | src/snapshot.cpp:90-105 | whenever a table evolves, what a region has promised plus what ended equals what it had promised plus what started |
| `Conservation.BytesLandIff` | src/fabric.cpp:157-186 | for every operation and region, the bytes of the reservations that end are exactly what free gains on a release, unavailable on any fencing, draining together with all free bytes on a drain start, unavailable together with all free bytes on an outage, and zero for every other operation, if and only if the operation is not the reincarnation of a region with capacity online |
| `Conservation.ReincarnationForfeits` | src/fabric.cpp:345-363 | the reincarnation of a region ends all its reservations and replaces the ledger: what it had reserved and committed reaches no bucket |
| `Conservation.GenerationChangesIff` | src/fabric.cpp:327-365 | a region changes generation in no other way, and otherwise keeps its whole descriptor |
| `Fates.EndsOnce` | src/reservation.cpp:161-193 | over any run a reservation ends exactly once if it was not over before and is over after, and never otherwise; it has a destination exactly then |
| `Fates.OutflowIsSent` | src/fabric.cpp:157-186 | what a run moves to a destination, step by step, is the sum of the bytes of the reservations that met that fate |
| `Fates.EveryByteAccounted` | src/snapshot.cpp:90-105 | from a new coordinator on, all bytes ever granted on a region are still in its reserved and committed buckets or were freed, drained, made unavailable or forfeited, each reservation counted once |
| `Fates.ReincarnationLosesPromise` | src/fabric.cpp:345-363 | a concrete run in which sixteen reserved bytes are in no bucket after the region returns |
| `Fencing.FenceOneReservation` | src/fabric.cpp:157-186 | fencing one live reservation makes it FENCED if it was RESERVED and REVALIDATION_REQUIRED if it was COMMITTED or ACTIVE, and takes exactly its bytes out of the bucket that held them |
| `Fencing.EpochAdvanceFences` | src/fabric.cpp:208-238 | after a real epoch advance nothing is live, reserved and committed are zero everywhere, no evidence is CURRENT and no worker authority is acceptable |
| `Fencing.WorkerDeathFences` | src/fabric.cpp:755-790 | after a worker's death nothing live is bound to it or to a region its incarnation vouched for, none of those regions is CURRENT, and its authority is refused |
| `Fencing.BeginDrainSparesCommitted` | src/fabric.cpp:575-603 | beginning a drain changes no committed bucket and no COMMITTED reservation |
| `Fencing.CompleteDrainSparesCommitted` | src/fabric.cpp:605-623 | completing a drain changes no committed bucket and no COMMITTED reservation |
| `Fencing.CancelDrainSparesCommitted` | src/fabric.cpp:625-639 | cancelling a drain changes no committed bucket and no COMMITTED reservation |
| `Fencing.BeginDrainSucceeds` | src/fabric.cpp:575-603 | in a reachable state a permitted drain always goes through and leaves nothing free and nothing reserved |
| `History.StaleIsInert` | src/fabric.cpp:144-152 | any authority-carrying call under an older epoch is refused and changes nothing |
| `History.StaleCallsAreNoise` | src/fabric.cpp:144-152 | stale calls can be deleted from any later run, however interleaved, without changing where it ends |
| `History.AllStaleChangesNothing` | src/fabric.cpp:208-238 | a run of stale calls alone leaves the state exactly as it was |
| `History.DeadStaysDead` | src/fabric.cpp:725-753 | a dead worker's authority stays refused through any run in which it does not register with another boot |
| `History.KilledStaysDead` | src/fabric.cpp:755-790 | the same from the call that declared it dead |
| `Boots.AdmittedAgainIff` | src/fabric.cpp:737-743 | in every run of a new coordinator a boot offered under otherwise valid guards is refused if and only if it is the last one admitted: one admitted before that is admitted again |
| `Boots.AdmissibleIff` | src/fabric.cpp:725-753 | the sequences of boots a worker can be admitted with are exactly those of real boots without an immediate repetition |
| `Boots.BootsUniqueIff` | src/fabric.cpp:737-743 | no boot is admitted twice in a run if and only if no caller with valid guards ever offers one that was admitted and since replaced |
| `Boots.EarlierBootReadmitted` | src/fabric.cpp:737-743 | a concrete run of a new coordinator in which boots 1, 2 and 1 are admitted in turn |
| `Boots.ReadmittedActs` | src/fabric.cpp:725-753 | the authority of a boot so admitted is acceptable, whether the worker was alive or dead |
| `History.NothingRankedWithoutEvidence` | src/selection.cpp:35-36 | where no evidence is CURRENT nothing is ranked |
| `History.StepGainsNone` | src/fabric.cpp:506-512 | evidence becomes CURRENT in no other way than by being published |
| `History.NothingRankedUntilPublished` | src/selection.cpp:197-231 | from such a state no select ranks anything until evidence is published, over any run |
| `Refusals.RefusedChangesNothingIff` | src/fabric.cpp:506-533 | for every operation, a call that reports an error leaves all tables unchanged if and only if it is not evidence refused late for its health that the region's record does not already show |
| `Refusals.FailedThenDegraded` | src/fabric.cpp:506-533 | after any accepted FAILED evidence the same evidence with DEGRADED health is refused and changes the region's record |
| `Refusals.DegradedChangesThoughRefused` | src/fabric.cpp:506-533 | a concrete run whose last call returns INVALID_STATE_TRANSITION and leaves a table changed |
| `Refusals.EvidenceRefusedForHealthIff` | src/fabric.cpp:521-533 | that late refusal happens exactly for DEGRADED health into an UNAVAILABLE or REVALIDATION_REQUIRED region |
| `Refusals.EvidenceRefused` | src/fabric.cpp:476-509 | every earlier refusal of evidence changes nothing |
| `Refusals.RefusedEvidenceIneligible` | src/fabric.cpp:521-533 | after the late refusal closure and accounting stand and the region is eligible for nothing |
| `Refusals.EvidenceBreaksRevalidationCheckIff` | src/snapshot.cpp:115-121 | accepted evidence breaks the audit's revalidation check exactly for FAILED health, or DEGRADED health into a region awaiting revalidation |
| `Refusals.FailedHealthFailsAudit` | src/snapshot.cpp:115-121 | a concrete run on which that check fails |
| `Refusals.ReincarnationStalesMembersIff` | src/snapshot.cpp:106-114 | reincarnating a region keeps the audit's pool check if and only if no pool lists the region |
| `Refusals.ReincarnationFailsAudit` | src/snapshot.cpp:106-114 | a concrete run on which that check fails |
| `Verdicts.MembersAfterIff` | src/snapshot.cpp:106-114 | from a state that passes the pool check, any operation keeps it if and only if it is neither the accepted reincarnation of a region some pool lists nor an accepted pool registration with a member that is not current |
| `Verdicts.MembersAlongIff` | src/snapshot.cpp:106-114 | the pool check holds throughout a run if and only if no call of the run is one of those two |
| `Verdicts.UnknownMemberFailsAudit` | src/fabric.cpp:367-388 | a concrete pool registration on a new coordinator after which the pool check fails |
| `Verdicts.QuietAfterIff` | src/snapshot.cpp:115-121 | from a state that passes the revalidation check, any operation keeps it if and only if it is not an evidence publication, taken in, with FAILED health or with DEGRADED health into a region awaiting revalidation |
| `Verdicts.QuietAlongIff` | src/snapshot.cpp:115-121 | the revalidation check holds throughout a run if and only if no call of the run is such a publication |
| `Verdicts.AuditPassesIff` | src/snapshot.cpp:76-126 | under the invariant the whole audit passes exactly when the pool and revalidation checks do |
| `Verdicts.AuditVerdictIff` | src/snapshot.cpp:76-126 | from a new coordinator on, the whole audit passes in every state of a run if and only if no call of the run does one of those three things |
| `Effects.OthersAreCalm` | src/fabric.cpp:208-803 | nineteen of the twenty-five operations change no pool, no region structure and no set of reservation ids, and leave regions that pass the revalidation check passing |
| `Withdrawals.WithdrawStep` | src/fabric.cpp:157-186 | withdrawing one more reservation with the program's own ledger move extends the closed form by that reservation; the move always succeeds |
| `Runtime.EpochOrder` | src/fabric.cpp:212-237 | walking workers, regions and then reservations ends where the specification does |
| `Runtime.Fabric.Fence` | src/fabric.cpp:157-186 | one fence, with its ledger move and its region-gone branch, performs one withdrawal, and leaves RESERVED as FENCED, COMMITTED or ACTIVE as REVALIDATION_REQUIRED and the unstarted as CANCELLED |
| `Runtime.Fabric.FenceAll` | src/fabric.cpp:286-290 | the walk that fences the chosen reservations, in any order, is the bulk withdrawal |
| `Runtime.Fabric.LapseAll` | src/fabric.cpp:223-237 | the epoch walk over reservations, in any order, is the bulk withdrawal |
| `Runtime.Fabric.CancelReserved` | src/fabric.cpp:587-595 | the drain walk returns exactly the region's RESERVED bytes to free |
| `Runtime.Fabric.SuspendVouched` | src/fabric.cpp:768-779 | exactly the regions vouched for by that incarnation are suspended and collected |
| `Runtime.Fabric.AcceptAuthority` | src/fabric.cpp:144-152 | accepts exactly the authorities of the current epoch that are an operator's or a live, current worker incarnation's |
| `Runtime.Fabric.SetEpoch` | src/fabric.cpp:208-238 | performs the specified epoch step and keeps the invariant; a real advance suspends every region but RETIRED, DRAINING and UNAVAILABLE ones and outdates every reservation |
| `Runtime.Fabric.RegisterConsumer` | src/fabric.cpp:243-258 | performs the specified consumer registration |
| `Runtime.Fabric.RegisterProvider` | src/fabric.cpp:263-307 | performs the specified provider registration, fencing and forgetting on reincarnation |
| `Runtime.Fabric.RegisterDomain` | src/fabric.cpp:309-325 | performs the specified domain registration |
| `Runtime.Fabric.RegisterRegion` | src/fabric.cpp:327-365 | performs the specified region registration, fencing on reincarnation |
| `Runtime.Fabric.RegisterPool` | src/fabric.cpp:367-388 | performs the specified pool registration, fencing on reincarnation |
| `Runtime.Fabric.RegisterPolicy` | src/fabric.cpp:390-411 | performs the specified policy registration, fencing on reincarnation |
| `Runtime.Fabric.AddPoolMember` | src/fabric.cpp:413-442 | the search through the members decides between duplicate, newer generation and new entry |
| `Runtime.Fabric.RemovePoolMember` | src/fabric.cpp:444-465 | erases every entry of the region, in the pool and in the reverse index |
| `Runtime.Fabric.PublishRegionEvidence` | src/fabric.cpp:476-547 | performs the specified evidence step, including what a late refusal leaves behind; accepted evidence is on record exactly as published |
| `Runtime.Fabric.PublishAttachment` | src/fabric.cpp:549-570 | replaces the attachment with that id or appends it |
| `Runtime.Fabric.BeginDrain` | src/fabric.cpp:575-603 | performs the specified drain start |
| `Runtime.Fabric.CompleteDrain` | src/fabric.cpp:605-623 | performs the specified drain completion |
| `Runtime.Fabric.CancelDrain` | src/fabric.cpp:625-639 | performs the specified drain cancellation |
| `Runtime.Fabric.MarkUnavailable` | src/fabric.cpp:641-661 | performs the specified withdrawal of a region |
| `Runtime.Fabric.RecoverRegion` | src/fabric.cpp:663-680 | performs the specified recovery, which needs fresh evidence to go online |
| `Runtime.Fabric.RetireProvider` | src/fabric.cpp:682-702 | performs the specified retirement of a provider and its regions |
| `Runtime.Fabric.RetireRegion` | src/fabric.cpp:704-720 | performs the specified retirement of a region |
| `Runtime.Fabric.RegisterWorker` | src/fabric.cpp:725-753 | performs the specified worker registration |
| `Runtime.Fabric.MarkWorkerDead` | src/fabric.cpp:755-790 | performs the specified worker death, in the program's order of walks |
| `Runtime.Fabric.NoteWorkerHandle` | src/fabric.cpp:799-803 | records the handle of a known worker and nothing else |
| `Runtime.Fabric.Select` | src/selection.cpp:304-311 | returns the state's one ranking, refusals and outcome, and changes only the selection counter; no later entry is better than an earlier one without being worse |
| `Runtime.Fabric.RequestReservation` | src/reservation.cpp:14-78 | performs the specified reservation and returns the id it was filed under; the reservation is on the region ranked first, as requested, and bound to current generations |
| `Runtime.Fabric.CheckBindings` | src/reservation.cpp:96-122 | reports no fault if and only if every bound region, provider, policy and pool exists at exactly the bound generation and the epoch is the current one; only the epoch is wrong exactly for WRONG_EPOCH |
| `Runtime.Fabric.CommitReservation` | src/reservation.cpp:80-159 | performs the specified commit and returns the reservation as filed |
| `Runtime.Fabric.ReleaseReservation` | src/reservation.cpp:161-193 | performs the specified release |
| `Audit.SumRegion` | src/snapshot.cpp:92-101 | the wrapping sums equal the true sums modulo 2^64, in any order |
| `Audit.AuditAccounting` | src/snapshot.cpp:85-105 | passes exactly when every region closes and both sums match its ledger |
| `Audit.AuditPools` | src/snapshot.cpp:106-114 | passes exactly when every pool member names a region at its current generation |
| `Audit.AuditRevalidation` | src/snapshot.cpp:115-121 | passes exactly when no region awaiting revalidation is CURRENT |
| `Audit.AuditAll` | src/snapshot.cpp:76-126 | the whole audit passes exactly when all three groups do |
| `Audit.AccountingAlwaysPasses` | src/snapshot.cpp:85-105 | under the invariant the accounting checks pass and no sum, whole or partial, wraps |
| `Audit.AuditVerdict` | src/snapshot.cpp:85-105 | the accounting checks pass in every reachable state |
| `StateFile.SetAllDistinct` | include/memory_expansion_fabric/capability.hpp:31-36 | reading a model back by setting its entries one by one gives the same model |
| `StateFile.ListingRows` | src/persistence.cpp:120-181 | the payload fits the schema, is readable exactly within the text and count limits, and determines what was listed |
| `Persistence.LoadSaved` | src/persistence.cpp:310-371 | loading a saved file succeeds if and only if the epoch is not zero and every text and count is within limits, and yields exactly the durable structure at epoch + 1 with nothing dynamic |
| `Layouts.SavedLayout` | src/persistence.cpp:120-181 | the file is "MEFP", 1, length, checksum and the payload: epoch, then counted providers, domains, regions, pools, policies and consumers, field by field; above 67108864 bytes nothing is written |
| `Restarts.LoadedResumes` | src/persistence.cpp:330-371 | a saved file loads if and only if its epoch is not zero and it is within limits; then the coordinator is at the next epoch with every descriptor as saved, providers, domains and regions awaiting revalidation, empty ledgers, no evidence, no reservations and no workers |
| `Restarts.LimitsInNumbers` | src/persistence.cpp:41-99 | within limits means texts of at most 1024 bytes and lists of at most 8192 entries, in every record |
| `Persistence.ListingReadableIff` | src/persistence.cpp:120-274 | save checks only the total size: an over-limit listing is written and never read back |
| `Persistence.LongNameNeverLoads` | src/persistence.cpp:65-72 | a reachable state, with one domain of an over-long name, that is saved without complaint and always fails to load as corrupt |
| `Persistence.DamagedFileRejected` | src/persistence.cpp:335-352 | a file that differs from a saved one in exactly one byte is rejected |
| `Persistence.FileExact` | src/persistence.cpp:335-352 | an accepted file is, byte for byte, what would be written around its payload |
| `Persistence.BurstFileRejected` | src/persistence.cpp:335-352 | a saved file whose payload is damaged in up to 32 consecutive bits is rejected |
| `Persistence.FourBytesFileRejected` | src/persistence.cpp:335-352 | a saved file damaged in up to four consecutive bytes of the header or of the payload is rejected |
| `Persistence.CutFileRejected` | src/persistence.cpp:345-350 | a strict prefix or strict extension of a saved file is rejected |
| `Persistence.LoadedInv` | src/persistence.cpp:354-371 | whatever file is accepted, the coordinator starts with the invariant, no CURRENT evidence, no reservations and no workers |
| `Persistence.NothingRankedAfterLoad` | src/persistence.cpp:354-371 | after a load no select ranks anything until evidence is published, whatever else is called |
| `Persistence.IndexAgrees` | src/persistence.cpp:362-369 | the rebuilt reverse index and the pool member lists agree, both ways |
| `Store.Enumerate` | src/persistence.cpp:123-137 | a walk over a map lists every entry exactly once, in some order |
| `Store.SaveState` | src/persistence.cpp:310-328 | the file written is the encoding of some enumeration of the durable state |
| `Store.ReadHeader` | src/persistence.cpp:335-352 | the header checks accept exactly the files whose magic, version, length and checksum agree |
| `Store.FillTable` | src/persistence.cpp:190-218 | rows are stored under their ids and a later row replaces an earlier one |
| `Store.RebuildIndex` | src/persistence.cpp:362-369 | the walk over pools and members, in any order, builds exactly the reverse index |
| `Store.LoadState` | src/persistence.cpp:330-371 | the loading code returns the specified state or error for every byte sequence |

## Left out

- Sockets, processes, monitor threads and command lines (src/coordinator.cpp outside the receive loop, src/worker.cpp): operating-system input and output.
- File input and output and the atomic replace (src/persistence.cpp:276-306): save and load are modelled on byte sequences, and their IO_ERROR results are not.
- Mutexes: each locked operation is one atomic step, so a concurrent execution is a sequence of steps; `select` counts its selection id as part of its step.
- Clocks, error messages, `describe()` and the `note` that fencing writes into a reservation: the creation time of a reservation is a parameter, the other times are absent, and fencing leaves `note` unchanged in the model.
- Discovery backends, tools, examples, benchmarks and accelerator proofs: constant data, output or foreign calls.
- Floating point: scores are exact reals and the headroom factor is a non-negative real, so rounding, NaN and negative factors are absent; on the wire a double is its 64-bit pattern.
- Id counters beyond 2^64: run theorems cover runs short enough that the reservation counter does not wrap, while ids are minted modulo 2^64 as in the program; an epoch of 2^64 - 1 wraps to 0 on load, as in the program.
- The order of the refusals in a selection: they are proved to be exactly the refused regions with their reasons, each once.
- The reverse pool index of a region is a set, because the program only tests membership in it and erases all entries of one pool; duplicate entries are not represented.
- Snapshots, including pool totals (src/snapshot.cpp:6-74): plain copies of the tables, and unguarded sums over possibly repeated members.
- `workerAlive`, `regionFree`, `epoch` and `version` (src/fabric.cpp:199-206, 792-810): single reads.
- The text of the audit report: only the verdicts of its checks are modelled.
- Canonical.EvidenceReadableIff: says nothing of encodings of 2^32 bytes or more, because their 32-bit counts may be truncated.
- Canonical.RequirementsReadableIff: says nothing of encodings of 2^32 bytes or more, because their 32-bit counts may be truncated.
- Canonical.SelectionReadableIff: says nothing of encodings of 2^32 bytes or more, because their 32-bit counts may be truncated.
- Canonical.ReservationReadableIff: says nothing of encodings of 2^32 bytes or more, because their 32-bit counts may be truncated.
- Persistence.FourBytesFileRejected: says nothing of damage on both sides of the header's end, because a changed checksum can match a changed payload.
- Runtime.Fabric.RequestReservation: requires the reservation counter to be below 2^64.
