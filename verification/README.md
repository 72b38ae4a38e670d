# Dafny model of the block layer and the crypto API of Linux 2.6.32.21

This project models the parts of `block/` and `crypto/` in which a fast or cached form has to agree with a simple one, and
in which several parties hand work to each other, and proves that they do. `dafny verify dfyconfig.toml` checks all of it.

What is proved, by component:

- **Camellia** (`Camellia.dfy`, `CamelliaRfc.dfy`, `CamelliaRotate.dfy`, `CamelliaKeys.dfy`, `CamelliaSetup.dfy`,
  `CamelliaBlock.dfy`). From the key to the ciphertext, for keys of 128, 192 and 256 bits and all S-boxes, the code computes
  the cipher of RFC 3713, which is written down apart from it on 64- and 128-bit numbers: the rotations in place of the key,
  the shortened computation of KA, the schedule that `camellia_setup_tail` builds with the whitening keys absorbed, the round
  keys moved and taken through half of the P-function, the look-ups in combined tables and the FL layers. Decryption gives
  the one block that encrypts to its input.
- **Anticipatory scheduler** (`Elevator.dfy`, `Seek.dfy`, `AsChoice.dfy`, `AsSched.dfy`). Which of two requests is chosen is
  stated by their sectors. `next_rq` is the best request of its whole list although only neighbours are looked at: exactly on
  which sectors that holds is proved, with a counterexample for overlapping requests. Except after a forced dispatch or an
  alias, reads and writes are never in flight together. Over every run reads that keep coming give way to a waiting write at
  the first dispatch after the deadline of their batch. Anticipation waits for something that comes if and only if the last
  dispatch did not leave a process named that has nothing in flight; a run shows the other case. The FIFO check misses
  nothing. Which request `as_dispatch_request` sends, and when it sends none, is stated for every state.
- **CFQ** (`CfqTree.dfy`, `CfqQueue.dfy`, `CfqSched.dfy`, `CfqRuns.dfy`). `cfq_choose_req` is a strict total order by rank and
  sectors, and exactly when the cached request is the best of its queue, after an insertion and after a dispatch, is proved.
  Every operation keeps lists, counters, flags, the service tree and its cached leftmost node in step; the tree stays in
  service order; forced dispatch ends and sends every request once. A preempting queue that is not idle comes first if and
  only if no busy queue is of a better class; an idle one goes to the end, and comes first only if it is alone, or is the last
  one and due before all others. A priority change on the tree can break the order: exactly when is proved. `CfqRuns.dfy` has
  a run for each of the three failures.
- **Barriers** (`BarrierSeq.dfy`, `Barrier.dfy`). Which stages a barrier has is stated by its size and the mode of the device,
  and over every run each barrier that has ended had each of them completed exactly once, on a draining device in order. There
  a stage goes out only when everything queued before the barrier is complete, and nothing queued after it goes out before it
  has ended. Every barrier ends once, with the first error; no sequence stalls. On every device no request is late for its
  stage.
- **Asynchronous chainiv** (`Chainiv.dfy`). A state machine of atomic steps with any number of callers: one owner, no work item
  queued twice, the right IV and the right answer for every request, each request with a thread, queued, encrypted or refused
  and in one place only, every thread over after at most twenty of its own steps; and queued requests wait for nobody exactly
  after a first caller whose random generator failed, until the next call.
- **crypto_queue and cryptd** (`CryptoQueue.dfy`, `Cryptd.dfy`). Service is first in, first out, and every backlogged request is
  announced once and before its completion.
- **Algorithm removal** (`Spawns.dfy`). The walk with an explicit stack ends and kills exactly what is built on the algorithm.
- **GF(2^128), GHASH, CBC, CTR, CTS, CCM** (`Gf128.dfy`, `Gf128Mul.dfy`, `Ghash.dfy`, `Cbc.dfy`, `Ctr.dfy`, `Cts.dfy`,
  `Ccm.dfy`, with `CryptoBytes.dfy` and `BlockCipher.dfy`). The table-driven, streaming, in-place and backward loops compute
  what the NIST and RFC documents define; each mode is inverted by its partner; CCM decryption accepts exactly what encryption
  produces, every byte of which is given by a counter block; what it authenticates is an encoding of nonce, additional data and
  message; the one message length that CCM accepts and does not encode is identified.
- **Completion, timeout and softirq** (`BlkSoftirq.dfy`, `BlkTimeout.dfy`). Under every interleaving a request enters
  completion at most once, every answer of the timeout function is followed, every request that entered is finished once, also
  when CPUs go away with requests on their lists, and the timeout lists lose nothing.

Conventions. Requests, algorithms and spawns are named by numbers that stand for their addresses. A C structure becomes a
class whose fields are updated by methods; groups of its fields are records, so that their invariants can be proved apart.
Ghost fields record the history that the properties speak of. An rbtree is the in-order sequence of its nodes; where its shape
matters, every shape is considered. Time and the answers of drivers, the random generator and heuristics are parameters. The
`elv_*` functions of `block/elevator.c` that schedulers and barriers go through are modelled too; the table cites the
code that they serve.

## Model

| member | source | states |
|---|---|---|
| `Camellia.FLInvUndoesFL` | linux-2.6.32.21/crypto/camellia.c:854-868 | FLinv undoes FL for every key and half block |
| `Camellia.FLUndoesFLInv` | linux-2.6.32.21/crypto/camellia.c:854-868 | FL undoes FLinv |
| `Camellia.FlsInverse` | linux-2.6.32.21/crypto/camellia.c:854-868 | the FL layer with its two keys exchanged, on exchanged halves, undoes the FL layer |
| `Camellia.SixInverse` | linux-2.6.32.21/crypto/camellia.c:896-915 | six rounds run backwards on exchanged halves undo six rounds, for every table and key |
| `Camellia.RoundsInverse` | linux-2.6.32.21/crypto/camellia.c:887-995 | induction over the groups of rounds: running back over what was run forward from group g leaves the block as it was at g |
| `Camellia.DecryptInvertsEncrypt` | linux-2.6.32.21/crypto/camellia.c:887-995 | decryption inverts encryption for every subkey array, every number of groups, all S-box tables and every block |
| `Camellia.EncryptInvertsDecrypt` | linux-2.6.32.21/crypto/camellia.c:887-995 | encryption inverts decryption, so that both are permutations of the blocks |
| `Camellia.ThroughLinear` | linux-2.6.32.21/crypto/camellia.c:393-396 | taking a whitening key through an FL layer is linear |
| `Camellia.FLInvShifts` | linux-2.6.32.21/crypto/camellia.c:393-396 | a constant on the input of FLinv appears on its output as the constant taken through the layer |
| `Camellia.FLShifts` | linux-2.6.32.21/crypto/camellia.c:438-441 | a constant taken through the layer on the input of FL appears on its output as the constant |
| `Camellia.PHalfUndone` | linux-2.6.32.21/crypto/camellia.c:561-577 | the word operations that finish a round key are inverted by the last half of the P-function |
| `Camellia.RoundSimulates` | linux-2.6.32.21/crypto/camellia.c:870-884 | one fast round equals one round of RFC 3713 when the halves carry known constants: the new half carries the next one |
| `Camellia.PairSimulates` | linux-2.6.32.21/crypto/camellia.c:896-915 | the same for two rounds |
| `Camellia.SixSimulate` | linux-2.6.32.21/crypto/camellia.c:896-915 | the same for a group of six rounds, with the constants at its entry and exit |
| `Camellia.FlsSimulates` | linux-2.6.32.21/crypto/camellia.c:854-868 | the FL layer hands the constants of one group on to the next |
| `Camellia.RoundsSimulate` | linux-2.6.32.21/crypto/camellia.c:887-929 | induction over the groups: the fast code and the plain structure stay related by the carried constants to the end |
| `Camellia.ScheduleEncrypts` | linux-2.6.32.21/crypto/camellia.c:381-578 | for every finished schedule, all tables and every block the fast code computes the whitening, Feistel and FL/FLinv structure with the raw subkeys, which CamelliaRfc.EncryptIs ties to RFC 3713 |
| `CamelliaSetup.AbsorbKw2` | linux-2.6.32.21/crypto/camellia.c:387-430 | in place: kw2 is taken into every second round key and through the FL keys up to the last group |
| `CamelliaSetup.AbsorbKw4` | linux-2.6.32.21/crypto/camellia.c:431-469 | in place: kw4 is taken back through every second round key and the FL keys to the first group |
| `CamelliaSetup.MoveKeys` | linux-2.6.32.21/crypto/camellia.c:470-560 | every round key is moved to the end of the round before it, across the FL layers as well |
| `CamelliaSetup.UndoPHalf` | linux-2.6.32.21/crypto/camellia.c:561-577 | the loop applies the inverse of half the P-function to the round keys and to no other slot |
| `CamelliaSetup.AbsorptionCancels` | linux-2.6.32.21/crypto/camellia.c:387-560 | in the moved keys everything that was absorbed cancels, in every slot |
| `CamelliaSetup.FirstOfGroupCancels` | linux-2.6.32.21/crypto/camellia.c:492-496 | it cancels for the first round key of a group, where the FL layer stands between |
| `CamelliaSetup.LastOfGroupCancels` | linux-2.6.32.21/crypto/camellia.c:482-487 | and for the last round key of a group |
| `CamelliaSetup.FinishedSchedule` | linux-2.6.32.21/crypto/camellia.c:381-578 | absorbing, moving and undoing together give a schedule in the sense of ScheduleEncrypts |
| `CamelliaSetup.SetupTail` | linux-2.6.32.21/crypto/camellia.c:381-578 | for 24 and 32 slots and every raw subkey array the subkeys written make the fast code equal to the plain structure, for all tables and blocks |
| `CamelliaBlock.RoundMacro` | linux-2.6.32.21/crypto/camellia.c:870-884 | the macro, with its word-by-word order of look-ups and exclusive-ors, computes the fast round, which RoundSimulates relates to the F-function |
| `CamelliaBlock.SixRounds` | linux-2.6.32.21/crypto/camellia.c:896-915 | in place: ROUNDS of the encryption is the six rounds of the model |
| `CamelliaBlock.SixRoundsBack` | linux-2.6.32.21/crypto/camellia.c:951-970 | in place: ROUNDS of the decryption is the six backward rounds |
| `CamelliaBlock.FlsMacro` | linux-2.6.32.21/crypto/camellia.c:854-868 | in place: FL on the left half and FLinv on the right half, which FLIsFL ties to section 2.4 of RFC 3713 |
| `CamelliaBlock.DoEncrypt` | linux-2.6.32.21/crypto/camellia.c:887-940 | in place: the whole encryption for 24 and 32 slots is the fast cipher, which FastIsRfc ties to RFC 3713 |
| `CamelliaBlock.DoDecrypt` | linux-2.6.32.21/crypto/camellia.c:942-995 | in place: the whole decryption is the fast decryption, which inverts the fast cipher in both directions |
| `CamelliaRfc.FIsF` | linux-2.6.32.21/crypto/camellia.c:359-376 | CAMELLIA_F with its four combined tables is the F-function of section 2.4.1 of RFC 3713, the eight equations of P over the four S-boxes, for all S-boxes: no two look-ups can be exchanged |
| `CamelliaRfc.RotatedBits` | linux-2.6.32.21/crypto/camellia.c:854-868 | the rotation of the RFC moves every bit up by one place and the highest to the lowest |
| `CamelliaRfc.RolBits` | linux-2.6.32.21/crypto/camellia.c:854-868 | rol32 by one does the same, bit by bit |
| `CamelliaRfc.FLIsFL` | linux-2.6.32.21/crypto/camellia.c:854-868 | FL and FLinv on words are the functions of section 2.4.2 and 2.4.3 of RFC 3713 on 64-bit numbers |
| `CamelliaRfc.RoundsAre` | linux-2.6.32.21/crypto/camellia.c:887-929 | by induction over the groups: the rounds and layers in the order and with the key numbers of the RFC |
| `CamelliaRfc.EncryptIs` | linux-2.6.32.21/crypto/camellia.c:887-940 | the structure with the raw subkeys is the cipher of section 2.3 of RFC 3713, 18 or 24 rounds, on 64-bit numbers |
| `CamelliaRotate.RotlTwice` | linux-2.6.32.21/crypto/camellia.c:340-357 | rotating bit by bit, first by m and then by n places, is rotating by their sum |
| `CamelliaRotate.Roldq` | linux-2.6.32.21/crypto/camellia.c:340-347 | the macro on four words is a rotation of the 128-bit number, for the amounts used |
| `CamelliaRotate.RoldqO32` | linux-2.6.32.21/crypto/camellia.c:349-357 | so is the macro for more than 32 places |
| `CamelliaKeys.FMacro` | linux-2.6.32.21/crypto/camellia.c:359-376 | the macro, with its exchanged names for the two words, computes the F-function |
| `CamelliaKeys.KAIs` | linux-2.6.32.21/crypto/camellia.c:635-653 | the shortened computation of KA, in which halves of KL cancel, gives KA of section 2.2 of RFC 3713 |
| `CamelliaKeys.MakeKA128` | linux-2.6.32.21/crypto/camellia.c:635-653 | KA of the RFC for a key without a right half |
| `CamelliaKeys.MakeKA` | linux-2.6.32.21/crypto/camellia.c:756-774 | KA of the RFC for a key with one |
| `CamelliaKeys.MakeKB` | linux-2.6.32.21/crypto/camellia.c:776-786 | KB of the RFC |
| `CamelliaKeys.Places128` | linux-2.6.32.21/crypto/camellia.c:595-681 | every slot holds the rotation that was put there: none is overwritten later |
| `CamelliaKeys.Holds128` | linux-2.6.32.21/crypto/camellia.c:595-681 | these are kw1 to kw4, k1 to k18 and ke1 to ke4 of the table in section 2.2 of RFC 3713 |
| `CamelliaKeys.Setup128` | linux-2.6.32.21/crypto/camellia.c:580-684 | for every key of 128 bits and all S-boxes the table is a schedule made from the subkeys of the RFC |
| `CamelliaKeys.PutKR256` | linux-2.6.32.21/crypto/camellia.c:733-754 | the rotations of KR go all the way around and bring back KR, which the code then uses for KA |
| `CamelliaKeys.Places256` | linux-2.6.32.21/crypto/camellia.c:707-830 | the same for 256 bits, over its four passes |
| `CamelliaKeys.Holds256` | linux-2.6.32.21/crypto/camellia.c:707-830 | and the table of the RFC for 192 and 256 bits |
| `CamelliaKeys.Setup256` | linux-2.6.32.21/crypto/camellia.c:686-833 | for every key of 256 bits the table is a schedule made from the subkeys of the RFC |
| `CamelliaKeys.Setup192` | linux-2.6.32.21/crypto/camellia.c:835-848 | for every key of 192 bits, filled up with its complement, as well |
| `CamelliaBlock.FastIsRfc` | linux-2.6.32.21/crypto/camellia.c:887-940 | the fast cipher with such a table is the cipher of RFC 3713 with the key, for every block and all S-boxes |
| `CamelliaBlock.Context.SetKey` | linux-2.6.32.21/crypto/camellia.c:1004-1031 | -EINVAL and no change exactly if the length is wrong; otherwise the context holds the key |
| `CamelliaBlock.Context.Encrypt` | linux-2.6.32.21/crypto/camellia.c:1033-1055 | end to end, key schedule included: the cipher of RFC 3713 with the key |
| `CamelliaBlock.Context.Decrypt` | linux-2.6.32.21/crypto/camellia.c:1057-1079 | the one block whose encryption under the RFC is the given one |
| `Elevator.AtPos` | linux-2.6.32.21/block/as-iosched.c:263-271 | what elv_rb_add finds at a sector: a request that starts there if there is one, nothing otherwise |
| `Elevator.InsertSorted` | linux-2.6.32.21/block/as-iosched.c:263-271 | adding at a free sector keeps the list strictly sorted and adds exactly that request |
| `Elevator.RemoveSorted` | linux-2.6.32.21/block/as-iosched.c:273-276 | removing keeps it sorted and takes away exactly that request |
| `Seek.SoonerOrder` | linux-2.6.32.21/block/as-iosched.c:293-361 | the way a head moves, forward first, back a bounded way at a price, and otherwise around, is a strict total order of sectors |
| `Seek.FirstIsHere` | linux-2.6.32.21/block/as-iosched.c:293-361 | the first of a sorted list in that order is known from its two neighbours and the two ends of the list |
| `AsChoice.ChooseIsTotalOrder` | linux-2.6.32.21/block/as-iosched.c:293-361 | among requests with different start sectors as_choose_req is a strict total order, whatever the order of its arguments |
| `AsChoice.ChooseMeans` | linux-2.6.32.21/block/as-iosched.c:293-361 | which of two requests is chosen, by their sectors and directions alone, in every case; the farther one never is |
| `AsChoice.BestIsHere` | linux-2.6.32.21/block/as-iosched.c:293-361 | a request is the best of its list if and only if it is the first in seek order there |
| `AsChoice.BestIsUnique` | linux-2.6.32.21/block/as-iosched.c:293-361 | there is one best request of a sorted list |
| `AsChoice.FindNextIsNeighbour` | linux-2.6.32.21/block/as-iosched.c:368-391 | as_find_next_rq finds another request of the list, and nothing exactly if there is none |
| `AsChoice.NeighboursSuffice` | linux-2.6.32.21/block/as-iosched.c:368-391 | if that condition on sectors holds, the neighbours of the removed request give the best of the whole rest for the new head position |
| `AsChoice.NeighboursNeeded` | linux-2.6.32.21/block/as-iosched.c:368-391 | if it does not hold, they do not |
| `AsChoice.FindNextIsBest` | linux-2.6.32.21/block/as-iosched.c:368-391 | the neighbour-only search finds the global optimum if and only if a condition on sectors holds: the removed request does not reach into its successor, or the next successor is farther ahead of its end than twice the distance back to the first one, or, where the first one is too far back, all others are too and at most one of them lies before |
| `AsChoice.ApartDecides` | linux-2.6.32.21/block/as-iosched.c:368-391 | the condition holds for requests that do not overlap, and they stay apart after a removal |
| `AsChoice.OverlapMisleads` | linux-2.6.32.21/block/as-iosched.c:368-391 | counterexample: three overlapping requests, where the neighbours give a request that is not the best |
| `AsChoice.ChooseKeepsBest` | linux-2.6.32.21/block/as-iosched.c:263-271 | a new request keeps the cache best if it is compared with the cached one alone |
| `AsSched.TakeOutOk` | linux-2.6.32.21/block/as-iosched.c:973-1017 | dispatching keeps both lists equal as multisets and leaves next_rq best for the new last_sector exactly if the neighbours decide |
| `AsSched.PutInOk` | linux-2.6.32.21/block/as-iosched.c:1186-1212 | adding keeps the lists equal and next_rq best |
| `AsSched.RemoveFrom` | linux-2.6.32.21/block/as-iosched.c:898-922 | step by step: off both lists, with a new cache exactly if the cached request goes |
| `AsSched.RemoveQueuedOk` | linux-2.6.32.21/block/as-iosched.c:898-922 | removing any request keeps both lists equal and a cache that is in the list |
| `AsSched.TakeFrom` | linux-2.6.32.21/block/as-iosched.c:986-1008 | step by step: the head moves first, then the cache, then the lists |
| `AsSched.LanesTakeOut` | linux-2.6.32.21/block/as-iosched.c:973-1017 | both directions together: a dispatched request is on no list and not in flight twice |
| `AsSched.LanesPutIn` | linux-2.6.32.21/block/as-iosched.c:1186-1212 | both directions together after an addition |
| `AsSched.AliasLeaves` | linux-2.6.32.21/block/as-iosched.c:263-271 | once the request at the same sector is gone, the sector is free, so that the loop runs at most once |
| `AsSched.HeadIsMostUrgent` | linux-2.6.32.21/block/as-iosched.c:932-951 | the head of a FIFO is overdue if and only if any request of it is |
| `AsSched.TimesPutIn` | linux-2.6.32.21/block/as-iosched.c:1186-1212 | with a clock that does not go back, deadlines stay in FIFO order |
| `AsSched.BatchDispatch` | linux-2.6.32.21/block/as-iosched.c:973-1017 | nr_dispatched counts what is in flight, and the flight has one direction unless a request of the other one is sent |
| `AsSched.BatchSwitch` | linux-2.6.32.21/block/as-iosched.c:1097-1145 | turning to a direction: the other one if both wait; changed_batch is set exactly if the direction changes; changed_batch and new_batch are never both set |
| `AsSched.BatchStart` | linux-2.6.32.21/block/as-iosched.c:1160-1173 | a changed batch with nothing in flight starts at once |
| `AsSched.BatchComplete` | linux-2.6.32.21/block/as-iosched.c:840-890 | the last completion of the old batch starts the new one; the invariant of the batch is kept |
| `AsSched.AnticDispatch` | linux-2.6.32.21/block/as-iosched.c:973-1017 | a dispatch ends anticipation and names the process of the request; it goes stale exactly if it is a read without an io_context while an earlier process is named that has nothing in flight |
| `AsSched.AnticComplete` | linux-2.6.32.21/block/as-iosched.c:840-890 | completions keep this: the named process has a request in flight or one completed, if and only if the last dispatch was not stale; the timer is armed exactly while the next request is waited for |
| `AsSched.WaitEnds` | linux-2.6.32.21/block/as-iosched.c:433-447 | a wait is for something that comes, an armed timer or a request in flight whose completion arms it, if and only if the last dispatch was not stale |
| `AsSched.TimerRuns` | linux-2.6.32.21/block/as-iosched.c:840-890 | when everything in flight has completed, in whatever order, the timer of a wait is armed if and only if the last dispatch was not stale |
| `AsSched.StaleWaits` | linux-2.6.32.21/block/as-iosched.c:649-739 | a stale wait as a run from an empty queue: with nothing in flight and no timer armed, anticipation waits and holds back a far request of another process |
| `AsSched.AsData.constructor` | linux-2.6.32.21/block/as-iosched.c:1354-1386 | the initial state satisfies the whole invariant |
| `AsSched.AsData.MoveToDispatch` | linux-2.6.32.21/block/as-iosched.c:973-1017 | exact new state; next_rq is best again exactly if the neighbours decide; directions mix exactly if the request is of the wrong one |
| `AsSched.AsData.CompletedRequest` | linux-2.6.32.21/block/as-iosched.c:840-890 | exact new batch and anticipation state for an activated request, nothing but its state for any other; in both cases the invariant |
| `AsSched.AsData.AccountBatch` | linux-2.6.32.21/block/as-iosched.c:851-873 | step by step: when a batch starts with a completion, and its deadline |
| `AsSched.AsData.AccountAntic` | linux-2.6.32.21/block/as-iosched.c:875-884 | step by step: when a wait begins and arms the timer |
| `AsSched.AsData.UpdateWriteBatch` | linux-2.6.32.21/block/as-iosched.c:811-834 | step by step: the number of writes for the next batch |
| `AsSched.CompletedMeans` | linux-2.6.32.21/block/as-iosched.c:840-890 | a batch starts with the last completion of the one before or with the first read of a new read batch, has its deadline from its direction, and nothing else moves a deadline |
| `AsSched.AsData.ActivateRequest` | linux-2.6.32.21/block/as-iosched.c:1214-1220 | a dispatched request is in flight and stays so |
| `AsSched.AsData.DeactivateRequest` | linux-2.6.32.21/block/as-iosched.c:1222-1228 | the driver gives a request back |
| `AsSched.AsData.AnticTimeout` | linux-2.6.32.21/block/as-iosched.c:469-496 | the timer ends a wait and queues the work, also if it goes off just before it is stopped; nothing else changes |
| `AsSched.AsData.FifoExpired` | linux-2.6.32.21/block/as-iosched.c:932-951 | unless asked less than fifo_expire ago it says whether any request of the FIFO is overdue, and notes the time |
| `AsSched.AsData.AddRequest` | linux-2.6.32.21/block/as-iosched.c:1186-1212 | exact new lists, deadlines, states and anticipation, with and without an alias, which goes to the driver first; if the queued requests do not overlap, next_rq stays best in both directions |
| `AsSched.AsData.AddAliasFree` | linux-2.6.32.21/block/as-iosched.c:263-271 | the alias loop ends with the sector free, having dispatched the alias and nothing else |
| `AsSched.AsData.DispatchRequest` | linux-2.6.32.21/block/as-iosched.c:1024-1181 | dispatches nothing if and only if it is blocked, the read batch pauses for its process, or it has just turned and something is in flight; otherwise the candidate of the direction whose turn it is; with reads and writes waiting it turns to the other direction if and only if the deadline of the batch is over or it has sent all its writes; a read batch whose deadline is over gives way to a waiting write, and one with no write waiting gets more time; a write batch is noted as idle exactly if it runs dry with no read waiting; never mixes directions; keeps next_rq best |
| `AsSched.AsData.DispatchNow` | linux-2.6.32.21/block/as-iosched.c:1072-1181 | the same once something may be dispatched, with the same deadlines |
| `AsSched.AsData.DispatchRunning` | linux-2.6.32.21/block/as-iosched.c:1072-1095 | the running batch goes on, pauses, or has nothing to offer |
| `AsSched.AsData.DispatchBatch` | linux-2.6.32.21/block/as-iosched.c:1150-1181 | within a batch the oldest request goes if it is overdue, the cached one otherwise |
| `AsSched.AsData.DispatchSwitched` | linux-2.6.32.21/block/as-iosched.c:1097-1181 | a new direction: exact batch state; a changed batch waits until the flight is empty and then sends the oldest request of the new direction |
| `AsSched.AsData.DispatchForced` | linux-2.6.32.21/block/as-iosched.c:1031-1058 | forced dispatch ends, sends every queued request once, returns their number and leaves all lists empty; directions mix exactly if that is so of what was queued and in flight |
| `AsSched.AsData.DrainLane` | linux-2.6.32.21/block/as-iosched.c:1045-1055 | one of its loops, whose end rests on next_rq being missing only if the list is empty |
| `AsSched.AsData.DrainOne` | linux-2.6.32.21/block/as-iosched.c:1045-1055 | one round of it |
| `AsSched.ReadsGiveWay` | linux-2.6.32.21/block/as-iosched.c:1024-1181 | over every run of arrivals, activations, completions, timer and dispatches: while a read batch is served and a write waits, the first dispatch after the deadline of the batch turns to the writes, unless anticipation holds everything back or no read is left; until then batch and deadline stay |
| `AsSched.AsData.CanBreakAnticipation` | linux-2.6.32.21/block/as-iosched.c:649-739 | step by step: when a wait is broken off |
| `AsSched.AsData.TryPause` | linux-2.6.32.21/block/as-iosched.c:1082-1090 | a read batch pauses exactly if Pauses says so |
| `AsSched.AsData.Switch` | linux-2.6.32.21/block/as-iosched.c:1097-1145 | step by step: the new direction, and what that does to the batch |
| `CfqTree.Walk` | linux-2.6.32.21/block/cfq-iosched.c:528-567 | the walk ends at the place that the comparison defines, and left stays set exactly if the new node becomes the first |
| `CfqTree.TimeBeforeSigned` | linux-2.6.32.21/block/cfq-iosched.c:559-560 | time_before means that the difference, brought into the range of a signed long, is negative |
| `CfqTree.TimeBeforeInWindow` | linux-2.6.32.21/block/cfq-iosched.c:559-560 | within half the range of jiffies the wrapping comparison is the order of the distances from a base |
| `CfqTree.OrderMeaning` | linux-2.6.32.21/block/cfq-iosched.c:546-562 | the comparison means: real-time first, idle last, then by service time |
| `CfqTree.OrderTransitive` | linux-2.6.32.21/block/cfq-iosched.c:546-562 | it is transitive, also through its negation |
| `CfqTree.PlaceSplits` | linux-2.6.32.21/block/cfq-iosched.c:528-567 | by induction over any tree shape: everything before the place is not later, everything behind it is later |
| `CfqTree.AddKeepsOrder` | linux-2.6.32.21/block/cfq-iosched.c:492-573 | inserting there keeps the tree in service order, whatever shape rebalancing has left it in |
| `CfqTree.NeighboursKeepOrder` | linux-2.6.32.21/block/cfq-iosched.c:2259-2279 | a node whose class or key changes on the tree leaves it in order if and only if it still fits between its two neighbours |
| `CfqQueue.FindNextIsNeighbour` | linux-2.6.32.21/block/cfq-iosched.c:453-475 | cfq_find_next_rq finds another request of the queue, and nothing exactly if there is none; which one is FindNextIsBest |
| `CfqQueue.ChooseMeans` | linux-2.6.32.21/block/cfq-iosched.c:333-418 | which of two requests cfq_choose_req takes: synchronous first, then metadata, then the first in seek order by sectors; never the farther one |
| `CfqQueue.ChooseIsTotalOrder` | linux-2.6.32.21/block/cfq-iosched.c:333-418 | it is a strict total order on requests with different sectors, whatever the order of its arguments |
| `CfqQueue.BestIsHere` | linux-2.6.32.21/block/cfq-iosched.c:333-418 | a request is the best of its queue if and only if it has the best rank and is the first in seek order among those |
| `CfqQueue.FindNextIsBest` | linux-2.6.32.21/block/cfq-iosched.c:453-475 | the search among neighbours finds the best request of the rest if and only if one of the two requests it looks at leads the rest |
| `CfqQueue.InsertBest` | linux-2.6.32.21/block/cfq-iosched.c:721-725 | after an insertion the cached request is the best one if and only if it was before or the new one is |
| `CfqQueue.RemoveFrom` | linux-2.6.32.21/block/cfq-iosched.c:786-801 | step by step: cfq_remove_request and cfq_del_rq_rb |
| `CfqQueue.DispatchFrom` | linux-2.6.32.21/block/cfq-iosched.c:1128-1142 | step by step: the cache first, then the removal and the counters |
| `CfqQueue.AttachTo` | linux-2.6.32.21/block/cfq-iosched.c:703-734 | step by step: the end of cfq_add_rq_rb |
| `CfqQueue.DispatchedBest` | linux-2.6.32.21/block/cfq-iosched.c:1128-1142 | after a dispatch the cached request is the best of the rest if and only if a neighbour of the one sent leads it |
| `CfqQueue.RemovedOk` | linux-2.6.32.21/block/cfq-iosched.c:786-801 | removing a request keeps lists, counters, on_rr and next_rq in step; the BUG_ON and WARN_ON on the counters cannot fire |
| `CfqQueue.DispatchedOk` | linux-2.6.32.21/block/cfq-iosched.c:1128-1142 | so does dispatching one |
| `CfqQueue.ReturnedOk` | linux-2.6.32.21/block/cfq-iosched.c:2201-2217 | so does completing one that was dispatched, and dispatched was positive |
| `CfqQueue.AttachedOk` | linux-2.6.32.21/block/cfq-iosched.c:703-734 | so does sorting a request in whose place in the FIFO exists already |
| `CfqQueue.InsertedOk` | linux-2.6.32.21/block/cfq-iosched.c:2160-2174 | so does inserting a new one |
| `CfqQueue.DetachedOk` | linux-2.6.32.21/block/cfq-iosched.c:736-741 | while a merged request is off the sorted list, the lists differ by exactly that request |
| `CfqQueue.TakesPlace` | linux-2.6.32.21/block/cfq-iosched.c:828-842 | moving a request behind the one merged into it and removing that one puts it in the place of that one |
| `CfqSched.ErasedLeft` | linux-2.6.32.21/block/cfq-iosched.c:443-448 | erasing a node keeps the cached leftmost node right |
| `CfqSched.RrDel` | linux-2.6.32.21/block/cfq-iosched.c:668-683 | taking a queue off keeps tree, on_rr flags and busy_queues in step; its BUG_ONs cannot fire |
| `CfqSched.RrInsert` | linux-2.6.32.21/block/cfq-iosched.c:528-573 | putting a queue on at any place keeps them in step and the cache right |
| `CfqSched.DropKeepsOrder` | linux-2.6.32.21/block/cfq-iosched.c:443-448 | erasing keeps the service order |
| `CfqSched.AddKeepsOrdered` | linux-2.6.32.21/block/cfq-iosched.c:492-573 | adding keeps it while keys stay in the window |
| `CfqTree.PlacedFirst` | linux-2.6.32.21/block/cfq-iosched.c:528-567 | whatever the shape, a node is placed first if and only if it goes to the left of the first one |
| `CfqSched.BusyGoesFirst` | linux-2.6.32.21/block/cfq-iosched.c:518-522 | a key one second before that of the first queue puts a queue that is not idle in front if and only if no queue on the tree is of a better class |
| `CfqSched.IdleGoesLast` | linux-2.6.32.21/block/cfq-iosched.c:500-508 | the key of an idle queue, behind the last one, does not put it in front of any other |
| `CfqSched.StaysFirst` | linux-2.6.32.21/block/cfq-iosched.c:524-531 | a queue that keeps its key and so its place is first if and only if it belongs there |
| `CfqSched.FirstMeans` | linux-2.6.32.21/block/cfq-iosched.c:492-573 | together: which preempting queues belong first, for every class and every tree in order |
| `CfqSched.CfqData.FrontIff` | linux-2.6.32.21/block/cfq-iosched.c:492-573 | and they are put first, whether they move or stay |
| `CfqSched.OrderedIfFits` | linux-2.6.32.21/block/cfq-iosched.c:2259-2279 | a priority change on the tree keeps the service order if and only if the queue still fits between its neighbours |
| `CfqRuns.BoostMisplaces` | linux-2.6.32.21/block/cfq-iosched.c:2259-2279 | counterexample, as a run from an empty scheduler: an idle queue that waited for a best-effort queue with a request in flight is boosted to best effort, and stays behind that queue although it now belongs in front of it |
| `CfqRuns.RealtimeStaysAhead` | linux-2.6.32.21/block/cfq-iosched.c:2092-2107 | as a run from an empty scheduler: a best-effort queue preempts the active real-time queue, which has a request in flight and one queued, with a metadata request, gets a key before it, and is still behind it |
| `CfqRuns.IdleFallsBehind` | linux-2.6.32.21/block/cfq-iosched.c:500-508 | as a run from an empty scheduler: the active queue has used up its slice and its process has become idle; another idle queue preempts it and ends behind it, with no queue of a better class busy |
| `CfqSched.CfqData.RbFirst` | linux-2.6.32.21/block/cfq-iosched.c:426-435 | the cached and the real first queue agree; at most the cache is filled |
| `CfqSched.CfqData.NewKey` | linux-2.6.32.21/block/cfq-iosched.c:500-522 | the key of each of the three cases, modulo the word size, and the residual slice, which is used up exactly where it enters the key |
| `CfqSched.CfqData.SliceByPriority` | linux-2.6.32.21/block/cfq-iosched.c:290-298 | priority 4 has the base slice, every step is worth a fifth of it, and all eight priorities get some time |
| `CfqSched.CfqData.TurnsByPriority` | linux-2.6.32.21/block/cfq-iosched.c:477-485 | a turn is put off by nothing for a single or the most favoured queue, and the more, the more queues are busy and the shorter its slice is |
| `CfqSched.CfqData.ServiceTreeAdd` | linux-2.6.32.21/block/cfq-iosched.c:492-573 | exact key and residual slice; other queues keep their order; tree, flags, busy_queues and cache agree; the service order is kept in the window; a preempting queue is first if and only if no queue of a better class is on the tree, or, if it is idle, if it is alone or the last one and due before all others |
| `CfqSched.CfqData.PutOnTree` | linux-2.6.32.21/block/cfq-iosched.c:524-573 | erasing, walking and linking keep all of this |
| `CfqSched.CfqData.ResortRrList` | linux-2.6.32.21/block/cfq-iosched.c:639-648 | a busy queue gets its next turn, any other stays off the tree |
| `CfqSched.CfqData.SliceExpired` | linux-2.6.32.21/block/cfq-iosched.c:892-928 | the active queue stores its residual slice, gets its next turn if busy, and is active no more; all other queues are as before |
| `CfqSched.CfqData.RemoveRequest` | linux-2.6.32.21/block/cfq-iosched.c:786-801 | exact new queue; the queue leaves the tree with its last request; the invariant over all queues is kept |
| `CfqSched.CfqData.Leave` | linux-2.6.32.21/block/cfq-iosched.c:688-701 | how a queue that lost a request leaves the tree, and what that does to the totals |
| `CfqSched.CfqData.DispatchInsert` | linux-2.6.32.21/block/cfq-iosched.c:1128-1142 | one request goes to the dispatch list and from exactly one FIFO; counters follow; the service order is kept |
| `CfqSched.CfqData.ClearSector` | linux-2.6.32.21/block/cfq-iosched.c:709-716 | the alias loop ends with the sector free, having dispatched exactly the alias |
| `CfqSched.CfqData.Join` | linux-2.6.32.21/block/cfq-iosched.c:718-734 | an idle queue joins the tree with its first request, a busy one stays where it is |
| `CfqSched.CfqData.InsertRequest` | linux-2.6.32.21/block/cfq-iosched.c:2160-2174 | exact new queue and key, with and without an alias; next_rq is the best request if and only if it was before or the new one is; conservation of requests; the invariant and the service order are kept |
| `CfqSched.CfqData.InsertFree` | linux-2.6.32.21/block/cfq-iosched.c:2160-2174 | the same once the sector is free |
| `CfqSched.CfqData.FrontMerged` | linux-2.6.32.21/block/cfq-iosched.c:818-826 | a front merge that moves a request onto the sector of another dispatches that one and keeps everything in step |
| `CfqSched.CfqData.Reposition` | linux-2.6.32.21/block/cfq-iosched.c:736-741 | its first half, with the merged request in the FIFO only |
| `CfqSched.CfqData.TakeBack` | linux-2.6.32.21/block/cfq-iosched.c:736-741 | its second half, from which the whole invariant holds again |
| `CfqSched.CfqData.MergedRequests` | linux-2.6.32.21/block/cfq-iosched.c:828-842 | exact FIFO: the surviving request takes the place of the merged one if that was older; exactly the merged one leaves |
| `CfqSched.CfqData.CompletedRequest` | linux-2.6.32.21/block/cfq-iosched.c:2201-2253 | for a request in flight and activated: dispatched, sync_flight and rq_in_driver count exactly what is in flight and in the driver, and were positive, so that the WARN_ONs cannot fire; the active queue gives way exactly if its slice is used up or it is idle |
| `CfqSched.CfqData.Accounted` | linux-2.6.32.21/block/cfq-iosched.c:2201-2217 | its counters |
| `CfqSched.CfqData.ActivateRequest` | linux-2.6.32.21/block/cfq-iosched.c:764-773 | the head position; rq_in_driver counts exactly the activated requests |
| `CfqSched.CfqData.DeactivateRequest` | linux-2.6.32.21/block/cfq-iosched.c:775-784 | for an activated request: the count was positive, so that the WARN_ON cannot fire, and is one less |
| `CfqSched.CfqData.PreemptQueue` | linux-2.6.32.21/block/cfq-iosched.c:2092-2107 | for every state with an active queue: after its slice is over, a preempting queue that is not idle is first on the tree if and only if no busy queue is of a better class, and an idle one if and only if it is alone or the last one and due before all others; the BUG_ON cannot fire after an insertion |
| `CfqSched.CfqData.ShouldPreempt` | linux-2.6.32.21/block/cfq-iosched.c:2029-2086 | the cascade of tests decides as Preempts says: an idle queue only once the slice is used up, any other one also against an idle queue, with a synchronous request against an asynchronous queue, with metadata against a queue without, from real time against the rest, or if it is close |
| `CfqSched.CfqData.RqEnqueued` | linux-2.6.32.21/block/cfq-iosched.c:2114-2158 | the queue of a new request preempts exactly if cfq_should_preempt says so, with the consequences above, and otherwise nothing changes |
| `CfqSched.CfqData.NewQueue` | linux-2.6.32.21/block/cfq-iosched.c:1686-1704 | a new queue is off the tree with nothing queued |
| `CfqSched.CfqData.ChangePriority` | linux-2.6.32.21/block/cfq-iosched.c:2259-2279 | keeps all counters, and the service order if and only if the queue still fits between its neighbours |
| `CfqSched.CfqData.SelectQueue` | linux-2.6.32.21/block/cfq-iosched.c:1181-1229 | which queue is selected in every case, and the exact queues after it; without an active queue nothing moves; a selected queue has requests, so that the BUG_ON of cfq_dispatch_request cannot fire |
| `CfqSched.CfqData.DispatchRequest` | linux-2.6.32.21/block/cfq-iosched.c:1332-1361 | sends the oldest request if it has expired and the cached one otherwise, exactly once; the next cached one is the best of the rest if and only if a neighbour of the one sent leads it |
| `CfqSched.CfqData.ForcedDispatchQueue` | linux-2.6.32.21/block/cfq-iosched.c:1231-1242 | ends with the queue empty; what was sent and what is queued add up; its BUG_ON cannot fire |
| `CfqSched.CfqData.ForcedDispatch` | linux-2.6.32.21/block/cfq-iosched.c:1248-1262 | from every valid state it ends, sends every queued request exactly once, returns the old rq_queued, and leaves all FIFOs and the tree empty and busy_queues zero |
| `BarrierSeq.CurIsFirstOpen` | linux-2.6.32.21/block/blk-barrier.c:55-60 | the current stage is the lowest one not complete |
| `BarrierSeq.CompleteBits` | linux-2.6.32.21/block/blk-barrier.c:91-111 | completing sets exactly the given stage bits |
| `BarrierSeq.DoneMeans` | linux-2.6.32.21/block/blk-barrier.c:91-111 | a sequence is over exactly if no stage is open |
| `Barrier.PlanIs` | linux-2.6.32.21/block/blk-barrier.c:153-219 | the stages that start_ordered queues for each mode and size are those that Documentation/block/barrier.txt lists: the barrier if it has data, a flush before it on a device with a cache, one behind it unless it writes through |
| `Barrier.ModeFor` | linux-2.6.32.21/block/blk-barrier.c:159-180 | step by step: the mode of a sequence |
| `Barrier.QueueStages` | linux-2.6.32.21/block/blk-barrier.c:187-224 | step by step, from the last stage to the first: what is queued, skipped and handed out |
| `Barrier.FuaMeans` | linux-2.6.32.21/block/blk-barrier.c:199-212 | a barrier request writes through exactly on a device with a cache where no flush follows it |
| `Barrier.RequestQueue.Begin` | linux-2.6.32.21/block/blk-barrier.c:153-233 | step by step: mode, stages, flags, skipped stages and answer |
| `Barrier.LogCompletes` | linux-2.6.32.21/block/blk-barrier.c:91-111 | a completion keeps the log of completed stages in step with the sequence |
| `Barrier.EndedBarriers` | linux-2.6.32.21/block/blk-barrier.c:91-129 | at every point of every run, for every barrier that has ended: each stage it needs has completed exactly once and no other, on a draining device in the order of the plan |
| `Barrier.FirstErrorAppend` | linux-2.6.32.21/block/blk-barrier.c:91-111 | keeping the first error is the first non-zero one of all reported |
| `Barrier.CompletedHist` | linux-2.6.32.21/block/blk-barrier.c:91-111 | every started barrier has ended once and in order, except the one in progress |
| `Barrier.StageCompletes` | linux-2.6.32.21/block/blk-barrier.c:113-129 | the end of a stage request completes a stage that was open: the BUG_ON cannot fire |
| `Barrier.DrainCompletes` | linux-2.6.32.21/block/blk-barrier.c:91-111 | nor can it for the drain stage |
| `Barrier.HeadEpoch` | linux-2.6.32.21/block/blk-barrier.c:235-279 | the first ordinary request of the queue belongs to the oldest epoch that may be issued |
| `Barrier.HeadMayGo` | linux-2.6.32.21/block/blk-barrier.c:235-279 | on a draining device the head is never behind its turn, and when its turn has come everything before the barrier is complete |
| `Barrier.NeverStalls` | linux-2.6.32.21/block/blk-barrier.c:268-279 | whenever the head has to wait for its turn, something is in flight: no sequence stalls on a draining device |
| `Barrier.HeadIsCurrent` | linux-2.6.32.21/block/blk-barrier.c:153-233 | nothing but special requests is queued before the request of the current stage |
| `Barrier.LiveRequeue` | linux-2.6.32.21/block/blk-barrier.c:267-276 | what the driver gives back while the queue drains is the next to go out again |
| `Barrier.NextBarrierWaits` | linux-2.6.32.21/block/blk-barrier.c:62-89 | the next barrier always has the other colour, so that it waits for the end of the sequence |
| `Barrier.FallbackStart` | linux-2.6.32.21/block/blk-barrier.c:153-233 | an empty barrier on a tag device without a flush is ordered by draining, and that is its only stage |
| `Barrier.FallbackDrains` | linux-2.6.32.21/block/blk-barrier.c:258-279 | in such a sequence no request is late, and it ends with the drain stage |
| `Barrier.FallbackCompletes` | linux-2.6.32.21/block/blk-barrier.c:91-111 | completing stages keeps this |
| `Barrier.EpochsDrained` | linux-2.6.32.21/block/blk-barrier.c:91-111 | when the drain stage completes, nothing queued before the barrier is left in the queue or in flight |
| `Barrier.EpochsStage` | linux-2.6.32.21/block/blk-barrier.c:113-129 | the order by epochs survives the end of a stage |
| `Barrier.EpochsStart` | linux-2.6.32.21/block/blk-barrier.c:153-233 | and the start of a sequence |
| `Barrier.EpochsNew` | linux-2.6.32.21/block/blk-barrier.c:62-89 | and a new barrier, whose colour those queued later do not share |
| `Barrier.EpochsRequeue` | linux-2.6.32.21/block/blk-barrier.c:62-89 | and a requeued request, which finds the place that its stage demands |
| `Barrier.EarlierBarrier` | linux-2.6.32.21/block/blk-barrier.c:62-89 | one bit of colour is enough: a request whose colour comes up again lies behind the next barrier |
| `Barrier.PlaceFor` | linux-2.6.32.21/block/blk-barrier.c:62-89 | the loop of elv_insert over blk_ordered_req_seq stops at the first request that is not earlier in the sequence |
| `Barrier.StageKeeps` | linux-2.6.32.21/block/blk-barrier.c:113-129 | the end of any stage keeps the whole invariant |
| `Barrier.RequestQueue.OrderedCompleteSeq` | linux-2.6.32.21/block/blk-barrier.c:91-111 | exact new sequence; the barrier ends exactly if the sequence is over, with the first error reported |
| `Barrier.RequestQueue.StartOrdered` | linux-2.6.32.21/block/blk-barrier.c:153-233 | which stages are queued, by the sectors of the barrier and the mode of the device, as if and only if for each; the barrier request is marked FUA exactly on a device of such a mode, and stays so throughout the sequence; exact new sequence and answer; what is handed out is safe; if the head must wait something is in flight; a barrier with nothing to do ends at once without error, and with no request in flight |
| `Barrier.RequestQueue.DoOrdered` | linux-2.6.32.21/block/blk-barrier.c:235-279 | all cases exactly: what is handed out is safe to issue, what is held back waits for its turn, on a draining device with something in flight, a barrier on a device without ordering ends with -EOPNOTSUPP, and the stages of any other are those of StartOrdered |
| `Barrier.RequestQueue.InSequence` | linux-2.6.32.21/block/blk-barrier.c:258-279 | in a sequence the head is held back exactly if its stage has not come (draining) or it is the next barrier (tags); the WARN_ON cannot fire on any device |
| `Barrier.RequestQueue.NextRequest` | linux-2.6.32.21/block/blk.h:54-68 | over all its loops: a request handed out is safe, and on a draining device, if none is, the queue is empty or something is in flight |
| `Barrier.RequestQueue.DispatchSort` | linux-2.6.32.21/block/blk.h:54-68 | elv_dispatch_sort, from which __elv_next_request takes: a dispatched request goes behind every barrier |
| `Barrier.RequestQueue.StartRequest` | linux-2.6.32.21/block/blk-barrier.c:235-279 | blk_start_request: taking a request that blk_do_ordered let through keeps the order of all epochs |
| `Barrier.RequestQueue.CompletedRequest` | linux-2.6.32.21/block/blk-barrier.c:91-111 | elv_completed_request: the drain stage completes exactly with the last request it waits for; a sequence that ends here, such as that of an empty barrier without a flush on a tag device, ends with no request in flight |
| `Barrier.RequestQueue.CheckDrained` | linux-2.6.32.21/block/blk-barrier.c:91-111 | the check at its end: the queue goes on when the requests before the barrier have finished, and otherwise has something to drain |
| `Barrier.RequestQueue.StageEndIo` | linux-2.6.32.21/block/blk-barrier.c:113-129 | exact new sequence; the barrier ends exactly once, with its last stage and the first error; a sequence that fell back to draining has no such stage |
| `Barrier.RequestQueue.AddRequest` | linux-2.6.32.21/block/blk-barrier.c:62-89 | __elv_add_request: an ordinary request goes to the scheduler in the current colour |
| `Barrier.RequestQueue.AddBarrier` | linux-2.6.32.21/block/blk-barrier.c:62-89 | __elv_add_request: a barrier drains the scheduler, goes to the tail and changes the colour; nothing is lost |
| `Barrier.RequestQueue.AddSpecial` | linux-2.6.32.21/block/blk-barrier.c:262-265 | elv_insert: a special request at either end disturbs no sequence |
| `Barrier.RequestQueue.RequeueRequest` | linux-2.6.32.21/block/blk-barrier.c:62-89 | elv_requeue_request: a requeued request comes back at the first place that is not earlier in the sequence |
| `Chainiv.OwnerStep` | linux-2.6.32.21/crypto/chainiv.c:123-262 | every step keeps: the bit is set exactly while one thread or the pending work item holds it |
| `Chainiv.WorkNotPending` | linux-2.6.32.21/crypto/chainiv.c:123-142 | queue_work never finds the work item pending: the BUG_ON cannot fire |
| `Chainiv.Exclusive` | linux-2.6.32.21/crypto/chainiv.c:181-206 | two threads never hold the bit at once, and none does while the work item is pending |
| `Chainiv.CtxAct` | linux-2.6.32.21/crypto/chainiv.c:161-179 | every step keeps the IV buffer equal to what the last successful encryption left |
| `Chainiv.OtherAct` | linux-2.6.32.21/crypto/chainiv.c:161-179 | what another thread relies on survives a step, because only the holder of the bit touches the IV |
| `Chainiv.ThreadsStep` | linux-2.6.32.21/crypto/chainiv.c:123-262 | all threads keep what they rely on: the cipher is called with the IV that was given out, and the shared err field holds the own result when it is read |
| `Chainiv.WakeStep` | linux-2.6.32.21/crypto/chainiv.c:123-142 | while requests are queued somebody holds the bit or will look again |
| `Chainiv.InvRun` | linux-2.6.32.21/crypto/chainiv.c:123-262 | the invariant holds in every state of every run of any number of callers and the work item |
| `Chainiv.NeverQueuedTwice` | linux-2.6.32.21/crypto/chainiv.c:123-142 | over every run: the BUG_ON cannot fire and the bit has one holder |
| `Chainiv.GivenIvs` | linux-2.6.32.21/crypto/chainiv.c:161-179 | over every run each request is given the IV left by the last successful one before it, and postponed requests are served in order |
| `Chainiv.Conserved` | linux-2.6.32.21/crypto/chainiv.c:144-262 | over every run the requests of all calls are, each once, with a thread, queued, encrypted or refused |
| `Chainiv.Answered` | linux-2.6.32.21/crypto/chainiv.c:123-179 | over every run what a call returns, and what the work item reports, is what became of its own request, although it goes through the shared err field |
| `Chainiv.EnqueueIs` | linux-2.6.32.21/crypto/chainiv.c:144-159 | the step that postpones a request does to the queue, and answers, what crypto_enqueue_request does |
| `Chainiv.DequeueIs` | linux-2.6.32.21/crypto/chainiv.c:235-252 | the step of the work item takes what crypto_dequeue_request takes |
| `Chainiv.SoloEnds` | linux-2.6.32.21/crypto/chainiv.c:123-262 | every thread is over after at most twenty steps of its own, whatever the others have done |
| `Chainiv.LoneCall` | linux-2.6.32.21/crypto/chainiv.c:181-206 | a call that nobody disturbs is served at once with the IV of the context, returns the result of its encryption and leaves the IV that came out unless that failed |
| `Chainiv.FirstCall` | linux-2.6.32.21/crypto/chainiv.c:208-233 | the first call is served with the IV that the generator drew, or refused if that failed |
| `Chainiv.QuietStates` | linux-2.6.32.21/crypto/chainiv.c:276-283 | over every run with nobody at work: the bit is set exactly if the work is pending, as the BUG_ON of the exit function demands, and queued requests have it pending if and only if the bit was not last given up by a first caller whose generator had failed |
| `Chainiv.FailedSeedStrands` | linux-2.6.32.21/crypto/chainiv.c:208-233 | counterexample for the exception: a run in which the generator fails leaves a queued request with nobody to run it |
| `Chainiv.NextCallerServes` | linux-2.6.32.21/crypto/chainiv.c:181-206 | until the next caller: whoever calls with the bit free and requests queued leaves the work item pending |
| `CryptoQueue.NextNodeAt` | linux-2.6.32.21/crypto/algapi.c:823-840 | the node behind a given one is the next of the list |
| `CryptoQueue.Queue.constructor` | linux-2.6.32.21/crypto/algapi.c:793-799 | an empty queue |
| `CryptoQueue.Queue.Enqueue` | linux-2.6.32.21/crypto/algapi.c:802-820 | which requests are accepted and what the caller is told; the backlog pointer stays on the first request beyond max_qlen |
| `CryptoQueue.Queue.GetBacklog` | linux-2.6.32.21/include/crypto/algapi.h:287-292 | the request at index max_qlen if there is one |
| `CryptoQueue.Queue.Dequeue` | linux-2.6.32.21/crypto/algapi.c:823-840 | first in, first out; the backlog pointer follows the limit |
| `Cryptd.BusyBelowMeans` | linux-2.6.32.21/crypto/cryptd.c:113-136 | the announcements are those of the refused-for-now submissions, each once and in order |
| `Cryptd.HistAccept` | linux-2.6.32.21/crypto/cryptd.c:95-108 | accepting a submission keeps the account of announcements and completions |
| `Cryptd.HistTake` | linux-2.6.32.21/crypto/cryptd.c:113-136 | the request noted before the head is taken is the only one that comes within the limit |
| `Cryptd.HistTell` | linux-2.6.32.21/crypto/cryptd.c:113-136 | its owner was told -EBUSY and is told -EINPROGRESS for the first time |
| `Cryptd.HistComplete` | linux-2.6.32.21/crypto/cryptd.c:113-136 | a completed submission had its announcement if and only if it was told -EBUSY |
| `Cryptd.CpuQueue.Enqueue` | linux-2.6.32.21/crypto/cryptd.c:95-108 | the answer, and the work item queued in any case |
| `Cryptd.CpuQueue.Take` | linux-2.6.32.21/crypto/cryptd.c:113-127 | the worker takes the oldest request, or finds nothing |
| `Cryptd.CpuQueue.Tell` | linux-2.6.32.21/crypto/cryptd.c:129-130 | announces exactly the submission that moved up, never twice |
| `Cryptd.CpuQueue.Complete` | linux-2.6.32.21/crypto/cryptd.c:131 | completes in the order of acceptance, after the submission's own announcement |
| `Cryptd.CpuQueue.Leave` | linux-2.6.32.21/crypto/cryptd.c:133-135 | queues itself again if requests are left, so that a queue with requests always has its worker |
| `Cryptd.CpuQueue.AnnouncedOnce` | linux-2.6.32.21/crypto/cryptd.c:95-136 | at every point: no announcement twice, none that was not owed, all owed ones before completion, first in first out |
| `Spawns.ClosedHolds` | linux-2.6.32.21/crypto/algapi.c:131-178 | a set closed under the users relation holds everything reachable |
| `Spawns.PushOk` | linux-2.6.32.21/crypto/algapi.c:150-168 | moving the next spawn to the stack keeps the walk in order |
| `Spawns.PopOk` | linux-2.6.32.21/crypto/algapi.c:84-105 | a spawn comes off the stack only when its instance has no users left |
| `Spawns.WalkDone` | linux-2.6.32.21/crypto/algapi.c:131-178 | at the end the moved spawns are those of the algorithm and of everything built on it, no more and no fewer |
| `Spawns.StillValid` | linux-2.6.32.21/crypto/algapi.c:131-178 | what is left is a consistent registry |
| `Spawns.PointersStay` | linux-2.6.32.21/crypto/algapi.c:131-178 | exactly the moved spawns point nowhere |
| `Spawns.NoUsers` | linux-2.6.32.21/crypto/algapi.c:107-129 | every instance has lost its users before it goes: the BUG_ON of crypto_remove_spawn cannot fire |
| `Spawns.Registry.SetAside` | linux-2.6.32.21/crypto/algapi.c:139-148 | the algorithm's own users are set aside |
| `Spawns.Registry.Descend` | linux-2.6.32.21/crypto/algapi.c:150-168 | the inner loop ends at a list without users |
| `Spawns.Registry.Explore` | linux-2.6.32.21/crypto/algapi.c:150-170 | the whole walk ends, with the measure of spawns not yet moved and stack depth, and visits exactly what is reachable |
| `Spawns.Registry.RemoveSpawn` | linux-2.6.32.21/crypto/algapi.c:107-129 | an instance dies, and leaves its template if it was alive, listed and its template can be held |
| `Spawns.Registry.Bury` | linux-2.6.32.21/crypto/algapi.c:172-177 | exactly the instances of the moved spawns die, each once |
| `Spawns.Registry.RemoveSpawns` | linux-2.6.32.21/crypto/algapi.c:131-178 | every instance built on the algorithm dies and no other; their user lists are empty, their spawns point nowhere, and all other lists are as before |
| `Spawns.Registry.RemoveAlg` | linux-2.6.32.21/crypto/algapi.c:373-385 | -ENOENT and no change if it is not listed; otherwise it and everything built on it die, with the exact new user lists, pointers and instances that leave their templates |
| `Gf128.XIsMulX` | linux-2.6.32.21/crypto/gf128mul.c:125-133 | gf128mul_x_lle is the product with x in GF(2^128) of section 6.3 of NIST SP 800-38D |
| `Gf128.X8IsEight` | linux-2.6.32.21/crypto/gf128mul.c:156-164 | gf128mul_x8_lle with its table is eight such products |
| `Gf128.MulXLinear` | linux-2.6.32.21/crypto/gf128mul.c:109-133 | the product with x respects addition |
| `Gf128.PowLinear` | linux-2.6.32.21/crypto/gf128mul.c:109-133 | so does the product with a power of x |
| `Gf128.PartialByte` | linux-2.6.32.21/crypto/gf128mul.c:446-458 | the field product, bit by bit, taken a byte at a time |
| `Gf128.RoundTrip` | linux-2.6.32.21/crypto/gf128mul.c:446-458 | the byte and the word view of an element agree, so that a key loses nothing when it is read |
| `Gf128Mul.SumIsBits` | linux-2.6.32.21/crypto/gf128mul.c:446-458 | looking up a byte adds the products its bits stand for |
| `Gf128Mul.LookUp` | linux-2.6.32.21/crypto/gf128mul.c:446-458 | so a table entry is the product of a byte |
| `Gf128Mul.FillSums` | linux-2.6.32.21/crypto/gf128mul.c:415-417 | the double loop fills a whole table from its eight entries for single bits |
| `Gf128Mul.Init4k` | linux-2.6.32.21/crypto/gf128mul.c:402-421 | every entry of the table is the product of its index with g |
| `Gf128Mul.FirstBits` | linux-2.6.32.21/crypto/gf128mul.c:285-286 | the single-bit entries of the first table |
| `Gf128Mul.NextBits` | linux-2.6.32.21/crypto/gf128mul.c:297-300 | the single-bit entries of the next table are eight steps on |
| `Gf128Mul.Init64k` | linux-2.6.32.21/crypto/gf128mul.c:266-305 | sixteen tables, one for each byte position |
| `Gf128Mul.TailIsProduct` | linux-2.6.32.21/crypto/gf128mul.c:446-458 | the Horner scheme from the last byte gives the product |
| `Gf128Mul.Mul4k` | linux-2.6.32.21/crypto/gf128mul.c:446-458 | in place, for all a and g: the product of section 6.3 of NIST SP 800-38D |
| `Gf128Mul.Mul64k` | linux-2.6.32.21/crypto/gf128mul.c:360-370 | in place, for all a and g: the same product |
| `CryptoBytes.XorMore` | linux-2.6.32.21/crypto/algapi.c:891-895 | in place: n more bytes |
| `CryptoBytes.CryptoXor` | linux-2.6.32.21/crypto/algapi.c:897-906 | in place: words and then bytes add exactly the source |
| `CryptoBytes.IncAddsOne` | linux-2.6.32.21/crypto/algapi.c:875-888 | the counter function adds one to the big-endian number, modulo its range |
| `CryptoBytes.IncSplit` | linux-2.6.32.21/crypto/algapi.c:875-888 | the carry leaves the low part exactly if that is full |
| `CryptoBytes.BeInjective` | linux-2.6.32.21/crypto/algapi.c:875-888 | different strings of one length are different numbers |
| `CryptoBytes.IncOnly` | linux-2.6.32.21/crypto/algapi.c:875-888 | so the counter function is the only one that adds one and keeps the length |
| `CryptoBytes.CarryStep` | linux-2.6.32.21/crypto/algapi.c:862-888 | a step on the last n bytes goes on exactly if they were full |
| `CryptoBytes.IncWord` | linux-2.6.32.21/crypto/algapi.c:880-885 | a word step |
| `CryptoBytes.IncOneByte` | linux-2.6.32.21/crypto/algapi.c:862-873 | a byte step |
| `CryptoBytes.CryptoInc` | linux-2.6.32.21/crypto/algapi.c:875-888 | in place: the counter plus one, for every length, words from the end and then bytes |
| `Ghash.HashIsPadded` | linux-2.6.32.21/crypto/ghash-generic.c:63-126 | the streaming hash is the block-by-block hash of the zero-padded data, GHASH of section 6.4 of NIST SP 800-38D |
| `Ghash.StandsMore` | linux-2.6.32.21/crypto/ghash-generic.c:63-98 | more pending bytes keep the state standing for what was seen |
| `Ghash.StandsBlock` | linux-2.6.32.21/crypto/ghash-generic.c:63-98 | so does a full block |
| `Ghash.StandsDone` | linux-2.6.32.21/crypto/ghash-generic.c:100-126 | flushing gives the hash of what was seen |
| `Ghash.Desc.constructor` | linux-2.6.32.21/crypto/ghash-generic.c:35-61 | the key is read from its sixteen bytes and can be read back; nothing seen |
| `Ghash.SetKey` | linux-2.6.32.21/crypto/ghash-generic.c:45-61 | -EINVAL exactly if the key is not sixteen bytes long |
| `Ghash.Desc.Multiply` | linux-2.6.32.21/crypto/ghash-generic.c:84-89 | a full block moves the hash on |
| `Ghash.Desc.Update` | linux-2.6.32.21/crypto/ghash-generic.c:63-98 | the state stands for everything seen, for any cutting into chunks |
| `Ghash.Desc.Final` | linux-2.6.32.21/crypto/ghash-generic.c:100-126 | GHASH of the concatenation of all updates, zero-padded to a block |
| `Cbc.DecryptInverts` | linux-2.6.32.21/crypto/cbc.c:42-167 | decryption inverts encryption on the whole blocks, and both end with the same chaining value |
| `Cbc.EncryptInverts` | linux-2.6.32.21/crypto/cbc.c:42-167 | encryption inverts decryption |
| `Cbc.EncryptChains` | linux-2.6.32.21/crypto/cbc.c:90-112 | segments chained through the IV equal one pass |
| `Cbc.DecryptChains` | linux-2.6.32.21/crypto/cbc.c:169-191 | the same for decryption |
| `Cbc.BlockBefore` | linux-2.6.32.21/crypto/cbc.c:140-167 | the block before a position is what the block at it is added to |
| `Cbc.WholeBlocks` | linux-2.6.32.21/crypto/cbc.c:140-167 | only the whole blocks count, and the last one is the next IV |
| `Cbc.EncryptSegment` | linux-2.6.32.21/crypto/cbc.c:42-64 | ciphertext, IV and number of bytes left are those of the recursive definition of section 6.2 of NIST SP 800-38A; nothing behind is touched |
| `Cbc.EncryptInplace` | linux-2.6.32.21/crypto/cbc.c:66-88 | the in-place loop computes the same |
| `Cbc.DecryptSegment` | linux-2.6.32.21/crypto/cbc.c:114-138 | plaintext, IV and number of bytes left are those of the recursive definition |
| `Cbc.DecryptInplace` | linux-2.6.32.21/crypto/cbc.c:140-167 | the loop that runs backwards in place computes the same |
| `Ctr.CryptInverts` | linux-2.6.32.21/crypto/ctr.c:121-150 | adding the keystream twice gives the data back, and the counter does not depend on the data |
| `Ctr.CryptChains` | linux-2.6.32.21/crypto/ctr.c:121-150 | pieces chained through the counter equal one pass |
| `Ctr.CountedBy` | linux-2.6.32.21/crypto/ctr.c:68-119 | the counter moves on by the number of blocks begun, modulo its range |
| `Ctr.CryptedAt` | linux-2.6.32.21/crypto/ctr.c:121-150 | byte by byte: byte i has byte i modulo the block size of the encryption of the counter plus i divided by the block size added, section 6.5 of NIST SP 800-38A |
| `Ctr.CryptSegment` | linux-2.6.32.21/crypto/ctr.c:68-92 | whole blocks from one buffer to another: what is still to come is unchanged |
| `Ctr.CryptInplace` | linux-2.6.32.21/crypto/ctr.c:94-119 | whole blocks in place |
| `Ctr.CryptFinal` | linux-2.6.32.21/crypto/ctr.c:49-66 | the keystream block is cut to the bytes left, and the counter moves on |
| `Ctr.Crypt` | linux-2.6.32.21/crypto/ctr.c:121-150 | output and counter of the definition, for every length; nothing behind is touched |
| `Ctr.CryptSame` | linux-2.6.32.21/crypto/ctr.c:121-150 | the same in place |
| `Cts.HeadIs` | linux-2.6.32.21/crypto/cts.c:131-132 | the block count of the code gives the head of the definition |
| `Cts.BlockCount` | linux-2.6.32.21/crypto/cts.c:131-143 | one block exactly if a block is what the code reaches over |
| `Cts.Stolen` | linux-2.6.32.21/crypto/cts.c:159-217 | adding the cut block takes back the plaintext and the stolen bytes |
| `Cts.TailInverts` | linux-2.6.32.21/crypto/cts.c:73-217 | decrypting the two-block tail inverts encrypting it, also with a partial or a full last block |
| `Cts.DecryptInverts` | linux-2.6.32.21/crypto/cts.c:125-250 | decryption inverts encryption for every length of at least one block, section 8 of RFC 2040, and both leave the same IV |
| `Cts.TailEncrypt` | linux-2.6.32.21/crypto/cts.c:73-123 | the tail and the IV of the definition; -EINVAL below one block |
| `Cts.TailDecrypt` | linux-2.6.32.21/crypto/cts.c:159-217 | the same for decryption |
| `Cts.EncryptLong` | linux-2.6.32.21/crypto/cts.c:144-154 | plain CBC for the head and then the tail |
| `Cts.DecryptLong` | linux-2.6.32.21/crypto/cts.c:238-248 | the same for decryption |
| `Cts.Encrypt` | linux-2.6.32.21/crypto/cts.c:125-157 | every length: no data is -EINVAL; data shorter than a block is encrypted as a whole block with what is behind it; otherwise all cases give the definition |
| `Cts.Decrypt` | linux-2.6.32.21/crypto/cts.c:219-250 | the same for decryption |
| `Ccm.MacIsPadded` | linux-2.6.32.21/crypto/ccm.c:164-243 | the streaming MAC is the CBC-MAC of the zero-padded data, section 2.2 of RFC 3610 |
| `Ccm.LenFieldValue` | linux-2.6.32.21/crypto/ccm.c:58-74 | the length field holds the length exactly if it fits |
| `Ccm.AcceptedLength` | linux-2.6.32.21/crypto/ccm.c:58-74 | a length that the code accepts is written rightly if and only if it is not exactly 256 to the power of the field size |
| `Ccm.LengthLost` | linux-2.6.32.21/crypto/ccm.c:58-74 | counterexample: 65536 bytes with a field of two bytes are accepted and the field says zero |
| `Ccm.HeadValue` | linux-2.6.32.21/crypto/ccm.c:145-162 | the length of the additional data in two bytes, or in six with the mark 0xfffe, as a big-endian number, for every length |
| `Ccm.B0Fields` | linux-2.6.32.21/crypto/ccm.c:123-143 | flags, nonce and length of block B_0 as section 2.2 of RFC 3610 gives them; the length field holds the length if and only if it fits |
| `Ccm.MacIsCbc` | linux-2.6.32.21/crypto/ccm.c:245-278 | the MAC of the code is the CBC-MAC of one input: B_0, the encoded additional data and the message, each zero-padded |
| `Ccm.InputInjective` | linux-2.6.32.21/crypto/ccm.c:245-278 | that input is an encoding: it determines nonce, tag length, additional data and message, for all that fit the length field |
| `Ccm.SealedAt` | linux-2.6.32.21/crypto/ccm.c:302-353 | byte by byte: the message is added to S_1, S_2 and so on and the tag to S_0, where S_k is the encryption of A_k, sections 2.3 and 2.4 of RFC 3610 |
| `Ccm.FlagsOr` | linux-2.6.32.21/crypto/ccm.c:138-140 | or-ing the flags together is adding them |
| `Ccm.CounterLasts` | linux-2.6.32.21/crypto/ccm.c:302-353 | an accepted message does not use the counter up |
| `Ccm.CountedLow` | linux-2.6.32.21/crypto/ccm.c:302-353 | so counting does not carry into the nonce |
| `Ccm.NonceKept` | linux-2.6.32.21/crypto/ccm.c:302-353 | the IV after encryption has its flags and nonce unchanged |
| `Ccm.IvStaysValid` | linux-2.6.32.21/crypto/ccm.c:372-429 | even a message that overflows the field leaves a valid IV |
| `Ccm.MacOfNonce` | linux-2.6.32.21/crypto/ccm.c:245-278 | the MAC does not depend on the counter part of the IV |
| `Ccm.OpenSealed` | linux-2.6.32.21/crypto/ccm.c:302-429 | for every accepted message, tag length and junk in the tag buffer, decryption of what was encrypted returns the plaintext and accepts the tag |
| `Ccm.SealedOnly` | linux-2.6.32.21/crypto/ccm.c:372-429 | what decryption accepts, for every message with a length the code accepts, is what encryption makes of the plaintext returned |
| `Ccm.AcceptsExactly` | linux-2.6.32.21/crypto/ccm.c:302-429 | so decryption accepts a message with a plaintext if and only if encryption produces it from that plaintext |
| `Ccm.SetMsgLen` | linux-2.6.32.21/crypto/ccm.c:58-74 | -EOVERFLOW by the check of the code, otherwise the field at the end of the block |
| `Ccm.Pctx.ComputeMac` | linux-2.6.32.21/crypto/ccm.c:164-201 | a piece of any length: the buffered state stands for one piece more |
| `Ccm.Pctx.GetDataToCompute` | linux-2.6.32.21/crypto/ccm.c:203-243 | for every scattering the MAC of the concatenation, zero-padded |
| `Ccm.Pctx.FormatInput` | linux-2.6.32.21/crypto/ccm.c:123-143 | block B_0 of section 2.2 of RFC 3610, or -EOVERFLOW |
| `Ccm.Pctx.FormatAdata` | linux-2.6.32.21/crypto/ccm.c:145-162 | the encoded length of the additional data, whose bytes HeadValue gives |
| `Ccm.Pctx.Auth` | linux-2.6.32.21/crypto/ccm.c:245-278 | for every scattering of both inputs the CBC-MAC of the input that InputInjective shows to be an encoding, section 2.2 of RFC 3610, except for the one accepted length that AcceptedLength names, whose field says zero; or -EOVERFLOW |
| `Ccm.ZeroCounter` | linux-2.6.32.21/crypto/ccm.c:327 | the counter part of the IV is cleared, nothing else |
| `Ccm.Encrypt` | linux-2.6.32.21/crypto/ccm.c:302-353 | exactly when it fails and how; otherwise ciphertext and tag, whose bytes SealedAt gives |
| `Ccm.Decrypt` | linux-2.6.32.21/crypto/ccm.c:372-429 | the plaintext if and only if the tag is right, for every scattering of the destination; the errors of the code otherwise |
| `BlkSoftirq.FinishedOnce` | linux-2.6.32.21/block/blk-softirq.c:20-142 | in every state, also after CPUs have died with requests on their lists: no request is finished more often than it entered, and unless all are finished an online CPU has a step to take or a dead CPU waits to be dealt with |
| `BlkSoftirq.Settle` | linux-2.6.32.21/block/blk-softirq.c:20-142 | from every state and under every schedule of the steps of all CPUs, in which CPUs may also go offline and any online CPU may deal with a dead one, this ends with every request that entered finished exactly once |
| `BlkSoftirq.StepThere` | linux-2.6.32.21/block/blk-softirq.c:20-142 | as long as something is left to do, such a step can take place |
| `BlkSoftirq.TakeStep` | linux-2.6.32.21/block/blk-softirq.c:20-98 | every step keeps the invariant, leaves less to do and a CPU online |
| `BlkSoftirq.Softirq.constructor` | linux-2.6.32.21/block/blk-softirq.c:164-174 | empty lists |
| `BlkSoftirq.Softirq.Complete` | linux-2.6.32.21/block/blk-softirq.c:104-142 | on which CPU the request goes; a list with requests has its softirq raised |
| `BlkSoftirq.Softirq.TriggerSoftirq` | linux-2.6.32.21/block/blk-softirq.c:39-53 | a call from another CPU puts its request on the list |
| `BlkSoftirq.Softirq.TakeList` | linux-2.6.32.21/block/blk-softirq.c:20-27 | the softirq of an online CPU takes the whole list |
| `BlkSoftirq.Softirq.FinishOne` | linux-2.6.32.21/block/blk-softirq.c:29-35 | one request is finished; less work is left |
| `BlkSoftirq.Softirq.DoneSoftirq` | linux-2.6.32.21/block/blk-softirq.c:20-36 | everything on the list of an online CPU is finished, in order, each request once |
| `BlkSoftirq.Softirq.CpuDead` | linux-2.6.32.21/block/blk-softirq.c:80-98 | the list of a dead CPU is spliced to that of an online one, whose softirq is raised; the dead one holds nothing; nothing is lost |
| `BlkSoftirq.Softirq.StartSoftirq` | linux-2.6.32.21/block/blk-softirq.c:20-27 | the softirq of an online CPU starts: pending goes before the list is looked at |
| `BlkSoftirq.Softirq.TakeDown` | linux-2.6.32.21/block/blk-softirq.c:80-98 | a CPU goes offline with requests on its list |
| `BlkSoftirq.Softirq.BringUp` | linux-2.6.32.21/block/blk-softirq.c:80-98 | a dead CPU that was dealt with comes back |
| `BlkTimeout.HeldRun` | linux-2.6.32.21/block/blk.h:39-47 | over every interleaving of driver, timer and abort: the bit is set exactly while one thread holds the request, or it was completed or left to the driver |
| `BlkTimeout.EntersOnce` | linux-2.6.32.21/block/blk-timeout.c:79-153 | over every interleaving the request enters completion at most once |
| `BlkTimeout.FollowedRun` | linux-2.6.32.21/block/blk-timeout.c:79-105 | over every interleaving every answer of the timeout function is followed: handled ones complete, reset ones give the request back, others leave it to the driver |
| `BlkTimeout.TimeoutQueue.Complete` | linux-2.6.32.21/block/blk-softirq.c:155-161 | a completion counts exactly if the request was not marked |
| `BlkTimeout.TimeoutQueue.TimedOut` | linux-2.6.32.21/block/blk-timeout.c:79-105 | the three answers: completed, back on the list with a new deadline, or left to the driver |
| `BlkTimeout.TimeoutQueue.Grab` | linux-2.6.32.21/block/blk-timeout.c:147-153 | the timeout goes on exactly if nobody had marked the request |
| `BlkTimeout.TimeoutQueue.AbortQueue` | linux-2.6.32.21/block/blk-timeout.c:202-236 | ends and loses nothing: what was on the list is on it again, or was grabbed here and not reset, with completions coming in between |
| `BlkTimeout.TimeoutQueue.Expire` | linux-2.6.32.21/block/blk-timeout.c:116-125 | one expired request: taken off, or back with a later deadline |
| `BlkTimeout.TimeoutQueue.TimedOutTimer` | linux-2.6.32.21/block/blk-timeout.c:107-136 | ends; afterwards nothing on the list has expired, only expired requests left it, and next is the earliest deadline that the walk saw |
| `BlkTimeout.ExpiredLess` | linux-2.6.32.21/block/blk-timeout.c:107-136 | why the walk ends: each expired request leaves fewer expired ones |

## Left out

- AsSched.AsData.AddRequest: a request that is already queued or in flight cannot be added, and time does not go back; the per-process counters and statistics that as_update_iohist keeps are not modelled.
- AsSched.ReadsGiveWay: what the driver asks for while anticipation waits, or while no read is queued, decides nothing; that a wait ends is WaitEnds.
- AsSched.AsData.DispatchRequest: of as_can_break_anticipation the part that judges by seek and think-time statistics and exit probabilities is a parameter, and jiffies do not wrap around.
- Merging in the anticipatory scheduler: the code itself gives up the best next_rq there (as-iosched.c:1275-1277).
- Sums of sectors are not cut to the width of sector_t.
- CfqQueue.FindNextIsBest: whether a neighbour leads the rest is a condition on the sectors and ranks of the whole queue, because that is what the search among neighbours depends on.
- CfqSched.CfqData.SelectQueue: whether the slice is used up, whether to idle, which queue cooperates and whether a request is close to what the active queue waits for are parameters; the prio trees, the idle timer, hw_tag and the think-time statistics are not modelled.
- CfqSched.CfqData.ServiceTreeAdd: the order is claimed while all keys lie within half the range of jiffies, as the wrapping comparison needs.
- Barrier: the data direction of the barrier request.
- Barrier.NeverStalls: for devices ordered by draining, and so is the order by epochs; with ordered tags the device, not the code, sees to the order of what is in flight.
- Chainiv: the steps of one thread interleave in any order but memory is sequentially consistent, so that the barriers in the code are not modelled; the synchronous form of chainiv is not modelled.
- Spawns.Registry.RemoveSpawns: without a replacement algorithm; that no algorithm is built on itself is what the BUG_ON of the code demands.
- Camellia: the contents of the S-box tables; the four S-boxes are arbitrary, and the tables are made from them. The byte order of words in memory.
- gf128mul_lle and gf128mul_bbe, and the bbe and ble conventions.
- Block modes: the cipher is an arbitrary permutation of blocks; scatterlists are lists of pieces or buffers; the block walk between segments is the chaining lemmas.
- Ccm.Encrypt: messages within 16 bytes of 4 GiB, where cryptlen + 16 wraps around in the code.
- Ccm.Decrypt: the same.
- Ccm.OpenSealed: for lengths the code accepts; the asynchronous completion paths and the RFC 4309 wrapper are not modelled.
- BlkSoftirq.Settle: no CPU comes back while the work is finished.
- BlkSoftirq.Softirq.TakeDown: a CPU goes offline between two softirqs and with its calls answered.
- BlkTimeout.TimeoutQueue.TimedOutTimer: jiffies stand still during one walk and deadlines do not wrap; how the timer is armed, and the BUG_ON in blk_add_timer, which a completion by the driver can reach, are not claimed.
- Allocation failures, sysfs, module and io_context lifetime, tagged queueing, and the other ciphers and hashes.
