# A model of the trustee and its client

A trustee holds one share of a recovery secret for a holder, and hands it to a
recovering device only after a cooldown during which the holder can veto. This
project models that system and proves what it promises:

- the trustee's store: eight operations over seven tables (clock, invitations,
  challenges, enrollments, sessions, nonces, outcomes), with what each
  transaction leaves and what is read back and signed after commit;
- the trustee's protocol core: taking custody, verifying sessions and factors,
  building contributions, over ideal cryptography;
- single-share validation of SLIP-0039 mnemonics, with the RS1024 checksum as
  the Reed-Solomon code it is;
- the duration parser and its independently written twin in the client;
- the client's session window and its recovery loop.

## How the files fit together

| file | content |
|---|---|
| `Basics.dfy`, `Crypto.dfy`, `Wire.dfy` | options and results, ideal cryptography, the wire objects as parsed values |
| `Galois.dfy`, `Rs1024.dfy`, `ErrorDetection.dfy`, `Slip39.dfy` | GF(1024), the checksum loop, what it detects, the mnemonic parser |
| `Duration.dfy` | the parser loop, a printer, the client's regular expression |
| `State.dfy`, `Trustee.dfy` | admission and the release predicate; custody, sessions, contributions |
| `Tables.dfy`, `Transactions.dfy` | the tables, and every operation as (tables after commit, answer still to be read back) |
| `Store.dfy` | the store as a class: fields updated on a working copy, commit or drop, proved equal to `Transactions.dfy` |
| `Invariant.dfy`, `Preservation.dfy`, `RecoveryPreservation.dfy` | the invariant, how tables evolve, and that every action keeps both |
| `ReadBack.dfy`, `Retries.dfy`, `Steps.dfy`, `Releases.dfy` | what answers depend on, idempotency, what one action may change, what a poll hands out |
| `Runs.dfy`, `Reads.dfy`, `History.dfy`, `Reports.dfy`, `Atomicity.dfy`, `Receipts.dfy`, `Notices.dfy` | theorems over whole runs |
| `Window.dfy`, `Recovery.dfy` | the client: the session window, checking a contribution |
| `Polling.dfy`, `Collect.dfy` | the recovery loop: what each call of a run means, and the loop over them |
| `Acceptance.dfy`, `Effects.dfy`, `Answers.dfy` | the same operations once more, apart from the code's own predicates: what is accepted, what each request leaves and why it is refused, what each answer says, by signatures, statuses, times and fields |
| `Origins.dfy`, `Promises.dfy` | which event of a run each row, status and outcome goes back to; what every answered run promises holder and candidate in those terms |
| `Completion.dfy` | the whole path, from an empty database to the share on the recovering device |

A run (`Runs.Run`) starts from an empty database and is any sequence of actions
by anyone, at any formattable times, with any randomness; a time behind the
clock's high-water mark is refused, as in the source. Write transactions
serialize, so one sequence of states stands for every interleaving of
connections; an answer may be read back from any later state.

Cryptography is ideal (`Crypto.dfy`): signatures and digests are terms naming
what they cover, sealing takes its randomness as an argument, and a sealed
value opens only under the recipient's key and the same info. Random
identifiers, the clock, the network and whether a checkpoint can be written
are parameters. The SLIP-0039 word list is a parameter known to be what its
pinned content is (`Slip39.IsWordlist`): 1024 words in order, each of one to
eight letters, none with a space.

## Where the code and its documentation part

- **A late challenge is committed and then refused.** `issue-challenge` formats
  the expiry only after commit, so in the last quarter hour of the year 9999 a
  challenge is stored and the caller is told `temporarily_unavailable`. It is
  the only refusal besides the documented foreign-key spend that changes a
  table (`Atomicity.RefusalsAtomic` is the exact statement,
  `Atomicity.LateChallengeStored` the input).
- **`new_session` does not always find the window that exists.** Its doc
  comment promises a session every trustee can admit. One that they admit at
  the client's own time exists exactly when the shortest lifetime exceeds the
  longest cooldown and the policy ends after it (`Window.WindowExists`). The
  guard raises nevertheless when the room between the two is an even number of
  seconds, two minutes at most, so that twice the margin takes all of it, and
  when the policy ends inside the margin after the longest cooldown. That is
  the whole list (`Window.GuardMisses`; an input of each kind in
  `Window.GuardMissesExamples`). The guard is exact for the margin it is
  given (`Window.GuardMeansNoMargin`); it is the margin that is chosen too
  large.
- **`new_session` can return a session its trustees refuse.** If the shortest
  lifetime is below the longest cooldown by an odd number of seconds, floor
  division makes the margin negative and the guard can pass. The windows
  returned fit everyone exactly when the shortest lifetime exceeds the longest
  cooldown (`Window.FitsIffCompatible`); otherwise some trustee refuses, as in
  `Window.IncompatibleLetThrough`, for policies that trustees accept
  (`Window.IncompatibleEnrolled`).

## Model

| member | source | states |
|---|---|---|
| Galois.NoShortCycle | src/slip39.rs:127-147 | multiplying a nonzero field element by α between 1 and 32 times never gives it back, which is what tells the 33 word positions apart |
| Rs1024.Polymod | src/slip39.rs:127-147 | the nested bit loops compute, packed in 30 bits, the remainder of the word polynomial by the code's generator |
| ErrorDetection.RemainderLinear | src/slip39.rs:127-147 | the checksum register is linear in the starting register and the words together |
| ErrorDetection.StepSyndrome | src/slip39.rs:127-147 | α, α² and α³ are roots of the generator: one step multiplies each syndrome by its root and adds the word |
| ErrorDetection.UndetectedIffNoRemainder | src/slip39.rs:94-104 | a changed copy of a verifying word list verifies exactly when the change itself leaves no remainder |
| ErrorDetection.DetectsThreeSubstitutions | src/slip39.rs:94-104 | two verifying word lists that agree outside three positions, anywhere, are equal |
| ErrorDetection.ExactlyOneEnding | src/slip39.rs:94-104 | every prefix has exactly one verifying three-word ending, so any burst of three words is detected |
| ErrorDetection.FourSubstitutionsEscape | src/slip39.rs:94-104 | the bound is tight: some change of four words always goes undetected |
| Slip39.BinarySearch | src/slip39.rs:77-93 | finds a word's position exactly when the sorted list has the word |
| Slip39.ReadWords | src/slip39.rs:77-93 | the word loop accepts exactly the texts that 33 indices render to with single spaces, and returns those indices |
| Slip39.Decode | src/slip39.rs:77-124 | the imperative decoder returns the specified fields or malformed on every text |
| Slip39.DecodeInvertsRender | src/slip39.rs:77-124 | rendering any 33 indices and decoding gives their fields if checksum and padding hold, malformed otherwise |
| Slip39.OnlyRenderingsDecode | src/slip39.rs:77-93 | whatever decodes is the rendering of its own indices, within the length cap, so the cap rejects no rendering |
| Slip39.FieldsPack | src/slip39.rs:105-124 | packing the decoded fields rebuilds the first four words |
| Slip39.FieldsInRange | src/slip39.rs:105-124 | every decoded field is in its range, thresholds and counts being actual values |
| Slip39.DecodeDetectsThreeWrongWords | src/slip39.rs:77-124 | two mnemonics that both decode with the same extendable flag never differ in one, two or three words |
| Slip39.Validate | src/slip39.rs:57-72 | the profile check returns the share of exactly the decodable mnemonics in the profile |
| Slip39.ValidExactly | src/slip39.rs:57-72 | a text validates as a given share exactly when it renders 33 words that verify with the plain customization and whose bits are those of that member index and threshold in a one-group, exponent-zero share |
| Duration.ReadPart | src/wire.rs:295-326 | the inner unit loop consumes one part as the grammar does |
| Duration.ParseDuration | src/wire.rs:295-326 | the outer loop parses a whole duration text |
| Duration.ParsesPrinted | src/wire.rs:295-326 | every printed well-formed duration parses to its seconds |
| Duration.PrintsParsed | src/wire.rs:295-326 | whatever parses is the printed form of some well-formed components, with those seconds |
| Duration.ClientAgrees | tools/client.py:150-156 | the client's regular expression accepts the same texts with the same seconds |
| Duration.DurationBound | src/wire.rs:295-326 | no duration exceeds 999999 days, hours, minutes and seconds together |
| State.AdmissionBounds | src/state.rs:113-143 | a session is admitted exactly when the enrollment is usable, attempts are left, the request is fresh and the session outlives the cooldown inside both terms; the cooldown runs from the trustee's own clock |
| State.ReleaseConditions | src/state.rs:149-180 | a release is allowed exactly under live custody of the same sequence, an undisturbed session, the cooldown served and no deadline passed; it is an emission exactly the first time |
| Trustee.AcceptEnrollment | src/lib.rs:235-252 | the decision to take custody, share validation included |
| Trustee.AcceptedFacts | src/lib.rs:442-528 | what acceptance establishes: bindings, an envelope that opens and verifies, term, key digest, the envelope's own factor, durations and number of attempts, inside the limits, and a member index inside the split |
| Trustee.ContributionDelivers | src/lib.rs:388-438 | for a verified bound session and custody that opens, a contribution is always built and its destination opens it to exactly the accepted plaintext |
| Acceptance.AcceptsExactly | src/lib.rs:235-252 | custody is taken as a given enrollment exactly of an envelope that was sealed to this trustee under the context and signed whole by the key it names, repeating every binding, with that enrollment holding the envelope's own member, term, policy and key inside the limits |
| Acceptance.PolicyExactly | src/lib.rs:498-528 | the policy kept is exactly the one the fields spell: the key of the single factor, the seconds the client reads in the durations, the fields' own number of attempts, and only the offered notification, veto and lapse terms |
| Acceptance.EnvelopeRefused | src/lib.rs:442-495 | which refusal an envelope gets that enrolls as nothing, in the order of the checks |
| Acceptance.EnrollmentRefused | src/lib.rs:235-252 | a foreign profile is unsupported, and anything but a holder's envelope for these very bindings is an invalid enrollment |
| Acceptance.ArtifactExactly | src/lib.rs:257-286 | the artifact accepted beside an enrollment is the one its context digests with a header repeating the enrollment; ill-formed ones and mismatches are told apart |
| Acceptance.SessionExactly | src/lib.rs:292-359 | a document is read as a session exactly when the fresh proof key it names signed all of it, every presentation is readable, the formats hold and the destination can be sealed to |
| Acceptance.SessionRefused | src/lib.rs:292-359 | only a document proven in that way is told that its destination is unusable |
| Acceptance.FactorExactly | src/lib.rs:363-382 | the factor is held exactly by a document whose only evidence is the factor key's signature over this session, component and slot |
| Acceptance.ContributionIs | src/lib.rs:388-438 | a contribution is the operator's signature over the session's and enrollment's own bindings, sealing to the destination whatever the stored envelope opens to |
| Acceptance.ContributesExactly | src/lib.rs:388-438 | and it is built exactly for a session naming the enrollment, with a usable destination, from what still opens to the holder's envelope for these bindings |
| Acceptance.ParsesExactly | src/wire.rs:670-707 | a signed request is read exactly when it is addressed to this component and names the one target its operation acts on, and as exactly what it says |
| Store.TableSet.LoadCurrentEnrollment | src/store.rs:944-958 | returns the row of the highest sequence stored for an ID, if there is one |
| Store.TableSet.SpendNonce | src/store.rs:1050-1069 | purges, then inserts, and reports whether the nonce was unspent |
| Store.Store.CreateInvitation | src/store.rs:237-246 | stores the digest of the code it returns, unused and with its lifetime, and moves the clock; a clock behind the floor or a repeated digest changes nothing |
| Store.Store.IssueChallenge | src/store.rs:285-328 | stores one challenge of an open invitation with fewer than four others open, and answers it after commit; unknown, used, expired and exhausted invitations are refused alike |
| Store.Store.Enroll | src/store.rs:330-412 | in place and with commit or drop, the operation the run theorems are about: replay, conflict, tombstone, spent or foreign-key challenge, and new custody |
| Store.Store.EnrollmentReceipt | src/store.rs:420-454 | signs the stored enrollment only if it holds exactly the bytes received |
| Store.Store.ReadEnrollment | src/store.rs:458-503 | spends the nonce and answers with the enrollment's state and a notice of each of its sessions, collected in a loop that any unwritable time aborts |
| Store.Store.BeginRecovery | src/store.rs:505-574 | counts an attempt and stores the session, refused or cooling down by its factor; a known session is replayed or in conflict, and a refused admission changes nothing |
| Store.Store.SessionReceipt | src/store.rs:579-594 | rebuilds what begin decided from the session row |
| Store.Store.ReadRecovery | src/store.rs:599-662 | spends the nonce and hands out what the release predicate allows, storing a first emission in the same transaction; a failed emission drops nonce and clock too |
| Store.Store.CancelRecovery | src/store.rs:666-718 | moves a live session to vetoed or cancelled by who signed, leaves any other as it is, and records the outcome either way; a recorded request is replayed or in conflict before freshness is asked |
| Store.Store.EndEnrollment | src/store.rs:722-762 | leaves a tombstone, closed for good once closed, without custody, and records the outcome |
| Store.Store.OutcomeReceipt | src/store.rs:780-816 | rebuilds the receipt of a recorded outcome |
| Store.Store.Handle | src/store.rs:249-268 | every request does what the run model says, keeps the invariant and only evolves the tables |
| Effects.InvitationServed | src/store.rs:237-246 | minting stores the digest of the code answered for its lifetime, or changes nothing |
| Effects.ChallengeServed | src/store.rs:285-328 | a challenge of 900 seconds is issued exactly to a request for this component with an invitation known, unused and unexpired and fewer than four of its challenges open; the refusals are told apart |
| Effects.EnrollServed | src/store.rs:346-412 | under a new challenge an enrollment is stored exactly with an open challenge and invitation, the trustee's key named, an acceptable envelope and artifact and an ID never enrolled; a foreign key spends challenge and invitation, and the others are told why |
| Effects.EnrollRepeated | src/store.rs:346-358 | a challenge that enrolled answers its own request again until the enrollment ends, and conflicts with any other |
| Effects.BeginServed | src/store.rs:505-574 | a new session for a known enrollment is stored exactly under live custody, with attempts left, in time and inside both terms; it is cooling down exactly if the document presents the factor, and one attempt is counted |
| Effects.BeginRefused | src/state.rs:113-143 | why a new session is refused: ended, expired, attempts spent, stale, over, or not fitting, in that order |
| Effects.NonceServed | src/store.rs:1050-1069 | a nonce is spent exactly if no read within twice the skew spent it, and only older ones are forgotten |
| Effects.HolderServed | src/store.rs:458-503 | the holder's poll is answered exactly if signed by the authorization key, fresh and unspent; the receipt tells the state by status and time, before and after alike, and a notice of exactly the enrollment's sessions |
| Effects.CandidateServed | src/store.rs:599-662 | the candidate's poll is answered exactly if signed by the proof key, fresh, unspent and under live custody; it carries a contribution exactly when the session is undisturbed, past its cooldown and not expired |
| Effects.CancelServed | src/store.rs:666-718 | a cancellation is served exactly if new, fresh and signed by the key of the party it names; a live session is then vetoed by the holder or cancelled by the candidate, any other stays, and the outcome tells both states |
| Effects.EndServed | src/store.rs:722-762 | a revocation or closure likewise, leaving a tombstone without custody |
| Effects.CancelRefused | src/store.rs:664-718 | why a cancellation is refused; a retry with other bytes is a conflict only for the key that could have sent it |
| Effects.CandidateRefused | src/store.rs:599-662 | why a candidate's poll is refused; only a fresh and unspent one learns that custody was revoked or has expired |
| Answers.EnrollmentAnswerIs | src/store.rs:420-454 | every field of an enroll receipt |
| Answers.SessionAnswerIs | src/store.rs:579-594 | every field of a begin receipt, from the session row |
| Answers.CancellationAnswerIs | src/store.rs:780-816 | every field of a cancellation receipt: states and time from the outcome, the reason from how the session stands |
| Answers.EndingAnswerIs | src/store.rs:780-816 | every field of a revocation or closure receipt |
| Answers.SignedDispatch | src/store.rs:249-268 | an addressed request does what its operation names, and any other signed request is invalid |
| RecoveryPreservation.ActKeeps | src/store.rs:249-268 | any action keeps the whole invariant and evolves the tables: rows stay, statuses move forward, used stays used, outcomes and frozen sessions never change |
| RecoveryPreservation.EmissionSucceeds | src/store.rs:619-637 | whenever the release predicate says emit, emission succeeds whatever randomness sealing draws, and the row it stores is valid |
| RecoveryPreservation.CancelledOk | src/store.rs:693-705 | after a cancellation at any time the session can never change again |
| Runs.ReachableValid | src/store.rs:50-128 | every reachable state holds the invariant |
| Runs.RunEvolves | src/store.rs:273-283 | every reachable state evolved from every earlier one, the clock included |
| Runs.InterleavedReadBack | src/store.rs:414-454 | however many commits lie between a commit and its read-back, the answer is the immediate one, except that deleted custody is unavailable; and the immediate one is never an error |
| Runs.RetriesIdentical | src/store.rs:572-594 | an identical retry of a receipted request, at any later accepted time, gets identical bytes and changes nothing; an ended enrollment's retry is told it was revoked |
| Runs.FrozenAfterOutcome | src/store.rs:766-816 | once a cancellation outcome is recorded, its session's status and the outcome never change |
| Runs.AttemptAccounting | src/store.rs:519-572 | attempts used equal the enrollment's sessions, never exceed the maximum, and sessions store distinct remaining counts in range |
| Runs.InvitationEconomy | src/store.rs:303-321 | an invitation is used exactly when exactly one of its challenges is, enrollments come from different used invitations, and at most four challenges are ever open |
| Runs.Tombstones | src/store.rs:739-752 | one row per ID for good, status only rises and is never superseded, custody is the accepted bytes until revoked or closed and absent from then on |
| Runs.Lineage | src/store.rs:907-909 | a session's sequence is its enrollment's, its row is the current one, and it is never finalized |
| Retries.BeginConflicts | src/store.rs:522-528 | another session under a recorded session ID is a conflict at any later time, and changes nothing |
| Retries.CancelConflicts | src/store.rs:766-777 | another signed cancellation under a recorded request ID is a conflict at any later time, and changes nothing |
| Retries.EndConflicts | src/store.rs:766-777 | so is another revocation or closure, even one asking for the other ending |
| Retries.EnrollConflicts | src/store.rs:346-358 | so is another enrollment under a used challenge, whatever became of the first |
| Receipts.BeginReceiptSays | src/store.rs:579-594 | a begin receipt, first or retried, states what the beginning decided: refused or cooling down by the factor, deadlines from the trustee's clock then, and the enrollment's bindings |
| Receipts.EndingTruthful | src/store.rs:735-762 | every recorded ending reports revoked or closed, closed exactly when it closed or found closed the enrollment, which stays closed |
| Receipts.EnrollReceiptSays | tools/client.py:398-412 | an enroll receipt says what the holder's client requires: none to active, under the challenge, for the bindings and the very sealed bytes the request carried |
| Receipts.CancellationFinal | src/store.rs:693-717 | the state a cancellation receipt reports is over, and is what every later poll reports |
| Reads.ReadsLieApart | src/store.rs:1041-1069 | two answered reads with one operation, target and request ID are more than twice the skew apart |
| Reads.NonceLasts | src/store.rs:1050-1069 | a spent nonce survives every action while the clock is within twice the skew |
| Reads.ReadOnce | src/store.rs:1041-1069 | a byte-identical signed read is answered at most once in any run |
| Steps.ActSteps | src/store.rs:249-268 | the only ways a session appears or changes, and the only way an enrollment's status does |
| Releases.OnlyPollsHand | src/store.rs:599-662 | only a well-formed candidate poll of that session can hand out a contribution |
| Releases.PollHands | src/store.rs:612-661 | a poll hands out a contribution exactly when the release predicate holds, stores what it hands out, and never replaces a stored one |
| History.ReleaseMeansDeserved | src/state.rs:149-180 | in every reachable state the release predicate holds exactly when the history deserves it: factor held, cooldown served, no deadline passed, no cancel, veto, revoke or close answered |
| History.ReleaseSafety | src/store.rs:599-662 | any answer carrying a contribution was deserved in that sense and polled by the session's proof key |
| History.ReleaseExactly | src/store.rs:599-662 | an answered poll carries the contribution if and only if it was deserved |
| History.NothingAfterStop | src/store.rs:664-718 | after a cancel, veto, revocation or closure has been answered, no later answer hands out the session's contribution |
| History.NoStuckRelease | src/store.rs:619-637 | once deserved, any fresh poll with an unspent nonce gets the contribution, and its destination opens it to exactly what was accepted at enrollment |
| History.OneContribution | src/store.rs:619-638 | all answers for a session carry one contribution, whatever randomness was drawn |
| History.StoredIffHanded | src/store.rs:619-638 | a session row holds a contribution exactly when one was handed out before |
| History.HolderPollTruthful | src/store.rs:458-503 | the holder's poll lists every session of the enrollment as it stands, and says released of exactly those handed out |
| Notices.NoticeMatchesPoll | src/store.rs:470-486 | a notice gives the state and reason any candidate's poll answered on the same tables at that time gives |
| Notices.NoticesAdvance | src/store.rs:470-486 | a session stays listed, and its noticed state only advances and stays once over |
| Notices.NoticeTellsVeto | src/store.rs:693-705 | a fresh veto served next stops the session exactly when its notice says cooling down or collecting |
| Reports.HonestPolls | src/store.rs:612-661 | a poll reports one state, before and after alike, and collecting exactly when it carries the contribution |
| Reports.ReportsAdvance | src/wire.rs:802-816 | reported states of a session only advance, and once over never change |
| Reports.AttemptSpent | src/store.rs:519-572 | each attempt is one new session answered by its own begin, the k-th storing the maximum less k; nothing else spends one |
| Origins.EnrollmentOrigin | src/store.rs:330-412 | every enrollment of a run goes back to one enroll request, accepted when it was served, for an envelope the holder sealed to the trustee and signed |
| Origins.OutcomeOrigin | src/store.rs:1085-1110 | every recorded outcome goes back to the one signed request that was new, fresh and properly signed when it was served |
| Origins.StopCause | src/store.rs:693-705 | a session stands vetoed exactly after the holder stopped it live, and cancelled exactly after the candidate did |
| Origins.EndCause | src/store.rs:739-752 | an enrollment stands closed exactly after a closure was recorded, accepted exactly before any ending, and otherwise revoked |
| Promises.BeginByFactor | src/lib.rs:363-382 | a begin is answered cooling down rather than refused exactly when its document presents, by that key's signature over this session, component and slot, the factor the accepted envelope names |
| Promises.HandedByFactor | src/store.rs:537-572 | an answer that hands out a session's contribution means that it was begun with that signature |
| Promises.NothingWithoutFactor | src/lib.rs:363-382 | a session no begin of which presents the factor its envelope names never gets anything |
| Promises.AttemptsPromised | src/state.rs:113-125 | an enrollment never has more sessions than the envelope the holder sealed allows |
| Promises.BeginCounts | src/store.rs:548-572 | the k-th session's begin receipt, first or repeated, says that the envelope's number of attempts less k remain |
| Promises.AttemptsExhausted | src/state.rs:122-125 | once that number is used, any other proper begin is told it is rate limited and changes nothing |
| Promises.HolderReceiptSays | src/store.rs:488-503 | an answered holder poll says closed exactly if a closure was answered before, revoked exactly if only other endings were, and else active or expired by the envelope's own term |
| Promises.HolderAnswered | src/store.rs:458-503 | a fresh poll by the authorization key with an unspent nonce is always answered |
| Promises.CandidateAnswered | src/store.rs:599-662 | a candidate's fresh, unspent poll under live custody is always answered, unless the clock is behind, which the recovering device retries |
| Promises.CancelReceiptSays | src/store.rs:780-816 | a cancellation receipt, first or repeated, read back at any later time, tells the states just before and after the one event that recorded it, its time and bindings; its reason is a veto exactly after the holder stopped the session live, a failed factor exactly if it was refused at begin, none after the candidate stopped it live |
| Promises.EndReceiptSays | src/store.rs:780-816 | a revocation or closure receipt tells the state just before, and closed exactly if it closed or found closed |
| Promises.RefusedCause | src/store.rs:537-556 | a session stands refused exactly if the document it was begun with does not present the envelope's factor |
| Atomicity.RefusalsAtomic | src/store.rs:273-283 | a refused request changes no table except for a foreign key on a known ID or an unsayable challenge expiry, exactly; and any change sets the clock to its own time |
| Atomicity.EnrollAtomic | src/store.rs:376-394 | the foreign-key refusal spends exactly the challenge and its invitation; every other refused enrollment changes nothing |
| Atomicity.AnswersFollow | src/store.rs:572-594 | right after a commit the read-back never turns a served request into an error |
| Atomicity.LateChallengeStored | src/store.rs:315-328 | the input on which a challenge is stored and the caller told it is unavailable |
| Window.GuardRaises | tools/client.py:707-721 | the guard raises exactly when the policy ends no later than cooldown and margin, or the room is even and at most two minutes |
| Window.WindowExists | tools/client.py:707-721 | a window ending with the policy that fits every term on every clock within a slack exists exactly when the room exceeds twice the slack and the policy outlasts the cooldown by more than it |
| Window.GuardMeansNoMargin | tools/client.py:714-717 | with compatible terms the guard raises if and only if no window at all has the margin on every clock |
| Window.GuardMisses | tools/client.py:707-717 | exactly when the guard raises although a session every trustee admits at the client's own time exists |
| Window.GuardMissesExamples | tools/client.py:707-717 | an input of each kind on which it does, with the window it misses |
| Window.FitsEveryone | tools/client.py:707-721 | with compatible terms, the window fits every trustee whose clock is within the margin |
| Window.FitsIffCompatible | tools/client.py:707-721 | a returned window fits every trustee at the client's own time if and only if the shortest lifetime exceeds the longest cooldown |
| Window.MisfitRefused | src/state.rs:113-143 | a trustee whose enrolled terms a returned window does not fit answers it with a refusal |
| Window.IncompatibleLetThrough | tools/client.py:707-721 | terms one second short for which the guard passes a session that both trustees refuse |
| Window.IncompatibleEnrolled | src/lib.rs:498-528 | trustees do accept policies with such terms, read alike by the client |
| Window.MarginTight | tools/client.py:714-716 | a trustee of the shortest lifetime whose clock is behind by more than the margin finds the window too long, unless the policy's end cut it short |
| Window.AdmittedEverywhere | src/state.rs:113-143 | a window from compatible terms is admitted by every trustee that enrolled one of them, with attempts left, skew of a minute and a clock within the margin |
| Recovery.HonestContributionOpens | tools/client.py:775-810 | end to end: the contribution a trustee builds from accepted custody passes every check of the client and yields the accepted envelope, whose share the trustee had validated |
| Recovery.OpenedExactly | tools/client.py:775-810 | a contribution yields an envelope exactly when the operator signed this session's approval and sealed in it, to the destination, an envelope that the slot's authorization key signed as it is and that repeats the map |
| Completion.RecoveryCompletes | tools/client.py:766-810 | the promise end to end: five honest requests against an empty database, whatever the cryptographic values, end with the device holding exactly the envelope the holder sealed |
| Collect.Candidate.Accept | tools/client.py:775-810 | keeps an envelope exactly when it verifies and its member index is new, and otherwise changes nothing |
| Polling.OneMoreCall | tools/client.py:830-843 | what one proper call changes: the envelope it adds, who has begun, and whether its trustee is lost, for exactly the replies that mean so |
| Polling.FatalExactly | tools/client.py:239-246 | what loses a trustee: refusals other than 502 to 504 and a codeless 429, failed checks, a begin not cooling down, a contribution that brings no acceptable envelope, a state from which none can come |
| Polling.KeptExactly | tools/client.py:775-810 | an envelope is kept exactly when a read delivers it and its member index is no one else's |
| Polling.OnlyUndecidedRetried | src/main.rs:255-283 | of all codes a trustee refuses with, only temporarily_unavailable is retried |
| Collect.Start | tools/client.py:832-840 | manifest, then begin, only where nothing has begun; begun exactly on a receipt that says cooling down |
| Collect.Poll | tools/client.py:830-843 | one trustee's begin and read: it fails exactly as its last call did, and otherwise adds the envelope that call brought, if any |
| Collect.Turn | tools/client.py:846-861 | a trustee leaves the live set exactly when its own call failed beyond retrying, and a new envelope is checkpointed at once |
| Collect.Round | tools/client.py:845-861 | one pass gives every live trustee still wanted its turn, unless the threshold is reached |
| Collect.BadPair | tools/client.py:819-821 | a checkpoint is refused exactly when some saved pair, after good ones, is foreign or no longer accepted |
| Collect.Recover | tools/client.py:813-870 | ends once the clock passes the expiry, with the first t shares or the true reason for stopping; every call made was proper, in whole rounds, each missing trustee lost by its own failure, every envelope saved, and the expiry reached in the last round and no earlier |
| Collect.RecoverCompletes | tools/client.py:813-870 | if some t trustees never fail for good and cooperate from a round before the expiry on, and checkpoints can be written, the shares are returned whatever the others do |
| Collect.SharesIndependent | tools/client.py:804-809 | the shares returned come from different trustees under different member indices of one split |
| Collect.SharesAuthorized | tools/client.py:775-810 | every share returned is the share of an envelope that its slot's authorization key signed as it is, inside a contribution that the trustee's operator signed for this session and that was sealed to this device |

## Left out

- Cryptographic internals (HPKE, Ed25519, SHA-256, base64): ideal functions instead; memory wiping with them.
- JSON text: canonical bytes and the value they spell are identified, so duplicate keys, unknown fields and number formats are refused before the model starts (`UnreadableCall`, `UnreadableSession`, `OtherDocument`).
- Calendar arithmetic: a timestamp is an integer or an unreadable text, with the formattable range kept.
- Fixed-width integers: the source's i64 sums stay far from overflow for formattable times and parsed durations (`Duration.DurationBound`); an invitation lifetime near the i64 limit is not modelled.
- SQLite itself: atomic commit or drop of serialized transactions only; no WAL, checkpointing, `secure_delete`, migrations, or `Store::bind` and its identity table.
- The rest of `main.rs` than its status codes, the manifest, logging (the loop's `note` lines), key and state files, HTTP.
- Scope keys as text: scopes are values, so that `enrollment:…` and `session:…` keys cannot collide is by construction.
- The order of a holder poll's session list (`created_at`, then ID): the list is keyed by session ID.
- Receipt and contribution fields that are constants (versions, `decision`, storage class).
- RS1024 across a change of the extendable bit: the customization string then changes too, and the code gives no distance between the two.
- SLIP-0039 splitting and combining, which the source leaves to an external library.
- Unicode digits in the client's `\d`: `Duration.ClientAgrees` is about ASCII texts.
- The client's enrollment, veto and closure commands.
- The mnemonic's length is counted in characters; the source counts bytes, which differ only for texts that are malformed either way.
- Duration.ClientAgrees: the client's expression is modelled by its group structure, not by a general regular-expression engine.
- Collect.Recover: replies are modelled after the receipt's own signature and echo checks, and refreshed manifests after theirs; a failed check is the failure `Unverified`.
