/** Every operation of the store (`src/store.rs`) in two halves: what its one
    transaction leaves in the tables, and the answer read back and signed
    after commit, possibly from tables others have changed since. A refused
    transaction is dropped, so it leaves the tables as they were. */
module Transactions {
  import opened Basics
  import opened Crypto
  import opened Wire
  import opened State
  import opened Trustee
  import opened Tables

  /** What is left to do once the transaction is over. */
  datatype Pending =
    | Settled(answer: Answer)
    | Failed(code: Code)
    | EnrollmentReceipt(challenge: string, sealed: SealedEnvelope, artifact: Artifact)
    | SessionReceipt(sessionId: string)
    | OutcomeReceipt(scope: Scope, requestId: string)

  datatype Transaction = Transaction(db: Database, pending: Pending)

  function Refusal(db: Database, code: Code): Transaction {
    Transaction(db, Failed(code))
  }

  /** An answer that formats these times after commit. */
  function Formatted(times: seq<int>, answer: Answer): Pending {
    if forall i :: 0 <= i < |times| ==> Formattable(times[i]) then Settled(answer) else Failed(TemporarilyUnavailable)
  }

  /** Randomness an operation draws: a fresh identifier, if the operating
      system has one, and what sealing uses. */
  datatype Random = Random(id: Option<string>, sealing: nat)

  // -------------------------------------------------------------------------
  // Invitations and enrollment

  function CreateInvitation(db: Database, lifetime: int, random: Random, now: int): Transaction {
    if random.id.None? || now < db.highWater || Sha256(random.id.value) in db.invitations
    then Refusal(db, TemporarilyUnavailable)
    else
      var row := InvitationRow(now + lifetime, None);
      Transaction(db.(highWater := now, invitations := db.invitations[Sha256(random.id.value) := row]),
                  Settled(InvitationCode(random.id.value)))
  }

  function IssueChallenge(
    t: Trustee, db: Database, version: nat, componentId: string, code: string, random: Random, now: int): Transaction
  {
    var invitation := Sha256(code);
    if version != 1 || componentId != t.componentId || !IsHex32(code) then Refusal(db, InvalidRequest)
    else if random.id.None? || now < db.highWater then Refusal(db, TemporarilyUnavailable)
    else if !InvitationOpen(db.invitations, invitation, now)
            || |OpenChallenges(db.challenges, invitation, now)| >= MAX_OPEN_CHALLENGES
    then Refusal(db, InvalidRequest)
    else if random.id.value in db.challenges then Refusal(db, TemporarilyUnavailable)
    else
      var challenge := random.id.value;
      var expiresAt := now + CHALLENGE_LIFETIME_SECS;
      Transaction(
        db.(highWater := now,
            challenges := db.challenges[challenge := ChallengeRow(invitation, expiresAt, None)]),
        Formatted([expiresAt], ChallengeIssued(challenge, t.componentId, expiresAt, t.KeyId())))
  }

  function NewEnrollment(request: EnrollRequest, enrollment: Enrollment, now: int): EnrollmentRow
    requires request.sealedEnvelope.Some?
  {
    EnrollmentRow(request.context.challenge, Sha256(request), enrollment, EAccepted, 0, now,
                  request.sealedEnvelope, Some(request.protectedArtifact))
  }

  ghost function Enroll(t: Trustee, db: Database, request: EnrollRequest, now: int): Transaction {
    var context := request.context;
    var challenge := context.challenge;
    if request.sealedEnvelope.None? || request.version != 1 then Refusal(db, InvalidRequest)
    else if now < db.highWater then Refusal(db, TemporarilyUnavailable)
    else
      var sealed := request.sealedEnvelope.value;
      match ByChallenge(db.enrollments, challenge)
      case Some(row) =>
        if row.requestDigest != Sha256(request) then Refusal(db, RequestConflict)
        else if row.status.ERevoked? || row.status.EClosed? then Refusal(db, EnrollmentRevoked)
        else Transaction(db, EnrollmentReceipt(challenge, sealed, request.protectedArtifact))
      case None =>
        var invitation := Redeemable(db, challenge, now);
        if invitation.None? || request.trusteeKeyId != t.KeyId() then Refusal(db, InvalidEnrollment)
        else match Accepted(t, context, sealed, now)
          case Err(code) => Refusal(db, code)
          case Ok(enrollment) =>
            var checked := CheckArtifact(t, enrollment, request.protectedArtifact);
            if checked.Err? then Refusal(db, checked.error)
            else match Current(db.enrollments, context.enrollmentId)
              case Some(existing) =>
                if existing.enrollment.authorizationKey != enrollment.authorizationKey
                then Transaction(Spend(db.(highWater := now), challenge, invitation.value, now),
                                 Failed(InvalidEnrollment))
                else if existing.status.ERevoked? || existing.status.EClosed? then Refusal(db, EnrollmentRevoked)
                else if context.sequence <= existing.enrollment.context.sequence
                then Refusal(db, StaleEnrollmentSequence)
                else Refusal(db, InvalidEnrollment)
              case None =>
                var key := EnrollmentKey(context.enrollmentId, context.sequence);
                var row := NewEnrollment(request, enrollment, now);
                Transaction(
                  Spend(db.(highWater := now, enrollments := db.enrollments[key := row]),
                        challenge, invitation.value, now),
                  EnrollmentReceipt(challenge, sealed, request.protectedArtifact))
  }

  // -------------------------------------------------------------------------
  // Signed requests

  predicate Fresh(t: Trustee, signed: Signed, now: int) {
    Distance(signed.issuedAt, now) <= t.limits.skewSecs
  }

  predicate SignedBy(signed: Signed, key: PublicKey) {
    Verify(key, signed.message, signed.signature)
  }

  /** `spend_nonce`: purge, then insert unless already there. */
  function SpendNonce(
    t: Trustee, nonces: map<RequestKey, int>, key: RequestKey, now: int): Reply<map<RequestKey, int>>
  {
    var kept := Purged(nonces, now - 2 * t.limits.skewSecs);
    if key in kept then Err(InvalidRequest) else Ok(kept[key := now])
  }

  function NoticeOf(row: SessionRow, now: int): Notice {
    Notice(row.Name(now), SessionReason(row.status), row.contribution.Some?, row.cooldownEndsAt, row.expiresAt)
  }

  ghost function ReadEnrollment(t: Trustee, db: Database, signed: Signed, now: int): Transaction {
    if now < db.highWater then Refusal(db, TemporarilyUnavailable)
    else match Current(db.enrollments, signed.target)
      case None => Refusal(db, InvalidRequest)
      case Some(row) =>
        var enrollment := row.enrollment;
        if !SignedBy(signed, enrollment.authorizationKey) || !Fresh(t, signed, now) then Refusal(db, InvalidRequest)
        else match SpendNonce(t, db.nonces, RequestKey(row.Scope(), signed.requestId), now)
          case Err(code) => Refusal(db, code)
          case Ok(nonces) =>
            var listed := SessionsOf(db.sessions, row.Key());
            if exists s :: s in listed
                   && !(Formattable(db.sessions[s].cooldownEndsAt) && Formattable(db.sessions[s].expiresAt))
            then Refusal(db, TemporarilyUnavailable)
            else
              var state := EnrollmentName(row.status, enrollment.expiresAt, now);
              var receipt := About(t.componentId, enrollment.context, signed.operation, signed.requestId,
                                   state, state, now, enrollment.expiresAt)
                             .(notices := Some(map s | s in listed :: NoticeOf(db.sessions[s], now)));
              Transaction(db.(highWater := now, nonces := nonces),
                          Formatted([now, enrollment.expiresAt], Receipted(SignObject(receipt, t.signingKey))))
  }

  // -------------------------------------------------------------------------
  // Recovery

  function NewSession(session: Session, row: EnrollmentRow, admission: Admission, now: int): SessionRow
    requires row.attemptsUsed < row.enrollment.policy.maximumAttempts
  {
    SessionRow(session.sessionId, row.Key(),
               if FactorHolds(row.enrollment, session) then SCoolingDown else SRefused,
               session.canonical, session.proofKey, session.destinationKeysDigest,
               admission.cooldownEndsAt, admission.expiresAt,
               row.enrollment.policy.maximumAttempts - row.attemptsUsed - 1, now, None)
  }

  ghost function BeginRecovery(
    t: Trustee, db: Database, version: nat, document: SessionDocument, now: int): Transaction
  {
    if version != 1 then Refusal(db, InvalidRequest)
    else match VerifySession(document)
      case Err(code) => Refusal(db, code)
      case Ok(session) =>
        var id := session.sessionId;
        if now < db.highWater then Refusal(db, TemporarilyUnavailable)
        else if id in db.sessions then
          if db.sessions[id].request != session.canonical then Refusal(db, RequestConflict)
          else Transaction(db, SessionReceipt(id))
        else
          var current := Current(db.enrollments, session.enrollmentId);
          if current.None? || !session.Binds(current.value.enrollment.context) then Refusal(db, InvalidRequest)
          else
            var row := current.value;
            match Admit(row.State(), row.enrollment.policy, row.attemptsUsed, session.requestedAt,
                        session.expiresAt, now, t.limits.skewSecs)
            case Err(code) => Refusal(db, code)
            case Ok(admission) =>
              Transaction(
                db.(highWater := now,
                    enrollments := db.enrollments[row.Key() := row.(attemptsUsed := row.attemptsUsed + 1)],
                    sessions := db.sessions[id := NewSession(session, row, admission, now)]),
                SessionReceipt(id))
  }

  /** The fields every receipt about a session carries. */
  function SessionAbout(
    t: Trustee, row: SessionRow, enrollment: Enrollment, operation: Operation, requestId: string,
    oldState: StateName, newState: StateName, recordedAt: int): Receipt
  {
    About(t.componentId, enrollment.context, operation, requestId, oldState, newState, recordedAt, row.expiresAt)
    .(sessionId := Some(row.sessionId), cooldownEndsAt := Some(row.cooldownEndsAt),
      destinationKeysDigest := Some(row.destinationKeysDigest))
  }

  /** What a poll may hand out: the contribution of a release, nothing while
      the session cannot release, or a refusal. */
  function Released(
    t: Trustee, row: EnrollmentRow, session: SessionRow, now: int, floor: int, sealing: nat)
    : Reply<Option<Contribution>>
  {
    match MayRelease(row.State(), session.State(), now, floor)
    case Ok(Emit) =>
      if row.sealedEnvelope.None? || VerifySession(session.request).Err? then Err(TemporarilyUnavailable)
      else
        var contribution :- Contribute(t, row.enrollment, row.sealedEnvelope.value,
                                       VerifySession(session.request).value, now, sealing);
        Ok(Some(contribution))
    case Ok(Resend) => Ok(session.contribution)
    case Err(code) =>
      if code in {RecoveryCoolingDown, RecoveryVetoed, RecoveryRefused, RecoveryExpired} then Ok(None) else Err(code)
  }

  /** The row a poll leaves: an emission is stored as it is handed out. */
  function Polled(session: SessionRow, release: Reply<Release>, contribution: Option<Contribution>): SessionRow {
    if release == Ok(Emit) then session.(status := SReleased, contribution := contribution) else session
  }

  function PollReceipt(
    t: Trustee, signed: Signed, before: SessionRow, after: SessionRow, enrollment: Enrollment,
    contribution: Option<Contribution>, now: int): Receipt
  {
    SessionAbout(t, after, enrollment, signed.operation, signed.requestId, before.Name(now), after.Name(now), now)
    .(reason := SessionReason(after.status), contribution := contribution)
  }

  ghost function ReadRecovery(t: Trustee, db: Database, signed: Signed, random: Random, now: int): Transaction {
    var id := signed.target;
    if now < db.highWater then Refusal(db, TemporarilyUnavailable)
    else if id !in db.sessions then Refusal(db, InvalidRequest)
    else
      var session := db.sessions[id];
      if !SignedBy(signed, session.proofKey) || !Fresh(t, signed, now) then Refusal(db, InvalidRequest)
      else match SpendNonce(t, db.nonces, RequestKey(SessionScope(id), signed.requestId), now)
        case Err(code) => Refusal(db, code)
        case Ok(nonces) =>
          if session.key !in db.enrollments then Refusal(db, TemporarilyUnavailable)
          else
            var row := db.enrollments[session.key];
            match Released(t, row, session, now, db.highWater, random.sealing)
            case Err(code) => Refusal(db, code)
            case Ok(contribution) =>
              var release := MayRelease(row.State(), session.State(), now, db.highWater);
              var after := Polled(session, release, contribution);
              var receipt := PollReceipt(t, signed, session, after, row.enrollment, contribution, now);
              Transaction(db.(highWater := now, nonces := nonces, sessions := db.sessions[id := after]),
                          Formatted([session.expiresAt, session.cooldownEndsAt, now],
                                    Receipted(SignObject(receipt, t.signingKey))))
  }

  /** The status a cancellation at `now` leaves. */
  function CancelledStatus(session: SessionRow, byHolder: bool, now: int): SessionStatus {
    if session.status in {SCoolingDown, SReleased} && now < session.expiresAt
    then if byHolder then SVetoed else SCancelled
    else session.status
  }

  ghost function CancelRecovery(t: Trustee, db: Database, signed: Signed, now: int): Transaction {
    var id := signed.target;
    if signed.party != Some(Holder) && signed.party != Some(Candidate) then Refusal(db, InvalidRequest)
    else if now < db.highWater then Refusal(db, TemporarilyUnavailable)
    else if id !in db.sessions then Refusal(db, InvalidRequest)
    else
      var session := db.sessions[id];
      var byHolder := signed.party == Some(Holder);
      var outcome := RequestKey(SessionScope(id), signed.requestId);
      if session.key !in db.enrollments then Refusal(db, TemporarilyUnavailable)
      else
        var row := db.enrollments[session.key];
        var key := if byHolder then row.enrollment.authorizationKey else session.proofKey;
        if !SignedBy(signed, key) then Refusal(db, InvalidRequest)
        else if outcome in db.outcomes then Replayed(db, outcome, signed)
        else if !Fresh(t, signed, now) then Refusal(db, InvalidRequest)
        else
          var after := session.(status := CancelledStatus(session, byHolder, now));
          Transaction(
            db.(highWater := now, sessions := db.sessions[id := after],
                outcomes := db.outcomes[outcome := OutcomeRow(signed.digest, signed.operation, session.Name(now),
                                                              after.Name(now), now)]),
            OutcomeReceipt(outcome.scope, signed.requestId))
  }

  /** An identical retry gets the recorded outcome; a changed body under the
      same request ID is a conflict. */
  function Replayed(db: Database, outcome: RequestKey, signed: Signed): Transaction
    requires outcome in db.outcomes
  {
    if db.outcomes[outcome].requestDigest != signed.digest then Refusal(db, RequestConflict)
    else Transaction(db, OutcomeReceipt(outcome.scope, outcome.requestId))
  }

  /** The status revoking or closing leaves: closing is final. */
  function EndedStatus(operation: Operation, status: EnrollmentStatus): EnrollmentStatus {
    if operation.CloseEnrollment? || status.EClosed? then EClosed else ERevoked
  }

  ghost function EndEnrollment(t: Trustee, db: Database, signed: Signed, now: int): Transaction {
    if now < db.highWater then Refusal(db, TemporarilyUnavailable)
    else match Current(db.enrollments, signed.target)
      case None => Refusal(db, InvalidRequest)
      case Some(row) =>
        var outcome := RequestKey(row.Scope(), signed.requestId);
        if !SignedBy(signed, row.enrollment.authorizationKey) then Refusal(db, InvalidRequest)
        else if outcome in db.outcomes then Replayed(db, outcome, signed)
        else if !Fresh(t, signed, now) then Refusal(db, InvalidRequest)
        else
          var after := row.(status := EndedStatus(signed.operation, row.status),
                            sealedEnvelope := None, protectedArtifact := None);
          var expiresAt := row.enrollment.expiresAt;
          Transaction(
            db.(highWater := now, enrollments := db.enrollments[row.Key() := after],
                outcomes := db.outcomes[outcome := OutcomeRow(signed.digest, signed.operation,
                                                              EnrollmentName(row.status, expiresAt, now),
                                                              EnrollmentName(after.status, expiresAt, now), now)]),
            OutcomeReceipt(outcome.scope, signed.requestId))
  }

  // -------------------------------------------------------------------------
  // Dispatch

  datatype Action = Invite(lifetime: int) | Serve(request: Request)

  /** `Store::handle`, and minting an invitation. */
  ghost function Act(t: Trustee, db: Database, action: Action, random: Random, now: int): Transaction {
    match action
    case Invite(lifetime) => CreateInvitation(db, lifetime, random, now)
    case Serve(request) =>
      match request
      case ChallengeCall(version, componentId, code) =>
        IssueChallenge(t, db, version, componentId, code, random, now)
      case EnrollCall(enroll) => Enroll(t, db, enroll, now)
      case BeginCall(version, session) => BeginRecovery(t, db, version, session, now)
      case SignedCall(signed) =>
        (match ParseSigned(signed, t.componentId)
         case None => Refusal(db, InvalidRequest)
         case Some(s) => ActSigned(t, db, s, random, now))
      case OtherCall(operation) =>
        Refusal(db, match operation
                    case BootstrapRecovery => BootstrapUnavailable
                    case ExportEnrollment => ExportUnavailable
                    case _ => InvalidRequest)
      case UnreadableCall(_) => Refusal(db, InvalidRequest)
  }

  ghost function ActSigned(t: Trustee, db: Database, signed: Signed, random: Random, now: int): Transaction {
    match signed.operation
    case ReadEnrollment => ReadEnrollment(t, db, signed, now)
    case ReadRecovery => ReadRecovery(t, db, signed, random, now)
    case CancelRecovery => CancelRecovery(t, db, signed, now)
    case RevokeEnrollment | CloseEnrollment => EndEnrollment(t, db, signed, now)
    case _ => Refusal(db, InvalidRequest)
  }

  // -------------------------------------------------------------------------
  // After commit

  /** The answer, read back from the tables as they then are. */
  ghost function Respond(t: Trustee, db: Database, pending: Pending): Reply<Answer> {
    match pending
    case Settled(answer) => Ok(answer)
    case Failed(code) => Err(code)
    case EnrollmentReceipt(challenge, sealed, artifact) => EnrollmentAnswer(t, db, challenge, sealed, artifact)
    case SessionReceipt(id) => SessionAnswer(t, db, id)
    case OutcomeReceipt(scope, requestId) => OutcomeAnswer(t, db, RequestKey(scope, requestId))
  }

  function Sealed(t: Trustee, receipt: Receipt, times: seq<int>): Reply<Answer> {
    if forall i :: 0 <= i < |times| ==> Formattable(times[i])
    then Ok(Receipted(SignObject(receipt, t.signingKey)))
    else Err(TemporarilyUnavailable)
  }

  ghost function EnrollmentAnswer(
    t: Trustee, db: Database, challenge: string, sealed: SealedEnvelope, artifact: Artifact): Reply<Answer>
  {
    match ByChallenge(db.enrollments, challenge)
    case None => Err(TemporarilyUnavailable)
    case Some(row) =>
      if row.sealedEnvelope != Some(sealed) || row.protectedArtifact != Some(artifact)
      then Err(TemporarilyUnavailable)
      else
        var context := row.enrollment.context;
        var receipt := About(t.componentId, context, Operation.Enroll, challenge, NoneYet, Active, row.storedAt,
                             row.enrollment.expiresAt)
                       .(artifactId := Some(context.artifactId), artifactDigest := Some(context.artifactDigest),
                         slot := Some(context.slot), sealedContributionDigest := Some(Sha256(sealed)));
        Sealed(t, receipt, [row.storedAt, row.enrollment.expiresAt])
  }

  /** The recorded outcome of `begin-recovery`: what begin decided, never
      what happened later. */
  function SessionAnswer(t: Trustee, db: Database, id: string): Reply<Answer> {
    if id !in db.sessions || db.sessions[id].key !in db.enrollments then Err(TemporarilyUnavailable)
    else
      var session := db.sessions[id];
      var refused := session.status == SRefused;
      var receipt := SessionAbout(t, session, db.enrollments[session.key].enrollment, Operation.BeginRecovery, id,
                                  NoneYet, if refused then Refused else CoolingDown, session.createdAt)
                     .(reason := if refused then SessionReason(session.status) else None,
                       remainingAttempts := Some(session.remainingAttempts),
                       evidenceDigest := Some(Sha256(session.request)));
      Sealed(t, receipt, [session.expiresAt, session.cooldownEndsAt, session.createdAt])
  }

  /** The receipt of a recorded state change, rebuilt from its outcome row. */
  function OutcomeAnswer(t: Trustee, db: Database, key: RequestKey): Reply<Answer> {
    if key !in db.outcomes then Err(TemporarilyUnavailable)
    else
      var outcome := db.outcomes[key];
      match key.scope
      case SessionScope(id) =>
        if id !in db.sessions || db.sessions[id].key !in db.enrollments then Err(TemporarilyUnavailable)
        else
          var session := db.sessions[id];
          var receipt := SessionAbout(t, session, db.enrollments[session.key].enrollment, outcome.operation,
                                      key.requestId, outcome.oldState, outcome.newState, outcome.recordedAt)
                         .(reason := SessionReason(session.status));
          Sealed(t, receipt, [session.expiresAt, session.cooldownEndsAt, outcome.recordedAt])
      case EnrollmentScope(k) =>
        if k !in db.enrollments then Err(TemporarilyUnavailable)
        else
          var enrollment := db.enrollments[k].enrollment;
          var receipt := About(t.componentId, enrollment.context, outcome.operation, key.requestId, outcome.oldState,
                               outcome.newState, outcome.recordedAt, enrollment.expiresAt);
          Sealed(t, receipt, [enrollment.expiresAt, outcome.recordedAt])
  }
}
