/** The answers read back after commit, field by field, and which operation a
    request is. */
module Answers {
  import opened Basics
  import opened Crypto
  import opened Wire
  import opened State
  import opened Trustee
  import opened Tables
  import opened Transactions
  import opened Invariant
  import opened RecoveryPreservation
  import opened ReadBack
  import opened Acceptance
  import opened Effects

  /** A receipt under the trustee's operator key. */
  function SignedAnswer(t: Trustee, r: Receipt): Answer {
    Receipted(SignedObject(r, Signature.Signature(PublicKey(t.signingKey.seed), r)))
  }

  /** From none to active, under the challenge, for the bindings and the very
      bytes stored. */
  lemma EnrollmentAnswerIs(
    t: Trustee, db: Database, k: EnrollmentKey, sealed: SealedEnvelope, artifact: Artifact)
    requires Valid(t, db) && k in db.enrollments
    ensures
      var row := db.enrollments[k];
      var context := row.enrollment.context;
      EnrollmentAnswer(t, db, row.challenge, sealed, artifact)
      == if row.sealedEnvelope == Some(sealed) && row.protectedArtifact == Some(artifact) then
           Ok(SignedAnswer(t, Receipt(Operation.Enroll, row.challenge, t.componentId, context.profile,
                                context.enrollmentId, context.sequence, context.policyDigest, NoneYet, Active,
                                row.storedAt, row.enrollment.expiresAt, None, None, Some(context.artifactId),
                                Some(context.artifactDigest), Some(context.slot), Some(Sha256(sealed)), None, None,
                                None, None, None, None)))
         else Err(TemporarilyUnavailable)
  {
    hide Valid, ByChallenge;
    CustodyRow(t, db, k);
  }

  /** What begin decided, whatever became of the session since. */
  lemma SessionAnswerIs(t: Trustee, db: Database, s: string)
    requires Valid(t, db) && s in db.sessions
    ensures
      var row := db.sessions[s];
      && row.key in db.enrollments
      && var context := db.enrollments[row.key].enrollment.context;
      && var refused := row.status == SRefused;
      && SessionAnswer(t, db, s)
         == Ok(SignedAnswer(t, Receipt(Operation.BeginRecovery, s, t.componentId, context.profile, context.enrollmentId,
                                 context.sequence, context.policyDigest, NoneYet,
                                 if refused then Refused else CoolingDown, row.createdAt, row.expiresAt, Some(s),
                                 if refused then Some(InvalidCandidateFactor) else None, None, None, None, None,
                                 Some(row.cooldownEndsAt), Some(row.remainingAttempts), Some(row.destinationKeysDigest),
                                 Some(Sha256(row.request)), None, None)))
  {
    hide Valid, SessionOk, EnrollmentOk;
    KnownSession(t, db, s);
    SessionTimesKnown(t, db, s);
  }

  /** A cancellation's outcome, with the reason owed for how the session now
      stands. */
  lemma CancellationAnswerIs(t: Trustee, db: Database, key: RequestKey, s: string)
    requires Valid(t, db) && key in db.outcomes && key.scope == SessionScope(s)
    ensures s in db.sessions && db.sessions[s].key in db.enrollments
    ensures
      var row, outcome := db.sessions[s], db.outcomes[key];
      var context := db.enrollments[row.key].enrollment.context;
      exists reason ::
        && ReasonIs(reason, row.status)
        && OutcomeAnswer(t, db, key)
           == Ok(SignedAnswer(t, Receipt(outcome.operation, key.requestId, t.componentId, context.profile,
                                   context.enrollmentId, context.sequence, context.policyDigest, outcome.oldState,
                                   outcome.newState, outcome.recordedAt, row.expiresAt, Some(s), reason, None, None,
                                   None, None, Some(row.cooldownEndsAt), None, Some(row.destinationKeysDigest), None,
                                   None, None)))
  {
    hide Valid, SessionOk, EnrollmentOk, SessionReason, ReasonIs;
    KnownOutcome(t, db, key);
    KnownSession(t, db, s);
    SessionTimesKnown(t, db, s);
    ReasonNamed(SessionReason(db.sessions[s].status), db.sessions[s].status);
  }

  /** An ending's outcome, for the enrollment's bindings and term. */
  lemma EndingAnswerIs(t: Trustee, db: Database, key: RequestKey, k: EnrollmentKey)
    requires Valid(t, db) && key in db.outcomes && key.scope == EnrollmentScope(k)
    ensures k in db.enrollments
    ensures
      var e, outcome := db.enrollments[k].enrollment, db.outcomes[key];
      OutcomeAnswer(t, db, key)
      == Ok(SignedAnswer(t, Receipt(outcome.operation, key.requestId, t.componentId, e.context.profile,
                              e.context.enrollmentId, e.context.sequence, e.context.policyDigest, outcome.oldState,
                              outcome.newState, outcome.recordedAt, e.expiresAt, None, None, None, None, None, None,
                              None, None, None, None, None, None)))
  {
    hide Valid, EnrollmentOk;
    KnownOutcome(t, db, key);
    CustodyTimes(t, db, k);
  }

  // -------------------------------------------------------------------------
  // Dispatch

  /** A signed request does what its operation says, and only if it is signed,
      addressed and targeted as that operation needs. */
  lemma SignedDispatch(t: Trustee, db: Database, request: SignedRequest, s: Signed, random: Random, now: int)
    ensures
      var tx := Act(t, db, Serve(SignedCall(request)), random, now);
      && (Addressed(request, t.componentId, s) ==>
            tx == match s.operation
                  case ReadEnrollment => Transactions.ReadEnrollment(t, db, s, now)
                  case ReadRecovery => Transactions.ReadRecovery(t, db, s, random, now)
                  case CancelRecovery => Transactions.CancelRecovery(t, db, s, now)
                  case RevokeEnrollment => EndEnrollment(t, db, s, now)
                  case CloseEnrollment => EndEnrollment(t, db, s, now)
                  case _ => tx)
      && ((forall any :: !Addressed(request, t.componentId, any)) ==> tx == Transaction(db, Failed(InvalidRequest)))
  {
    hide Transactions.ReadEnrollment, Transactions.ReadRecovery, Transactions.CancelRecovery, EndEnrollment, Addressed;
    hide ParseSigned;
    ParsesExactly(request, t.componentId, s);
    var parsed := ParseSigned(request, t.componentId);
    if parsed.Some? {
      ParsesExactly(request, t.componentId, parsed.value);
    }
  }

  /** Every other request, and what the unsupported and unreadable ones get. */
  lemma OtherDispatch(t: Trustee, db: Database, random: Random, now: int)
    ensures forall version, componentId, code ::
              Act(t, db, Serve(ChallengeCall(version, componentId, code)), random, now)
              == Transactions.IssueChallenge(t, db, version, componentId, code, random, now)
    ensures forall request ::
              Act(t, db, Serve(EnrollCall(request)), random, now) == Transactions.Enroll(t, db, request, now)
    ensures forall version, document ::
              Act(t, db, Serve(BeginCall(version, document)), random, now)
              == Transactions.BeginRecovery(t, db, version, document, now)
    ensures forall n ::
              Act(t, db, Serve(UnreadableCall(n)), random, now) == Transaction(db, Failed(InvalidRequest))
    ensures forall operation ::
              Act(t, db, Serve(OtherCall(operation)), random, now)
              == Transaction(db, Failed(if operation == BootstrapRecovery then BootstrapUnavailable
                                        else if operation == ExportEnrollment then ExportUnavailable
                                        else InvalidRequest))
  {
    hide Transactions.Enroll, Transactions.BeginRecovery, Transactions.IssueChallenge, ActSigned, ParseSigned;
  }

  /** What is refused before anything is looked up: a clock behind the floor,
      an unknown version, and a session that does not verify. */
  lemma RefusedAtOnce(
    t: Trustee, db: Database, version: nat, document: SessionDocument, request: EnrollRequest, now: int)
    ensures version != 1 ==>
              Transactions.BeginRecovery(t, db, version, document, now) == Transaction(db, Failed(InvalidRequest))
    ensures version == 1 && (forall s :: !Requests(document, s)) ==>
              Transactions.BeginRecovery(t, db, version, document, now)
              == Transaction(db, Failed(if Proven(document) then InvalidDestination else InvalidRequest))
    ensures version == 1 && (exists s :: Requests(document, s)) && now < db.highWater ==>
              Transactions.BeginRecovery(t, db, version, document, now)
              == Transaction(db, Failed(TemporarilyUnavailable))
    ensures request.version != 1 || request.sealedEnvelope.None? ==>
              Transactions.Enroll(t, db, request, now) == Transaction(db, Failed(InvalidRequest))
    ensures request.version == 1 && request.sealedEnvelope.Some? && now < db.highWater ==>
              Transactions.Enroll(t, db, request, now) == Transaction(db, Failed(TemporarilyUnavailable))
  {
    hide VerifySession, Requests, Proven, Accepted, CheckArtifact, Session.Binds, Admit;
    if forall s :: !Requests(document, s) {
      SessionRefused(document);
    }
    forall s | Requests(document, s)
      ensures VerifySession(document) == Ok(s)
    {
      SessionExactly(document, s);
    }
  }
}
