/** Idempotency: an identical retry is answered from the record of the first,
    however late it comes and whatever happened in between, and changes
    nothing. */
module Retries {
  import opened Basics
  import opened Crypto
  import opened Wire
  import opened State
  import opened Trustee
  import opened Tables
  import opened Transactions
  import opened Invariant
  import opened RecoveryPreservation
  import opened ReadBack

  // -------------------------------------------------------------------------
  // The record a request leaves

  ghost predicate BeginRecorded(db: Database, version: nat, document: SessionDocument) {
    && version == 1 && VerifySession(document).Ok?
    && VerifySession(document).value.sessionId in db.sessions
    && db.sessions[VerifySession(document).value.sessionId].request == document
  }

  function CancellingKey(db: Database, signed: Signed): PublicKey
    requires signed.target in db.sessions && db.sessions[signed.target].key in db.enrollments
  {
    if signed.party == Some(Holder) then db.enrollments[db.sessions[signed.target].key].enrollment.authorizationKey
    else db.sessions[signed.target].proofKey
  }

  ghost predicate CancelRecorded(db: Database, signed: Signed) {
    var outcome := RequestKey(SessionScope(signed.target), signed.requestId);
    && signed.party in {Some(Holder), Some(Candidate)}
    && signed.target in db.sessions && db.sessions[signed.target].key in db.enrollments
    && SignedBy(signed, CancellingKey(db, signed))
    && outcome in db.outcomes && db.outcomes[outcome].requestDigest == signed.digest
  }

  ghost predicate EndRecorded(db: Database, signed: Signed, k: EnrollmentKey) {
    var outcome := RequestKey(EnrollmentScope(k), signed.requestId);
    && k in db.enrollments && k.id == signed.target
    && SignedBy(signed, db.enrollments[k].enrollment.authorizationKey)
    && outcome in db.outcomes && db.outcomes[outcome].requestDigest == signed.digest
  }

  ghost predicate EnrollRecorded(db: Database, request: EnrollRequest, k: EnrollmentKey) {
    && request.sealedEnvelope.Some? && request.version == 1
    && k in db.enrollments && db.enrollments[k].challenge == request.context.challenge
    && db.enrollments[k].requestDigest == Sha256(request)
  }

  // -------------------------------------------------------------------------
  // Beginning

  lemma BeginLeavesRecord(t: Trustee, db: Database, version: nat, document: SessionDocument, now: int)
    requires Transactions.BeginRecovery(t, db, version, document, now).pending.SessionReceipt?
    ensures
      var tx := Transactions.BeginRecovery(t, db, version, document, now);
      && BeginRecorded(tx.db, version, document)
      && tx.pending == SessionReceipt(VerifySession(document).value.sessionId)
  {
    hide VerifySession, Session.Binds, Admit;
    CanonicalIs(document);
  }

  lemma BeginRetried(t: Trustee, a: Database, b: Database, version: nat, document: SessionDocument, now: int)
    requires BeginRecorded(a, version, document) && Evolves(a, b) && b.highWater <= now
    ensures Transactions.BeginRecovery(t, b, version, document, now)
            == Transaction(b, SessionReceipt(VerifySession(document).value.sessionId))
  {
    hide VerifySession, Session.Binds, Admit, InvitationsEvolve, ChallengesEvolve, EnrollmentsEvolve, OutcomesKept;
    CanonicalIs(document);
    var id := VerifySession(document).value.sessionId;
    assert SessionEvolves(a.sessions[id], b.sessions[id], a.highWater);
  }

  // -------------------------------------------------------------------------
  // Cancelling

  lemma CancelLeavesRecord(t: Trustee, db: Database, signed: Signed, now: int)
    requires Transactions.CancelRecovery(t, db, signed, now).pending.OutcomeReceipt?
    ensures
      var tx := Transactions.CancelRecovery(t, db, signed, now);
      && CancelRecorded(tx.db, signed)
      && tx.pending == OutcomeReceipt(SessionScope(signed.target), signed.requestId)
  {
  }

  lemma CancelRetried(t: Trustee, a: Database, b: Database, signed: Signed, now: int)
    requires CancelRecorded(a, signed) && Evolves(a, b) && b.highWater <= now
    ensures Transactions.CancelRecovery(t, b, signed, now)
            == Transaction(b, OutcomeReceipt(SessionScope(signed.target), signed.requestId))
  {
    hide InvitationsEvolve, ChallengesEvolve, FrozenKept;
    var id := signed.target;
    assert SessionEvolves(a.sessions[id], b.sessions[id], a.highWater);
    assert EnrollmentEvolves(a.enrollments[a.sessions[id].key], b.enrollments[a.sessions[id].key]);
  }

  // -------------------------------------------------------------------------
  // Revoking and closing

  lemma EndLeavesRecord(t: Trustee, db: Database, signed: Signed, now: int) returns (k: EnrollmentKey)
    requires Valid(t, db) && EndEnrollment(t, db, signed, now).pending.OutcomeReceipt?
    ensures
      var tx := EndEnrollment(t, db, signed, now);
      && EndRecorded(tx.db, signed, k)
      && tx.pending == OutcomeReceipt(EnrollmentScope(k), signed.requestId)
  {
    hide Valid, EndedStatus, EnrollmentName, EnrollmentOk, Fresh, SignedBy, Current;
    var row := Current(db.enrollments, signed.target).value;
    k :| IsCurrent(db.enrollments, signed.target, k) && row == db.enrollments[k];
    KnownRow(t, db, k);
  }

  lemma EndRetried(t: Trustee, a: Database, b: Database, signed: Signed, now: int, k: EnrollmentKey)
    requires EndRecorded(a, signed, k) && Evolves(a, b) && b.highWater <= now && Valid(t, b)
    ensures EndEnrollment(t, b, signed, now) == Transaction(b, OutcomeReceipt(EnrollmentScope(k), signed.requestId))
  {
    hide Valid, InvitationsEvolve, ChallengesEvolve, SessionsEvolve, FrozenKept, EndedStatus, EnrollmentName;
    assert EnrollmentEvolves(a.enrollments[k], b.enrollments[k]);
    KnownRow(t, b, k);
  }

  // -------------------------------------------------------------------------
  // Enrolling

  lemma EnrollLeavesRecord(t: Trustee, db: Database, request: EnrollRequest, now: int) returns (k: EnrollmentKey)
    requires Transactions.Enroll(t, db, request, now).pending.EnrollmentReceipt?
    ensures
      var tx := Transactions.Enroll(t, db, request, now);
      && EnrollRecorded(tx.db, request, k)
      && tx.pending
         == EnrollmentReceipt(request.context.challenge, request.sealedEnvelope.value, request.protectedArtifact)
  {
    hide Redeemable, CheckArtifact, Accepted, Current;
    var recorded := ByChallenge(db.enrollments, request.context.challenge);
    if recorded.Some? {
      k :| k in db.enrollments && db.enrollments[k] == recorded.value;
    } else {
      k := EnrollmentKey(request.context.enrollmentId, request.context.sequence);
    }
  }

  lemma EnrollRetried(t: Trustee, a: Database, b: Database, request: EnrollRequest, now: int, k: EnrollmentKey)
    requires EnrollRecorded(a, request, k) && Evolves(a, b) && b.highWater <= now && Valid(t, b)
    ensures k in b.enrollments
    ensures Transactions.Enroll(t, b, request, now)
            == if b.enrollments[k].status in {ERevoked, EClosed} then Refusal(b, EnrollmentRevoked)
               else Transaction(b, EnrollmentReceipt(request.context.challenge, request.sealedEnvelope.value,
                                                     request.protectedArtifact))
  {
    hide Valid, InvitationsEvolve, ChallengesEvolve, SessionsEvolve, FrozenKept, Redeemable, CheckArtifact, Accepted;
    hide ByChallenge, Current;
    assert EnrollmentEvolves(a.enrollments[k], b.enrollments[k]);
    CustodyRow(t, b, k);
  }

  // -------------------------------------------------------------------------
  // Any retry

  /** An action a receipt was signed for, made again on tables that evolved
      since, with whatever randomness, at any time the clock floor allows: the
      same answer is pending and nothing changes. An enrollment is the
      exception the original makes: once revoked or closed, the retry is told
      so. */
  lemma RetryIdentical(
    t: Trustee, a: Database, b: Database, action: Action, random: Random, now: int, again: Random, later: int)
    requires Valid(t, a) && Valid(t, b) && b.highWater <= later
    requires Evolves(Act(t, a, action, random, now).db, b)
    requires !Act(t, a, action, random, now).pending.Settled? && !Act(t, a, action, random, now).pending.Failed?
    ensures
      var pending := Act(t, a, action, random, now).pending;
      Act(t, b, action, again, later)
      == if InCustody(b, pending) then Transaction(b, pending) else Refusal(b, EnrollmentRevoked)
  {
    hide Valid, Evolves, Transactions.Enroll, Transactions.BeginRecovery, Transactions.ReadEnrollment;
    hide Transactions.CancelRecovery, Transactions.ReadRecovery, EndEnrollment, ParseSigned, InCustody;
    var tx := Act(t, a, action, random, now);
    match action
    case Serve(BeginCall(version, document)) =>
      BeginRecordsSession(t, a, version, document, now);
      BeginLeavesRecord(t, a, version, document, now);
      BeginRetried(t, tx.db, b, version, document, later);
      NotEnrolling(b, tx.pending);
    case Serve(EnrollCall(request)) =>
      EnrollRecords(t, a, request, now);
      EnrollRecordsEnrollment(t, a, request, now);
      var k := EnrollLeavesRecord(t, a, request, now);
      EnrollRetried(t, tx.db, b, request, later, k);
      CustodyIs(t, tx.db, b, request, k);
    case Serve(SignedCall(request)) =>
      var signed := ParseSigned(request, t.componentId).value;
      SignedRecordsOutcome(t, a, signed, random, now);
      NotEnrolling(b, tx.pending);
      match signed.operation
      case CancelRecovery =>
        CancelLeavesRecord(t, a, signed, now);
        CancelRetried(t, tx.db, b, signed, later);
      case RevokeEnrollment | CloseEnrollment =>
        var k := EndLeavesRecord(t, a, signed, now);
        EndRetried(t, tx.db, b, signed, later, k);
    case _ =>
      assert false;
  }

  lemma NotEnrolling(db: Database, pending: Pending)
    requires !pending.EnrollmentReceipt?
    ensures InCustody(db, pending)
  {
  }

  lemma BeginRecordsSession(t: Trustee, db: Database, version: nat, document: SessionDocument, now: int)
    ensures
      var pending := Transactions.BeginRecovery(t, db, version, document, now).pending;
      pending.SessionReceipt? || pending.Failed?
  {
    hide VerifySession, Session.Binds, Admit;
  }

  lemma EnrollRecordsEnrollment(t: Trustee, db: Database, request: EnrollRequest, now: int)
    ensures
      var pending := Transactions.Enroll(t, db, request, now).pending;
      pending.EnrollmentReceipt? || pending.Failed?
  {
    hide Redeemable, CheckArtifact, Accepted, Current, ByChallenge;
  }

  lemma SignedRecordsOutcome(t: Trustee, db: Database, signed: Signed, random: Random, now: int)
    ensures
      var pending := ActSigned(t, db, signed, random, now).pending;
      && (signed.operation.ReadEnrollment? || signed.operation.ReadRecovery? ==> pending.Settled? || pending.Failed?)
      && (signed.operation in {Operation.CancelRecovery, RevokeEnrollment, CloseEnrollment} ==>
            pending.OutcomeReceipt? || pending.Failed?)
  {
    hide SpendNonce, Released, MayRelease, Current;
  }

  lemma CustodyIs(t: Trustee, a: Database, b: Database, request: EnrollRequest, k: EnrollmentKey)
    requires Valid(t, b) && Evolves(a, b) && EnrollRecorded(a, request, k)
    ensures k in b.enrollments
    ensures InCustody(b, EnrollmentReceipt(request.context.challenge, request.sealedEnvelope.value,
                                           request.protectedArtifact))
            <==> b.enrollments[k].status !in {ERevoked, EClosed}
  {
    hide SessionsOk, AttemptsOk, InvitationsOk, FewOpen, OutcomesOk, PastOk, Accepted;
    hide InvitationsEvolve, ChallengesEvolve, SessionsEvolve, OutcomesKept, FrozenKept;
    assert EnrollmentEvolves(a.enrollments[k], b.enrollments[k]);
    assert EnrollmentOk(t, k, b.enrollments[k]);
    var challenge, sealed := request.context.challenge, request.sealedEnvelope.value;
    var artifact := request.protectedArtifact;
    assert BackedBy(b.enrollments, k, challenge, sealed, artifact);
    StillBacked(t, a, b, challenge, sealed, artifact, k);
  }

  // -------------------------------------------------------------------------
  // A changed body under a used request ID

  lemma BeginConflicts(
    t: Trustee, a: Database, b: Database, version: nat, first: SessionDocument, second: SessionDocument, now: int)
    requires BeginRecorded(a, version, first) && Evolves(a, b) && b.highWater <= now
    requires VerifySession(second).Ok? && second != first
    requires VerifySession(second).value.sessionId == VerifySession(first).value.sessionId
    ensures Transactions.BeginRecovery(t, b, version, second, now) == Refusal(b, RequestConflict)
  {
    hide VerifySession, Session.Binds, Admit, InvitationsEvolve, ChallengesEvolve, EnrollmentsEvolve, OutcomesKept;
    CanonicalIs(second);
    var id := VerifySession(first).value.sessionId;
    assert SessionEvolves(a.sessions[id], b.sessions[id], a.highWater);
  }

  lemma CancelConflicts(t: Trustee, a: Database, b: Database, first: Signed, second: Signed, now: int)
    requires CancelRecorded(a, first) && Evolves(a, b) && b.highWater <= now
    requires second.target == first.target && second.requestId == first.requestId && second.digest != first.digest
    requires second.party in {Some(Holder), Some(Candidate)} && SignedBy(second, CancellingKey(a, second))
    ensures Transactions.CancelRecovery(t, b, second, now) == Refusal(b, RequestConflict)
  {
    hide InvitationsEvolve, ChallengesEvolve, FrozenKept;
    var id := first.target;
    assert SessionEvolves(a.sessions[id], b.sessions[id], a.highWater);
    assert EnrollmentEvolves(a.enrollments[a.sessions[id].key], b.enrollments[a.sessions[id].key]);
  }

  lemma EndConflicts(t: Trustee, a: Database, b: Database, first: Signed, second: Signed, now: int, k: EnrollmentKey)
    requires EndRecorded(a, first, k) && Evolves(a, b) && b.highWater <= now && Valid(t, b)
    requires second.target == first.target && second.requestId == first.requestId && second.digest != first.digest
    requires SignedBy(second, a.enrollments[k].enrollment.authorizationKey)
    ensures EndEnrollment(t, b, second, now) == Refusal(b, RequestConflict)
  {
    hide Valid, InvitationsEvolve, ChallengesEvolve, SessionsEvolve, FrozenKept, EndedStatus, EnrollmentName;
    assert EnrollmentEvolves(a.enrollments[k], b.enrollments[k]);
    KnownRow(t, b, k);
  }

  lemma EnrollConflicts(
    t: Trustee, a: Database, b: Database, first: EnrollRequest, second: EnrollRequest, now: int, k: EnrollmentKey)
    requires EnrollRecorded(a, first, k) && Evolves(a, b) && b.highWater <= now && Valid(t, b)
    requires second.context.challenge == first.context.challenge && second != first
    requires second.version == 1 && second.sealedEnvelope.Some?
    ensures Transactions.Enroll(t, b, second, now) == Refusal(b, RequestConflict)
  {
    hide Valid, InvitationsEvolve, ChallengesEvolve, SessionsEvolve, FrozenKept, Redeemable, CheckArtifact, Accepted;
    hide ByChallenge, Current;
    assert EnrollmentEvolves(a.enrollments[k], b.enrollments[k]);
    CustodyRow(t, b, k);
  }
}
