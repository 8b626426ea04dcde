/** Answers are read back after commit, perhaps from tables other connections
    have changed since, and retries are answered from rows alone. Neither may
    show in the bytes signed. */
module ReadBack {
  import opened Basics
  import opened Crypto
  import opened Wire
  import opened State
  import opened Trustee
  import opened Tables
  import opened Transactions
  import opened Invariant
  import opened RecoveryPreservation

  // -------------------------------------------------------------------------
  // What a transaction recorded

  /** The row was accepted from exactly these bytes under this challenge. */
  ghost predicate Backs(row: EnrollmentRow, challenge: string, sealed: SealedEnvelope, artifact: Artifact) {
    && row.challenge == challenge
    && row.requestDigest.Sha256?
    && Source(row).sealedEnvelope == Some(sealed)
    && Source(row).protectedArtifact == artifact
  }

  ghost predicate BackedBy(
    enrollments: map<EnrollmentKey, EnrollmentRow>, k: EnrollmentKey, challenge: string, sealed: SealedEnvelope,
    artifact: Artifact)
  {
    k in enrollments && Backs(enrollments[k], challenge, sealed, artifact)
  }

  /** The pending answer is backed by rows in these tables. */
  ghost predicate Recorded(db: Database, pending: Pending) {
    match pending
    case Settled(_) => true
    case Failed(_) => true
    case EnrollmentReceipt(challenge, sealed, artifact) =>
      exists k :: BackedBy(db.enrollments, k, challenge, sealed, artifact)
    case SessionReceipt(id) => id in db.sessions
    case OutcomeReceipt(scope, requestId) => RequestKey(scope, requestId) in db.outcomes
  }

  /** The row whose custody an answer reports is still in custody. */
  ghost predicate InCustody(db: Database, pending: Pending) {
    pending.EnrollmentReceipt? ==>
      exists k :: BackedBy(db.enrollments, k, pending.challenge, pending.sealed, pending.artifact)
                  && db.enrollments[k].status.EAccepted?
  }

  lemma ByChallengeIs(
    t: Trustee, enrollments: map<EnrollmentKey, EnrollmentRow>, challenges: map<string, ChallengeRow>, k: EnrollmentKey)
    requires EnrollmentsOk(t, enrollments, challenges) && k in enrollments
    ensures ByChallenge(enrollments, enrollments[k].challenge) == Some(enrollments[k])
  {
    hide EnrollmentOk;
  }

  lemma ReplayBacked(t: Trustee, db: Database, request: EnrollRequest, row: EnrollmentRow)
    requires Valid(t, db) && ByChallenge(db.enrollments, request.context.challenge) == Some(row)
    requires row.requestDigest == Sha256(request) && request.sealedEnvelope.Some?
    requires !row.status.ERevoked? && !row.status.EClosed?
    ensures
      var pending :=
        EnrollmentReceipt(request.context.challenge, request.sealedEnvelope.value, request.protectedArtifact);
      Recorded(db, pending) && InCustody(db, pending)
  {
    hide SessionsOk, AttemptsOk, InvitationsOk, FewOpen, OutcomesOk, PastOk, Accepted;
    var k :| k in db.enrollments && db.enrollments[k] == row;
    assert EnrollmentOk(t, k, row);
    assert BackedBy(db.enrollments, k, request.context.challenge, request.sealedEnvelope.value,
                    request.protectedArtifact);
  }

  lemma EnrollRecords(t: Trustee, db: Database, request: EnrollRequest, now: int)
    requires Valid(t, db)
    ensures
      var tx := Transactions.Enroll(t, db, request, now);
      Recorded(tx.db, tx.pending) && InCustody(tx.db, tx.pending)
  {
    hide Valid, Redeemable, CheckArtifact, Accepted, Current, ByChallenge;
    var tx := Transactions.Enroll(t, db, request, now);
    var recorded := ByChallenge(db.enrollments, request.context.challenge);
    if tx.pending.EnrollmentReceipt? {
      if recorded.Some? {
        ReplayBacked(t, db, request, recorded.value);
      } else {
        var k := EnrollmentKey(request.context.enrollmentId, request.context.sequence);
        assert BackedBy(tx.db.enrollments, k, tx.pending.challenge, tx.pending.sealed, tx.pending.artifact);
      }
    }
  }

  lemma BeginRecords(t: Trustee, db: Database, version: nat, document: SessionDocument, now: int)
    ensures
      var tx := Transactions.BeginRecovery(t, db, version, document, now);
      Recorded(tx.db, tx.pending) && !tx.pending.EnrollmentReceipt?
  {
    hide VerifySession, Session.Binds, Admit;
  }

  lemma SignedRecords(t: Trustee, db: Database, signed: Signed, random: Random, now: int)
    ensures
      var tx := ActSigned(t, db, signed, random, now);
      Recorded(tx.db, tx.pending) && !tx.pending.EnrollmentReceipt?
  {
    hide SpendNonce, Released, MayRelease;
  }

  lemma ActRecords(t: Trustee, db: Database, action: Action, random: Random, now: int)
    requires Valid(t, db)
    ensures
      var tx := Act(t, db, action, random, now);
      Recorded(tx.db, tx.pending) && InCustody(tx.db, tx.pending)
  {
    hide Valid, Transactions.Enroll, Transactions.BeginRecovery, ActSigned, ParseSigned;
    match action
    case Invite(_) =>
    case Serve(EnrollCall(enroll)) => EnrollRecords(t, db, enroll, now);
    case Serve(BeginCall(version, session)) => BeginRecords(t, db, version, session, now);
    case Serve(SignedCall(request)) =>
      var signed := ParseSigned(request, t.componentId);
      if signed.Some? {
        SignedRecords(t, db, signed.value, random, now);
      }
    case Serve(_) =>
  }

  // -------------------------------------------------------------------------
  // Stable answers

  lemma CustodyRow(t: Trustee, db: Database, k: EnrollmentKey)
    requires Valid(t, db) && k in db.enrollments
    ensures
      var e := db.enrollments[k];
      && ByChallenge(db.enrollments, e.challenge) == Some(e)
      && Formattable(e.storedAt) && Formattable(e.enrollment.expiresAt)
      && e.requestDigest.Sha256?
      && e.sealedEnvelope == (if e.status.EAccepted? then Source(e).sealedEnvelope else None)
      && e.protectedArtifact == (if e.status.EAccepted? then Some(Source(e).protectedArtifact) else None)
  {
    hide SessionsOk, AttemptsOk, InvitationsOk, FewOpen, OutcomesOk, PastOk, Accepted;
    ByChallengeIs(t, db.enrollments, db.challenges, k);
    var e := db.enrollments[k];
    assert EnrollmentOk(t, k, e);
    AcceptedFacts(t, Source(e).context, Source(e).sealedEnvelope.value, e.storedAt);
  }

  lemma EnrollmentAnswerStable(
    t: Trustee, a: Database, b: Database, challenge: string, sealed: SealedEnvelope, artifact: Artifact,
    k: EnrollmentKey)
    requires Valid(t, a) && Valid(t, b) && Evolves(a, b) && BackedBy(a.enrollments, k, challenge, sealed, artifact)
    requires a.enrollments[k].status.EAccepted?
    ensures EnrollmentAnswer(t, a, challenge, sealed, artifact).Ok?
    ensures k in b.enrollments
    ensures EnrollmentAnswer(t, b, challenge, sealed, artifact)
            == if b.enrollments[k].status.EAccepted? then EnrollmentAnswer(t, a, challenge, sealed, artifact)
               else Err(TemporarilyUnavailable)
  {
    hide Valid, ByChallenge, InvitationsEvolve, ChallengesEvolve, SessionsEvolve, OutcomesKept, FrozenKept;
    assert EnrollmentEvolves(a.enrollments[k], b.enrollments[k]);
    CustodyRow(t, a, k);
    CustodyRow(t, b, k);
  }

  lemma SessionAnswerStable(t: Trustee, a: Database, b: Database, id: string)
    requires Valid(t, a) && Evolves(a, b) && id in a.sessions
    ensures SessionAnswer(t, a, id).Ok? && SessionAnswer(t, b, id) == SessionAnswer(t, a, id)
  {
    hide Valid, EnrollmentOk, VerifySession, FactorHolds, ContributionOk;
    hide InvitationsEvolve, ChallengesEvolve, OutcomesKept, FrozenKept;
    KnownSession(t, a, id);
    assert SessionEvolves(a.sessions[id], b.sessions[id], a.highWater);
    assert EnrollmentEvolves(a.enrollments[a.sessions[id].key], b.enrollments[a.sessions[id].key]);
  }

  lemma KnownOutcome(t: Trustee, db: Database, key: RequestKey)
    requires Valid(t, db) && key in db.outcomes
    ensures OutcomeOk(key, db.sessions, db.enrollments, db.highWater) && Formattable(db.outcomes[key].recordedAt)
  {
    hide SessionsOk, AttemptsOk, InvitationsOk, FewOpen, EnrollmentsOk, PastOk, OutcomeOk;
  }

  lemma OutcomeAnswerStable(t: Trustee, a: Database, b: Database, key: RequestKey)
    requires Valid(t, a) && Evolves(a, b) && key in a.outcomes
    ensures OutcomeAnswer(t, a, key).Ok? && OutcomeAnswer(t, b, key) == OutcomeAnswer(t, a, key)
  {
    hide Valid, VerifySession, FactorHolds, ContributionOk, Accepted, Frozen;
    hide InvitationsEvolve, ChallengesEvolve;
    KnownOutcome(t, a, key);
    match key.scope
    case SessionScope(id) =>
      KnownSession(t, a, id);
      assert SessionEvolves(a.sessions[id], b.sessions[id], a.highWater);
      assert EnrollmentEvolves(a.enrollments[a.sessions[id].key], b.enrollments[a.sessions[id].key]);
      assert FrozenBy(a.outcomes, id);
    case EnrollmentScope(k) =>
      KnownRow(t, a, k);
      CustodyRow(t, a, k);
      assert EnrollmentEvolves(a.enrollments[k], b.enrollments[k]);
  }

  /** Interleaved read-back. Right after its own transaction an operation's
      answer is never an error of the read-back's making; and however many
      other transactions commit in between, it is the same answer, byte for
      byte, except that an enrollment whose custody was deleted meanwhile is
      reported unavailable. */
  lemma ReadBackStable(t: Trustee, a: Database, b: Database, pending: Pending)
    requires Valid(t, a) && Valid(t, b) && Evolves(a, b) && Recorded(a, pending) && InCustody(a, pending)
    ensures !pending.Failed? ==> Respond(t, a, pending).Ok?
    ensures Respond(t, b, pending)
            == if InCustody(b, pending) then Respond(t, a, pending) else Err(TemporarilyUnavailable)
  {
    hide Valid, Evolves, EnrollmentAnswer, SessionAnswer, OutcomeAnswer;
    match pending
    case Settled(_) =>
    case Failed(_) =>
    case SessionReceipt(id) => SessionAnswerStable(t, a, b, id);
    case OutcomeReceipt(scope, requestId) => OutcomeAnswerStable(t, a, b, RequestKey(scope, requestId));
    case EnrollmentReceipt(challenge, sealed, artifact) =>
      var k :| BackedBy(a.enrollments, k, challenge, sealed, artifact) && a.enrollments[k].status.EAccepted?;
      EnrollmentAnswerStable(t, a, b, challenge, sealed, artifact, k);
      StillBacked(t, a, b, challenge, sealed, artifact, k);
  }

  lemma StillBacked(
    t: Trustee, a: Database, b: Database, challenge: string, sealed: SealedEnvelope, artifact: Artifact,
    k: EnrollmentKey)
    requires Valid(t, b) && Evolves(a, b) && BackedBy(a.enrollments, k, challenge, sealed, artifact)
    ensures BackedBy(b.enrollments, k, challenge, sealed, artifact)
    ensures forall l :: BackedBy(b.enrollments, l, challenge, sealed, artifact) ==> l == k
  {
    hide SessionsOk, AttemptsOk, InvitationsOk, FewOpen, OutcomesOk, PastOk, EnrollmentOk;
    hide InvitationsEvolve, ChallengesEvolve, SessionsEvolve, OutcomesKept, FrozenKept;
    assert EnrollmentEvolves(a.enrollments[k], b.enrollments[k]);
  }
}
