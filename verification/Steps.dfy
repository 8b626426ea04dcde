/** What one transaction may do to one session, one enrollment or one nonce,
    and what it then answers. */
module Steps {
  import opened Basics
  import opened Wire
  import opened State
  import opened Trustee
  import opened Tables
  import opened Transactions
  import opened Invariant
  import opened RecoveryPreservation

  /** The session a `begin-recovery` admitted. */
  ghost predicate Begins(db: Database, tx: Transaction, action: Action, now: int, s: string) {
    && action.Serve? && action.request.BeginCall?
    && VerifySession(action.request.session).Ok?
    && s in tx.db.sessions
    && var session := VerifySession(action.request.session).value;
    && var row := tx.db.sessions[s];
    && session.sessionId == s && row.request == action.request.session
    && tx.pending == SessionReceipt(s)
    && tx.db.sessions == db.sessions[s := row]
    && row.key in db.enrollments
    && var e := db.enrollments[row.key];
    && e.attemptsUsed < e.enrollment.policy.maximumAttempts
    && row.remainingAttempts == e.enrollment.policy.maximumAttempts - e.attemptsUsed - 1
    && row.createdAt == now && row.contribution.None?
    && row.status == (if FactorHolds(e.enrollment, session) then SCoolingDown else SRefused)
  }

  /** The answer hands out this session's contribution. */
  ghost predicate Hands(pending: Pending, s: string) {
    && pending.Settled? && pending.answer.Receipted?
    && pending.answer.receipt.content.sessionId == Some(s)
    && pending.answer.receipt.content.contribution.Some?
  }

  /** A first release, persisted as it is handed out. */
  ghost predicate Emits(db: Database, tx: Transaction, s: string) {
    && Hands(tx.pending, s) && s in db.sessions && s in tx.db.sessions
    && db.sessions[s].status == SCoolingDown
    && tx.db.sessions[s]
       == db.sessions[s].(status := SReleased, contribution := tx.pending.answer.receipt.content.contribution)
  }

  /** An outcome is recorded for, or replayed from, this scope. */
  ghost predicate Settles(pending: Pending, scope: Scope) {
    pending.OutcomeReceipt? && pending.scope == scope
  }

  /** A cancellation, which moves the status alone. */
  ghost predicate Stops(db: Database, tx: Transaction, s: string) {
    && Settles(tx.pending, SessionScope(s)) && s in db.sessions && s in tx.db.sessions
    && tx.db.sessions[s] == db.sessions[s].(status := tx.db.sessions[s].status)
  }

  /** The only ways a session appears or changes. */
  ghost predicate SessionStep(db: Database, tx: Transaction, action: Action, now: int, s: string) {
    s in tx.db.sessions ==>
      || (s !in db.sessions && Begins(db, tx, action, now, s))
      || (s in db.sessions && (tx.db.sessions[s] == db.sessions[s] || Emits(db, tx, s) || Stops(db, tx, s)))
  }

  /** The only way an enrollment's status changes. */
  ghost predicate EnrollmentStep(db: Database, tx: Transaction, k: EnrollmentKey) {
    k in tx.db.enrollments ==>
      || (k !in db.enrollments && tx.db.enrollments[k].status == EAccepted)
      || (k in db.enrollments && tx.db.enrollments[k].status == db.enrollments[k].status)
      || Settles(tx.pending, EnrollmentScope(k))
  }

  lemma BeginSteps(t: Trustee, db: Database, version: nat, document: SessionDocument, now: int, s: string)
    requires Valid(t, db)
    ensures SessionStep(db, Transactions.BeginRecovery(t, db, version, document, now),
                        Serve(BeginCall(version, document)), now, s)
  {
    hide Valid, VerifySession, Session.Binds, Admit, FactorHolds, EnrollmentOk, Current;
    var tx := Transactions.BeginRecovery(t, db, version, document, now);
    if tx.db != db {
      CanonicalIs(document);
      var session := VerifySession(document).value;
      var row := Current(db.enrollments, session.enrollmentId).value;
      var k :| IsCurrent(db.enrollments, session.enrollmentId, k) && row == db.enrollments[k];
      KnownRow(t, db, k);
      if s == session.sessionId {
        AdmissionBounds(row.State(), row.enrollment.policy, row.attemptsUsed, session.requestedAt, session.expiresAt,
                        now, t.limits.skewSecs);
      }
    }
  }

  /** What an answered poll did and said. */
  ghost predicate Polls(t: Trustee, db: Database, tx: Transaction, signed: Signed, sealing: nat, now: int) {
    var id := signed.target;
    var nonce := RequestKey(SessionScope(id), signed.requestId);
    && db.highWater <= now && id in db.sessions && db.sessions[id].key in db.enrollments
    && var session := db.sessions[id];
    && var row := db.enrollments[session.key];
    && var release := MayRelease(row.State(), session.State(), now, db.highWater);
    && var released := Released(t, row, session, now, db.highWater, sealing);
    && SignedBy(signed, session.proofKey) && Fresh(t, signed, now)
    && SpendNonce(t, db.nonces, nonce, now).Ok?
    && released.Ok?
    && var after := Polled(session, release, released.value);
    && tx.db == db.(highWater := now, nonces := SpendNonce(t, db.nonces, nonce, now).value,
                    sessions := db.sessions[id := after])
    && tx.pending
       == Settled(Receipted(SignObject(PollReceipt(t, signed, session, after, row.enrollment, released.value, now),
                                       t.signingKey)))
  }

  lemma ReadRecoveryPolls(t: Trustee, db: Database, signed: Signed, random: Random, now: int)
    requires Valid(t, db) && Formattable(now)
    ensures
      var tx := Transactions.ReadRecovery(t, db, signed, random, now);
      if tx.pending.Failed? then tx.db == db else Polls(t, db, tx, signed, random.sealing, now)
  {
    hide Valid, SessionOk, EnrollmentOk, Released, SpendNonce, MayRelease, SignedBy, Fresh, PollReceipt, Polled;
    if signed.target in db.sessions {
      KnownSession(t, db, signed.target);
      SessionTimes(t, signed.target, db.sessions[signed.target], db.enrollments[db.sessions[signed.target].key]);
    }
  }

  lemma SessionTimes(t: Trustee, id: string, row: SessionRow, e: EnrollmentRow)
    requires SessionOk(t, id, row, e)
    ensures Formattable(row.createdAt) && Formattable(row.cooldownEndsAt) && Formattable(row.expiresAt)
    ensures row.sessionId == id
  {
    hide VerifySession, FactorHolds, ContributionOk;
  }

  lemma PollSteps(t: Trustee, db: Database, tx: Transaction, signed: Signed, sealing: nat, now: int, s: string)
    requires Valid(t, db) && Formattable(now) && Polls(t, db, tx, signed, sealing, now)
    ensures s in tx.db.sessions ==> s in db.sessions && (tx.db.sessions[s] == db.sessions[s] || Emits(db, tx, s))
  {
    hide Valid, SessionOk, EnrollmentOk, Released, SpendNonce, SignedBy, Fresh;
    var id := signed.target;
    var session := db.sessions[id];
    var row := db.enrollments[session.key];
    KnownSession(t, db, id);
    SessionTimes(t, id, session, row);
    if MayRelease(row.State(), session.State(), now, db.highWater) == Ok(Emit) {
      EmissionSucceeds(t, id, session, row, now, db.highWater, sealing);
    }
  }

  lemma EnrollTables(t: Trustee, db: Database, request: EnrollRequest, now: int)
    returns (key: EnrollmentKey, row: Option<EnrollmentRow>)
    ensures
      var tx := Transactions.Enroll(t, db, request, now);
      && tx.db.sessions == db.sessions && tx.db.nonces == db.nonces
      && (row.None? ==> tx.db.enrollments == db.enrollments)
      && (row.Some? ==>
            && Current(db.enrollments, key.id).None? && row.value.status == EAccepted
            && tx.db.enrollments == db.enrollments[key := row.value])
  {
    hide Accepted, CheckArtifact, ByChallenge, Redeemable, Current;
    var context := request.context;
    key, row := EnrollmentKey(context.enrollmentId, context.sequence), None;
    if Transactions.Enroll(t, db, request, now).pending.EnrollmentReceipt?
       && ByChallenge(db.enrollments, context.challenge).None?
    {
      var enrollment := Accepted(t, context, request.sealedEnvelope.value, now).value;
      row := Some(NewEnrollment(request, enrollment, now));
    }
  }

  lemma EnrollSteps(t: Trustee, db: Database, request: EnrollRequest, now: int, k: EnrollmentKey)
    requires Valid(t, db)
    ensures
      var tx := Transactions.Enroll(t, db, request, now);
      tx.db.sessions == db.sessions && tx.db.nonces == db.nonces && EnrollmentStep(db, tx, k)
  {
    hide Valid, EnrollmentOk, Transactions.Enroll, Current, Settles;
    var key, row := EnrollTables(t, db, request, now);
    if key in db.enrollments {
      KnownRow(t, db, key);
    }
  }

  lemma CancelSteps(t: Trustee, db: Database, signed: Signed, now: int, s: string)
    ensures
      var tx := Transactions.CancelRecovery(t, db, signed, now);
      && tx.db.enrollments == db.enrollments && tx.db.nonces == db.nonces
      && (s in tx.db.sessions ==>
            && s in db.sessions
            && (tx.db.sessions[s] == db.sessions[s] || Stops(db, tx, s)))
  {
    hide CancelledStatus, SignedBy, Fresh, SessionName;
  }

  lemma EndSteps(t: Trustee, db: Database, signed: Signed, now: int, k: EnrollmentKey)
    requires Valid(t, db)
    ensures
      var tx := EndEnrollment(t, db, signed, now);
      && tx.db.sessions == db.sessions && tx.db.nonces == db.nonces
      && (k in tx.db.enrollments ==>
            && k in db.enrollments
            && (tx.db.enrollments[k].status == db.enrollments[k].status || Settles(tx.pending, EnrollmentScope(k))))
  {
    hide Valid, EndedStatus, EnrollmentName, EnrollmentOk, Fresh, SignedBy, Current;
    var tx := EndEnrollment(t, db, signed, now);
    if tx.db != db {
      var row := Current(db.enrollments, signed.target).value;
      var l :| IsCurrent(db.enrollments, signed.target, l) && row == db.enrollments[l];
      KnownRow(t, db, l);
    }
  }

  lemma ReadEnrollmentSteps(t: Trustee, db: Database, signed: Signed, now: int)
    ensures
      var tx := Transactions.ReadEnrollment(t, db, signed, now);
      tx.db.sessions == db.sessions && tx.db.enrollments == db.enrollments
  {
    hide Fresh, SignedBy, Current, SpendNonce, SessionsOf, NoticeOf;
  }

  lemma SignedSteps(t: Trustee, db: Database, signed: Signed, random: Random, now: int, s: string, k: EnrollmentKey)
    requires Valid(t, db) && Formattable(now)
    ensures
      var tx := ActSigned(t, db, signed, random, now);
      && EnrollmentStep(db, tx, k)
      && (s in tx.db.sessions ==>
            && s in db.sessions
            && (tx.db.sessions[s] == db.sessions[s] || Emits(db, tx, s) || Stops(db, tx, s)))
  {
    hide Valid, Polls, Stops, Emits;
    hide Transactions.ReadEnrollment, Transactions.ReadRecovery, Transactions.CancelRecovery, EndEnrollment;
    match signed.operation
    case ReadEnrollment => ReadEnrollmentSteps(t, db, signed, now);
    case ReadRecovery =>
      ReadRecoveryPolls(t, db, signed, random, now);
      var tx := Transactions.ReadRecovery(t, db, signed, random, now);
      if !tx.pending.Failed? {
        PollSteps(t, db, tx, signed, random.sealing, now, s);
        PollsKeepEnrollments(t, db, tx, signed, random.sealing, now);
      }
    case CancelRecovery => CancelSteps(t, db, signed, now, s);
    case RevokeEnrollment | CloseEnrollment => EndSteps(t, db, signed, now, k);
    case _ =>
  }

  lemma PollsKeepEnrollments(t: Trustee, db: Database, tx: Transaction, signed: Signed, sealing: nat, now: int)
    requires Polls(t, db, tx, signed, sealing, now)
    ensures tx.db.enrollments == db.enrollments
  {
    hide Released, SpendNonce, SignedBy, Fresh, MayRelease, PollReceipt, Polled;
  }

  /** Any action at all. */
  lemma ActSteps(
    t: Trustee, db: Database, action: Action, random: Random, now: int, s: string, k: EnrollmentKey)
    requires Valid(t, db) && Formattable(now)
    ensures
      var tx := Act(t, db, action, random, now);
      SessionStep(db, tx, action, now, s) && EnrollmentStep(db, tx, k)
  {
    hide Valid, Stops, Settles, Emits, Begins, Transactions.Enroll, Transactions.BeginRecovery, ActSigned, ParseSigned;
    match action
    case Invite(_) =>
    case Serve(EnrollCall(request)) => EnrollSteps(t, db, request, now, k);
    case Serve(BeginCall(version, document)) =>
      BeginSteps(t, db, version, document, now, s);
      BeginKeepsStatus(t, db, version, document, now, k);
    case Serve(SignedCall(request)) =>
      var signed := ParseSigned(request, t.componentId);
      if signed.Some? {
        SignedSteps(t, db, signed.value, random, now, s, k);
      }
    case Serve(_) =>
  }

  lemma BeginKeepsStatus(
    t: Trustee, db: Database, version: nat, document: SessionDocument, now: int, k: EnrollmentKey)
    requires Valid(t, db)
    ensures EnrollmentStep(db, Transactions.BeginRecovery(t, db, version, document, now), k)
  {
    hide Valid, VerifySession, Session.Binds, Admit, NewSession, EnrollmentOk, Current;
    var tx := Transactions.BeginRecovery(t, db, version, document, now);
    if tx.db != db {
      var session := VerifySession(document).value;
      var row := Current(db.enrollments, session.enrollmentId).value;
      var l :| IsCurrent(db.enrollments, session.enrollmentId, l) && row == db.enrollments[l];
      KnownRow(t, db, l);
    }
  }
}
