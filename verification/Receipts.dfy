/** What the receipts of state changes say, against the run that led to them. */
module Receipts {
  import opened Basics
  import opened Crypto
  import opened Wire
  import opened State
  import opened Trustee
  import opened Tables
  import opened Transactions
  import opened Invariant
  import opened RecoveryPreservation
  import opened ReadBack
  import opened Retries
  import opened Runs
  import opened History
  import opened Releases
  import opened Reports
  import opened Atomicity

  // -------------------------------------------------------------------------
  // Beginnings

  /** A begin receipt, first or retried, says what the beginning decided: from
      none to cooling down or, for a factor that fails, to refused with its
      reason; the cooldown counted from the trustee's clock then; the deadline
      the session asked for; and the bindings of its enrollment. */
  lemma BeginReceiptSays(t: Trustee, run: Run, i: nat, s: string) returns (b: nat)
    requires IsRun(t, run) && i < |run.events| && Performed(t, run, i).pending == SessionReceipt(s)
    ensures b <= i && Began(t, run, b, s)
    ensures run.events[b].action.Serve? && run.events[b].action.request.BeginCall?
    ensures VerifySession(run.events[b].action.request.session).Ok?
    ensures s in run.states[b + 1].sessions && run.states[b + 1].sessions[s].key in run.states[b].enrollments
    ensures
      var answer := AnswerAt(t, run, i, i + 1);
      var document := run.events[b].action.request.session;
      var session := VerifySession(document).value;
      var e := run.states[b].enrollments[run.states[b + 1].sessions[s].key].enrollment;
      && answer.Ok? && answer.value.Receipted?
      && Verify(PublicOf(t.signingKey), answer.value.receipt.content, answer.value.receipt.signature)
      && var r := answer.value.receipt.content;
      && r.operation == Operation.BeginRecovery && r.requestId == s && r.sessionId == Some(s)
      && r.componentId == t.componentId && r.enrollmentId == e.context.enrollmentId && r.sequence == e.context.sequence
      && r.policyDigest == e.context.policyDigest && r.profile == e.context.profile
      && r.oldState == NoneYet
      && r.newState == (if FactorHolds(e, session) then CoolingDown else Refused)
      && r.reason == (if FactorHolds(e, session) then None else Some(InvalidCandidateFactor))
      && r.recordedAt == run.events[b].now
      && r.cooldownEndsAt == Some(run.events[b].now + e.policy.cooldownSecs)
      && r.expiresAt == session.expiresAt && r.destinationKeysDigest == Some(session.destinationKeysDigest)
      && r.evidenceDigest == Some(Sha256(document)) && r.contribution.None?
      && r.remainingAttempts.Some? && r.remainingAttempts.value < e.policy.maximumAttempts
  {
    hide Act, Valid, VerifySession, FactorHolds, Recorded, InCustody, Evolves, SessionOk, EnrollmentOk, Disturbed;
    var db := run.states[i + 1];
    ReachableValid(t, run, i);
    ReachableValid(t, run, i + 1);
    var event := run.events[i];
    ActRecords(t, run.states[i], event.action, event.random, event.now);
    SessionIsRecorded(db, s);
    b := SessionBegan(t, run, i + 1, s);
    BeganFixed(t, run, b, i + 1, s);
    KnownSession(t, db, s);
    Deadlines(t, s, db.sessions[s], db.enrollments[db.sessions[s].key]);
    EvolvesReflexive(db);
    SessionAnswerStable(t, db, db, s);
    SessionFacts(t, s, db.sessions[s], db.enrollments[db.sessions[s].key]);
  }

  lemma SessionIsRecorded(db: Database, s: string)
    requires Recorded(db, SessionReceipt(s))
    ensures s in db.sessions
  {
  }

  lemma SessionFacts(t: Trustee, id: string, row: SessionRow, e: EnrollmentRow)
    requires SessionOk(t, id, row, e)
    ensures
      var s := VerifySession(row.request).value;
      && row.sessionId == id && s.sessionId == id && s.expiresAt == row.expiresAt
      && s.destinationKeysDigest == row.destinationKeysDigest
      && row.remainingAttempts < e.enrollment.policy.maximumAttempts
  {
    hide VerifySession, FactorHolds, ContributionOk;
  }

  // -------------------------------------------------------------------------
  // Cancellations

  /** The receipt a cancellation outcome stands for names the state the
      session has, and is over. */
  ghost predicate Final(db: Database, key: RequestKey, now: int) {
    key in db.outcomes && key.scope.SessionScope? ==>
      && key.scope.sessionId in db.sessions
      && !db.sessions[key.scope.sessionId].status.SFinalized?
      && db.outcomes[key].newState == db.sessions[key.scope.sessionId].Name(now)
      && Stage(db.outcomes[key].newState) == 2
  }

  lemma OthersRecordNothing(t: Trustee, db: Database, action: Action, random: Random, now: int)
    requires SignedOf(t, action).None?
    ensures Act(t, db, action, random, now).db.outcomes == db.outcomes
  {
    hide ParseSigned, ActSigned, Transactions.Enroll, Transactions.BeginRecovery;
    match action
    case Serve(EnrollCall(request)) => EnrollRecordsNothing(t, db, request, now);
    case Serve(BeginCall(version, document)) => BeginRecordsNothing(t, db, version, document, now);
    case _ =>
  }

  lemma EnrollRecordsNothing(t: Trustee, db: Database, request: EnrollRequest, now: int)
    ensures Transactions.Enroll(t, db, request, now).db.outcomes == db.outcomes
  {
    hide Accepted, CheckArtifact, ByChallenge, Redeemable, Current;
  }

  lemma BeginRecordsNothing(t: Trustee, db: Database, version: nat, document: SessionDocument, now: int)
    ensures Transactions.BeginRecovery(t, db, version, document, now).db.outcomes == db.outcomes
  {
    hide VerifySession, Session.Binds, Admit, NewSession, Current;
  }

  lemma CancelRecordsFinal(t: Trustee, db: Database, signed: Signed, now: int, key: RequestKey)
    requires Valid(t, db) && key !in db.outcomes
    ensures Final(Transactions.CancelRecovery(t, db, signed, now).db, key, now)
  {
    hide Valid, SignedBy, Fresh, CancelledStatus, SessionName, EnrollmentOk, SessionOk, Stage;
    var after := Transactions.CancelRecovery(t, db, signed, now).db;
    if key in after.outcomes {
      var id := signed.target;
      var session := db.sessions[id];
      KnownSession(t, db, id);
      Unfinalized(t, id, session, db.enrollments[session.key]);
      CancelledIsOver(session, signed.party == Some(Holder), now);
    }
  }

  lemma CancelledIsOver(session: SessionRow, byHolder: bool, now: int)
    requires !session.status.SFinalized?
    ensures
      var after := session.(status := CancelledStatus(session, byHolder, now));
      !after.status.SFinalized? && Stage(after.Name(now)) == 2
  {
  }

  lemma PollsRecordNothing(t: Trustee, db: Database, signed: Signed, random: Random, now: int)
    ensures Transactions.ReadRecovery(t, db, signed, random, now).db.outcomes == db.outcomes
    ensures Transactions.ReadEnrollment(t, db, signed, now).db.outcomes == db.outcomes
  {
    hide Released, SpendNonce, MayRelease, SignedBy, Fresh, PollReceipt, Polled, NoticeOf, SessionsOf, Current;
  }

  lemma EndRecordsOther(t: Trustee, db: Database, signed: Signed, now: int, key: RequestKey)
    requires key !in db.outcomes && key.scope.SessionScope?
    ensures key !in EndEnrollment(t, db, signed, now).db.outcomes
  {
    hide SignedBy, Fresh, Current, EndedStatus, EnrollmentName;
  }

  lemma SignedRecordsFinal(t: Trustee, db: Database, signed: Signed, random: Random, now: int, key: RequestKey)
    requires Valid(t, db) && Formattable(now) && key !in db.outcomes
    ensures Final(ActSigned(t, db, signed, random, now).db, key, now)
  {
    hide Valid, Transactions.CancelRecovery, Transactions.ReadRecovery, Transactions.ReadEnrollment, EndEnrollment;
    hide Stage;
    if key.scope.SessionScope? {
      match signed.operation
      case ReadEnrollment | ReadRecovery => PollsRecordNothing(t, db, signed, random, now);
      case CancelRecovery => CancelRecordsFinal(t, db, signed, now, key);
      case RevokeEnrollment | CloseEnrollment => EndRecordsOther(t, db, signed, now, key);
      case _ =>
    }
  }

  /** A recorded cancellation is final: at every later time any poll would
      report the very state its receipt does. */
  lemma {:induction false} CancellationFinal(t: Trustee, run: Run, i: nat, key: RequestKey, later: int)
    requires IsRun(t, run) && i < |run.states| && key in run.states[i].outcomes && key.scope.SessionScope?
    requires run.states[i].highWater <= later
    ensures
      var s := key.scope.sessionId;
      && s in run.states[i].sessions
      && run.states[i].sessions[s].Name(later) == run.states[i].outcomes[key].newState
      && Stage(run.states[i].outcomes[key].newState) == 2
      && !run.states[i].sessions[s].status.SFinalized?
  {
    hide Act, Valid, Evolves, SessionName, Stage, SessionEvolves;
    assert i > 0;
    var before, after := run.states[i - 1], run.states[i];
    var event := run.events[i - 1];
    var s := key.scope.sessionId;
    ReachableValid(t, run, i - 1);
    if key in before.outcomes {
      RunEvolves(t, run, i - 1, i);
      CancellationFinal(t, run, i - 1, key, before.highWater);
      SessionEvolved(before, after, s);
      OutcomeKept(before, after, key);
      ClockAdvances(t, run, i - 1, i);
      NameAdvances(before.sessions[s], after.sessions[s], before.highWater, later);
      StillUnfinalized(before.sessions[s], after.sessions[s], before.highWater);
    } else {
      if SignedOf(t, event.action).None? {
        OthersRecordNothing(t, before, event.action, event.random, event.now);
        assert false;
      } else {
        SignedActs(t, before, event.action, event.random, event.now);
        SignedRecordsFinal(t, before, SignedOf(t, event.action).value, event.random, event.now, key);
        RecordingSetsClock(t, run, i - 1);
        SameSession(after.sessions[s]);
        NameAdvances(after.sessions[s], after.sessions[s], event.now, later);
      }
    }
  }

  lemma OutcomeKept(a: Database, b: Database, key: RequestKey)
    requires Evolves(a, b) && key in a.outcomes
    ensures key in b.outcomes && b.outcomes[key] == a.outcomes[key]
  {
    hide InvitationsEvolve, ChallengesEvolve, EnrollmentsEvolve, SessionsEvolve, FrozenKept;
  }

  lemma StillUnfinalized(r: SessionRow, s: SessionRow, now: int)
    requires SessionEvolves(r, s, now) && !r.status.SFinalized?
    ensures !s.status.SFinalized?
  {
  }

  lemma SameSession(r: SessionRow)
    ensures forall now :: SessionEvolves(r, r, now)
  {
  }

  lemma RecordingSetsClock(t: Trustee, run: Run, i: nat)
    requires IsRun(t, run) && i < |run.events|
    ensures run.states[i + 1] != run.states[i] ==> run.states[i + 1].highWater == run.events[i].now
  {
    hide Act, Valid, ForeignKey, Unsayable;
    ReachableValid(t, run, i);
    var event := run.events[i];
    RefusalsAtomic(t, run.states[i], event.action, event.random, event.now);
  }

  // -------------------------------------------------------------------------
  // Endings

  /** The receipt of an ending names a tombstone, and closed only for good. */
  ghost predicate Ended(db: Database, key: RequestKey) {
    key in db.outcomes && key.scope.EnrollmentScope? ==>
      && key.scope.key in db.enrollments
      && db.outcomes[key].newState in {Revoked, Closed}
      && (db.outcomes[key].newState == Closed <==>
            db.outcomes[key].operation.CloseEnrollment? || db.outcomes[key].oldState == Closed)
      && (db.outcomes[key].newState == Closed ==> db.enrollments[key.scope.key].status == EClosed)
  }

  lemma CancelRecordsOther(t: Trustee, db: Database, signed: Signed, now: int, key: RequestKey)
    requires key !in db.outcomes && key.scope.EnrollmentScope?
    ensures key !in Transactions.CancelRecovery(t, db, signed, now).db.outcomes
  {
    hide SignedBy, Fresh, CancelledStatus, SessionName;
  }

  lemma EndRecordsEnded(t: Trustee, db: Database, signed: Signed, now: int, key: RequestKey)
    requires Valid(t, db) && key !in db.outcomes && signed.operation in {RevokeEnrollment, CloseEnrollment}
    ensures Ended(EndEnrollment(t, db, signed, now).db, key)
  {
    hide Valid, SignedBy, Fresh, Current, Accepted;
    if key in EndEnrollment(t, db, signed, now).db.outcomes {
      var row := Current(db.enrollments, signed.target).value;
      var k :| IsCurrent(db.enrollments, signed.target, k) && row == db.enrollments[k];
      KnownRow(t, db, k);
      RowIs(t, k, row);
    }
  }

  lemma SignedRecordsEnded(t: Trustee, db: Database, signed: Signed, random: Random, now: int, key: RequestKey)
    requires Valid(t, db) && key !in db.outcomes
    ensures Ended(ActSigned(t, db, signed, random, now).db, key)
  {
    hide Valid, Transactions.CancelRecovery, Transactions.ReadRecovery, Transactions.ReadEnrollment, EndEnrollment;
    if key.scope.EnrollmentScope? {
      match signed.operation
      case ReadEnrollment | ReadRecovery => PollsRecordNothing(t, db, signed, random, now);
      case CancelRecovery => CancelRecordsOther(t, db, signed, now, key);
      case RevokeEnrollment | CloseEnrollment => EndRecordsEnded(t, db, signed, now, key);
      case _ =>
    }
  }

  lemma EndedKept(t: Trustee, a: Database, b: Database, key: RequestKey)
    requires Valid(t, b) && Evolves(a, b) && key in a.outcomes && Ended(a, key)
    ensures Ended(b, key)
  {
    hide Valid, Evolves, Accepted, Current;
    OutcomeKept(a, b, key);
    if key.scope.EnrollmentScope? {
      RowEvolves(a, b, key.scope.key);
      KnownRow(t, b, key.scope.key);
      RowIs(t, key.scope.key, b.enrollments[key.scope.key]);
    }
  }

  /** Every recorded ending reports revoked or closed: closed exactly when it
      closed, or found closed, the enrollment, which then stays closed. */
  lemma {:induction false} EndingTruthful(t: Trustee, run: Run, i: nat, key: RequestKey)
    requires IsRun(t, run) && i < |run.states|
    ensures Ended(run.states[i], key)
  {
    hide Act, Valid, Evolves, Ended;
    if i == 0 {
      NothingEnded(key);
    } else {
      var before := run.states[i - 1];
      var event := run.events[i - 1];
      EndingTruthful(t, run, i - 1, key);
      RunEvolves(t, run, i - 1, i);
      ReachableValid(t, run, i - 1);
      ReachableValid(t, run, i);
      if key in before.outcomes {
        EndedKept(t, before, run.states[i], key);
      } else if SignedOf(t, event.action).None? {
        OthersRecordNothing(t, before, event.action, event.random, event.now);
        UnrecordedEnded(run.states[i], key);
      } else {
        SignedActs(t, before, event.action, event.random, event.now);
        SignedRecordsEnded(t, before, SignedOf(t, event.action).value, event.random, event.now, key);
      }
    }
  }

  lemma NothingEnded(key: RequestKey)
    ensures Ended(EMPTY, key)
  {
  }

  lemma UnrecordedEnded(db: Database, key: RequestKey)
    requires key !in db.outcomes
    ensures Ended(db, key)
  {
  }

  // -------------------------------------------------------------------------
  // Enrollments

  /** An enroll receipt says exactly what the holder's client requires of it:
      from none to active, under the challenge, for the bindings and the very
      sealed bytes the request carried. */
  lemma EnrollReceiptSays(t: Trustee, run: Run, i: nat, request: EnrollRequest)
    requires IsRun(t, run) && i < |run.events| && run.events[i].action == Serve(EnrollCall(request))
    requires Performed(t, run, i).pending.EnrollmentReceipt?
    ensures
      var answer := AnswerAt(t, run, i, i + 1);
      && answer.Ok? && answer.value.Receipted? && request.sealedEnvelope.Some?
      && Verify(PublicOf(t.signingKey), answer.value.receipt.content, answer.value.receipt.signature)
      && var r := answer.value.receipt.content;
      && r.operation == Operation.Enroll && r.requestId == request.context.challenge
      && r.componentId == t.componentId == request.context.componentId
      && r.profile == request.context.profile && r.enrollmentId == request.context.enrollmentId
      && r.sequence == request.context.sequence && r.policyDigest == request.context.policyDigest
      && r.artifactId == Some(request.context.artifactId) && r.artifactDigest == Some(request.context.artifactDigest)
      && r.slot == Some(request.context.slot) && r.oldState == NoneYet && r.newState == Active
      && r.sealedContributionDigest == Some(Sha256(request.sealedEnvelope.value))
      && r.recordedAt <= run.events[i].now && r.recordedAt < r.expiresAt
  {
    hide Act, Valid, Accepted, Transactions.Enroll, ByChallenge, Evolves;
    var db := run.states[i];
    var event := run.events[i];
    ReachableValid(t, run, i);
    ReachableValid(t, run, i + 1);
    EnrollActs(t, db, request, event.random, event.now);
    var k := EnrollLeavesRecord(t, db, request, event.now);
    EnrollRecords(t, db, request, event.now);
    var after := run.states[i + 1];
    CustodyRow(t, after, k);
    KnownRow(t, after, k);
    EvolvesReflexive(after);
    CustodyIs(t, after, after, request, k);
    TakenTerms(t, k, after.enrollments[k]);
    EnrollAtomic(t, db, request, event.now);
    EnrollClock(t, db, request, event.now);
  }

  lemma TakenTerms(t: Trustee, k: EnrollmentKey, row: EnrollmentRow)
    requires EnrollmentOk(t, k, row)
    ensures row.enrollment.context == Source(row).context
    ensures row.enrollment.context.componentId == t.componentId && row.storedAt < row.enrollment.expiresAt
  {
    hide Accepted;
    AcceptedFacts(t, Source(row).context, Source(row).sealedEnvelope.value, row.storedAt);
  }

  lemma EnrollActs(t: Trustee, db: Database, request: EnrollRequest, random: Random, now: int)
    ensures Act(t, db, Serve(EnrollCall(request)), random, now) == Transactions.Enroll(t, db, request, now)
  {
    hide Transactions.Enroll;
  }

  lemma EnrollClock(t: Trustee, db: Database, request: EnrollRequest, now: int)
    requires Transactions.Enroll(t, db, request, now).pending.EnrollmentReceipt?
    ensures db.highWater <= now && Transactions.Enroll(t, db, request, now).db.highWater <= now
  {
    hide Accepted, CheckArtifact, ByChallenge, Redeemable, Current;
  }
}
