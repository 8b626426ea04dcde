/** Signed reads are single use, although nonces are purged. */
module Reads {
  import opened Basics
  import opened Wire
  import opened State
  import opened Trustee
  import opened Tables
  import opened Transactions
  import opened Invariant
  import opened RecoveryPreservation
  import opened Steps
  import opened Runs

  predicate IsRead(operation: Operation) {
    operation.ReadEnrollment? || operation.ReadRecovery?
  }

  /** The nonce a read spends. */
  ghost predicate SpendsNonce(enrollments: map<EnrollmentKey, EnrollmentRow>, signed: Signed, nonce: RequestKey) {
    && nonce.requestId == signed.requestId
    && if signed.operation.ReadRecovery? then nonce.scope == SessionScope(signed.target)
       else nonce.scope.EnrollmentScope? && nonce.scope.key in enrollments && nonce.scope.key.id == signed.target
  }

  lemma NonceSpent(t: Trustee, nonces: map<RequestKey, int>, key: RequestKey, now: int)
    requires SpendNonce(t, nonces, key, now).Ok?
    ensures
      var after := SpendNonce(t, nonces, key, now).value;
      && (key in nonces ==> nonces[key] < now - 2 * t.limits.skewSecs)
      && key in after && after[key] == now
      && forall n :: n in nonces && nonces[n] >= now - 2 * t.limits.skewSecs ==> n in after && after[n] == nonces[n]
  {
  }

  /** An answered read was fresh, met its nonce unspent, and spent it. */
  lemma ReadEffect(t: Trustee, db: Database, signed: Signed, random: Random, now: int) returns (nonce: RequestKey)
    requires Valid(t, db) && Formattable(now) && IsRead(signed.operation)
    requires ActSigned(t, db, signed, random, now).pending.Settled?
    ensures
      var after := ActSigned(t, db, signed, random, now).db;
      && SpendsNonce(db.enrollments, signed, nonce) && Fresh(t, signed, now)
      && (nonce in db.nonces ==> db.nonces[nonce] < now - 2 * t.limits.skewSecs)
      && nonce in after.nonces && after.nonces[nonce] == now
  {
    hide Valid, Released, SpendNonce, MayRelease, SignedBy, Fresh, PollReceipt, Polled, NoticeOf, SessionsOf;
    hide EnrollmentOk;
    if signed.operation.ReadRecovery? {
      ReadRecoveryPolls(t, db, signed, random, now);
      nonce := RequestKey(SessionScope(signed.target), signed.requestId);
    } else {
      var row := Current(db.enrollments, signed.target).value;
      var k :| IsCurrent(db.enrollments, signed.target, k) && row == db.enrollments[k];
      KnownRow(t, db, k);
      nonce := RequestKey(row.Scope(), signed.requestId);
    }
    NonceSpent(t, db.nonces, nonce, now);
  }

  /** Nonces young enough to matter are kept by every action. */
  lemma NoncesKept(t: Trustee, db: Database, action: Action, random: Random, now: int, n: RequestKey)
    requires Valid(t, db) && Formattable(now) && n in db.nonces
    ensures
      var after := Act(t, db, action, random, now).db;
      db.nonces[n] >= after.highWater - 2 * t.limits.skewSecs ==> n in after.nonces && after.nonces[n] == db.nonces[n]
  {
    hide Valid, Transactions.Enroll, Transactions.BeginRecovery, ActSigned, ParseSigned;
    match action
    case Invite(_) =>
    case Serve(EnrollCall(request)) => EnrollSteps(t, db, request, now, EnrollmentKey("", 0));
    case Serve(BeginCall(version, document)) => BeginKeepsNonces(t, db, version, document, now);
    case Serve(SignedCall(request)) =>
      var signed := ParseSigned(request, t.componentId);
      if signed.Some? {
        SignedKeepsNonces(t, db, signed.value, random, now, n);
      }
    case Serve(_) =>
  }

  lemma BeginKeepsNonces(t: Trustee, db: Database, version: nat, document: SessionDocument, now: int)
    ensures Transactions.BeginRecovery(t, db, version, document, now).db.nonces == db.nonces
  {
    hide VerifySession, Session.Binds, Admit, NewSession, Current;
  }

  lemma SignedKeepsNonces(t: Trustee, db: Database, signed: Signed, random: Random, now: int, n: RequestKey)
    requires Valid(t, db) && Formattable(now) && n in db.nonces
    ensures
      var after := ActSigned(t, db, signed, random, now).db;
      db.nonces[n] >= after.highWater - 2 * t.limits.skewSecs ==> n in after.nonces && after.nonces[n] == db.nonces[n]
  {
    hide Valid, Released, SpendNonce, MayRelease, SignedBy, Fresh, PollReceipt, Polled, NoticeOf, SessionsOf, Current;
    hide Transactions.CancelRecovery, EndEnrollment;
    match signed.operation
    case ReadEnrollment =>
      if ActSigned(t, db, signed, random, now).db != db {
        var row := Current(db.enrollments, signed.target).value;
        NonceSpent(t, db.nonces, RequestKey(row.Scope(), signed.requestId), now);
      }
    case ReadRecovery =>
      ReadRecoveryPolls(t, db, signed, random, now);
      if ActSigned(t, db, signed, random, now).db != db {
        NonceSpent(t, db.nonces, RequestKey(SessionScope(signed.target), signed.requestId), now);
      }
    case CancelRecovery => CancelSteps(t, db, signed, now, "");
    case RevokeEnrollment | CloseEnrollment => EndSteps(t, db, signed, now, EnrollmentKey("", 0));
    case _ =>
  }

  /** A nonce is kept for as long as the clock stays within twice the skew. */
  lemma {:induction false} NonceLasts(t: Trustee, run: Run, i: nat, j: nat, n: RequestKey)
    requires IsRun(t, run) && i <= j < |run.states| && n in run.states[i].nonces
    requires run.states[i].nonces[n] >= run.states[j].highWater - 2 * t.limits.skewSecs
    ensures n in run.states[j].nonces && run.states[j].nonces[n] == run.states[i].nonces[n]
    decreases j
  {
    hide Valid, Act;
    if i < j {
      RunEvolves(t, run, j - 1, j);
      NonceLasts(t, run, i, j - 1, n);
      ReachableValid(t, run, j - 1);
      var event := run.events[j - 1];
      NoncesKept(t, run.states[j - 1], event.action, event.random, event.now, n);
    }
  }

  // -------------------------------------------------------------------------
  // Single use

  ghost predicate Answered(t: Trustee, run: Run, i: nat, signed: Signed)
    requires i < |run.events| && i < |run.states|
  {
    && run.events[i].action.Serve? && run.events[i].action.request.SignedCall?
    && ParseSigned(run.events[i].action.request.signed, t.componentId) == Some(signed)
    && Performed(t, run, i).pending.Settled?
  }

  /** Two answered reads with one operation, target and request ID lie more
      than twice the skew apart, whatever was served between them. */
  lemma ReadsLieApart(t: Trustee, run: Run, i: nat, j: nat, first: Signed, second: Signed)
    requires IsRun(t, run) && i < j < |run.events|
    requires Answered(t, run, i, first) && Answered(t, run, j, second) && IsRead(first.operation)
    requires second.operation == first.operation && second.target == first.target
    requires second.requestId == first.requestId
    ensures run.events[j].now > run.events[i].now + 2 * t.limits.skewSecs
    ensures Fresh(t, first, run.events[i].now) && Fresh(t, second, run.events[j].now)
  {
    hide Valid, ActSigned, ParseSigned, Fresh;
    var a, b := run.events[i], run.events[j];
    ReachableValid(t, run, i);
    ReachableValid(t, run, j);
    var n := ReadEffect(t, run.states[i], first, a.random, a.now);
    var m := ReadEffect(t, run.states[j], second, b.random, b.now);
    RunEvolves(t, run, i, j);
    SameNonce(t, run.states[i], run.states[j], first, second, n, m);
    ReadsAdvance(t, run.states[j], second, b.random, b.now);
    if run.states[i + 1].nonces[n] >= run.states[j].highWater - 2 * t.limits.skewSecs {
      NonceLasts(t, run, i + 1, j, n);
    }
  }

  lemma SameNonce(
    t: Trustee, a: Database, b: Database, first: Signed, second: Signed, n: RequestKey, m: RequestKey)
    requires Valid(t, b) && Evolves(a, b)
    requires SpendsNonce(a.enrollments, first, n) && SpendsNonce(b.enrollments, second, m)
    requires second.operation == first.operation && second.target == first.target
    requires second.requestId == first.requestId
    ensures n == m
  {
    hide SessionsOk, AttemptsOk, InvitationsOk, FewOpen, OutcomesOk, PastOk, EnrollmentOk;
    hide InvitationsEvolve, ChallengesEvolve, SessionsEvolve, OutcomesKept, FrozenKept;
  }

  lemma ReadsAdvance(t: Trustee, db: Database, signed: Signed, random: Random, now: int)
    requires IsRead(signed.operation) && ActSigned(t, db, signed, random, now).pending.Settled?
    ensures db.highWater <= now
  {
    hide Released, SpendNonce, MayRelease, SignedBy, Fresh, PollReceipt, Polled, NoticeOf, SessionsOf, Current;
  }

  /** No byte-identical signed read is ever answered twice. */
  lemma ReadOnce(t: Trustee, run: Run, i: nat, j: nat, signed: Signed)
    requires IsRun(t, run) && i < j < |run.events| && Answered(t, run, i, signed) && IsRead(signed.operation)
    requires run.events[j].action == run.events[i].action
    ensures Performed(t, run, j).pending.Failed?
  {
    hide Valid, Act;
    if !Performed(t, run, j).pending.Failed? {
      ReadSettles(t, run, j, signed);
      ReadsLieApart(t, run, i, j, signed, signed);
      assert false;
    }
  }

  lemma ReadSettles(t: Trustee, run: Run, j: nat, signed: Signed)
    requires j < |run.events| && j < |run.states|
    requires run.events[j].action.Serve? && run.events[j].action.request.SignedCall?
    requires ParseSigned(run.events[j].action.request.signed, t.componentId) == Some(signed) && IsRead(signed.operation)
    ensures Performed(t, run, j).pending.Settled? || Performed(t, run, j).pending.Failed?
  {
    hide Released, SpendNonce, MayRelease, SignedBy, Fresh, PollReceipt, Polled, NoticeOf, SessionsOf, Current;
    hide ParseSigned;
  }
}
