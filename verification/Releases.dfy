/** When a contribution leaves the trustee, over whole runs. */
module Releases {
  import opened Basics
  import opened Wire
  import opened State
  import opened Trustee
  import opened Tables
  import opened Transactions
  import opened Invariant
  import opened RecoveryPreservation
  import opened Retries
  import opened Steps

  // -------------------------------------------------------------------------
  // One poll

  lemma HolderPollsHandNothing(t: Trustee, db: Database, signed: Signed, now: int, s: string)
    ensures !Hands(Transactions.ReadEnrollment(t, db, signed, now).pending, s)
  {
    hide SpendNonce, SignedBy, Fresh, NoticeOf, SessionsOf, Current;
  }

  lemma PollNames(t: Trustee, db: Database, tx: Transaction, signed: Signed, sealing: nat, now: int)
    requires Valid(t, db) && Polls(t, db, tx, signed, sealing, now)
    ensures tx.pending.Settled? && tx.pending.answer.Receipted?
    ensures tx.pending.answer.receipt.content.sessionId == Some(signed.target)
  {
    hide Valid, SessionOk, EnrollmentOk, Released, SpendNonce, MayRelease, SignedBy, Fresh;
    KnownSession(t, db, signed.target);
    SessionTimes(t, signed.target, db.sessions[signed.target], db.enrollments[db.sessions[signed.target].key]);
  }

  /** The signed request an action is, if it is a well-formed one. */
  function SignedOf(t: Trustee, action: Action): Option<Signed> {
    if action.Serve? && action.request.SignedCall? then ParseSigned(action.request.signed, t.componentId) else None
  }

  lemma SignedActs(t: Trustee, db: Database, action: Action, random: Random, now: int)
    requires SignedOf(t, action).Some?
    ensures Act(t, db, action, random, now) == ActSigned(t, db, SignedOf(t, action).value, random, now)
  {
    hide ActSigned, ParseSigned;
  }

  lemma UnsignedHandNothing(t: Trustee, db: Database, action: Action, random: Random, now: int, s: string)
    requires SignedOf(t, action).None?
    ensures !Hands(Act(t, db, action, random, now).pending, s)
  {
    hide Transactions.Enroll, Transactions.BeginRecovery, ActSigned, ParseSigned;
    match action
    case Serve(EnrollCall(request)) => EnrollRecordsEnrollment(t, db, request, now);
    case Serve(BeginCall(version, document)) => BeginRecordsSession(t, db, version, document, now);
    case _ =>
  }

  /** Only a candidate's poll of the session hands out its contribution. */
  lemma OnlyPollsHand(t: Trustee, db: Database, action: Action, random: Random, now: int, s: string)
    requires Valid(t, db) && Formattable(now) && Hands(Act(t, db, action, random, now).pending, s)
    ensures
      var signed := SignedOf(t, action);
      && signed.Some? && signed.value.operation.ReadRecovery? && signed.value.target == s
      && Polls(t, db, Act(t, db, action, random, now), signed.value, random.sealing, now)
  {
    hide Valid, Polls, Act, SignedOf, Transactions.ReadEnrollment, Transactions.CancelRecovery, EndEnrollment;
    hide Transactions.ReadRecovery;
    if SignedOf(t, action).None? {
      UnsignedHandNothing(t, db, action, random, now, s);
    } else {
      var signed := SignedOf(t, action).value;
      SignedActs(t, db, action, random, now);
      SignedRecordsOutcome(t, db, signed, random, now);
      match signed.operation
      case ReadEnrollment => HolderPollsHandNothing(t, db, signed, now, s);
      case ReadRecovery =>
        var tx := Act(t, db, action, random, now);
        ReadRecoveryPolls(t, db, signed, random, now);
        PollNames(t, db, tx, signed, random.sealing, now);
      case _ =>
    }
  }

  /** A poll hands out the contribution exactly when the release predicate
      holds, and what it hands out is then stored. */
  lemma PollHands(t: Trustee, db: Database, tx: Transaction, signed: Signed, sealing: nat, now: int)
    requires Valid(t, db) && Formattable(now) && Polls(t, db, tx, signed, sealing, now)
    ensures
      var s := signed.target;
      var row := db.sessions[s];
      && (Hands(tx.pending, s) <==> MayRelease(db.enrollments[row.key].State(), row.State(), now, db.highWater).Ok?)
      && (Hands(tx.pending, s) ==>
            && s in tx.db.sessions
            && tx.db.sessions[s].contribution == tx.pending.answer.receipt.content.contribution
            && (row.contribution.Some? ==> tx.db.sessions[s].contribution == row.contribution))
  {
    hide Valid, EnrollmentOk, Released, SpendNonce, SignedBy, Fresh, MayRelease, SessionOk;
    var s := signed.target;
    var row := db.sessions[s];
    var e := db.enrollments[row.key];
    KnownSession(t, db, s);
    PollNames(t, db, tx, signed, sealing, now);
    ReleaseConditions(e.State(), row.State(), now, db.highWater);
    ReleasedCases(t, s, row, e, now, db.highWater, sealing);
  }

  lemma ReleasedCases(
    t: Trustee, id: string, row: SessionRow, e: EnrollmentRow, now: int, floor: int, sealing: nat)
    requires SessionOk(t, id, row, e) && EnrollmentOk(t, row.key, e) && Formattable(now)
    ensures
      var may := MayRelease(e.State(), row.State(), now, floor);
      var released := Released(t, e, row, now, floor, sealing);
      && (released.Ok? ==> (released.value.Some? <==> may.Ok?))
      && (may.Ok? ==> released.Ok?)
      && (may.Err? && released.Ok? ==>
            may.error in {RecoveryCoolingDown, RecoveryVetoed, RecoveryRefused, RecoveryExpired})
      && (may == Ok(Resend) ==> released.Ok? && released.value == row.contribution)
      && (may == Ok(Emit) ==> row.contribution.None?)
  {
    hide VerifySession, FactorHolds, ContributionOk, EnrollmentOk;
    if MayRelease(e.State(), row.State(), now, floor) == Ok(Emit) {
      EmissionSucceeds(t, id, row, e, now, floor, sealing);
    }
  }
}
