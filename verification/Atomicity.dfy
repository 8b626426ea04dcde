/** Refusals change nothing, with the one deliberate exception the original
    documents and one it does not. */
module Atomicity {
  import opened Basics
  import opened Crypto
  import opened Wire
  import opened State
  import opened Trustee
  import opened Tables
  import opened Transactions
  import opened Invariant
  import opened RecoveryPreservation
  import opened ReadBack
  import opened Steps

  /** A valid enrollment of an ID already held by another key. */
  ghost predicate ForeignKey(t: Trustee, db: Database, request: EnrollRequest, now: int) {
    && request.sealedEnvelope.Some? && request.version == 1 && db.highWater <= now
    && ByChallenge(db.enrollments, request.context.challenge).None?
    && Redeemable(db, request.context.challenge, now).Some? && request.trusteeKeyId == t.KeyId()
    && var accepted := Accepted(t, request.context, request.sealedEnvelope.value, now);
    && accepted.Ok? && CheckArtifact(t, accepted.value, request.protectedArtifact).Ok?
    && var existing := Current(db.enrollments, request.context.enrollmentId);
    && existing.Some? && existing.value.enrollment.authorizationKey != accepted.value.authorizationKey
  }

  /** A challenge that would expire after the last time a timestamp can say. */
  predicate Unsayable(now: int) {
    !Formattable(now + CHALLENGE_LIFETIME_SECS)
  }

  lemma EnrollAtomic(t: Trustee, db: Database, request: EnrollRequest, now: int)
    ensures
      var tx := Transactions.Enroll(t, db, request, now);
      && (tx.pending.Failed? && tx.db != db <==> ForeignKey(t, db, request, now))
      && (ForeignKey(t, db, request, now) ==>
            && tx.pending == Failed(InvalidEnrollment)
            && request.context.challenge in db.challenges
            && Redeemable(db, request.context.challenge, now).value in db.invitations
            && tx.db == Spend(db.(highWater := now), request.context.challenge,
                              Redeemable(db, request.context.challenge, now).value, now))
      && (tx.db != db ==> db.highWater <= now == tx.db.highWater)
  {
    hide Accepted, CheckArtifact;
    var tx := Transactions.Enroll(t, db, request, now);
    if ForeignKey(t, db, request, now) {
      assert tx.db.challenges[request.context.challenge].usedAt.Some?;
    }
  }

  /** `begin-recovery`, cancelling, ending and reading: refusals are drops. */
  lemma SignedAtomic(t: Trustee, db: Database, signed: Signed, random: Random, now: int)
    requires Valid(t, db) && Formattable(now)
    ensures
      var tx := ActSigned(t, db, signed, random, now);
      && (tx.pending.Failed? ==> tx.db == db)
      && (tx.db != db ==> db.highWater <= now == tx.db.highWater)
  {
    hide Valid, Released, SpendNonce, MayRelease, SignedBy, Fresh, PollReceipt, Polled, Transactions.ReadEnrollment;
    hide CancelledStatus, EndedStatus, EnrollmentName, Current;
    match signed.operation
    case ReadRecovery => ReadRecoveryPolls(t, db, signed, random, now);
    case ReadEnrollment => HolderPollAtomic(t, db, signed, now);
    case _ =>
  }

  lemma HolderPollAtomic(t: Trustee, db: Database, signed: Signed, now: int)
    requires Valid(t, db) && Formattable(now)
    ensures
      var tx := Transactions.ReadEnrollment(t, db, signed, now);
      && (tx.pending.Failed? ==> tx.db == db)
      && (tx.db != db ==> db.highWater <= now == tx.db.highWater)
  {
    hide Valid, SpendNonce, SignedBy, Fresh, NoticeOf, SessionsOf, EnrollmentName;
    var current := Current(db.enrollments, signed.target);
    if current.Some? {
      var k :| IsCurrent(db.enrollments, signed.target, k) && current.value == db.enrollments[k];
      CustodyRow(t, db, k);
    }
  }

  lemma BeginAtomic(t: Trustee, db: Database, version: nat, document: SessionDocument, now: int)
    ensures
      var tx := Transactions.BeginRecovery(t, db, version, document, now);
      && (tx.pending.Failed? ==> tx.db == db)
      && (tx.db != db ==> db.highWater <= now == tx.db.highWater)
  {
    hide VerifySession, Session.Binds, Admit, NewSession, Current;
  }

  lemma ChallengeAtomic(
    t: Trustee, db: Database, version: nat, componentId: string, code: string, random: Random, now: int)
    ensures
      var tx := Transactions.IssueChallenge(t, db, version, componentId, code, random, now);
      && (tx.db != db ==> (tx.pending.Failed? <==> Unsayable(now)))
      && (tx.db != db ==> db.highWater <= now == tx.db.highWater)
  {
    hide OpenChallenges;
    assert [now + CHALLENGE_LIFETIME_SECS][0] == now + CHALLENGE_LIFETIME_SECS;
  }

  /** A refused request leaves every table as it was, the clock included,
      except in exactly two cases: an enrollment under a foreign key for an ID
      in use, which spends its challenge and invitation on purpose; and a
      challenge issued so late that its expiry cannot be written as a
      timestamp, which is stored and then answered with an error. And an
      action that changes anything moves the clock to its own time, which is
      never before any recorded one. */
  lemma RefusalsAtomic(t: Trustee, db: Database, action: Action, random: Random, now: int)
    requires Valid(t, db) && Formattable(now)
    ensures
      var tx := Act(t, db, action, random, now);
      && (tx.db != db ==>
            (tx.pending.Failed? <==>
               || (action.Serve? && action.request.EnrollCall? && ForeignKey(t, db, action.request.enroll, now))
               || (action.Serve? && action.request.ChallengeCall? && Unsayable(now))))
      && (action.Serve? && action.request.EnrollCall? && ForeignKey(t, db, action.request.enroll, now) ==> tx.db != db)
      && (tx.db != db ==> db.highWater <= now == tx.db.highWater)
  {
    hide Valid, ForeignKey, Unsayable, Transactions.Enroll, Transactions.BeginRecovery, ActSigned, ParseSigned;
    hide Transactions.IssueChallenge;
    match action
    case Invite(_) =>
    case Serve(ChallengeCall(version, componentId, code)) =>
      ChallengeAtomic(t, db, version, componentId, code, random, now);
    case Serve(EnrollCall(request)) => EnrollAtomic(t, db, request, now);
    case Serve(BeginCall(version, document)) => BeginAtomic(t, db, version, document, now);
    case Serve(SignedCall(request)) =>
      var signed := ParseSigned(request, t.componentId);
      if signed.Some? {
        SignedAtomic(t, db, signed.value, random, now);
      }
    case Serve(_) =>
  }

  /** An answer that is an error was already a refusal: nothing is refused
      after commit but the unsayable challenge. */
  lemma AnswersFollow(t: Trustee, db: Database, action: Action, random: Random, now: int)
    requires Valid(t, db) && Formattable(now)
    ensures
      var tx := Act(t, db, action, random, now);
      Respond(t, tx.db, tx.pending).Err? <==> tx.pending.Failed?
  {
    hide Valid, Act, EnrollmentAnswer, SessionAnswer, OutcomeAnswer, Recorded, InCustody, Evolves;
    var tx := Act(t, db, action, random, now);
    ActKeeps(t, db, action, random, now);
    ActRecords(t, db, action, random, now);
    EvolvesReflexive(tx.db);
    ReadBackStable(t, tx.db, tx.db, tx.pending);
  }

  /** The late challenge does happen: in the last quarter hour of the year
      9999 a holder of a fresh invitation is told the trustee is temporarily
      unavailable, and has one open challenge more. */
  lemma LateChallengeStored(t: Trustee, code: string, id: string)
    requires IsHex32(code)
    ensures
      var invited := CreateInvitation(EMPTY, 1, Random(Some(code), 0), MAX_TIME).db;
      var tx := Transactions.IssueChallenge(t, invited, 1, t.componentId, code, Random(Some(id), 0), MAX_TIME);
      && tx.pending == Failed(TemporarilyUnavailable)
      && OpenChallenges(invited.challenges, Sha256(code), MAX_TIME) == {}
      && OpenChallenges(tx.db.challenges, Sha256(code), MAX_TIME) == {id}
  {
    var invited := CreateInvitation(EMPTY, 1, Random(Some(code), 0), MAX_TIME).db;
    assert OpenChallenges(invited.challenges, Sha256(code), MAX_TIME) == {};
    assert [MAX_TIME + CHALLENGE_LIFETIME_SECS][0] == MAX_TIME + CHALLENGE_LIFETIME_SECS;
  }
}
