/** The release of a contribution against the whole history of a run: safety,
    completeness, uniqueness, and what polls report. */
module History {
  import opened Basics
  import opened Crypto
  import opened Wire
  import opened State
  import opened Trustee
  import opened Tables
  import opened Transactions
  import opened Invariant
  import opened RecoveryPreservation
  import opened ReadBack
  import opened Steps
  import opened Runs
  import opened Releases

  // -------------------------------------------------------------------------
  // Beginnings

  ghost predicate Began(t: Trustee, run: Run, b: nat, s: string) {
    && b < |run.events| && b + 1 < |run.states|
    && s !in run.states[b].sessions
    && Begins(run.states[b], Performed(t, run, b), run.events[b].action, run.events[b].now, s)
  }

  lemma Stepped(t: Trustee, run: Run, i: nat, s: string, k: EnrollmentKey)
    requires IsRun(t, run) && i < |run.events|
    ensures SessionStep(run.states[i], Performed(t, run, i), run.events[i].action, run.events[i].now, s)
    ensures EnrollmentStep(run.states[i], Performed(t, run, i), k)
    ensures run.states[i + 1] == Performed(t, run, i).db
  {
    hide Valid, Act, SessionStep, EnrollmentStep;
    ReachableValid(t, run, i);
    var event := run.events[i];
    ActSteps(t, run.states[i], event.action, event.random, event.now, s, k);
  }

  lemma {:induction false} SessionBegan(t: Trustee, run: Run, i: nat, s: string) returns (b: nat)
    requires IsRun(t, run) && i < |run.states| && s in run.states[i].sessions
    ensures b < i && Began(t, run, b, s)
  {
    hide Act, Begins, Emits, Stops;
    assert i > 0;
    if s in run.states[i - 1].sessions {
      b := SessionBegan(t, run, i - 1, s);
    } else {
      Stepped(t, run, i - 1, s, EnrollmentKey("", 0));
      b := i - 1;
    }
  }

  /** What a beginning fixed is still there in every later state. */
  lemma BeganFixed(t: Trustee, run: Run, b: nat, i: nat, s: string)
    requires IsRun(t, run) && Began(t, run, b, s) && b < i < |run.states|
    ensures s in run.states[i].sessions
    ensures
      var first, row := run.states[b + 1].sessions[s], run.states[i].sessions[s];
      && row == first.(status := row.status, contribution := row.contribution)
      && row.createdAt == run.events[b].now
      && row.key in run.states[b].enrollments && row.key in run.states[i].enrollments
      && run.states[i].enrollments[row.key].enrollment == run.states[b].enrollments[row.key].enrollment
      && VerifySession(row.request).Ok?
      && var enrollment := run.states[b].enrollments[row.key].enrollment;
      && first.status == (if FactorHolds(enrollment, VerifySession(row.request).value) then SCoolingDown else SRefused)
  {
    hide Act, Valid, VerifySession, FactorHolds;
    RunEvolves(t, run, b + 1, i);
    RunEvolves(t, run, b, i);
    SessionEvolved(run.states[b + 1], run.states[i], s);
    RowEvolves(run.states[b], run.states[i], run.states[b + 1].sessions[s].key);
  }

  lemma SessionEvolved(a: Database, b: Database, s: string)
    requires Evolves(a, b) && s in a.sessions
    ensures s in b.sessions && SessionEvolves(a.sessions[s], b.sessions[s], a.highWater)
  {
    hide InvitationsEvolve, ChallengesEvolve, EnrollmentsEvolve, OutcomesKept, FrozenKept, SessionEvolves;
  }

  // -------------------------------------------------------------------------
  // Disturbances

  /** An outcome for this scope was answered before event `i`: for a session,
      a cancellation or veto; for an enrollment, a revocation or closure. */
  ghost predicate Disturbed(t: Trustee, run: Run, i: nat, scope: Scope)
    requires i < |run.states| && |run.states| == |run.events| + 1
  {
    exists m: nat :: m < i && Settles(Performed(t, run, m).pending, scope)
  }

  lemma DisturbanceRecorded(t: Trustee, run: Run, i: nat, scope: Scope) returns (key: RequestKey)
    requires IsRun(t, run) && i < |run.states| && Disturbed(t, run, i, scope)
    ensures key.scope == scope && key in run.states[i].outcomes
    ensures OutcomeOk(key, run.states[i].sessions, run.states[i].enrollments, run.states[i].highWater)
  {
    hide Act, Valid, InvitationsEvolve, ChallengesEvolve, EnrollmentsEvolve, SessionsEvolve, FrozenKept, InCustody;
    hide OutcomeOk;
    var m: nat :| m < i && Settles(Performed(t, run, m).pending, scope);
    var event := run.events[m];
    ReachableValid(t, run, m);
    ReachableValid(t, run, i);
    ActRecords(t, run.states[m], event.action, event.random, event.now);
    key := RequestKey(scope, Performed(t, run, m).pending.requestId);
    RunEvolves(t, run, m + 1, i);
    KnownOutcome(t, run.states[i], key);
  }

  /** A session nobody cancelled only ever starts and releases. */
  lemma {:induction false} UndisturbedSession(t: Trustee, run: Run, b: nat, i: nat, s: string)
    requires IsRun(t, run) && b < i < |run.states| && Began(t, run, b, s)
    requires run.states[b + 1].sessions[s].status == SCoolingDown && !Disturbed(t, run, i, SessionScope(s))
    ensures s in run.states[i].sessions && run.states[i].sessions[s].status in {SCoolingDown, SReleased}
  {
    hide Act, Valid, Begins, Settles, Hands;
    BeganFixed(t, run, b, i, s);
    if i > b + 1 {
      assert !Disturbed(t, run, i - 1, SessionScope(s));
      UndisturbedSession(t, run, b, i - 1, s);
      Stepped(t, run, i - 1, s, EnrollmentKey("", 0));
    }
  }

  /** An enrollment nobody revoked or closed stays accepted. */
  lemma {:induction false} UndisturbedEnrollment(t: Trustee, run: Run, i: nat, k: EnrollmentKey)
    requires IsRun(t, run) && i < |run.states| && k in run.states[i].enrollments
    requires !Disturbed(t, run, i, EnrollmentScope(k))
    ensures run.states[i].enrollments[k].status == EAccepted
  {
    hide Act, Valid, SessionStep, Settles;
    assert i > 0;
    assert !Disturbed(t, run, i - 1, EnrollmentScope(k));
    Stepped(t, run, i - 1, "", k);
    if k in run.states[i - 1].enrollments {
      UndisturbedEnrollment(t, run, i - 1, k);
    }
  }

  // -------------------------------------------------------------------------
  // Release safety and completeness

  /** The session was begun with a holding factor, its cooldown has passed on
      the trustee's own clock, no deadline has, and nobody stopped it. */
  ghost predicate Deserved(t: Trustee, run: Run, b: nat, i: nat, s: string, now: int)
    requires IsRun(t, run) && i < |run.states|
  {
    && b < i && Began(t, run, b, s)
    && var row := run.states[b + 1].sessions[s];
    && row.key in run.states[b].enrollments
    && VerifySession(row.request).Ok?
    && var enrollment := run.states[b].enrollments[row.key].enrollment;
    && FactorHolds(enrollment, VerifySession(row.request).value)
    && run.events[b].now + enrollment.policy.cooldownSecs <= now < row.expiresAt <= enrollment.expiresAt
    && !Disturbed(t, run, i, SessionScope(s))
    && !Disturbed(t, run, i, EnrollmentScope(row.key))
  }

  /** In any reachable state the release predicate, which reads one row of
      each table, decides exactly what the history deserves. */
  lemma ReleaseMeansDeserved(t: Trustee, run: Run, b: nat, i: nat, s: string, now: int)
    requires IsRun(t, run) && b < i < |run.states| && Began(t, run, b, s) && run.states[i].highWater <= now
    ensures s in run.states[i].sessions && run.states[i].sessions[s].key in run.states[i].enrollments
    ensures
      var row := run.states[i].sessions[s];
      var e := run.states[i].enrollments[row.key];
      MayRelease(e.State(), row.State(), now, run.states[i].highWater).Ok? <==> Deserved(t, run, b, i, s, now)
  {
    hide Act, Valid, Began, Begins, MayRelease, VerifySession, FactorHolds, EnrollmentOk, SessionOk, OutcomeOk;
    BeganFixed(t, run, b, i, s);
    ReachableValid(t, run, i);
    var row := run.states[i].sessions[s];
    var e := run.states[i].enrollments[row.key];
    KnownSession(t, run.states[i], s);
    KnownRow(t, run.states[i], row.key);
    Deadlines(t, s, row, e);
    ReleaseConditions(e.State(), row.State(), now, run.states[i].highWater);
    if MayRelease(e.State(), row.State(), now, run.states[i].highWater).Ok? {
      ReleasableUndisturbed(t, run, i, s, now);
    } else if Deserved(t, run, b, i, s, now) {
      UndisturbedSession(t, run, b, i, s);
      UndisturbedEnrollment(t, run, i, row.key);
    }
  }

  lemma Deadlines(t: Trustee, id: string, row: SessionRow, e: EnrollmentRow)
    requires SessionOk(t, id, row, e)
    ensures row.cooldownEndsAt == row.createdAt + e.enrollment.policy.cooldownSecs
    ensures row.expiresAt <= e.enrollment.expiresAt && row.key == e.Key()
    ensures VerifySession(row.request).Ok?
    ensures row.status.SRefused? <==> !FactorHolds(e.enrollment, VerifySession(row.request).value)
  {
    hide VerifySession, FactorHolds, ContributionOk;
  }

  lemma ReleasableUndisturbed(t: Trustee, run: Run, i: nat, s: string, now: int)
    requires IsRun(t, run) && i < |run.states| && s in run.states[i].sessions && run.states[i].highWater <= now
    requires run.states[i].sessions[s].key in run.states[i].enrollments
    requires run.states[i].sessions[s].status in {SCoolingDown, SReleased} && now < run.states[i].sessions[s].expiresAt
    requires run.states[i].enrollments[run.states[i].sessions[s].key].status == EAccepted
    ensures !Disturbed(t, run, i, SessionScope(s))
    ensures !Disturbed(t, run, i, EnrollmentScope(run.states[i].sessions[s].key))
  {
    hide Act, Valid, Settles;
    var k := run.states[i].sessions[s].key;
    if Disturbed(t, run, i, SessionScope(s)) {
      var key := DisturbanceRecorded(t, run, i, SessionScope(s));
      assert false;
    }
    if Disturbed(t, run, i, EnrollmentScope(k)) {
      var key := DisturbanceRecorded(t, run, i, EnrollmentScope(k));
      assert false;
    }
  }

  /** Event `i` is an answered poll of session `s`. */
  ghost predicate PollsAt(t: Trustee, run: Run, i: nat, signed: Signed)
    requires i < |run.events| && i < |run.states|
  {
    && SignedOf(t, run.events[i].action) == Some(signed)
    && signed.operation.ReadRecovery?
    && Performed(t, run, i).pending.Settled?
  }

  lemma PollsAtPolls(t: Trustee, run: Run, i: nat, signed: Signed)
    requires IsRun(t, run) && i < |run.events| && PollsAt(t, run, i, signed)
    ensures
      && Valid(t, run.states[i])
      && Polls(t, run.states[i], Performed(t, run, i), signed, run.events[i].random.sealing, run.events[i].now)
  {
    hide Valid, Act, Polls, SignedOf, Transactions.ReadRecovery;
    ReachableValid(t, run, i);
    var event := run.events[i];
    SignedActs(t, run.states[i], event.action, event.random, event.now);
    ReadRecoveryPolls(t, run.states[i], signed, event.random, event.now);
  }

  /** Release safety. Whoever asked and whatever else was served: an answer
      that hands out a session's contribution means the session was begun,
      earlier in the run, with its factor holding; that its whole cooldown
      has passed since then and no deadline has; that no cancellation, veto,
      revocation or closure of it was answered before; and that the session's
      own proof key signed the poll. */
  lemma ReleaseSafety(t: Trustee, run: Run, i: nat, s: string) returns (b: nat)
    requires IsRun(t, run) && i < |run.events| && Hands(Performed(t, run, i).pending, s)
    ensures Deserved(t, run, b, i, s, run.events[i].now)
    ensures s in run.states[i].sessions
    ensures SignedOf(t, run.events[i].action).Some?
    ensures SignedBy(SignedOf(t, run.events[i].action).value, run.states[i].sessions[s].proofKey)
  {
    hide Valid, Act, Deserved, Hands, SignedOf, MayRelease, Released, SpendNonce, SignedBy, Fresh, Polled, PollReceipt;
    var event := run.events[i];
    ReachableValid(t, run, i);
    OnlyPollsHand(t, run.states[i], event.action, event.random, event.now, s);
    var signed := SignedOf(t, event.action).value;
    PollHands(t, run.states[i], Performed(t, run, i), signed, event.random.sealing, event.now);
    b := SessionBegan(t, run, i, s);
    ReleaseMeansDeserved(t, run, b, i, s, event.now);
  }

  /** And exactly then: every answered poll hands out the contribution if and
      only if the history deserves it. */
  lemma ReleaseExactly(t: Trustee, run: Run, i: nat, signed: Signed, b: nat)
    requires IsRun(t, run) && i < |run.events| && PollsAt(t, run, i, signed)
    requires b < i && Began(t, run, b, signed.target)
    ensures Hands(Performed(t, run, i).pending, signed.target)
            <==> Deserved(t, run, b, i, signed.target, run.events[i].now)
  {
    hide Valid, Act, Deserved, Hands, SignedOf, MayRelease, Released, SpendNonce, SignedBy, Fresh, Polled, PollReceipt;
    hide Began, PollsAt;
    var event := run.events[i];
    PollsAtPolls(t, run, i, signed);
    PollHands(t, run.states[i], Performed(t, run, i), signed, event.random.sealing, event.now);
    ReleaseMeansDeserved(t, run, b, i, signed.target, event.now);
  }

  /** Nothing leaves after a stop: once a cancellation or veto of a session,
      or a revocation or closure of its enrollment, has been answered, no
      later answer hands out the session's contribution. */
  lemma NothingAfterStop(t: Trustee, run: Run, m: nat, i: nat, s: string, scope: Scope)
    requires IsRun(t, run) && m < i < |run.events| && Settles(Performed(t, run, m).pending, scope)
    requires s in run.states[i].sessions
    requires scope == SessionScope(s) || scope == EnrollmentScope(run.states[i].sessions[s].key)
    ensures !Hands(Performed(t, run, i).pending, s)
  {
    hide Act, Valid, Settles, Hands, SignedOf, SignedBy, VerifySession, FactorHolds, Began;
    assert Disturbed(t, run, i, scope);
    if Hands(Performed(t, run, i).pending, s) {
      var b := ReleaseSafety(t, run, i, s);
      BeganFixed(t, run, b, i, s);
      assert false;
    }
  }

  // -------------------------------------------------------------------------
  // What a contribution is

  /** The trustee signed it, and the session's destination opens it, under
      the recovery tuple, to exactly what the sealed envelope accepted at
      enrollment opens to. */
  ghost predicate Delivers(t: Trustee, e: EnrollmentRow, session: Session, c: Contribution, destination: SecretKey)
    requires e.requestDigest.Sha256? && Source(e).sealedEnvelope.Some?
  {
    var context := e.enrollment.context;
    var accepted := Open(t.hpkeKey, EnrollmentInfo(context), Source(e).sealedEnvelope.value);
    var info := RecoveryInfoFor(session.sessionId, context, session.destinationKeysDigest, session.expiresAt);
    && Verify(PublicOf(t.signingKey), c.content, c.signature)
    && accepted.Some?
    && (PublicOf(destination) == session.destinationKey ==>
          Open(destination, info, c.content.sealedContribution) == accepted)
  }

  lemma StoredDelivers(t: Trustee, db: Database, s: string, destination: SecretKey)
    requires Valid(t, db) && s in db.sessions && db.sessions[s].contribution.Some?
    ensures
      var row := db.sessions[s];
      && row.key in db.enrollments && VerifySession(row.request).Ok?
      && var e := db.enrollments[row.key];
      && e.requestDigest.Sha256? && Source(e).sealedEnvelope.Some?
      && Delivers(t, e, VerifySession(row.request).value, row.contribution.value, destination)
  {
    hide Valid, VerifySession, FactorHolds, EnrollmentOk, VerifiedEnvelope;
    KnownSession(t, db, s);
  }

  /** No stuck release: once the history deserves it, any fresh poll signed by
      the proof key with an unspent nonce is answered with the contribution,
      whatever randomness sealing draws, and it delivers. */
  lemma NoStuckRelease(
    t: Trustee, run: Run, b: nat, i: nat, signed: Signed, random: Random, now: int, destination: SecretKey)
    requires IsRun(t, run) && i < |run.states| && Deserved(t, run, b, i, signed.target, now)
    requires Formattable(now) && run.states[i].highWater <= now
    requires signed.target in run.states[i].sessions
    requires signed.operation.ReadRecovery? && Fresh(t, signed, now)
    requires SignedBy(signed, run.states[i].sessions[signed.target].proofKey)
    requires SpendNonce(t, run.states[i].nonces, RequestKey(SessionScope(signed.target), signed.requestId), now).Ok?
    ensures
      var s := signed.target;
      var tx := ActSigned(t, run.states[i], signed, random, now);
      && Hands(tx.pending, s)
      && run.states[i].sessions[s].key in run.states[i].enrollments
      && var e := run.states[i].enrollments[run.states[i].sessions[s].key];
      && VerifySession(run.states[i].sessions[s].request).Ok?
      && e.requestDigest.Sha256? && Source(e).sealedEnvelope.Some?
      && Delivers(t, e, VerifySession(run.states[i].sessions[s].request).value,
                  tx.pending.answer.receipt.content.contribution.value, destination)
  {
    hide Valid, Deserved, MayRelease, Released, SpendNonce, SignedBy, Fresh, PollReceipt, Polled, IsRun, VerifySession;
    hide Delivers, Polls, Evolves;
    var s := signed.target;
    var db := run.states[i];
    ReachableValid(t, run, i);
    DeservedBegan(t, run, b, i, s, now);
    ReleaseMeansDeserved(t, run, b, i, s, now);
    ReleasablePolls(t, db, signed, random, now);
    var tx := Transactions.ReadRecovery(t, db, signed, random, now);
    PollHands(t, db, tx, signed, random.sealing, now);
    ReadRecoveryKeeps(t, db, signed, random, now);
    StoredDelivers(t, tx.db, s, destination);
    PollsKeepRows(t, db, tx, signed, random.sealing, now);
  }

  lemma DeservedBegan(t: Trustee, run: Run, b: nat, i: nat, s: string, now: int)
    requires IsRun(t, run) && i < |run.states| && Deserved(t, run, b, i, s, now)
    ensures b < i && Began(t, run, b, s)
  {
    hide Valid, Act, Began, VerifySession, FactorHolds, Disturbed;
  }

  lemma ReleasablePolls(t: Trustee, db: Database, signed: Signed, random: Random, now: int)
    requires Valid(t, db) && Formattable(now) && db.highWater <= now && signed.target in db.sessions
    requires Fresh(t, signed, now) && SignedBy(signed, db.sessions[signed.target].proofKey)
    requires SpendNonce(t, db.nonces, RequestKey(SessionScope(signed.target), signed.requestId), now).Ok?
    requires db.sessions[signed.target].key in db.enrollments
    requires MayRelease(db.enrollments[db.sessions[signed.target].key].State(), db.sessions[signed.target].State(), now,
                        db.highWater).Ok?
    ensures Polls(t, db, Transactions.ReadRecovery(t, db, signed, random, now), signed, random.sealing, now)
  {
    hide Valid, MayRelease, Released, SpendNonce, SignedBy, Fresh, PollReceipt, Polled, SessionOk, EnrollmentOk;
    var s := signed.target;
    var row := db.sessions[s];
    var e := db.enrollments[row.key];
    KnownSession(t, db, s);
    SessionTimes(t, s, row, e);
    ReleasedCases(t, s, row, e, now, db.highWater, random.sealing);
  }

  lemma PollsKeepRows(t: Trustee, db: Database, tx: Transaction, signed: Signed, sealing: nat, now: int)
    requires Polls(t, db, tx, signed, sealing, now)
    ensures tx.db.enrollments == db.enrollments && signed.target in tx.db.sessions && signed.target in db.sessions
    ensures tx.db.sessions[signed.target].request == db.sessions[signed.target].request
    ensures tx.db.sessions[signed.target].key == db.sessions[signed.target].key
  {
    hide Released, SpendNonce, SignedBy, Fresh, MayRelease, PollReceipt;
  }

  // -------------------------------------------------------------------------
  // One contribution

  /** All answers for a session hand out one contribution, bit for bit,
      whatever randomness each poll's sealing would have drawn. */
  lemma OneContribution(t: Trustee, run: Run, i: nat, j: nat, s: string)
    requires IsRun(t, run) && i < j < |run.events|
    requires Hands(Performed(t, run, i).pending, s) && Hands(Performed(t, run, j).pending, s)
    ensures Performed(t, run, j).pending.answer.receipt.content.contribution
            == Performed(t, run, i).pending.answer.receipt.content.contribution
  {
    hide Valid, Act, SignedOf, Polls, Evolves;
    HandingStores(t, run, i, s);
    HandingStores(t, run, j, s);
    RunEvolves(t, run, i + 1, j);
    SessionEvolved(run.states[i + 1], run.states[j], s);
  }

  lemma HandingStores(t: Trustee, run: Run, i: nat, s: string)
    requires IsRun(t, run) && i < |run.events| && Hands(Performed(t, run, i).pending, s)
    ensures s in run.states[i].sessions && s in run.states[i + 1].sessions
    ensures run.states[i + 1].sessions[s].contribution
            == Performed(t, run, i).pending.answer.receipt.content.contribution
    ensures run.states[i].sessions[s].contribution.Some? ==>
              run.states[i + 1].sessions[s].contribution == run.states[i].sessions[s].contribution
  {
    hide Valid, Act, SignedOf, MayRelease, Released, SpendNonce, SignedBy, Fresh, Polled, PollReceipt;
    var event := run.events[i];
    ReachableValid(t, run, i);
    OnlyPollsHand(t, run.states[i], event.action, event.random, event.now, s);
    PollHands(t, run.states[i], Performed(t, run, i), SignedOf(t, event.action).value, event.random.sealing, event.now);
  }

  /** The contribution of this session was handed out before event `i`. */
  ghost predicate Handed(t: Trustee, run: Run, i: nat, s: string)
    requires i < |run.states| && |run.states| == |run.events| + 1
  {
    exists m: nat :: m < i && Hands(Performed(t, run, m).pending, s)
  }

  /** A session row holds a contribution exactly when one was handed out; and
      only a released, cancelled or vetoed row does, a released one always. */
  lemma {:induction false} StoredIffHanded(t: Trustee, run: Run, i: nat, s: string)
    requires IsRun(t, run) && i < |run.states| && s in run.states[i].sessions
    ensures run.states[i].sessions[s].contribution.Some? <==> Handed(t, run, i, s)
  {
    hide Valid, Act, EnrollmentStep;
    if run.states[i].sessions[s].contribution.Some? {
      assert i > 0;
      Stepped(t, run, i - 1, s, EnrollmentKey("", 0));
      if !Hands(Performed(t, run, i - 1).pending, s) {
        StoredIffHanded(t, run, i - 1, s);
        var m: nat :| m < i - 1 && Hands(Performed(t, run, m).pending, s);
        assert m < i && Hands(Performed(t, run, m).pending, s);
      }
    }
    if Handed(t, run, i, s) {
      var m: nat :| m < i && Hands(Performed(t, run, m).pending, s);
      HandingKept(t, run, m, i, s);
    }
  }

  lemma HandingKept(t: Trustee, run: Run, m: nat, i: nat, s: string)
    requires IsRun(t, run) && m < i < |run.states| && Hands(Performed(t, run, m).pending, s)
    ensures s in run.states[i].sessions && run.states[i].sessions[s].contribution.Some?
  {
    hide Valid, Act, Evolves;
    HandingStores(t, run, m, s);
    RunEvolves(t, run, m + 1, i);
    SessionEvolved(run.states[m + 1], run.states[i], s);
  }

  /** Event `i` is an answered poll by the holder of enrollment `signed.target`. */
  ghost predicate HolderPollsAt(t: Trustee, run: Run, i: nat, signed: Signed)
    requires i < |run.events| && i < |run.states|
  {
    && SignedOf(t, run.events[i].action) == Some(signed)
    && signed.operation.ReadEnrollment?
    && Performed(t, run, i).pending.Settled?
  }

  /** The holder's poll lists every session of the enrollment as it stands,
      and says `released` of exactly those whose contribution has left. */
  lemma HolderPollTruthful(t: Trustee, run: Run, i: nat, signed: Signed) returns (k: EnrollmentKey)
    requires IsRun(t, run) && i < |run.events| && HolderPollsAt(t, run, i, signed)
    ensures k in run.states[i].enrollments && k.id == signed.target
    ensures SignedBy(signed, run.states[i].enrollments[k].enrollment.authorizationKey)
    ensures
      var answer := Performed(t, run, i).pending.answer;
      && answer.Receipted? && answer.receipt.content.notices.Some?
      && var notices := answer.receipt.content.notices.value;
      && notices.Keys == SessionsOf(run.states[i].sessions, k)
      && forall s :: s in notices ==>
           && notices[s] == NoticeOf(run.states[i].sessions[s], run.events[i].now)
           && (notices[s].released <==> Handed(t, run, i, s))
  {
    hide Valid, Act, SignedOf, Handed, Hands, SessionName;
    var event := run.events[i];
    var db := run.states[i];
    ReachableValid(t, run, i);
    SignedActs(t, db, event.action, event.random, event.now);
    k := HolderPollSays(t, db, signed, event.now);
    forall s | s in SessionsOf(db.sessions, k)
      ensures db.sessions[s].contribution.Some? <==> Handed(t, run, i, s)
    {
      StoredIffHanded(t, run, i, s);
    }
  }

  lemma HolderPollSays(t: Trustee, db: Database, signed: Signed, now: int) returns (k: EnrollmentKey)
    requires Valid(t, db) && Transactions.ReadEnrollment(t, db, signed, now).pending.Settled?
    ensures k in db.enrollments && k.id == signed.target
    ensures SignedBy(signed, db.enrollments[k].enrollment.authorizationKey)
    ensures
      var answer := Transactions.ReadEnrollment(t, db, signed, now).pending.answer;
      && answer.Receipted? && answer.receipt.content.notices.Some?
      && var notices := answer.receipt.content.notices.value;
      && notices.Keys == SessionsOf(db.sessions, k)
      && forall s :: s in notices ==> notices[s] == NoticeOf(db.sessions[s], now)
  {
    hide Valid, SpendNonce, SignedBy, Fresh, EnrollmentOk, EnrollmentName, NoticeOf;
    var row := Current(db.enrollments, signed.target).value;
    k :| IsCurrent(db.enrollments, signed.target, k) && row == db.enrollments[k];
    KnownRow(t, db, k);
  }
}
