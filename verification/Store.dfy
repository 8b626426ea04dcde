/** The store itself (`src/store.rs`): tables updated in place, on a working
    copy that a commit writes back and a refusal drops. */
module Store {
  import opened Basics
  import opened Crypto
  import opened Wire
  import opened State
  import opened Trustee
  import Slip39
  import opened Tables
  import opened Transactions
  import opened Invariant
  import opened RecoveryPreservation

  /** The column's UNIQUE constraint. */
  ghost predicate UniqueChallenges(enrollments: map<EnrollmentKey, EnrollmentRow>) {
    forall k, l | k in enrollments && l in enrollments && enrollments[k].challenge == enrollments[l].challenge :: k == l
  }

  lemma NewStaysUnique(
    enrollments: map<EnrollmentKey, EnrollmentRow>, k: EnrollmentKey, request: EnrollRequest, enrollment: Enrollment,
    now: int)
    requires UniqueChallenges(enrollments) && request.sealedEnvelope.Some?
    requires ByChallenge(enrollments, request.context.challenge).None?
    ensures UniqueChallenges(enrollments[k := NewEnrollment(request, enrollment, now)])
  {
  }

  lemma RedeemableKnown(db: Database, challenge: string, now: int)
    ensures
      var invitation := Redeemable(db, challenge, now);
      && Redeemable(db.(highWater := now), challenge, now) == invitation
      && (invitation.Some? ==> challenge in db.challenges && invitation.value in db.invitations)
  {
  }

  /** One set of tables: the committed ones, or a transaction's own. */
  class TableSet {
    var highWater: int
    var invitations: map<Digest<string>, InvitationRow>
    var challenges: map<string, ChallengeRow>
    var enrollments: map<EnrollmentKey, EnrollmentRow>
    var sessions: map<string, SessionRow>
    var nonces: map<RequestKey, int>
    var outcomes: map<RequestKey, OutcomeRow>

    function View(): Database
      reads this
    {
      Database(highWater, invitations, challenges, enrollments, sessions, nonces, outcomes)
    }

    /** An empty database, as migration leaves it. */
    constructor Create()
      ensures View() == EMPTY
    {
      highWater := 0;
      invitations, challenges, enrollments, sessions, nonces, outcomes := map[], map[], map[], map[], map[], map[];
    }

    constructor Copy(from: TableSet)
      ensures View() == from.View()
    {
      highWater := from.highWater;
      invitations, challenges := from.invitations, from.challenges;
      enrollments, sessions := from.enrollments, from.sessions;
      nonces, outcomes := from.nonces, from.outcomes;
    }

    method FindByChallenge(challenge: string) returns (row: Option<EnrollmentRow>)
      requires UniqueChallenges(enrollments)
      ensures row == ByChallenge(enrollments, challenge)
    {
      if k :| k in enrollments && enrollments[k].challenge == challenge {
        row := Some(enrollments[k]);
      } else {
        row := None;
      }
    }

    /** The highest sequence stored for an enrollment ID, tombstones included. */
    method LoadCurrentEnrollment(id: string) returns (row: Option<EnrollmentRow>)
      ensures row == Current(enrollments, id)
    {
      var best: Option<EnrollmentKey> := None;
      var unread := enrollments.Keys;
      while unread != {}
        invariant unread <= enrollments.Keys
        invariant best.Some? ==> best.value in enrollments && best.value.id == id
        invariant forall k | k in enrollments.Keys - unread && k.id == id ::
                    best.Some? && k.sequence <= best.value.sequence
        decreases unread
      {
        var k :| k in unread;
        if k.id == id && (best.None? || best.value.sequence < k.sequence) {
          best := Some(k);
        }
        unread := unread - {k};
      }
      if best.Some? {
        assert IsCurrent(enrollments, id, best.value);
        return Some(enrollments[best.value]);
      }
      return None;
    }

    /** Mark a challenge and its invitation used. */
    method SpendChallenge(challenge: string, invitation: Digest<string>, now: int)
      requires challenge in challenges && invitation in invitations
      modifies this
      ensures View() == Spend(old(View()), challenge, invitation, now)
    {
      challenges := challenges[challenge := challenges[challenge].(usedAt := Some(now))];
      invitations := invitations[invitation := invitations[invitation].(usedAt := Some(now))];
    }

    /** Purge what no fresh request can repeat, then insert unless present. */
    method SpendNonce(t: Trustee, scope: Scope, requestId: string, now: int) returns (spent: bool)
      modifies this`nonces
      ensures
        Transactions.SpendNonce(t, old(nonces), RequestKey(scope, requestId), now)
        == if spent then Ok(nonces) else Err(InvalidRequest)
    {
      var key := RequestKey(scope, requestId);
      nonces := Purged(nonces, now - 2 * t.limits.skewSecs);
      spent := key !in nonces;
      if spent {
        nonces := nonces[key := now];
      }
    }

    /** What the holder is told of every session of an enrollment. */
    method Notices(key: EnrollmentKey, now: int) returns (r: Reply<map<string, Notice>>)
      ensures
        var listed := SessionsOf(sessions, key);
        r == if exists s :: s in listed
                  && !(Formattable(sessions[s].cooldownEndsAt) && Formattable(sessions[s].expiresAt))
             then Err(TemporarilyUnavailable)
             else Ok(map s | s in listed :: NoticeOf(sessions[s], now))
    {
      hide NoticeOf, Formattable;
      var listed := SessionsOf(sessions, key);
      var unread := listed;
      var notices: map<string, Notice> := map[];
      while unread != {}
        invariant unread <= listed
        invariant notices == map s | s in listed - unread :: NoticeOf(sessions[s], now)
        invariant forall s :: s in listed - unread ==>
                    Formattable(sessions[s].cooldownEndsAt) && Formattable(sessions[s].expiresAt)
        decreases unread
      {
        var s :| s in unread;
        if !Formattable(sessions[s].cooldownEndsAt) || !Formattable(sessions[s].expiresAt) {
          return Err(TemporarilyUnavailable);
        }
        notices := notices[s := NoticeOf(sessions[s], now)];
        unread := unread - {s};
      }
      assert listed - unread == listed;
      return Ok(notices);
    }

    method RecordOutcome(scope: Scope, signed: Signed, oldState: StateName, newState: StateName, now: int)
      modifies this
      ensures
        var row := OutcomeRow(signed.digest, signed.operation, oldState, newState, now);
        View() == old(View()).(outcomes := old(outcomes)[RequestKey(scope, signed.requestId) := row])
    {
      outcomes := outcomes[RequestKey(scope, signed.requestId) :=
                             OutcomeRow(signed.digest, signed.operation, oldState, newState, now)];
    }

    /** Spend an attempt on a new session. */
    method Attempt(session: Session, row: EnrollmentRow, admission: Admission, now: int)
      requires row.attemptsUsed < row.enrollment.policy.maximumAttempts
      modifies this
      ensures View() == old(View()).(
                enrollments := old(enrollments)[row.Key() := row.(attemptsUsed := row.attemptsUsed + 1)],
                sessions := old(sessions)[session.sessionId := NewSession(session, row, admission, now)])
    {
      enrollments := enrollments[row.Key() := row.(attemptsUsed := row.attemptsUsed + 1)];
      sessions := sessions[session.sessionId := NewSession(session, row, admission, now)];
    }

    /** Revoke or close an enrollment: keep the bindings, delete the custody,
        and record the outcome. */
    method End(signed: Signed, row: EnrollmentRow, now: int)
      modifies this
      ensures
        var after := row.(status := EndedStatus(signed.operation, row.status), sealedEnvelope := None,
                          protectedArtifact := None);
        var expiresAt := row.enrollment.expiresAt;
        View() == old(View()).(
          enrollments := old(enrollments)[row.Key() := after],
          outcomes := old(outcomes)[RequestKey(row.Scope(), signed.requestId) :=
                                      OutcomeRow(signed.digest, signed.operation,
                                                 EnrollmentName(row.status, expiresAt, now),
                                                 EnrollmentName(after.status, expiresAt, now), now)])
    {
      var status := if signed.operation.CloseEnrollment? || row.status.EClosed? then EClosed else ERevoked;
      var tombstone := row.(status := status, sealedEnvelope := None, protectedArtifact := None);
      enrollments := enrollments[row.Key() := tombstone];
      var expiresAt := row.enrollment.expiresAt;
      RecordOutcome(row.Scope(), signed, EnrollmentName(row.status, expiresAt, now),
                    EnrollmentName(status, expiresAt, now), now);
    }
  }

  /** A trustee's store: committed tables and the operations on them. */
  class Store {
    const committed: TableSet

    function View(): Database
      reads committed
    {
      committed.View()
    }

    constructor ()
      ensures fresh(committed) && View() == EMPTY
    {
      committed := new TableSet.Create();
    }

    /** The write transaction every operation runs in: a working copy, unless
        the clock is behind the highest time already recorded. */
    method Begin(now: int) returns (tx: TableSet?)
      ensures tx == null <==> now < View().highWater
      ensures tx != null ==> fresh(tx) && tx.View() == View().(highWater := now)
    {
      tx := new TableSet.Copy(committed);
      if now < tx.highWater {
        return null;
      }
      tx.highWater := now;
    }

    method Commit(tx: TableSet)
      modifies committed
      ensures View() == old(tx.View())
    {
      committed.highWater := tx.highWater;
      committed.invitations, committed.challenges := tx.invitations, tx.challenges;
      committed.enrollments, committed.sessions := tx.enrollments, tx.sessions;
      committed.nonces, committed.outcomes := tx.nonces, tx.outcomes;
    }

    // ---------------------------------------------------------------------
    // Invitations and enrollment

    method CreateInvitation(t: Trustee, lifetime: int, random: Random, now: int) returns (r: Reply<Answer>)
      modifies committed
      ensures
        var spec := Transactions.CreateInvitation(old(View()), lifetime, random, now);
        View() == spec.db && r == Respond(t, View(), spec.pending)
    {
      if random.id.None? {
        return Err(TemporarilyUnavailable);
      }
      var tx := Begin(now);
      if tx == null {
        return Err(TemporarilyUnavailable);
      }
      var digest := Sha256(random.id.value);
      // The digest is the primary key: a repeat fails the insert.
      if digest in tx.invitations {
        return Err(TemporarilyUnavailable);
      }
      tx.invitations := tx.invitations[digest := InvitationRow(now + lifetime, None)];
      Commit(tx);
      return Ok(InvitationCode(random.id.value));
    }

    method IssueChallenge(t: Trustee, version: nat, componentId: string, code: string, random: Random, now: int)
      returns (r: Reply<Answer>)
      modifies committed
      ensures
        var spec := Transactions.IssueChallenge(t, old(View()), version, componentId, code, random, now);
        View() == spec.db && r == Respond(t, View(), spec.pending)
    {
      if version != 1 || componentId != t.componentId || !IsHex32(code) {
        return Err(InvalidRequest);
      }
      var invitation := Sha256(code);
      if random.id.None? {
        return Err(TemporarilyUnavailable);
      }
      var challenge := random.id.value;
      var expiresAt := now + CHALLENGE_LIFETIME_SECS;
      var tx := Begin(now);
      if tx == null {
        return Err(TemporarilyUnavailable);
      }
      // Unknown, used, expired and exhausted invitations look the same.
      if !InvitationOpen(tx.invitations, invitation, now)
         || |OpenChallenges(tx.challenges, invitation, now)| >= MAX_OPEN_CHALLENGES
      {
        return Err(InvalidRequest);
      }
      if challenge in tx.challenges {
        return Err(TemporarilyUnavailable);
      }
      tx.challenges := tx.challenges[challenge := ChallengeRow(invitation, expiresAt, None)];
      Commit(tx);
      assert [expiresAt][0] == expiresAt;
      if !Formattable(expiresAt) {
        return Err(TemporarilyUnavailable);
      }
      return Ok(ChallengeIssued(challenge, t.componentId, expiresAt, t.KeyId()));
    }

    method Enroll(t: Trustee, request: EnrollRequest, now: int) returns (r: Reply<Answer>)
      requires Slip39.IsWordlist(t.wordlist) && UniqueChallenges(View().enrollments)
      modifies committed
      ensures
        var spec := Transactions.Enroll(t, old(View()), request, now);
        View() == spec.db && r == Respond(t, View(), spec.pending)
    {
      hide Accepted, CheckArtifact, EnrollmentAnswer, Redeemable, Current, ByChallenge, UniqueChallenges, NewEnrollment;
      if request.sealedEnvelope.None? || request.version != 1 {
        return Err(InvalidRequest);
      }
      var sealed, artifact := request.sealedEnvelope.value, request.protectedArtifact;
      var challenge := request.context.challenge;
      var tx := Begin(now);
      if tx == null {
        return Err(TemporarilyUnavailable);
      }
      // The challenge is the request ID: a retry gets the recorded outcome.
      var recorded := tx.FindByChallenge(challenge);
      if recorded.Some? {
        if recorded.value.requestDigest != Sha256(request) {
          return Err(RequestConflict);
        }
        // A tombstone never answers as live custody.
        if recorded.value.status.ERevoked? || recorded.value.status.EClosed? {
          return Err(EnrollmentRevoked);
        }
      } else {
        var _ :- TakeCustody(t, request, now, tx);
      }
      r := EnrollmentReceipt(t, challenge, sealed, artifact);
    }

    /** Custody of a new enrollment, committed with its challenge spent. */
    method TakeCustody(t: Trustee, request: EnrollRequest, now: int, tx: TableSet) returns (r: Reply<()>)
      requires Slip39.IsWordlist(t.wordlist) && UniqueChallenges(View().enrollments)
      requires request.sealedEnvelope.Some? && request.version == 1 && View().highWater <= now
      requires tx != committed && tx.View() == View().(highWater := now)
      requires ByChallenge(View().enrollments, request.context.challenge).None?
      modifies committed, tx
      ensures
        var spec := Transactions.Enroll(t, old(View()), request, now);
        && View() == spec.db && UniqueChallenges(View().enrollments)
        && spec.pending == (match r
                            case Err(code) => Failed(code)
                            case Ok(_) => Pending.EnrollmentReceipt(request.context.challenge,
                                                                    request.sealedEnvelope.value,
                                                                    request.protectedArtifact))
    {
      hide Accepted, CheckArtifact, Redeemable, Current, ByChallenge, UniqueChallenges, NewEnrollment;
      var context := request.context;
      var challenge := context.challenge;
      // Only a challenge this trustee issued, unexpired and unused, for an
      // invitation still open.
      RedeemableKnown(View(), challenge, now);
      var invitation := Redeemable(tx.View(), challenge, now);
      if invitation.None? || request.trusteeKeyId != t.KeyId() {
        return Err(InvalidEnrollment);
      }
      var enrollment :- AcceptEnrollment(t, context, request.sealedEnvelope.value, now);
      var _ :- CheckArtifact(t, enrollment, request.protectedArtifact);
      var existing := tx.LoadCurrentEnrollment(context.enrollmentId);
      if existing.Some? {
        // A known ID's state is told only to the key that holds it; any other
        // signer spends the invitation, as enrolling would.
        if existing.value.enrollment.authorizationKey != enrollment.authorizationKey {
          tx.SpendChallenge(challenge, invitation.value, now);
          Commit(tx);
          return Err(InvalidEnrollment);
        }
        return Err(if existing.value.status.ERevoked? || existing.value.status.EClosed? then EnrollmentRevoked
                   else if context.sequence <= existing.value.enrollment.context.sequence then StaleEnrollmentSequence
                   else InvalidEnrollment);
      }
      var key := EnrollmentKey(context.enrollmentId, context.sequence);
      NewStaysUnique(tx.enrollments, key, request, enrollment, now);
      tx.enrollments := tx.enrollments[key := NewEnrollment(request, enrollment, now)];
      tx.SpendChallenge(challenge, invitation.value, now);
      Commit(tx);
      return Ok(());
    }

    /** Read a committed enrollment back, confirm it holds exactly the bytes
        received, and only then sign its receipt. */
    method EnrollmentReceipt(t: Trustee, challenge: string, sealed: SealedEnvelope, artifact: Artifact)
      returns (r: Reply<Answer>)
      requires UniqueChallenges(View().enrollments)
      ensures r == EnrollmentAnswer(t, View(), challenge, sealed, artifact)
    {
      var found := committed.FindByChallenge(challenge);
      if found.None? {
        return Err(TemporarilyUnavailable);
      }
      var row := found.value;
      if row.sealedEnvelope != Some(sealed) || row.protectedArtifact != Some(artifact) {
        return Err(TemporarilyUnavailable);
      }
      var context := row.enrollment.context;
      var receipt := About(t.componentId, context, Operation.Enroll, challenge, NoneYet, Active, row.storedAt,
                           row.enrollment.expiresAt);
      receipt := receipt.(artifactId := Some(context.artifactId), artifactDigest := Some(context.artifactDigest));
      receipt := receipt.(slot := Some(context.slot), sealedContributionDigest := Some(Sha256(sealed)));
      r := Transactions.Sealed(t, receipt, [row.storedAt, row.enrollment.expiresAt]);
    }

    /** The holder's poll: the enrollment's state and every session of it. */
    method ReadEnrollment(t: Trustee, signed: Signed, now: int) returns (r: Reply<Answer>)
      modifies committed
      ensures
        var spec := Transactions.ReadEnrollment(t, old(View()), signed, now);
        View() == spec.db && r == Respond(t, View(), spec.pending)
    {
      hide Current, NoticeOf, Transactions.SpendNonce, SignedBy, Fresh;
      var tx := Begin(now);
      if tx == null {
        return Err(TemporarilyUnavailable);
      }
      var current := tx.LoadCurrentEnrollment(signed.target);
      if current.None? {
        return Err(InvalidRequest);
      }
      var row := current.value;
      if !SignedBy(signed, row.enrollment.authorizationKey) || !Fresh(t, signed, now) {
        return Err(InvalidRequest);
      }
      var spent := tx.SpendNonce(t, row.Scope(), signed.requestId, now);
      if !spent {
        return Err(InvalidRequest);
      }
      var notices :- tx.Notices(row.Key(), now);
      Commit(tx);
      var expiresAt := row.enrollment.expiresAt;
      var state := EnrollmentName(row.status, expiresAt, now);
      var receipt := About(t.componentId, row.enrollment.context, signed.operation, signed.requestId, state, state, now,
                           expiresAt);
      receipt := receipt.(notices := Some(notices));
      r := Transactions.Sealed(t, receipt, [now, expiresAt]);
    }

    // ---------------------------------------------------------------------
    // Recovery

    method BeginRecovery(t: Trustee, version: nat, document: SessionDocument, now: int) returns (r: Reply<Answer>)
      modifies committed
      ensures
        var spec := Transactions.BeginRecovery(t, old(View()), version, document, now);
        View() == spec.db && r == Respond(t, View(), spec.pending)
    {
      hide Current, VerifySession, Session.Binds, Admit, NewSession, SessionAnswer;
      if version != 1 {
        return Err(InvalidRequest);
      }
      // Verified before any lookup, so the answer cannot reveal an enrollment.
      var session :- VerifySession(document);
      var id := session.sessionId;
      var tx := Begin(now);
      if tx == null {
        return Err(TemporarilyUnavailable);
      }
      // The session ID is the request ID: a retry gets the recorded outcome
      // and spends no attempt.
      if id in tx.sessions {
        if tx.sessions[id].request != session.canonical {
          return Err(RequestConflict);
        }
        r := SessionReceipt(t, id);
        return;
      }
      var current := tx.LoadCurrentEnrollment(session.enrollmentId);
      if current.None? || !session.Binds(current.value.enrollment.context) {
        return Err(InvalidRequest);
      }
      var row := current.value;
      var admission :- Admit(row.State(), row.enrollment.policy, row.attemptsUsed, session.requestedAt,
                             session.expiresAt, now, t.limits.skewSecs);
      AdmissionBounds(row.State(), row.enrollment.policy, row.attemptsUsed, session.requestedAt, session.expiresAt, now,
                      t.limits.skewSecs);
      // From here the request is an attempt, whether the factor holds or not.
      tx.Attempt(session, row, admission, now);
      Commit(tx);
      r := SessionReceipt(t, id);
    }

    /** The recorded outcome of `begin-recovery`, rebuilt from its row. */
    method SessionReceipt(t: Trustee, id: string) returns (r: Reply<Answer>)
      ensures r == SessionAnswer(t, View(), id)
    {
      if id !in committed.sessions || committed.sessions[id].key !in committed.enrollments {
        return Err(TemporarilyUnavailable);
      }
      var session := committed.sessions[id];
      var refused := session.status == SRefused;
      var enrollment := committed.enrollments[session.key].enrollment;
      var receipt := SessionAbout(t, session, enrollment, Operation.BeginRecovery, id, NoneYet,
                                  if refused then Refused else CoolingDown, session.createdAt);
      receipt := receipt.(reason := if refused then SessionReason(session.status) else None);
      receipt := receipt.(remainingAttempts := Some(session.remainingAttempts),
                          evidenceDigest := Some(Sha256(session.request)));
      r := Transactions.Sealed(t, receipt, [session.expiresAt, session.cooldownEndsAt, session.createdAt]);
    }

    /** The candidate's poll: the first one after the release predicate holds
        seals, stores and returns the contribution; later ones resend it. */
    method ReadRecovery(t: Trustee, signed: Signed, random: Random, now: int) returns (r: Reply<Answer>)
      modifies committed
      ensures
        var spec := Transactions.ReadRecovery(t, old(View()), signed, random, now);
        View() == spec.db && r == Respond(t, View(), spec.pending)
    {
      hide Transactions.SpendNonce, SignedBy, Fresh, MayRelease, Contribute, VerifySession, PollReceipt;
      var id := signed.target;
      var floor := committed.highWater;
      var tx := Begin(now);
      if tx == null {
        return Err(TemporarilyUnavailable);
      }
      if id !in tx.sessions {
        return Err(InvalidRequest);
      }
      var session := tx.sessions[id];
      if !SignedBy(signed, session.proofKey) || !Fresh(t, signed, now) {
        return Err(InvalidRequest);
      }
      var spent := tx.SpendNonce(t, SessionScope(id), signed.requestId, now);
      if !spent {
        return Err(InvalidRequest);
      }
      if session.key !in tx.enrollments {
        return Err(TemporarilyUnavailable);
      }
      var row := tx.enrollments[session.key];
      var contribution: Option<Contribution> := None;
      var status := session.status;
      var release := MayRelease(row.State(), session.State(), now, floor);
      match release {
        case Ok(Emit) =>
          if row.sealedEnvelope.None? {
            return Err(TemporarilyUnavailable);
          }
          var verified := VerifySession(session.request);
          if verified.Err? {
            return Err(TemporarilyUnavailable);
          }
          var emitted :- Contribute(t, row.enrollment, row.sealedEnvelope.value, verified.value, now, random.sealing);
          contribution := Some(emitted);
          tx.sessions := tx.sessions[id := session.(status := SReleased, contribution := contribution)];
        case Ok(Resend) =>
          contribution := session.contribution;
        case Err(code) =>
          // Not releasable: report the state and hand out nothing.
          if code !in {RecoveryCoolingDown, RecoveryVetoed, RecoveryRefused, RecoveryExpired} {
            return Err(code);
          }
      }
      assert tx.sessions == old(View()).sessions[id := Polled(session, release, contribution)];
      Commit(tx);
      var after := Polled(session, release, contribution);
      var receipt := PollReceipt(t, signed, session, after, row.enrollment, contribution, now);
      r := Transactions.Sealed(t, receipt, [session.expiresAt, session.cooldownEndsAt, now]);
    }

    /** Candidate cancellation (proof key) or holder veto (authorization key). */
    method CancelRecovery(t: Trustee, signed: Signed, now: int) returns (r: Reply<Answer>)
      modifies committed
      ensures
        var spec := Transactions.CancelRecovery(t, old(View()), signed, now);
        View() == spec.db && r == Respond(t, View(), spec.pending)
    {
      hide SignedBy, Fresh, OutcomeAnswer, SessionName;
      var id := signed.target;
      if signed.party != Some(Holder) && signed.party != Some(Candidate) {
        return Err(InvalidRequest);
      }
      var byHolder := signed.party == Some(Holder);
      var scope := SessionScope(id);
      var tx := Begin(now);
      if tx == null {
        return Err(TemporarilyUnavailable);
      }
      if id !in tx.sessions {
        return Err(InvalidRequest);
      }
      var session := tx.sessions[id];
      if session.key !in tx.enrollments {
        return Err(TemporarilyUnavailable);
      }
      var key := if byHolder then tx.enrollments[session.key].enrollment.authorizationKey else session.proofKey;
      if !SignedBy(signed, key) {
        return Err(InvalidRequest);
      }
      if RequestKey(scope, signed.requestId) in tx.outcomes {
        r := ReplayedOutcome(t, scope, signed, tx.outcomes[RequestKey(scope, signed.requestId)].requestDigest);
        return;
      }
      if !Fresh(t, signed, now) {
        return Err(InvalidRequest);
      }
      var live := session.status in {SCoolingDown, SReleased} && now < session.expiresAt;
      var status := session.status;
      if live {
        status := if byHolder then SVetoed else SCancelled;
      }
      var after := session.(status := status);
      tx.sessions := tx.sessions[id := after];
      tx.RecordOutcome(scope, signed, session.Name(now), after.Name(now), now);
      Commit(tx);
      r := OutcomeReceipt(t, scope, signed.requestId);
    }

    /** Revoke or close: a tombstone that keeps the bindings and deletes the
        custody. */
    method EndEnrollment(t: Trustee, signed: Signed, now: int) returns (r: Reply<Answer>)
      modifies committed
      ensures
        var spec := Transactions.EndEnrollment(t, old(View()), signed, now);
        View() == spec.db && r == Respond(t, View(), spec.pending)
    {
      hide SignedBy, Fresh, OutcomeAnswer, EnrollmentName, Current, EndedStatus;
      var tx := Begin(now);
      if tx == null {
        return Err(TemporarilyUnavailable);
      }
      var current := tx.LoadCurrentEnrollment(signed.target);
      if current.None? {
        return Err(InvalidRequest);
      }
      var row := current.value;
      var scope := row.Scope();
      if !SignedBy(signed, row.enrollment.authorizationKey) {
        return Err(InvalidRequest);
      }
      var outcome := RequestKey(scope, signed.requestId);
      if outcome in tx.outcomes {
        r := ReplayedOutcome(t, scope, signed, tx.outcomes[outcome].requestDigest);
        return;
      }
      if !Fresh(t, signed, now) {
        return Err(InvalidRequest);
      }
      tx.End(signed, row, now);
      Commit(tx);
      r := OutcomeReceipt(t, scope, signed.requestId);
    }

    /** An identical retry gets the recorded receipt; a changed body under the
        same request ID is a conflict. */
    method ReplayedOutcome(t: Trustee, scope: Scope, signed: Signed, recorded: Digest<SignedRequest>)
      returns (r: Reply<Answer>)
      ensures r == if recorded != signed.digest then Err(RequestConflict)
                   else OutcomeAnswer(t, View(), RequestKey(scope, signed.requestId))
    {
      if recorded != signed.digest {
        return Err(RequestConflict);
      }
      r := OutcomeReceipt(t, scope, signed.requestId);
    }

    /** The receipt of a recorded state change, rebuilt from its outcome row. */
    method OutcomeReceipt(t: Trustee, scope: Scope, requestId: string) returns (r: Reply<Answer>)
      ensures r == OutcomeAnswer(t, View(), RequestKey(scope, requestId))
    {
      var key := RequestKey(scope, requestId);
      if key !in committed.outcomes {
        return Err(TemporarilyUnavailable);
      }
      var outcome := committed.outcomes[key];
      match scope {
        case SessionScope(id) =>
          if id !in committed.sessions || committed.sessions[id].key !in committed.enrollments {
            return Err(TemporarilyUnavailable);
          }
          var session := committed.sessions[id];
          var receipt := SessionAbout(t, session, committed.enrollments[session.key].enrollment, outcome.operation,
                                      requestId, outcome.oldState, outcome.newState, outcome.recordedAt);
          // Terminal once recorded, so a retry signs the same reason.
          receipt := receipt.(reason := SessionReason(session.status));
          r := Transactions.Sealed(t, receipt, [session.expiresAt, session.cooldownEndsAt, outcome.recordedAt]);
        case EnrollmentScope(k) =>
          if k !in committed.enrollments {
            return Err(TemporarilyUnavailable);
          }
          var enrollment := committed.enrollments[k].enrollment;
          var receipt := About(t.componentId, enrollment.context, outcome.operation, requestId, outcome.oldState,
                               outcome.newState, outcome.recordedAt, enrollment.expiresAt);
          r := Transactions.Sealed(t, receipt, [enrollment.expiresAt, outcome.recordedAt]);
      }
    }

    // ---------------------------------------------------------------------
    // Dispatch

    /** Serve one request of the trustee endpoint. */
    method Handle(t: Trustee, request: Request, random: Random, now: int) returns (r: Reply<Answer>)
      requires Slip39.IsWordlist(t.wordlist) && Valid(t, View()) && Formattable(now)
      modifies committed
      ensures
        var spec := Act(t, old(View()), Serve(request), random, now);
        View() == spec.db && r == Respond(t, View(), spec.pending)
      ensures Keeps(t, old(View()), View())
    {
      hide Valid, Evolves, Transactions.IssueChallenge, Transactions.Enroll, Transactions.BeginRecovery, Respond;
      hide Transactions.ReadEnrollment, Transactions.ReadRecovery, Transactions.CancelRecovery, UniqueChallenges;
      hide Transactions.EndEnrollment, ParseSigned;
      ActKeeps(t, View(), Serve(request), random, now);
      RefusedAnswer(t, View());
      match request {
        case ChallengeCall(version, componentId, code) =>
          r := IssueChallenge(t, version, componentId, code, random, now);
        case EnrollCall(enroll) =>
          ChallengesUnique(t, View());
          r := Enroll(t, enroll, now);
        case BeginCall(version, session) => r := BeginRecovery(t, version, session, now);
        case SignedCall(body) =>
          var signed := ParseSigned(body, t.componentId);
          if signed.None? {
            return Err(InvalidRequest);
          }
          match signed.value.operation {
            case ReadEnrollment => r := ReadEnrollment(t, signed.value, now);
            case ReadRecovery => r := ReadRecovery(t, signed.value, random, now);
            case CancelRecovery => r := CancelRecovery(t, signed.value, now);
            case RevokeEnrollment | CloseEnrollment => r := EndEnrollment(t, signed.value, now);
            case _ => return Err(InvalidRequest);
          }
        case OtherCall(BootstrapRecovery) => return Err(BootstrapUnavailable);
        case OtherCall(ExportEnrollment) => return Err(ExportUnavailable);
        case _ => return Err(InvalidRequest);
      }
    }
  }

  lemma RefusedAnswer(t: Trustee, db: Database)
    ensures forall code :: Respond(t, db, Failed(code)) == Err(code)
  {
  }

  lemma ChallengesUnique(t: Trustee, db: Database)
    requires Valid(t, db)
    ensures UniqueChallenges(db.enrollments)
  {
    hide EnrollmentOk, InvitationsOk, FewOpen, SessionsOk, AttemptsOk, OutcomesOk, PastOk;
  }
}
