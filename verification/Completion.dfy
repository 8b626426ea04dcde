/** What the system is for: from an empty database, an invited holder enrolls,
    a candidate with the factor begins, waits and polls, and gets back the
    holder's share. */
module Completion {
  import opened Basics
  import opened Crypto
  import opened Wire
  import opened State
  import opened Trustee
  import opened Tables
  import opened Transactions
  import opened RecoveryPreservation
  import opened Steps
  import opened Runs
  import opened Recovery

  /** The messages of one honest enrollment and recovery, and when each
      arrives. */
  datatype Script = Script(
    lifetime: int,
    code: string,
    challenge: string,
    request: EnrollRequest,
    document: SessionDocument,
    poll: SignedRequest,
    sealing: nat,
    invitedAt: int,
    challengedAt: int,
    enrolledAt: int,
    begunAt: int,
    polledAt: int)
  {
    function Events(t: Trustee): seq<Event> {
      [Event(Invite(lifetime), Random(Some(code), 0), invitedAt),
       Event(Serve(ChallengeCall(1, t.componentId, code)), Random(Some(challenge), 0), challengedAt),
       Event(Serve(EnrollCall(request)), Random(None, 0), enrolledAt),
       Event(Serve(BeginCall(1, document)), Random(None, 0), begunAt),
       Event(Serve(SignedCall(poll)), Random(None, sealing), polledAt)]
    }

    /** In order, and each inside what it depends on. */
    predicate Timely() {
      && 0 <= invitedAt <= challengedAt <= enrolledAt <= begunAt <= polledAt
      && Formattable(polledAt) && Formattable(challengedAt + CHALLENGE_LIFETIME_SECS)
      && enrolledAt < invitedAt + lifetime && enrolledAt < challengedAt + CHALLENGE_LIFETIME_SECS
    }

    /** The holder's request is one this trustee accepts. */
    ghost predicate Enrolls(t: Trustee, e: Enrollment) {
      && IsHex32(code) && request.context.challenge == challenge
      && request.version == 1 && request.trusteeKeyId == t.KeyId() && request.sealedEnvelope.Some?
      && Accepted(t, request.context, request.sealedEnvelope.value, enrolledAt) == Ok(e)
      && CheckArtifact(t, e, request.protectedArtifact).Ok?
    }

    /** The candidate's session binds the enrollment, presents its factor,
        asks for an admissible window, and is polled inside it. */
    ghost predicate Recovers(t: Trustee, e: Enrollment, s: Session) {
      && VerifySession(document) == Ok(s) && s.Binds(e.context) && FactorHolds(e, s)
      && Admit(EnrollmentState(EAccepted, e.context.sequence, e.expiresAt), e.policy, 0, s.requestedAt, s.expiresAt,
               begunAt, t.limits.skewSecs).Ok?
      && begunAt + e.policy.cooldownSecs <= polledAt < s.expiresAt
      && ParseSigned(poll, t.componentId).Some?
      && var signed := ParseSigned(poll, t.componentId).value;
      && signed.operation.ReadRecovery? && signed.target == s.sessionId
      && SignedBy(signed, s.proofKey) && Fresh(t, signed, polledAt)
    }
  }

  // -------------------------------------------------------------------------
  // One step at a time

  /** An open challenge, and nothing enrolled. */
  ghost predicate Challenged(db: Database, challenge: string, invitation: Digest<string>, now: int) {
    && db.enrollments == map[] && db.sessions == map[] && db.nonces == map[] && db.highWater <= now
    && Redeemable(db, challenge, now) == Some(invitation)
  }

  lemma InvitationThenChallenge(t: Trustee, script: Script)
    requires script.Timely() && IsHex32(script.code)
    ensures
      var invited := CreateInvitation(EMPTY, script.lifetime, Random(Some(script.code), 0), script.invitedAt).db;
      var issued := Transactions.IssueChallenge(t, invited, 1, t.componentId, script.code,
                                                Random(Some(script.challenge), 0), script.challengedAt).db;
      Challenged(issued, script.challenge, Sha256(script.code), script.enrolledAt)
  {
    hide IsHex32;
    var invited := CreateInvitation(EMPTY, script.lifetime, Random(Some(script.code), 0), script.invitedAt).db;
    assert OpenChallenges(invited.challenges, Sha256(script.code), script.challengedAt) == {};
  }

  lemma ThenEnrolled(t: Trustee, script: Script, db: Database, e: Enrollment)
    requires Challenged(db, script.challenge, Sha256(script.code), script.enrolledAt) && script.Enrolls(t, e)
    ensures
      var after := Transactions.Enroll(t, db, script.request, script.enrolledAt).db;
      var key := EnrollmentKey(script.request.context.enrollmentId, script.request.context.sequence);
      && after.enrollments == map[key := NewEnrollment(script.request, e, script.enrolledAt)]
      && after.sessions == map[] && after.nonces == map[] && after.highWater == script.enrolledAt
  {
    hide Accepted, CheckArtifact, Redeemable, IsHex32;
  }

  lemma ThenBegun(t: Trustee, script: Script, db: Database, k: EnrollmentKey, row: EnrollmentRow, s: Session)
    requires script.Timely() && script.Recovers(t, row.enrollment, s)
    requires db.enrollments == map[k := row] && db.sessions == map[] && db.highWater <= script.begunAt
    requires row.status == EAccepted && row.attemptsUsed == 0 && k == row.Key() && db.nonces == map[]
    ensures
      var after := Transactions.BeginRecovery(t, db, 1, script.document, script.begunAt).db;
      && after.enrollments == map[k := row.(attemptsUsed := 1)]
      && after.nonces == map[] && after.highWater == script.begunAt
      && s.sessionId in after.sessions
      && var session := after.sessions[s.sessionId];
      && session.status == SCoolingDown && session.request == script.document && session.key == k
      && session.proofKey == s.proofKey && session.sessionId == s.sessionId
      && session.cooldownEndsAt == script.begunAt + row.enrollment.policy.cooldownSecs
      && session.expiresAt == s.expiresAt
  {
    hide FactorHolds, SignedBy, Fresh, ParseSigned, VerifySession;
    CanonicalIs(script.document);
    assert IsCurrent(db.enrollments, s.enrollmentId, k);
    AdmissionBounds(row.State(), row.enrollment.policy, 0, s.requestedAt, s.expiresAt, script.begunAt,
                    t.limits.skewSecs);
  }

  lemma ThenPolled(t: Trustee, script: Script, db: Database, row: EnrollmentRow, s: Session)
    requires script.Timely() && script.Recovers(t, row.enrollment, s)
    requires s.sessionId in db.sessions && db.highWater <= script.polledAt && db.nonces == map[]
    requires row.status == EAccepted && row.sealedEnvelope.Some?
    requires s.expiresAt <= row.enrollment.expiresAt
    requires Contribute(t, row.enrollment, row.sealedEnvelope.value, s, script.polledAt, script.sealing).Ok?
    requires
      var session := db.sessions[s.sessionId];
      && session.status == SCoolingDown && session.request == script.document && session.proofKey == s.proofKey
      && session.sessionId == s.sessionId && session.key == row.Key()
      && session.key in db.enrollments && db.enrollments[session.key] == row
      && session.cooldownEndsAt == script.begunAt + row.enrollment.policy.cooldownSecs
      && session.expiresAt == s.expiresAt
    ensures
      var signed := ParseSigned(script.poll, t.componentId).value;
      var pending := Transactions.ReadRecovery(t, db, signed, Random(None, script.sealing), script.polledAt).pending;
      && Hands(pending, s.sessionId)
      && pending.answer.receipt.content.contribution
         == Some(Contribute(t, row.enrollment, row.sealedEnvelope.value, s, script.polledAt, script.sealing).value)
  {
    hide FactorHolds, SignedBy, Fresh, ParseSigned, VerifySession, Contribute, Session.Binds, Admit;
    hide Transactions.Sealed;
    var session := db.sessions[s.sessionId];
    ReleaseConditions(row.State(), session.State(), script.polledAt, db.highWater);
    var nonce := RequestKey(SessionScope(s.sessionId), ParseSigned(script.poll, t.componentId).value.requestId);
    assert SpendNonce(t, db.nonces, nonce, script.polledAt).Ok?;
    SessionTimesFit(script.document, session);
  }

  lemma SessionTimesFit(document: SessionDocument, session: SessionRow)
    requires VerifySession(document).Ok? && session.expiresAt == VerifySession(document).value.expiresAt
    ensures Formattable(session.expiresAt)
  {
    SessionFormats(document);
  }

  // -------------------------------------------------------------------------
  // The whole script

  /** The run the script's five events make of an empty database. */
  ghost function Play(t: Trustee, script: Script): (run: Run)
    ensures |run.states| == 6 && run.events == script.Events(t)
  {
    var events := script.Events(t);
    var invited := Act(t, EMPTY, events[0].action, events[0].random, events[0].now).db;
    var issued := Act(t, invited, events[1].action, events[1].random, events[1].now).db;
    var enrolled := Act(t, issued, events[2].action, events[2].random, events[2].now).db;
    var begun := Act(t, enrolled, events[3].action, events[3].random, events[3].now).db;
    var polled := Act(t, begun, events[4].action, events[4].random, events[4].now).db;
    Run([EMPTY, invited, issued, enrolled, begun, polled], events)
  }

  lemma PlayIsRun(t: Trustee, script: Script)
    requires script.Timely()
    ensures IsRun(t, Play(t, script))
  {
    hide Act;
    var run := Play(t, script);
    forall i | 0 <= i < 5
      ensures Formattable(run.events[i].now) && run.states[i + 1] == Performed(t, run, i).db
    {
      if i == 0 {
      } else if i == 1 {
      } else if i == 2 {
      } else if i == 3 {
      } else {
      }
    }
  }

  /** The last state but one, as the steps above describe it. */
  lemma PlayedUntilPoll(t: Trustee, script: Script, e: Enrollment, s: Session) returns (row: EnrollmentRow)
    requires script.Timely() && script.Enrolls(t, e) && script.Recovers(t, e, s)
    ensures row == NewEnrollment(script.request, e, script.enrolledAt).(attemptsUsed := 1)
    ensures
      var db := Play(t, script).states[4];
      && db.nonces == map[] && db.highWater == script.begunAt && s.sessionId in db.sessions
      && var session := db.sessions[s.sessionId];
      && session.status == SCoolingDown && session.request == script.document && session.proofKey == s.proofKey
      && session.sessionId == s.sessionId && session.key == row.Key()
      && session.key in db.enrollments && db.enrollments[session.key] == row
      && session.cooldownEndsAt == script.begunAt + e.policy.cooldownSecs
      && session.expiresAt == s.expiresAt
  {
    hide Transactions.Enroll, Transactions.BeginRecovery, Transactions.IssueChallenge, CreateInvitation, ActSigned;
    hide Script.Recovers, Accepted, ParseSigned, Challenged;
    AcceptedFacts(t, script.request.context, script.request.sealedEnvelope.value, script.enrolledAt);
    var run := Play(t, script);
    InvitationThenChallenge(t, script);
    ThenEnrolled(t, script, run.states[2], e);
    var first := NewEnrollment(script.request, e, script.enrolledAt);
    row := first.(attemptsUsed := 1);
    ThenBegun(t, script, run.states[3], first.Key(), first, s);
  }

  /** The promise, end to end: the last answer of the run hands out a
      contribution, and the recovering device, at any time before the session
      expires, opens it to the envelope the holder sealed at enrollment. */
  lemma RecoveryCompletes(
    t: Trustee, script: Script, e: Enrollment, s: Session, plan: Plan, envelope: ShareEnvelope, now: int)
    requires script.Timely() && script.Enrolls(t, e) && script.Recovers(t, e, s)
    requires OpenEnvelope(t, script.request.context, script.request.sealedEnvelope.value) == Ok(envelope)
    requires script.document.SessionDocument? && script.document.body.core == plan.session
    requires PublicOf(plan.destinationKey) == s.destinationKey && Describes(plan, e, envelope) && now < s.expiresAt
    ensures IsRun(t, Play(t, script))
    ensures
      var pending := Performed(t, Play(t, script), 4).pending;
      && Hands(pending, s.sessionId)
      && Opened(plan, t.componentId, PublicOf(t.signingKey), pending.answer.receipt.content.contribution.value, now)
         == Some(envelope)
  {
    var sealed := script.request.sealedEnvelope.value;
    hide Act, Script.Enrolls, Script.Recovers, Accepted, VerifySession, Contribute, Opened, OpenEnvelope, Describes;
    hide Play, Hands;
    PlayIsRun(t, script);
    var row := PlayedUntilPoll(t, script, e, s);
    Contributes(t, script, e, s);
    ThenPolled(t, script, Play(t, script).states[4], row, s);
    LastEvent(t, script, e, s);
    HonestContributionOpens(t, sealed, script.request.context, script.enrolledAt, envelope, plan, script.document,
                            script.polledAt, script.sealing, now);
  }

  lemma Contributes(t: Trustee, script: Script, e: Enrollment, s: Session)
    requires script.Timely() && script.Enrolls(t, e) && script.Recovers(t, e, s)
    ensures VerifySession(script.document) == Ok(s) && s.expiresAt <= e.expiresAt
    ensures ParseSigned(script.poll, t.componentId).Some?
    ensures Accepted(t, script.request.context, script.request.sealedEnvelope.value, script.enrolledAt) == Ok(e)
    ensures Contribute(t, e, script.request.sealedEnvelope.value, s, script.polledAt, script.sealing).Ok?
  {
    hide Accepted, VerifySession, FactorHolds, ParseSigned, SignedBy, Fresh, CheckArtifact, Contribute, Holds;
    var sealed := script.request.sealedEnvelope.value;
    AcceptedFacts(t, script.request.context, sealed, script.enrolledAt);
    var plaintext :| Holds(t, e.context, sealed, plaintext);
    ContributionDelivers(t, e, sealed, script.document, plaintext, t.hpkeKey, script.polledAt, script.sealing);
  }

  lemma LastEvent(t: Trustee, script: Script, e: Enrollment, s: Session)
    requires script.Recovers(t, e, s)
    ensures
      var signed := ParseSigned(script.poll, t.componentId).value;
      Performed(t, Play(t, script), 4)
      == Transactions.ReadRecovery(t, Play(t, script).states[4], signed, Random(None, script.sealing), script.polledAt)
  {
    hide Transactions.Enroll, Transactions.BeginRecovery, Transactions.IssueChallenge, CreateInvitation;
    hide Transactions.ReadRecovery, ParseSigned, VerifySession, Admit, SignedBy, Fresh, FactorHolds;
  }
}
