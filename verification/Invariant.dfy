/** What holds in every reachable state of the store, and how states evolve. */
module Invariant {
  import opened Basics
  import opened Crypto
  import opened Wire
  import opened State
  import opened Trustee
  import opened Tables

  // -------------------------------------------------------------------------
  // Invitations and challenges

  ghost predicate Used(challenges: map<string, ChallengeRow>, c: string) {
    c in challenges && challenges[c].usedAt.Some?
  }

  /** An invitation is used exactly when one of its challenges is, and never
      by two of them. */
  ghost predicate InvitationsOk(
    invitations: map<Digest<string>, InvitationRow>, challenges: map<string, ChallengeRow>)
  {
    && (forall c :: c in challenges ==> challenges[c].invitation in invitations)
    && (forall c :: Used(challenges, c) ==> invitations[challenges[c].invitation].usedAt == challenges[c].usedAt)
    && (forall i :: i in invitations && invitations[i].usedAt.Some? ==>
          exists c :: Used(challenges, c) && challenges[c].invitation == i)
    && (forall c, d | Used(challenges, c) && Used(challenges, d)
                      && challenges[c].invitation == challenges[d].invitation :: c == d)
  }

  ghost predicate FewOpen(challenges: map<string, ChallengeRow>, now: int) {
    forall i :: |OpenChallenges(challenges, i, now)| <= MAX_OPEN_CHALLENGES
  }

  // -------------------------------------------------------------------------
  // Enrollments

  /** The request an enrollment was accepted from. */
  ghost function Source(row: EnrollmentRow): EnrollRequest
    requires row.requestDigest.Sha256?
  {
    row.requestDigest.preimage
  }

  /** The row is what acceptance made of its request, and custody is kept
      byte for byte exactly as long as the enrollment is neither revoked nor
      closed. */
  ghost predicate EnrollmentOk(t: Trustee, k: EnrollmentKey, row: EnrollmentRow) {
    && k == row.Key()
    && row.requestDigest.Sha256?
    && Source(row).sealedEnvelope.Some?
    && row.challenge == Source(row).context.challenge
    && Accepted(t, Source(row).context, Source(row).sealedEnvelope.value, row.storedAt) == Ok(row.enrollment)
    && !row.status.ESuperseded?
    && row.sealedEnvelope == (if row.status.EAccepted? then Source(row).sealedEnvelope else None)
    && row.protectedArtifact == (if row.status.EAccepted? then Some(Source(row).protectedArtifact) else None)
    && Formattable(row.storedAt)
  }

  ghost predicate EnrollmentsOk(
    t: Trustee, enrollments: map<EnrollmentKey, EnrollmentRow>, challenges: map<string, ChallengeRow>)
  {
    && (forall k :: k in enrollments ==> EnrollmentOk(t, k, enrollments[k]))
    && (forall k, l :: k in enrollments && l in enrollments && k.id == l.id ==> k == l)
    && (forall k, l | k in enrollments && l in enrollments
                      && enrollments[k].challenge == enrollments[l].challenge :: k == l)
    && (forall k :: k in enrollments ==> Used(challenges, enrollments[k].challenge))
  }

  // -------------------------------------------------------------------------
  // Sessions

  ghost predicate ContributionOk(t: Trustee, row: SessionRow, e: EnrollmentRow, s: Session, c: Contribution)
    requires e.requestDigest.Sha256? && Source(e).sealedEnvelope.Some?
  {
    var context := e.enrollment.context;
    var sealed := c.content.sealedContribution;
    && c.signature == Sign(t.signingKey, c.content)
    && c.content.sessionId == row.sessionId
    && row.cooldownEndsAt <= c.content.decidedAt < row.expiresAt
    && sealed.Sealed?
    && sealed.recipient == s.destinationKey
    && sealed.info == RecoveryInfoFor(row.sessionId, context, s.destinationKeysDigest, row.expiresAt)
    && Holds(t, context, Source(e).sealedEnvelope.value, sealed.plaintext)
  }

  /** The deadlines and attempt number fixed at admission, the factor's
      verdict, and where a contribution may be. */
  ghost predicate SessionOk(t: Trustee, id: string, row: SessionRow, e: EnrollmentRow) {
    && row.sessionId == id
    && VerifySession(row.request).Ok?
    && var s := VerifySession(row.request).value;
    && s.sessionId == id
    && s.Binds(e.enrollment.context)
    && s.canonical == row.request
    && s.proofKey == row.proofKey
    && s.destinationKeysDigest == row.destinationKeysDigest
    && s.expiresAt == row.expiresAt
    && row.key == e.Key()
    && row.cooldownEndsAt == row.createdAt + e.enrollment.policy.cooldownSecs
    && row.cooldownEndsAt < row.expiresAt <= row.createdAt + e.enrollment.policy.sessionLifetimeSecs
    && row.expiresAt <= e.enrollment.expiresAt
    && row.remainingAttempts < e.enrollment.policy.maximumAttempts
    && e.enrollment.policy.maximumAttempts <= row.remainingAttempts + e.attemptsUsed
    && !row.status.SFinalized?
    && (row.status.SRefused? <==> !FactorHolds(e.enrollment, s))
    && (row.status.SReleased? ==> row.contribution.Some?)
    && (row.contribution.Some? ==> row.status in {SReleased, SCancelled, SVetoed})
    && e.requestDigest.Sha256? && Source(e).sealedEnvelope.Some?
    && (row.contribution.Some? ==> ContributionOk(t, row, e, s, row.contribution.value))
    && Formattable(row.createdAt) && Formattable(row.cooldownEndsAt) && Formattable(row.expiresAt)
  }

  ghost predicate SessionsOk(
    t: Trustee, sessions: map<string, SessionRow>, enrollments: map<EnrollmentKey, EnrollmentRow>)
  {
    && (forall id :: id in sessions ==>
          sessions[id].key in enrollments && SessionOk(t, id, sessions[id], enrollments[sessions[id].key]))
    && (forall i, j | i in sessions && j in sessions && sessions[i].key == sessions[j].key
                      && sessions[i].remainingAttempts == sessions[j].remainingAttempts :: i == j)
  }

  /** Attempts are counted exactly, and never beyond the enrolled maximum. */
  ghost predicate AttemptsOk(sessions: map<string, SessionRow>, enrollments: map<EnrollmentKey, EnrollmentRow>) {
    forall k :: k in enrollments ==>
      && enrollments[k].attemptsUsed == |SessionsOf(sessions, k)|
      && enrollments[k].attemptsUsed <= enrollments[k].enrollment.policy.maximumAttempts
  }

  // -------------------------------------------------------------------------
  // Outcomes and times

  predicate Terminal(status: SessionStatus) {
    status in {SCancelled, SVetoed, SRefused, SFinalized}
  }

  /** A session that can never change again. */
  predicate Frozen(row: SessionRow, now: int) {
    Terminal(row.status) || now >= row.expiresAt
  }

  /** A recorded cancellation froze its session; a recorded ending left a
      tombstone. */
  ghost predicate OutcomeOk(
    key: RequestKey, sessions: map<string, SessionRow>, enrollments: map<EnrollmentKey, EnrollmentRow>, now: int)
  {
    match key.scope
    case SessionScope(id) => id in sessions && Frozen(sessions[id], now)
    case EnrollmentScope(k) => k in enrollments && enrollments[k].status in {ERevoked, EClosed}
  }

  ghost predicate OutcomesOk(
    outcomes: map<RequestKey, OutcomeRow>, sessions: map<string, SessionRow>,
    enrollments: map<EnrollmentKey, EnrollmentRow>, now: int)
  {
    forall o :: o in outcomes ==> OutcomeOk(o, sessions, enrollments, now) && Formattable(outcomes[o].recordedAt)
  }

  predicate Past(at: Option<int>, now: int) {
    at.Some? ==> at.value <= now
  }

  ghost predicate InvitationsPast(invitations: map<Digest<string>, InvitationRow>, now: int) {
    forall i :: i in invitations ==> Past(invitations[i].usedAt, now)
  }

  ghost predicate ChallengesPast(challenges: map<string, ChallengeRow>, now: int) {
    forall c :: c in challenges ==> Past(challenges[c].usedAt, now)
  }

  ghost predicate EnrollmentsPast(enrollments: map<EnrollmentKey, EnrollmentRow>, now: int) {
    forall k :: k in enrollments ==> enrollments[k].storedAt <= now
  }

  predicate DecidedBy(contribution: Option<Contribution>, now: int) {
    contribution.Some? ==> contribution.value.content.decidedAt <= now
  }

  ghost predicate SessionsPast(sessions: map<string, SessionRow>, now: int) {
    forall s :: s in sessions ==> sessions[s].createdAt <= now && DecidedBy(sessions[s].contribution, now)
  }

  ghost predicate NoncesPast(nonces: map<RequestKey, int>, now: int) {
    forall n :: n in nonces ==> nonces[n] <= now
  }

  ghost predicate OutcomesPast(outcomes: map<RequestKey, OutcomeRow>, now: int) {
    forall o :: o in outcomes ==> outcomes[o].recordedAt <= now
  }

  /** No event was recorded later than the clock's high-water mark. */
  ghost predicate PastOk(db: Database) {
    && InvitationsPast(db.invitations, db.highWater)
    && ChallengesPast(db.challenges, db.highWater)
    && EnrollmentsPast(db.enrollments, db.highWater)
    && SessionsPast(db.sessions, db.highWater)
    && NoncesPast(db.nonces, db.highWater)
    && OutcomesPast(db.outcomes, db.highWater)
  }

  ghost predicate Valid(t: Trustee, db: Database) {
    && InvitationsOk(db.invitations, db.challenges)
    && FewOpen(db.challenges, db.highWater)
    && EnrollmentsOk(t, db.enrollments, db.challenges)
    && SessionsOk(t, db.sessions, db.enrollments)
    && AttemptsOk(db.sessions, db.enrollments)
    && OutcomesOk(db.outcomes, db.sessions, db.enrollments, db.highWater)
    && PastOk(db)
  }

  // -------------------------------------------------------------------------
  // Evolution

  ghost predicate SpentOnce(before: Option<int>, after: Option<int>) {
    before.Some? ==> after == before
  }

  function Rank(status: EnrollmentStatus): nat {
    match status
    case EAccepted => 0
    case ESuperseded => 1
    case ERevoked => 2
    case EClosed => 3
  }

  /** A row keeps its record; its status only rises; custody is kept or
      deleted for good. */
  ghost predicate EnrollmentEvolves(r: EnrollmentRow, s: EnrollmentRow) {
    && s == r.(status := s.status, attemptsUsed := s.attemptsUsed,
               sealedEnvelope := s.sealedEnvelope, protectedArtifact := s.protectedArtifact)
    && Rank(r.status) <= Rank(s.status)
    && r.attemptsUsed <= s.attemptsUsed
    && ((s.sealedEnvelope == r.sealedEnvelope && s.protectedArtifact == r.protectedArtifact)
        || (s.sealedEnvelope.None? && s.protectedArtifact.None?))
  }

  predicate MayBecome(r: SessionStatus, s: SessionStatus) {
    || r == s
    || (r == SCoolingDown && s in {SReleased, SCancelled, SVetoed})
    || (r == SReleased && s in {SCancelled, SVetoed})
  }

  /** A session keeps what admission fixed; its status moves forward, and
      only while the session is live at a clock not yet reached before; a
      contribution, once there, is the one. */
  ghost predicate SessionEvolves(r: SessionRow, s: SessionRow, now: int) {
    && s == r.(status := s.status, contribution := s.contribution)
    && MayBecome(r.status, s.status)
    && (s != r ==> now < r.expiresAt)
    && (r.contribution.Some? ==> s.contribution == r.contribution)
  }

  ghost predicate FrozenBy(outcomes: map<RequestKey, OutcomeRow>, id: string) {
    exists requestId :: RequestKey(SessionScope(id), requestId) in outcomes
  }

  ghost predicate InvitationsEvolve(a: map<Digest<string>, InvitationRow>, b: map<Digest<string>, InvitationRow>) {
    forall i :: i in a ==>
      && i in b && SpentOnce(a[i].usedAt, b[i].usedAt)
      && b[i] == a[i].(usedAt := b[i].usedAt)
  }

  ghost predicate ChallengesEvolve(a: map<string, ChallengeRow>, b: map<string, ChallengeRow>) {
    forall c :: c in a ==>
      && c in b && SpentOnce(a[c].usedAt, b[c].usedAt)
      && b[c] == a[c].(usedAt := b[c].usedAt)
  }

  ghost predicate EnrollmentsEvolve(a: map<EnrollmentKey, EnrollmentRow>, b: map<EnrollmentKey, EnrollmentRow>) {
    forall k :: k in a ==> k in b && EnrollmentEvolves(a[k], b[k])
  }

  ghost predicate SessionsEvolve(a: map<string, SessionRow>, b: map<string, SessionRow>, now: int) {
    forall s :: s in a ==> s in b && SessionEvolves(a[s], b[s], now)
  }

  ghost predicate OutcomesKept(a: map<RequestKey, OutcomeRow>, b: map<RequestKey, OutcomeRow>) {
    forall o :: o in a ==> o in b && b[o] == a[o]
  }

  ghost predicate FrozenKept(
    outcomes: map<RequestKey, OutcomeRow>, a: map<string, SessionRow>, b: map<string, SessionRow>)
  {
    forall s :: s in a && s in b && FrozenBy(outcomes, s) ==> b[s].status == a[s].status
  }

  ghost predicate Evolves(a: Database, b: Database) {
    && a.highWater <= b.highWater
    && InvitationsEvolve(a.invitations, b.invitations)
    && ChallengesEvolve(a.challenges, b.challenges)
    && EnrollmentsEvolve(a.enrollments, b.enrollments)
    && SessionsEvolve(a.sessions, b.sessions, a.highWater)
    && OutcomesKept(a.outcomes, b.outcomes)
    && FrozenKept(a.outcomes, a.sessions, b.sessions)
  }

  lemma EvolvesReflexive(a: Database)
    ensures Evolves(a, a)
  {
  }

  lemma EvolvesTransitive(a: Database, b: Database, c: Database)
    requires Evolves(a, b) && Evolves(b, c)
    ensures Evolves(a, c)
  {
    forall s | s in a.sessions
      ensures s in c.sessions && SessionEvolves(a.sessions[s], c.sessions[s], a.highWater)
    {
      assert SessionEvolves(a.sessions[s], b.sessions[s], a.highWater);
      assert SessionEvolves(b.sessions[s], c.sessions[s], b.highWater);
    }
    forall k | k in a.enrollments
      ensures k in c.enrollments && EnrollmentEvolves(a.enrollments[k], c.enrollments[k])
    {
      assert EnrollmentEvolves(a.enrollments[k], b.enrollments[k]);
      assert EnrollmentEvolves(b.enrollments[k], c.enrollments[k]);
    }
    forall s | s in a.sessions && FrozenBy(a.outcomes, s)
      ensures c.sessions[s].status == a.sessions[s].status
    {
      var requestId :| RequestKey(SessionScope(s), requestId) in a.outcomes;
      assert RequestKey(SessionScope(s), requestId) in b.outcomes;
      assert FrozenBy(b.outcomes, s);
    }
  }

  /** One step of a run: from tables that hold the invariant to tables that
      evolved from them and hold it too. */
  ghost predicate Keeps(t: Trustee, a: Database, b: Database) {
    Valid(t, b) && Evolves(a, b)
  }
}
