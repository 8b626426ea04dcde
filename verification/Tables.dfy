/** The seven tables of the trustee's database, and the queries the
    operations share (`src/store.rs`). */
module Tables {
  import opened Basics
  import opened Crypto
  import opened Wire
  import opened State
  import opened Trustee

  const CHALLENGE_LIFETIME_SECS: int := 15 * 60
  const MAX_OPEN_CHALLENGES: nat := 4

  datatype InvitationRow = InvitationRow(expiresAt: int, usedAt: Option<int>)

  datatype ChallengeRow = ChallengeRow(invitation: Digest<string>, expiresAt: int, usedAt: Option<int>)

  datatype EnrollmentKey = EnrollmentKey(id: string, sequence: nat)

  datatype EnrollmentRow = EnrollmentRow(
    challenge: string,
    requestDigest: Digest<EnrollRequest>,
    enrollment: Enrollment,
    status: EnrollmentStatus,
    attemptsUsed: nat,
    storedAt: int,
    sealedEnvelope: Option<SealedEnvelope>,
    protectedArtifact: Option<Artifact>)
  {
    function State(): EnrollmentState {
      EnrollmentState(status, enrollment.context.sequence, enrollment.expiresAt)
    }

    function Key(): EnrollmentKey {
      EnrollmentKey(enrollment.context.enrollmentId, enrollment.context.sequence)
    }

    /** The holder's scope: this enrollment sequence. */
    function Scope(): Scope {
      EnrollmentScope(Key())
    }
  }

  datatype SessionRow = SessionRow(
    sessionId: string,
    key: EnrollmentKey,
    status: SessionStatus,
    request: SessionDocument,
    proofKey: PublicKey,
    destinationKeysDigest: Digest<Destination>,
    cooldownEndsAt: int,
    expiresAt: int,
    remainingAttempts: nat,
    createdAt: int,
    contribution: Option<Contribution>)
  {
    function State(): SessionState {
      SessionState(status, key.sequence, cooldownEndsAt, expiresAt)
    }

    function Name(now: int): StateName {
      SessionName(status, cooldownEndsAt, expiresAt, now)
    }
  }

  /** What a signed request acts on; it namespaces nonces and outcomes. */
  datatype Scope = EnrollmentScope(key: EnrollmentKey) | SessionScope(sessionId: string)

  /** The primary key of the nonce and outcome tables. */
  datatype RequestKey = RequestKey(scope: Scope, requestId: string)

  datatype OutcomeRow = OutcomeRow(
    requestDigest: Digest<SignedRequest>,
    operation: Operation,
    oldState: StateName,
    newState: StateName,
    recordedAt: int)

  datatype Database = Database(
    highWater: int,
    invitations: map<Digest<string>, InvitationRow>,
    challenges: map<string, ChallengeRow>,
    enrollments: map<EnrollmentKey, EnrollmentRow>,
    sessions: map<string, SessionRow>,
    nonces: map<RequestKey, int>,
    outcomes: map<RequestKey, OutcomeRow>)

  /** A database as its first migration leaves it. */
  const EMPTY := Database(0, map[], map[], map[], map[], map[], map[])

  // -------------------------------------------------------------------------
  // Queries

  /** `WHERE challenge = ?` on the unique column. */
  ghost function ByChallenge(
    enrollments: map<EnrollmentKey, EnrollmentRow>, challenge: string): (row: Option<EnrollmentRow>)
    ensures row.Some? ==> row.value in enrollments.Values && row.value.challenge == challenge
    ensures row.None? ==> forall k :: k in enrollments ==> enrollments[k].challenge != challenge
  {
    if k :| k in enrollments && enrollments[k].challenge == challenge then Some(enrollments[k]) else None
  }

  ghost predicate IsCurrent(enrollments: map<EnrollmentKey, EnrollmentRow>, id: string, k: EnrollmentKey) {
    && k in enrollments && k.id == id
    && forall other :: other in enrollments && other.id == id ==> other.sequence <= k.sequence
  }

  /** `load_current_enrollment`: the highest sequence of an ID. */
  ghost function Current(enrollments: map<EnrollmentKey, EnrollmentRow>, id: string): (row: Option<EnrollmentRow>)
    ensures row.Some? ==> exists k :: IsCurrent(enrollments, id, k) && row.value == enrollments[k]
    ensures row.None? ==> forall k :: k in enrollments ==> !IsCurrent(enrollments, id, k)
  {
    if k :| IsCurrent(enrollments, id, k) then Some(enrollments[k]) else None
  }

  predicate IsOpen(row: ChallengeRow, invitation: Digest<string>, now: int) {
    row.invitation == invitation && row.usedAt.None? && row.expiresAt > now
  }

  /** The unused, unexpired challenges of an invitation. */
  function OpenChallenges(challenges: map<string, ChallengeRow>, invitation: Digest<string>, now: int): set<string> {
    set c | c in challenges && IsOpen(challenges[c], invitation, now)
  }

  predicate InvitationOpen(invitations: map<Digest<string>, InvitationRow>, invitation: Digest<string>, now: int) {
    invitation in invitations && invitations[invitation].usedAt.None? && invitations[invitation].expiresAt > now
  }

  /** The open invitation behind an open challenge. */
  function Redeemable(db: Database, challenge: string, now: int): Option<Digest<string>> {
    if challenge in db.challenges
       && db.challenges[challenge].usedAt.None? && db.challenges[challenge].expiresAt > now
       && InvitationOpen(db.invitations, db.challenges[challenge].invitation, now)
    then Some(db.challenges[challenge].invitation)
    else None
  }

  /** `spend_challenge`: mark a challenge and its invitation used. */
  function Spend(db: Database, challenge: string, invitation: Digest<string>, now: int): Database
    requires challenge in db.challenges && invitation in db.invitations
  {
    db.(challenges := db.challenges[challenge := db.challenges[challenge].(usedAt := Some(now))],
        invitations := db.invitations[invitation := db.invitations[invitation].(usedAt := Some(now))])
  }

  function SessionsOf(sessions: map<string, SessionRow>, key: EnrollmentKey): set<string> {
    set s | s in sessions && sessions[s].key == key
  }

  /** `DELETE FROM nonces WHERE seen_at < ?`. */
  function Purged(nonces: map<RequestKey, int>, before: int): map<RequestKey, int> {
    map k | k in nonces && nonces[k] >= before :: nonces[k]
  }
}
