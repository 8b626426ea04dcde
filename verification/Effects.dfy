/** What one served request does to the tables, said by statuses, times,
    signatures and fields themselves: when exactly it is served, and what it
    leaves and records. */
module Effects {
  import opened Basics
  import opened Crypto
  import opened Wire
  import opened State
  import opened Trustee
  import opened Tables
  import opened Transactions
  import opened Invariant
  import opened RecoveryPreservation
  import opened Acceptance
  import ReadBack

  // -------------------------------------------------------------------------
  // Names

  /** The contract name of a session, by its status and the time. */
  predicate SessionIs(name: StateName, row: SessionRow, now: int) {
    var live := row.status in {SCoolingDown, SReleased};
    && (name == Expired <==> live && row.expiresAt <= now)
    && (name == CoolingDown <==> row.status == SCoolingDown && now < row.expiresAt && now < row.cooldownEndsAt)
    && (name == Collecting <==>
          live && now < row.expiresAt && (row.status == SReleased || row.cooldownEndsAt <= now))
    && (name == Cancelled <==> row.status in {SCancelled, SVetoed})
    && (name == Refused <==> row.status == SRefused)
    && (name == Finalized <==> row.status == SFinalized)
  }

  lemma SessionNamed(name: StateName, row: SessionRow, now: int)
    ensures name == row.Name(now) <==> SessionIs(name, row, now)
  {
  }

  /** The contract name of an enrollment, by its status and the time. */
  predicate EnrollmentIs(name: StateName, status: EnrollmentStatus, expiresAt: int, now: int) {
    && (name == Active <==> status == EAccepted && now < expiresAt)
    && (name == Expired <==> status == EAccepted && expiresAt <= now)
    && (name == Superseded <==> status == ESuperseded)
    && (name == Revoked <==> status == ERevoked)
    && (name == Closed <==> status == EClosed)
  }

  lemma EnrollmentNamed(name: StateName, status: EnrollmentStatus, expiresAt: int, now: int)
    ensures name == EnrollmentName(status, expiresAt, now) <==> EnrollmentIs(name, status, expiresAt, now)
  {
  }

  /** The reason owed for a status: for a veto, for a failed factor, none else. */
  predicate ReasonIs(reason: Option<Code>, status: SessionStatus) {
    && (reason == Some(RecoveryVetoed) <==> status == SVetoed)
    && (reason == Some(InvalidCandidateFactor) <==> status == SRefused)
    && (reason.None? <==> status !in {SVetoed, SRefused})
  }

  lemma ReasonNamed(reason: Option<Code>, status: SessionStatus)
    ensures reason == SessionReason(status) <==> ReasonIs(reason, status)
  {
  }

  // -------------------------------------------------------------------------
  // Signed requests

  /** Signed by this key, and issued within the skew. */
  predicate Genuine(signed: Signed, key: PublicKey) {
    key.PublicKey? && signed.signature == Signature.Signature(key, signed.message)
  }

  predicate Timely(t: Trustee, signed: Signed, now: int) {
    signed.issuedAt - t.limits.skewSecs <= now <= signed.issuedAt + t.limits.skewSecs
  }

  lemma GenuineIs(t: Trustee, signed: Signed, key: PublicKey, now: int)
    ensures SignedBy(signed, key) <==> Genuine(signed, key)
    ensures Fresh(t, signed, now) <==> Timely(t, signed, now)
  {
  }

  // -------------------------------------------------------------------------
  // Cancelling

  /** A live session is stopped by who signed; any other is left as it is. */
  function Stopped(row: SessionRow, party: Option<Party>, now: int): SessionRow {
    if row.status in {SCoolingDown, SReleased} && now < row.expiresAt
    then row.(status := if party == Some(Holder) then SVetoed else SCancelled)
    else row
  }

  function SessionOutcome(signed: Signed): RequestKey {
    RequestKey(SessionScope(signed.target), signed.requestId)
  }

  /** A cancellation that is neither stale nor a repeat, by the party that
      says it is: the holder's authorization key or the candidate's proof key. */
  ghost predicate MayCancel(t: Trustee, db: Database, signed: Signed, now: int) {
    var s := signed.target;
    && signed.party in {Some(Holder), Some(Candidate)} && db.highWater <= now
    && s in db.sessions && db.sessions[s].key in db.enrollments
    && Genuine(signed, if signed.party == Some(Holder)
                       then db.enrollments[db.sessions[s].key].enrollment.authorizationKey
                       else db.sessions[s].proofKey)
    && SessionOutcome(signed) !in db.outcomes && Timely(t, signed, now)
  }

  /** What it leaves: the session stopped if it was live, the outcome with the
      state before and after, and everything else alone. */
  ghost predicate Cancels(db: Database, tx: Transaction, signed: Signed, now: int) {
    var s, key := signed.target, SessionOutcome(signed);
    && s in db.sessions && key in tx.db.outcomes
    && var row := db.sessions[s];
    && var after := Stopped(row, signed.party, now);
    && tx.pending == OutcomeReceipt(key.scope, key.requestId)
    && tx.db == db.(highWater := now, sessions := db.sessions[s := after],
                    outcomes := db.outcomes[key := tx.db.outcomes[key]])
    && tx.db.outcomes[key] == OutcomeRow(signed.digest, signed.operation, tx.db.outcomes[key].oldState,
                                         tx.db.outcomes[key].newState, now)
    && SessionIs(tx.db.outcomes[key].oldState, row, now) && SessionIs(tx.db.outcomes[key].newState, after, now)
  }

  /** Served exactly when it may be; and a repeat is answered from its record. */
  lemma CancelServed(t: Trustee, db: Database, signed: Signed, now: int)
    ensures
      var tx := Transactions.CancelRecovery(t, db, signed, now);
      && (MayCancel(t, db, signed, now) ==> Cancels(db, tx, signed, now))
      && (!MayCancel(t, db, signed, now) ==> tx.db == db)
      && (tx.pending.OutcomeReceipt? && !MayCancel(t, db, signed, now) ==>
            && SessionOutcome(signed) in db.outcomes
            && tx.pending == OutcomeReceipt(SessionScope(signed.target), signed.requestId)
            && db.outcomes[SessionOutcome(signed)].requestDigest == signed.digest)
  {
    hide Genuine, SignedBy, Fresh, Timely, SessionName, SessionIs;
    var s := signed.target;
    if s in db.sessions && db.sessions[s].key in db.enrollments {
      var row := db.sessions[s];
      GenuineIs(t, signed, db.enrollments[row.key].enrollment.authorizationKey, now);
      GenuineIs(t, signed, row.proofKey, now);
      SessionNamed(row.Name(now), row, now);
      var after := Stopped(row, signed.party, now);
      SessionNamed(after.Name(now), after, now);
    }
  }

  // -------------------------------------------------------------------------
  // Revoking and closing

  function Tombstone(row: EnrollmentRow, operation: Operation): EnrollmentRow {
    row.(status := if operation == CloseEnrollment || row.status == EClosed then EClosed else ERevoked,
         sealedEnvelope := None, protectedArtifact := None)
  }

  function EnrollmentOutcome(signed: Signed, k: EnrollmentKey): RequestKey {
    RequestKey(EnrollmentScope(k), signed.requestId)
  }

  ghost predicate MayEnd(t: Trustee, db: Database, signed: Signed, now: int, k: EnrollmentKey) {
    && db.highWater <= now && k in db.enrollments && k.id == signed.target
    && Genuine(signed, db.enrollments[k].enrollment.authorizationKey)
    && EnrollmentOutcome(signed, k) !in db.outcomes && Timely(t, signed, now)
  }

  ghost predicate Ends(db: Database, tx: Transaction, signed: Signed, now: int, k: EnrollmentKey) {
    var key := EnrollmentOutcome(signed, k);
    && k in db.enrollments && key in tx.db.outcomes
    && var row := db.enrollments[k];
    && var after := Tombstone(row, signed.operation);
    && tx.pending == OutcomeReceipt(key.scope, key.requestId)
    && tx.db == db.(highWater := now, enrollments := db.enrollments[k := after],
                    outcomes := db.outcomes[key := tx.db.outcomes[key]])
    && tx.db.outcomes[key] == OutcomeRow(signed.digest, signed.operation, tx.db.outcomes[key].oldState,
                                         tx.db.outcomes[key].newState, now)
    && EnrollmentIs(tx.db.outcomes[key].oldState, row.status, row.enrollment.expiresAt, now)
    && EnrollmentIs(tx.db.outcomes[key].newState, after.status, row.enrollment.expiresAt, now)
  }

  lemma EndServed(t: Trustee, db: Database, signed: Signed, now: int, k: EnrollmentKey)
    requires Valid(t, db) && k in db.enrollments && k.id == signed.target
    ensures
      var tx := EndEnrollment(t, db, signed, now);
      && (MayEnd(t, db, signed, now, k) ==> Ends(db, tx, signed, now, k))
      && (!MayEnd(t, db, signed, now, k) ==> tx.db == db)
      && (tx.pending.OutcomeReceipt? && !MayEnd(t, db, signed, now, k) ==>
            && EnrollmentOutcome(signed, k) in db.outcomes
            && tx.pending == OutcomeReceipt(EnrollmentScope(k), signed.requestId)
            && db.outcomes[EnrollmentOutcome(signed, k)].requestDigest == signed.digest)
  {
    hide Valid, Genuine, SignedBy, Fresh, Timely, EnrollmentName, EnrollmentIs, EnrollmentOk;
    KnownRow(t, db, k);
    var row := db.enrollments[k];
    GenuineIs(t, signed, row.enrollment.authorizationKey, now);
    EnrollmentNamed(EnrollmentName(row.status, row.enrollment.expiresAt, now), row.status, row.enrollment.expiresAt,
                    now);
    var after := Tombstone(row, signed.operation);
    EnrollmentNamed(EnrollmentName(after.status, row.enrollment.expiresAt, now), after.status, row.enrollment.expiresAt,
                    now);
  }

  /** Nothing is ended under an ID never enrolled. */
  lemma UnknownNotEnded(t: Trustee, db: Database, signed: Signed, now: int)
    requires forall k :: k in db.enrollments ==> k.id != signed.target
    ensures EndEnrollment(t, db, signed, now).db == db && EndEnrollment(t, db, signed, now).pending.Failed?
  {
  }

  // -------------------------------------------------------------------------
  // Beginning

  /** The enrollment the session names is this one. */
  predicate SessionNames(s: Session, context: EnrollmentContext) {
    && s.enrollmentId == context.enrollmentId && s.sequence == context.sequence
    && s.policyDigest == context.policyDigest && s.artifactId == context.artifactId
    && s.artifactDigest == context.artifactDigest
  }

  /** Custody is live, an attempt is left, the request is fresh, and the
      session outlives the cooldown inside the policy's lifetime and the term. */
  predicate MayBegin(t: Trustee, row: EnrollmentRow, s: Session, now: int) {
    var policy := row.enrollment.policy;
    && row.status == EAccepted && now < row.enrollment.expiresAt
    && row.attemptsUsed < policy.maximumAttempts
    && s.requestedAt - t.limits.skewSecs <= now <= s.requestedAt + t.limits.skewSecs
    && now + policy.cooldownSecs < s.expiresAt <= now + policy.sessionLifetimeSecs
    && s.expiresAt <= row.enrollment.expiresAt
  }

  /** The session row of an attempt: cooling down if its document presents the
      enrolled factor for this component and slot, refused if not. */
  function Attempted(row: EnrollmentRow, s: Session, now: int): SessionRow
    requires row.attemptsUsed < row.enrollment.policy.maximumAttempts
  {
    var e := row.enrollment;
    SessionRow(
      s.sessionId, EnrollmentKey(e.context.enrollmentId, e.context.sequence),
      if Presents(s.canonical, e.policy.factorKey, e.context.componentId, e.context.slot) then SCoolingDown
      else SRefused,
      s.canonical, s.proofKey, s.destinationKeysDigest, now + e.policy.cooldownSecs, s.expiresAt,
      e.policy.maximumAttempts - row.attemptsUsed - 1, now, None)
  }

  /** A new session for a known enrollment is served exactly when it may begin,
      and counts one attempt; a known session ID is answered from its record,
      or is a conflict. */
  lemma BeginServed(t: Trustee, db: Database, document: SessionDocument, s: Session, now: int, k: EnrollmentKey)
    requires Valid(t, db) && Requests(document, s) && db.highWater <= now && k in db.enrollments
    requires SessionNames(s, db.enrollments[k].enrollment.context)
    ensures
      var tx := Transactions.BeginRecovery(t, db, 1, document, now);
      var row := db.enrollments[k];
      if s.sessionId in db.sessions then
        tx == Transaction(db, if db.sessions[s.sessionId].request == document then SessionReceipt(s.sessionId)
                              else Failed(RequestConflict))
      else if MayBegin(t, row, s, now) then
        && tx.pending == SessionReceipt(s.sessionId)
        && tx.db == db.(highWater := now,
                        enrollments := db.enrollments[k := row.(attemptsUsed := row.attemptsUsed + 1)],
                        sessions := db.sessions[s.sessionId := Attempted(row, s, now)])
      else tx.db == db && tx.pending.Failed?
  {
    hide Valid, VerifySession, Requests, Presents, FactorHolds, EnrollmentOk;
    SessionExactly(document, s);
    KnownRow(t, db, k);
    KnownFactor(t, k, db.enrollments[k]);
    CanonicalIs(document);
    FactorExactly(db.enrollments[k].enrollment, document);
    var row := db.enrollments[k];
    AdmissionBounds(row.State(), row.enrollment.policy, row.attemptsUsed, s.requestedAt, s.expiresAt, now,
                    t.limits.skewSecs);
  }

  lemma KnownFactor(t: Trustee, k: EnrollmentKey, row: EnrollmentRow)
    requires EnrollmentOk(t, k, row)
    ensures row.enrollment.policy.factorKey.PublicKey?
  {
    hide Accepted;
    AcceptedFacts(t, Source(row).context, Source(row).sealedEnvelope.value, row.storedAt);
  }

  /** Why a new session for a known enrollment is refused. */
  lemma BeginRefused(t: Trustee, db: Database, document: SessionDocument, s: Session, now: int, k: EnrollmentKey)
    requires Valid(t, db) && Requests(document, s) && db.highWater <= now && k in db.enrollments
    requires SessionNames(s, db.enrollments[k].enrollment.context) && s.sessionId !in db.sessions
    ensures
      var row := db.enrollments[k];
      var ended := row.status in {ERevoked, EClosed};
      var over := row.status == EAccepted && row.enrollment.expiresAt <= now;
      var spent := row.status == EAccepted && !over && row.enrollment.policy.maximumAttempts <= row.attemptsUsed;
      var stale := !(s.requestedAt - t.limits.skewSecs <= now <= s.requestedAt + t.limits.skewSecs);
      var tx := Transactions.BeginRecovery(t, db, 1, document, now);
      && (ended ==> tx.pending == Failed(EnrollmentRevoked))
      && (over ==> tx.pending == Failed(EnrollmentExpired))
      && (spent ==> tx.pending == Failed(RecoveryRateLimited))
      && (!ended && !over && !spent && stale ==> tx.pending == Failed(InvalidRequest))
      && (!ended && !over && !spent && !stale && s.expiresAt <= now ==> tx.pending == Failed(RecoveryExpired))
      && (!ended && !over && !spent && !stale && now < s.expiresAt && !MayBegin(t, row, s, now) ==>
            tx.pending == Failed(RecoveryRefused))
  {
    hide Valid, VerifySession, Requests, Presents, FactorHolds, Accepted;
    SessionExactly(document, s);
    KnownRow(t, db, k);
  }

  /** No enrollment the session names exactly: refused like a malformed one. */
  lemma UnboundRefused(t: Trustee, db: Database, document: SessionDocument, s: Session, now: int)
    requires Valid(t, db) && Requests(document, s) && db.highWater <= now && s.sessionId !in db.sessions
    requires forall k :: k in db.enrollments ==> !SessionNames(s, db.enrollments[k].enrollment.context)
    ensures Transactions.BeginRecovery(t, db, 1, document, now) == Transaction(db, Failed(InvalidRequest))
  {
    hide Valid, VerifySession, Requests, EnrollmentOk;
    SessionExactly(document, s);
  }

  // -------------------------------------------------------------------------
  // Polling

  /** No unpurged read has spent this nonce. */
  predicate Unspent(t: Trustee, nonces: map<RequestKey, int>, nonce: RequestKey, now: int) {
    nonce in nonces ==> nonces[nonce] < now - 2 * t.limits.skewSecs
  }

  /** Old nonces purged, this one spent now. */
  ghost predicate Spends(
    t: Trustee, before: map<RequestKey, int>, after: map<RequestKey, int>, nonce: RequestKey, now: int)
  {
    && nonce in after && after[nonce] == now
    && forall n :: n != nonce ==>
         && (n in after <==> n in before && now - 2 * t.limits.skewSecs <= before[n])
         && (n in after ==> after[n] == before[n])
  }

  lemma NonceServed(t: Trustee, nonces: map<RequestKey, int>, nonce: RequestKey, now: int)
    ensures SpendNonce(t, nonces, nonce, now).Ok? <==> Unspent(t, nonces, nonce, now)
    ensures SpendNonce(t, nonces, nonce, now).Ok? ==>
              Spends(t, nonces, SpendNonce(t, nonces, nonce, now).value, nonce, now)
    ensures SpendNonce(t, nonces, nonce, now).Err? ==> SpendNonce(t, nonces, nonce, now).error == InvalidRequest
  {
  }

  /** What one notice says, by status and time. */
  predicate NoticeIs(notice: Notice, row: SessionRow, now: int) {
    && SessionIs(notice.state, row, now) && ReasonIs(notice.reason, row.status)
    && (notice.released <==> row.contribution.Some?)
    && notice.cooldownEndsAt == row.cooldownEndsAt && notice.expiresAt == row.expiresAt
  }

  lemma NoticeNamed(row: SessionRow, now: int)
    ensures NoticeIs(NoticeOf(row, now), row, now)
  {
    hide SessionIs, ReasonIs, SessionName, SessionReason;
    SessionNamed(row.Name(now), row, now);
    ReasonNamed(SessionReason(row.status), row.status);
  }

  ghost predicate MayPollEnrollment(t: Trustee, db: Database, signed: Signed, now: int, k: EnrollmentKey) {
    && db.highWater <= now && k in db.enrollments && k.id == signed.target
    && Genuine(signed, db.enrollments[k].enrollment.authorizationKey) && Timely(t, signed, now)
    && Unspent(t, db.nonces, RequestKey(EnrollmentScope(k), signed.requestId), now)
  }

  /** The holder's receipt: the enrollment's state before and after alike, and
      a notice of each of its sessions. */
  ghost predicate TellsHolder(
    t: Trustee, db: Database, signed: Signed, now: int, k: EnrollmentKey, r: Receipt)
  {
    && k in db.enrollments
    && var row := db.enrollments[k];
    && EnrollmentIs(r.newState, row.status, row.enrollment.expiresAt, now)
    && r == Receipt(signed.operation, signed.requestId, t.componentId, row.enrollment.context.profile,
                    row.enrollment.context.enrollmentId, row.enrollment.context.sequence,
                    row.enrollment.context.policyDigest, r.newState, r.newState, now, row.enrollment.expiresAt,
                    None, None, None, None, None, None, None, None, None, None, None, r.notices)
    && r.notices.Some?
    && (forall s :: s in r.notices.value <==> s in db.sessions && db.sessions[s].key == k)
    && forall s :: s in r.notices.value ==> NoticeIs(r.notices.value[s], db.sessions[s], now)
  }

  lemma HolderServed(t: Trustee, db: Database, signed: Signed, now: int, k: EnrollmentKey)
    requires Valid(t, db) && Formattable(now) && k in db.enrollments && k.id == signed.target
    ensures
      var tx := Transactions.ReadEnrollment(t, db, signed, now);
      if MayPollEnrollment(t, db, signed, now, k) then
        && tx.db == db.(highWater := now, nonces := tx.db.nonces)
        && Spends(t, db.nonces, tx.db.nonces, RequestKey(EnrollmentScope(k), signed.requestId), now)
        && tx.pending.Settled? && tx.pending.answer.Receipted?
        && tx.pending.answer.receipt.signature
           == Signature.Signature(PublicKey(t.signingKey.seed), tx.pending.answer.receipt.content)
        && TellsHolder(t, db, signed, now, k, tx.pending.answer.receipt.content)
      else tx.db == db && tx.pending.Failed?
  {
    hide Valid, Genuine, SignedBy, Fresh, Timely, EnrollmentName, EnrollmentIs, EnrollmentOk, SpendNonce, NoticeOf;
    hide NoticeIs, Spends, Unspent;
    KnownRow(t, db, k);
    CustodyTimes(t, db, k);
    var row := db.enrollments[k];
    GenuineIs(t, signed, row.enrollment.authorizationKey, now);
    NonceServed(t, db.nonces, RequestKey(EnrollmentScope(k), signed.requestId), now);
    EnrollmentNamed(EnrollmentName(row.status, row.enrollment.expiresAt, now), row.status, row.enrollment.expiresAt,
                    now);
    forall s | s in SessionsOf(db.sessions, k)
      ensures NoticeIs(NoticeOf(db.sessions[s], now), db.sessions[s], now)
      ensures Formattable(db.sessions[s].cooldownEndsAt) && Formattable(db.sessions[s].expiresAt)
    {
      NoticeNamed(db.sessions[s], now);
      SessionTimesKnown(t, db, s);
    }
  }

  lemma CustodyTimes(t: Trustee, db: Database, k: EnrollmentKey)
    requires Valid(t, db) && k in db.enrollments
    ensures Formattable(db.enrollments[k].enrollment.expiresAt)
  {
    hide SessionsOk, AttemptsOk, InvitationsOk, FewOpen, OutcomesOk, PastOk, Accepted;
    var e := db.enrollments[k];
    assert EnrollmentOk(t, k, e);
    AcceptedFacts(t, Source(e).context, Source(e).sealedEnvelope.value, e.storedAt);
  }

  lemma SessionTimesKnown(t: Trustee, db: Database, s: string)
    requires Valid(t, db) && s in db.sessions
    ensures
      var row := db.sessions[s];
      && Formattable(row.cooldownEndsAt) && Formattable(row.expiresAt) && Formattable(row.createdAt)
      && row.sessionId == s
  {
    hide Valid, VerifySession, FactorHolds, ContributionOk, EnrollmentOk;
    KnownSession(t, db, s);
  }

  /** A candidate's poll of a session whose enrollment still has live custody. */
  ghost predicate MayPollSession(t: Trustee, db: Database, signed: Signed, now: int) {
    var s := signed.target;
    && db.highWater <= now && s in db.sessions && db.sessions[s].key in db.enrollments
    && Genuine(signed, db.sessions[s].proofKey) && Timely(t, signed, now)
    && Unspent(t, db.nonces, RequestKey(SessionScope(s), signed.requestId), now)
    && var e := db.enrollments[db.sessions[s].key];
    && e.status == EAccepted && now < e.enrollment.expiresAt
  }

  /** The session may release: undisturbed, its cooldown over, not expired. */
  predicate Releasable(row: SessionRow, now: int) {
    row.status in {SCoolingDown, SReleased} && row.cooldownEndsAt <= now < row.expiresAt
  }

  /** The candidate's receipt: one state, its reason, and the contribution
      exactly when the session may release. */
  ghost predicate TellsCandidate(
    t: Trustee, signed: Signed, now: int, row: SessionRow, after: SessionRow, context: EnrollmentContext, r: Receipt)
  {
    && SessionIs(r.newState, after, now) && ReasonIs(r.reason, after.status)
    && r == Receipt(signed.operation, signed.requestId, t.componentId, context.profile, context.enrollmentId,
                    context.sequence, context.policyDigest, r.newState, r.newState, now, row.expiresAt,
                    Some(signed.target), r.reason, None, None, None, None, Some(row.cooldownEndsAt), None,
                    Some(row.destinationKeysDigest), None, r.contribution, None)
    && (r.contribution.Some? <==> Releasable(row, now))
    && (row.status == SReleased && Releasable(row, now) ==> r.contribution == row.contribution)
    && after == (if row.status == SCoolingDown && Releasable(row, now)
                 then row.(status := SReleased, contribution := r.contribution) else row)
  }

  lemma CandidateServed(t: Trustee, db: Database, signed: Signed, random: Random, now: int)
    requires Valid(t, db) && Formattable(now)
    ensures
      var tx := Transactions.ReadRecovery(t, db, signed, random, now);
      var s := signed.target;
      if MayPollSession(t, db, signed, now) then
        && s in tx.db.sessions
        && tx.db == db.(highWater := now, nonces := tx.db.nonces, sessions := db.sessions[s := tx.db.sessions[s]])
        && Spends(t, db.nonces, tx.db.nonces, RequestKey(SessionScope(s), signed.requestId), now)
        && tx.pending.Settled? && tx.pending.answer.Receipted?
        && tx.pending.answer.receipt.signature
           == Signature.Signature(PublicKey(t.signingKey.seed), tx.pending.answer.receipt.content)
        && TellsCandidate(t, signed, now, db.sessions[s], tx.db.sessions[s],
                          db.enrollments[db.sessions[s].key].enrollment.context, tx.pending.answer.receipt.content)
      else tx.db == db && tx.pending.Failed?
  {
    hide Valid, Genuine, SignedBy, Fresh, Timely, SessionName, SessionIs, SessionReason, ReasonIs, EnrollmentOk;
    hide SessionOk, SpendNonce, Spends, Unspent, Released, MayRelease;
    var s := signed.target;
    if s in db.sessions && db.sessions[s].key in db.enrollments {
      var row := db.sessions[s];
      var e := db.enrollments[row.key];
      KnownSession(t, db, s);
      SessionTimesKnown(t, db, s);
      GenuineIs(t, signed, row.proofKey, now);
      NonceServed(t, db.nonces, RequestKey(SessionScope(s), signed.requestId), now);
      ReleaseServed(t, s, row, e, now, db.highWater, random.sealing);
      SameName(row, now);
      var after := Polled(row, MayRelease(e.State(), row.State(), now, db.highWater),
                          if Released(t, e, row, now, db.highWater, random.sealing).Ok?
                          then Released(t, e, row, now, db.highWater, random.sealing).value else None);
      SessionNamed(after.Name(now), after, now);
      ReasonNamed(SessionReason(after.status), after.status);
    }
  }

  /** Releasing does not change what the session is called. */
  lemma SameName(row: SessionRow, now: int)
    ensures forall contribution ::
              row.status == SCoolingDown && Releasable(row, now) ==>
                row.(status := SReleased, contribution := contribution).Name(now) == row.Name(now)
  {
  }

  /** What a poll at a time the clock allows may hand out. */
  lemma ReleaseServed(
    t: Trustee, id: string, row: SessionRow, e: EnrollmentRow, now: int, floor: int, sealing: nat)
    requires SessionOk(t, id, row, e) && EnrollmentOk(t, row.key, e) && Formattable(now)
    ensures
      var may := MayRelease(e.State(), row.State(), now, floor);
      var released := Released(t, e, row, now, floor, sealing);
      floor <= now ==>
        && (released.Ok? <==> e.status == EAccepted && now < e.enrollment.expiresAt)
        && (released.Ok? ==>
              && (released.value.Some? <==> Releasable(row, now))
              && (row.status == SReleased && Releasable(row, now) ==> released.value == row.contribution)
              && (may == Ok(Emit) <==> row.status == SCoolingDown && Releasable(row, now))
              && (row.status == SCoolingDown || !Releasable(row, now) || may == Ok(Resend)))
  {
    hide VerifySession, FactorHolds, ContributionOk, Accepted;
    if MayRelease(e.State(), row.State(), now, floor) == Ok(Emit) {
      EmissionSucceeds(t, id, row, e, now, floor, sealing);
    }
    assert row.State().sequence == e.State().sequence;
  }

  // -------------------------------------------------------------------------
  // Invitations and challenges

  /** Minting an invitation stores the digest of the code it answers with. */
  lemma InvitationServed(db: Database, lifetime: int, random: Random, now: int)
    ensures
      var tx := CreateInvitation(db, lifetime, random, now);
      if random.id.Some? && db.highWater <= now && Sha256(random.id.value) !in db.invitations then
        && tx.db == db.(highWater := now,
                        invitations := db.invitations[Sha256(random.id.value) := InvitationRow(now + lifetime, None)])
        && tx.pending == Settled(InvitationCode(random.id.value))
      else tx == Transaction(db, Failed(TemporarilyUnavailable))
  {
  }

  /** The invitation is known, unused and unexpired. */
  predicate Invited(db: Database, code: string, now: int) {
    && Sha256(code) in db.invitations && db.invitations[Sha256(code)].usedAt.None?
    && now < db.invitations[Sha256(code)].expiresAt
  }

  /** A challenge is issued exactly to the bearer of a good invitation with
      fewer than four others open, and lives a quarter of an hour. */
  lemma ChallengeServed(
    t: Trustee, db: Database, version: nat, componentId: string, code: string, random: Random, now: int)
    ensures
      var tx := Transactions.IssueChallenge(t, db, version, componentId, code, random, now);
      var others := set c | c in db.challenges && db.challenges[c].invitation == Sha256(code)
                            && db.challenges[c].usedAt.None? && now < db.challenges[c].expiresAt;
      var proper := version == 1 && componentId == t.componentId && IsHex(code, 32);
      var allowed := random.id.Some? && db.highWater <= now;
      if proper && allowed && Invited(db, code, now) && |others| < 4 && random.id.value !in db.challenges then
        && tx.db == db.(highWater := now,
                        challenges := db.challenges[random.id.value := ChallengeRow(Sha256(code), now + 900, None)])
        && tx.pending == (if Formattable(now + 900)
                          then Settled(ChallengeIssued(random.id.value, t.componentId, now + 900,
                                                       Sha256(PublicKey(t.hpkeKey.seed))))
                          else Failed(TemporarilyUnavailable))
      else
        tx == Transaction(db, Failed(if !proper then InvalidRequest
                                     else if !allowed then TemporarilyUnavailable
                                     else if !Invited(db, code, now) || |others| >= 4 then InvalidRequest
                                     else TemporarilyUnavailable))
  {
    hide IsHex;
    var others := set c | c in db.challenges && db.challenges[c].invitation == Sha256(code)
                          && db.challenges[c].usedAt.None? && now < db.challenges[c].expiresAt;
    assert others == OpenChallenges(db.challenges, Sha256(code), now);
    assert [now + 900][0] == now + 900;
  }

  // -------------------------------------------------------------------------
  // Enrolling

  /** The challenge and its invitation are known, unused and unexpired. */
  predicate Redeems(db: Database, challenge: string, now: int) {
    && challenge in db.challenges && db.challenges[challenge].usedAt.None?
    && now < db.challenges[challenge].expiresAt
    && var invitation := db.challenges[challenge].invitation;
    && invitation in db.invitations && db.invitations[invitation].usedAt.None?
    && now < db.invitations[invitation].expiresAt
  }

  /** The challenge and its invitation used now, and nothing else. */
  function Redeemed(db: Database, challenge: string, now: int): Database
    requires challenge in db.challenges && db.challenges[challenge].invitation in db.invitations
  {
    var c := db.challenges[challenge];
    db.(challenges := db.challenges[challenge := ChallengeRow(c.invitation, c.expiresAt, Some(now))],
        invitations := db.invitations[c.invitation := InvitationRow(db.invitations[c.invitation].expiresAt, Some(now))])
  }

  /** The trustee takes custody of this request as this enrollment. */
  ghost predicate Takes(t: Trustee, request: EnrollRequest, now: int, e: Enrollment) {
    && request.sealedEnvelope.Some?
    && Accepted(t, request.context, request.sealedEnvelope.value, now) == Ok(e)
    && CheckArtifact(t, e, request.protectedArtifact).Ok?
  }

  /** A new enrollment, under a challenge no row was enrolled with: taken
      exactly with a redeemable challenge, the trustee's own key named, an
      acceptable envelope and artifact, and an ID never enrolled; under another
      key for a known ID it spends the challenge and its invitation. */
  lemma EnrollServed(t: Trustee, db: Database, request: EnrollRequest, now: int)
    requires Valid(t, db) && request.sealedEnvelope.Some? && request.version == 1 && db.highWater <= now
    requires forall k :: k in db.enrollments ==> db.enrollments[k].challenge != request.context.challenge
    ensures
      var tx := Transactions.Enroll(t, db, request, now);
      var challenge, id := request.context.challenge, request.context.enrollmentId;
      var named := request.trusteeKeyId == Sha256(PublicKey(t.hpkeKey.seed));
      && (!(Redeems(db, challenge, now) && named) ==> tx == Transaction(db, Failed(InvalidEnrollment)))
      && ((forall e :: !Takes(t, request, now, e)) ==> tx.db == db && tx.pending.Failed?)
      && (forall e | Takes(t, request, now, e) && Redeems(db, challenge, now) && named ::
            && ((forall k :: k in db.enrollments ==> k.id != id) ==>
                  && tx.pending
                     == EnrollmentReceipt(challenge, request.sealedEnvelope.value, request.protectedArtifact)
                  && tx.db
                     == Redeemed(db.(highWater := now,
                                 enrollments := db.enrollments[
                                   EnrollmentKey(id, request.context.sequence) :=
                                     EnrollmentRow(challenge, Sha256(request), e, EAccepted, 0, now,
                                                   request.sealedEnvelope, Some(request.protectedArtifact))]),
                             challenge, now))
            && (forall k | k in db.enrollments && k.id == id ::
                  if db.enrollments[k].enrollment.authorizationKey != e.authorizationKey
                  then tx == Transaction(Redeemed(db.(highWater := now), challenge, now), Failed(InvalidEnrollment))
                  else tx == Transaction(db, Failed(
                                             if db.enrollments[k].status in {ERevoked, EClosed} then EnrollmentRevoked
                                             else if request.context.sequence <= k.sequence then StaleEnrollmentSequence
                                             else InvalidEnrollment))))
  {
    hide Valid, Accepted, CheckArtifact, EnrollmentOk;
    var accepted := Accepted(t, request.context, request.sealedEnvelope.value, now);
    if accepted.Ok? && CheckArtifact(t, accepted.value, request.protectedArtifact).Ok? {
      assert Takes(t, request, now, accepted.value);
    }
    forall k | k in db.enrollments && k.id == request.context.enrollmentId
      ensures Current(db.enrollments, request.context.enrollmentId) == Some(db.enrollments[k])
      ensures db.enrollments[k].Key() == k
    {
      KnownRow(t, db, k);
    }
  }

  /** A request that may enroll but is not taken is refused as its envelope is,
      or as its artifact is. */
  lemma EnrollRefused(t: Trustee, db: Database, request: EnrollRequest, now: int)
    requires Valid(t, db) && request.sealedEnvelope.Some? && request.version == 1 && db.highWater <= now
    requires forall k :: k in db.enrollments ==> db.enrollments[k].challenge != request.context.challenge
    requires Redeems(db, request.context.challenge, now) && request.trusteeKeyId == Sha256(PublicKey(t.hpkeKey.seed))
    ensures
      var accepted := Accepted(t, request.context, request.sealedEnvelope.value, now);
      var tx := Transactions.Enroll(t, db, request, now);
      && (accepted.Err? ==> tx == Transaction(db, Failed(accepted.error)))
      && (accepted.Ok? && CheckArtifact(t, accepted.value, request.protectedArtifact).Err? ==>
            tx == Transaction(db, Failed(CheckArtifact(t, accepted.value, request.protectedArtifact).error)))
  {
    hide Valid, Accepted, CheckArtifact, Current;
  }

  /** A challenge that already enrolled answers its own request again, unless
      the enrollment has ended, and conflicts with any other. */
  lemma EnrollRepeated(t: Trustee, db: Database, request: EnrollRequest, now: int, k: EnrollmentKey)
    requires Valid(t, db) && request.sealedEnvelope.Some? && request.version == 1 && db.highWater <= now
    requires k in db.enrollments && db.enrollments[k].challenge == request.context.challenge
    ensures
      var row := db.enrollments[k];
      Transactions.Enroll(t, db, request, now)
      == Transaction(db, if row.requestDigest != Sha256(request) then Failed(RequestConflict)
                         else if row.status in {ERevoked, EClosed} then Failed(EnrollmentRevoked)
                         else EnrollmentReceipt(request.context.challenge, request.sealedEnvelope.value,
                                                request.protectedArtifact))
  {
    hide Valid, Accepted, CheckArtifact, Current, ByChallenge;
    ReadBack.CustodyRow(t, db, k);
  }

  // -------------------------------------------------------------------------
  // Why signed requests are refused

  /** A cancellation is refused for a party it cannot come from, then for a
      clock behind its own past, then as a conflict with what is recorded under
      its request ID, and otherwise like a malformed one. */
  lemma CancelRefused(t: Trustee, db: Database, signed: Signed, now: int)
    requires Valid(t, db) && Transactions.CancelRecovery(t, db, signed, now).pending.Failed?
    ensures
      var s := signed.target;
      var recorded := s in db.sessions && db.sessions[s].key in db.enrollments && SessionOutcome(signed) in db.outcomes
                      && Genuine(signed, if signed.party == Some(Holder)
                                         then db.enrollments[db.sessions[s].key].enrollment.authorizationKey
                                         else db.sessions[s].proofKey);
      Transactions.CancelRecovery(t, db, signed, now).pending.code
      == (if signed.party !in {Some(Holder), Some(Candidate)} then InvalidRequest
          else if now < db.highWater then TemporarilyUnavailable
          else if recorded then RequestConflict
          else InvalidRequest)
  {
    hide Valid, Genuine, SignedBy, Fresh, SessionName, SessionOk;
    var s := signed.target;
    if s in db.sessions {
      KnownSession(t, db, s);
      GenuineIs(t, signed, db.enrollments[db.sessions[s].key].enrollment.authorizationKey, now);
      GenuineIs(t, signed, db.sessions[s].proofKey, now);
    }
  }

  lemma EndRefused(t: Trustee, db: Database, signed: Signed, now: int, k: EnrollmentKey)
    requires Valid(t, db) && k in db.enrollments && k.id == signed.target
    requires EndEnrollment(t, db, signed, now).pending.Failed?
    ensures EndEnrollment(t, db, signed, now).pending.code
         == (if now < db.highWater then TemporarilyUnavailable
             else if Genuine(signed, db.enrollments[k].enrollment.authorizationKey)
                     && EnrollmentOutcome(signed, k) in db.outcomes
             then RequestConflict
             else InvalidRequest)
  {
    hide Valid, Genuine, SignedBy, Fresh, EnrollmentName, EnrollmentOk;
    KnownRow(t, db, k);
    GenuineIs(t, signed, db.enrollments[k].enrollment.authorizationKey, now);
  }

  lemma HolderRefused(t: Trustee, db: Database, signed: Signed, now: int, k: EnrollmentKey)
    requires Valid(t, db) && Formattable(now) && k in db.enrollments && k.id == signed.target
    requires Transactions.ReadEnrollment(t, db, signed, now).pending.Failed?
    ensures Transactions.ReadEnrollment(t, db, signed, now).pending.code
         == (if now < db.highWater then TemporarilyUnavailable else InvalidRequest)
  {
    hide Valid, Genuine, SignedBy, Fresh, Timely, EnrollmentName, EnrollmentOk, SpendNonce, NoticeOf, Unspent, Spends;
    KnownRow(t, db, k);
    CustodyTimes(t, db, k);
    NonceServed(t, db.nonces, RequestKey(EnrollmentScope(k), signed.requestId), now);
    forall s | s in SessionsOf(db.sessions, k)
      ensures Formattable(db.sessions[s].cooldownEndsAt) && Formattable(db.sessions[s].expiresAt)
    {
      SessionTimesKnown(t, db, s);
    }
  }

  /** A candidate's fresh poll is told when custody has ended or run out. */
  lemma CandidateRefused(t: Trustee, db: Database, signed: Signed, random: Random, now: int)
    requires Valid(t, db) && Formattable(now)
    requires Transactions.ReadRecovery(t, db, signed, random, now).pending.Failed?
    ensures
      var s := signed.target;
      var proper := s in db.sessions && db.sessions[s].key in db.enrollments
                    && Genuine(signed, db.sessions[s].proofKey) && Timely(t, signed, now)
                    && Unspent(t, db.nonces, RequestKey(SessionScope(s), signed.requestId), now);
      Transactions.ReadRecovery(t, db, signed, random, now).pending.code
      == (if now < db.highWater then TemporarilyUnavailable
          else if !proper then InvalidRequest
          else if db.enrollments[db.sessions[s].key].status == EAccepted then EnrollmentExpired
          else EnrollmentRevoked)
  {
    hide Valid, Genuine, SignedBy, Fresh, Timely, SessionName, EnrollmentOk, SessionOk, SpendNonce, Unspent, Spends;
    hide VerifySession, Contribute;
    var s := signed.target;
    if s in db.sessions {
      KnownSession(t, db, s);
      var row := db.sessions[s];
      var e := db.enrollments[row.key];
      SessionTimesKnown(t, db, s);
      GenuineIs(t, signed, row.proofKey, now);
      NonceServed(t, db.nonces, RequestKey(SessionScope(s), signed.requestId), now);
      ReleaseServed(t, s, row, e, now, db.highWater, random.sealing);
      NeverSuperseded(t, row.key, e);
    }
  }

  lemma NeverSuperseded(t: Trustee, k: EnrollmentKey, row: EnrollmentRow)
    requires EnrollmentOk(t, k, row)
    ensures row.status in {EAccepted, ERevoked, EClosed}
  {
    hide Accepted;
  }
}
