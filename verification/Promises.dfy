/** What every answered run promises its parties, in terms of the signatures,
    statuses and times of the run itself. */
module Promises {
  import opened Basics
  import opened Crypto
  import opened Wire
  import opened State
  import opened Trustee
  import opened Tables
  import opened Transactions
  import opened Invariant
  import opened RecoveryPreservation
  import opened ReadBack
  import opened Steps
  import opened Runs
  import opened Releases
  import opened History
  import opened Reports
  import opened Receipts
  import opened Acceptance
  import opened Effects
  import opened Answers
  import opened Origins
  import Polling

  // -------------------------------------------------------------------------
  // The candidate's factor

  /** A session begins with one request of the run: a verified document for a
      known enrollment that may begin then. */
  lemma BeganAttempt(t: Trustee, run: Run, b: nat, s: string)
    returns (document: SessionDocument, session: Session, k: EnrollmentKey)
    requires IsRun(t, run) && Began(t, run, b, s)
    ensures run.events[b].action == Serve(BeginCall(1, document)) && Requests(document, session)
    ensures session.sessionId == s
    ensures k in run.states[b].enrollments && MayBegin(t, run.states[b].enrollments[k], session, run.events[b].now)
    ensures SessionNames(session, run.states[b].enrollments[k].enrollment.context)
    ensures s in run.states[b + 1].sessions
    ensures run.states[b + 1].sessions[s] == Attempted(run.states[b].enrollments[k], session, run.events[b].now)
  {
    hide Valid, VerifySession, Requests, Presents, FactorHolds, Transactions.BeginRecovery, EnrollmentOk;
    hide ContributionOk, Evolves;
    ReachableValid(t, run, b);
    ReachableValid(t, run, b + 1);
    var db, event := run.states[b], run.events[b];
    document := event.action.request.session;
    session := VerifySession(document).value;
    SessionExactly(document, session);
    k := run.states[b + 1].sessions[s].key;
    KnownSession(t, run.states[b + 1], s);
    RunEvolves(t, run, b, b + 1);
    RowEvolves(db, run.states[b + 1], k);
    OtherDispatch(t, db, event.random, event.now);
    BeganProperly(t, db, event.action.request.version, document, event.random, event.now);
    BeginServed(t, db, document, session, event.now, k);
  }

  lemma BeganProperly(t: Trustee, db: Database, version: nat, document: SessionDocument, random: Random, now: int)
    requires Transactions.BeginRecovery(t, db, version, document, now).pending.SessionReceipt?
    ensures version == 1 && db.highWater <= now
  {
    hide VerifySession, Session.Binds, Admit, NewSession, Current;
  }

  /** The enrollment a session of the run is for, and the envelope it was taken
      from. */
  ghost predicate Enrolled(
    t: Trustee, run: Run, b: nat, k: EnrollmentKey, m: nat, request: EnrollRequest, envelope: ShareEnvelope)
    requires b < |run.states| && m < |run.events|
  {
    k in run.states[b].enrollments && Origin(t, run, m, k, run.states[b].enrollments[k].enrollment, request, envelope)
  }

  /** The factor a holder's envelope names. */
  ghost predicate NamesFactor(envelope: ShareEnvelope, key: PublicKey) {
    key.PublicKey? && envelope.policy.candidateFactors == [Ed25519Session(key)]
  }

  /** A begin is answered cooling down, rather than refused, exactly when the
      document it recorded presents the factor that the holder's envelope names
      as its only one: one signature by that key over this session, for this
      component and slot. */
  lemma BeginByFactor(t: Trustee, run: Run, i: nat, s: string)
    returns (b: nat, document: SessionDocument, m: nat, request: EnrollRequest, envelope: ShareEnvelope, key: PublicKey)
    requires IsRun(t, run) && i < |run.events| && Performed(t, run, i).pending == SessionReceipt(s)
    ensures b <= i && run.events[b].action == Serve(BeginCall(1, document)) && s !in run.states[b].sessions
    ensures document.SessionDocument? && document.body.core.sessionId == s
    ensures m < b && run.events[m].action == Serve(EnrollCall(request)) && NamesFactor(envelope, key)
    ensures document.body.core.enrollmentId == request.context.enrollmentId
    ensures Enrolled(t, run, b, EnrollmentKey(request.context.enrollmentId, request.context.sequence), m, request,
                     envelope)
    ensures
      var answer := AnswerAt(t, run, i, i + 1);
      && answer.Ok? && answer.value.Receipted?
      && answer.value.receipt.content.newState
         == if Presents(document, key, request.context.componentId, request.context.slot) then CoolingDown else Refused
  {
    hide Valid, Act, Evolves, Began, Presents, MayBegin, Recorded, InCustody, Origin, SessionAnswer;
    ReachableValid(t, run, i);
    ReachableValid(t, run, i + 1);
    var event := run.events[i];
    ActRecords(t, run.states[i], event.action, event.random, event.now);
    SessionIsRecorded(run.states[i + 1], s);
    b := SessionBegan(t, run, i + 1, s);
    BeganNew(t, run, b, s);
    var session, k;
    document, session, k := BeganAttempt(t, run, b, s);
    m, request, envelope := EnrollmentOrigin(t, run, b, k);
    OriginIs(t, run, m, k, run.states[b].enrollments[k].enrollment, request, envelope);
    key := run.states[b].enrollments[k].enrollment.policy.factorKey;
    RunEvolves(t, run, b + 1, i + 1);
    SessionEvolved(run.states[b + 1], run.states[i + 1], s);
    SessionAnswerIs(t, run.states[i + 1], s);
  }

  lemma SessionIsRecorded(db: Database, s: string)
    requires Recorded(db, SessionReceipt(s))
    ensures s in db.sessions
  {
  }

  lemma BeganNew(t: Trustee, run: Run, b: nat, s: string)
    requires Began(t, run, b, s)
    ensures s !in run.states[b].sessions
  {
  }

  lemma OriginIs(
    t: Trustee, run: Run, m: nat, k: EnrollmentKey, e: Enrollment, request: EnrollRequest, envelope: ShareEnvelope)
    requires m < |run.events| && Origin(t, run, m, k, e, request, envelope)
    ensures run.events[m].action == Serve(EnrollCall(request))
    ensures k == EnrollmentKey(request.context.enrollmentId, request.context.sequence) && e.context == request.context
    ensures PolicyOf(envelope.policy, e.policy)
    ensures envelope.authorizationKey == Some(e.authorizationKey) && envelope.expiresAt == At(e.expiresAt)
  {
    hide EnrollsAs, HolderSealed, SameBindings, WellFormed, PolicyOf;
    EnrollsContext(t, request.context, envelope, run.events[m].now, e);
  }

  /** Nothing leaves without the factor: an answer that hands out a session's
      contribution means that the session was begun with a document presenting
      the factor the holder's envelope names, by that key's own signature over
      this session, for this component and slot. */
  lemma HandedByFactor(t: Trustee, run: Run, i: nat, s: string)
    returns (b: nat, document: SessionDocument, m: nat, request: EnrollRequest, envelope: ShareEnvelope, key: PublicKey)
    requires IsRun(t, run) && i < |run.events| && Hands(Performed(t, run, i).pending, s)
    ensures b < i && run.events[b].action == Serve(BeginCall(1, document))
    ensures document.SessionDocument? && document.body.core.sessionId == s
    ensures m < b && run.events[m].action == Serve(EnrollCall(request)) && NamesFactor(envelope, key)
    ensures document.body.core.enrollmentId == request.context.enrollmentId
    ensures Enrolled(t, run, b, EnrollmentKey(request.context.enrollmentId, request.context.sequence), m, request,
                     envelope)
    ensures Presents(document, key, request.context.componentId, request.context.slot)
  {
    hide Valid, Act, Evolves, Began, Presents, MayBegin, Origin, SignedOf, SignedBy, Hands, Disturbed;
    b := ReleaseSafety(t, run, i, s);
    DeservedNotRefused(t, run, b, i, s, run.events[i].now);
    var session, k;
    document, session, k := BeganAttempt(t, run, b, s);
    m, request, envelope := EnrollmentOrigin(t, run, b, k);
    OriginIs(t, run, m, k, run.states[b].enrollments[k].enrollment, request, envelope);
    key := run.states[b].enrollments[k].enrollment.policy.factorKey;
  }

  lemma DeservedNotRefused(t: Trustee, run: Run, b: nat, i: nat, s: string, now: int)
    requires IsRun(t, run) && i < |run.states| && Deserved(t, run, b, i, s, now)
    ensures b < i && Began(t, run, b, s) && s in run.states[b + 1].sessions
    ensures run.states[b + 1].sessions[s].status == SCoolingDown
  {
    hide Valid, Act, VerifySession, FactorHolds, Disturbed;
  }

  /** So a device without the factor's signature never gets anything: if no
      begin of the session presents the factor that the envelope it was begun
      under names, no answer of the run hands out its contribution. */
  lemma NothingWithoutFactor(t: Trustee, run: Run, i: nat, s: string)
    requires IsRun(t, run) && i < |run.events|
    requires forall b: nat, document, m: nat, request: EnrollRequest, envelope, key |
               && m < b < i && run.events[b].action == Serve(BeginCall(1, document))
               && document.SessionDocument? && document.body.core.sessionId == s
               && NamesFactor(envelope, key)
               && Enrolled(t, run, b, EnrollmentKey(request.context.enrollmentId, request.context.sequence), m, request,
                           envelope) ::
               !Presents(document, key, request.context.componentId, request.context.slot)
    ensures !Hands(Performed(t, run, i).pending, s)
  {
    hide Act, Hands, Presents, Origin, NamesFactor, Enrolled;
    if Hands(Performed(t, run, i).pending, s) {
      var b, document, m, request, envelope, key := HandedByFactor(t, run, i, s);
      assert false;
    }
  }

  // -------------------------------------------------------------------------
  // Attempts

  /** An enrollment taken from an envelope that allows n attempts never has
      more than n sessions. */
  lemma AttemptsPromised(t: Trustee, run: Run, i: nat, k: EnrollmentKey)
    returns (m: nat, request: EnrollRequest, envelope: ShareEnvelope)
    requires IsRun(t, run) && i < |run.states| && k in run.states[i].enrollments
    ensures m < i && Origin(t, run, m, k, run.states[i].enrollments[k].enrollment, request, envelope)
    ensures
      |set s | s in run.states[i].sessions && run.states[i].sessions[s].key == k| <= envelope.policy.maximumAttempts
  {
    hide Valid, Act, Origin;
    m, request, envelope := EnrollmentOrigin(t, run, i, k);
    OriginIs(t, run, m, k, run.states[i].enrollments[k].enrollment, request, envelope);
    AttemptAccounting(t, run, i, k);
    assert (set s | s in run.states[i].sessions && run.states[i].sessions[s].key == k)
        == SessionsOf(run.states[i].sessions, k);
  }

  /** A begin receipt, first or retried, tells how many attempts remain: what
      the envelope allows, less the sessions there were when this one was
      begun, itself among them. */
  lemma BeginCounts(t: Trustee, run: Run, i: nat, s: string)
    returns (b: nat, m: nat, request: EnrollRequest, envelope: ShareEnvelope)
    requires IsRun(t, run) && i < |run.events| && Performed(t, run, i).pending == SessionReceipt(s)
    ensures b <= i && s !in run.states[b].sessions && s in run.states[b + 1].sessions
    ensures
      var k := run.states[b + 1].sessions[s].key;
      var sessions := run.states[b + 1].sessions;
      var begun := set r | r in sessions && sessions[r].key == k;
      var answer := AnswerAt(t, run, i, i + 1);
      && m < b && Enrolled(t, run, b, k, m, request, envelope) && |begun| <= envelope.policy.maximumAttempts
      && answer.Ok? && answer.value.Receipted?
      && answer.value.receipt.content.remainingAttempts == Some(envelope.policy.maximumAttempts - |begun|)
  {
    hide Valid, Act, Evolves, Began, Presents, MayBegin, Recorded, InCustody, Origin, SessionAnswer, Requests;
    ReachableValid(t, run, i);
    ReachableValid(t, run, i + 1);
    var event := run.events[i];
    ActRecords(t, run.states[i], event.action, event.random, event.now);
    SessionIsRecorded(run.states[i + 1], s);
    b := SessionBegan(t, run, i + 1, s);
    BeganNew(t, run, b, s);
    var document, session, k := BeganAttempt(t, run, b, s);
    m, request, envelope := EnrollmentOrigin(t, run, b, k);
    OriginIs(t, run, m, k, run.states[b].enrollments[k].enrollment, request, envelope);
    BegunCount(t, run, b, k, s);
    RunEvolves(t, run, b + 1, i + 1);
    SessionEvolved(run.states[b + 1], run.states[i + 1], s);
    SessionAnswerIs(t, run.states[i + 1], s);
  }

  lemma BegunCount(t: Trustee, run: Run, b: nat, k: EnrollmentKey, s: string)
    requires IsRun(t, run) && b < |run.events| && k in run.states[b].enrollments
    requires s !in run.states[b].sessions && s in run.states[b + 1].sessions && run.states[b + 1].sessions[s].key == k
    ensures
      var sessions := run.states[b + 1].sessions;
      var begun := set r | r in sessions && sessions[r].key == k;
      |begun| == run.states[b].enrollments[k].attemptsUsed + 1
  {
    hide Valid, Act, Evolves;
    AttemptSpent(t, run, b, k);
    AttemptAccounting(t, run, b, k);
    AttemptAccounting(t, run, b + 1, k);
    assert s in Created(run, b, k);
    var sessions := run.states[b + 1].sessions;
    assert (set r | r in sessions && sessions[r].key == k) == SessionsOf(sessions, k);
  }

  /** Once as many sessions have begun as the envelope allows, another begin,
      however proper, is told so, and nothing changes. */
  lemma AttemptsExhausted(
    t: Trustee, run: Run, i: nat, k: EnrollmentKey, document: SessionDocument, session: Session, random: Random,
    now: int)
    returns (m: nat, request: EnrollRequest, envelope: ShareEnvelope)
    requires IsRun(t, run) && i < |run.states| && k in run.states[i].enrollments && run.states[i].highWater <= now
    requires Requests(document, session) && SessionNames(session, run.states[i].enrollments[k].enrollment.context)
    requires session.sessionId !in run.states[i].sessions
    requires run.states[i].enrollments[k].status == EAccepted && now < run.states[i].enrollments[k].enrollment.expiresAt
    ensures m < i && Origin(t, run, m, k, run.states[i].enrollments[k].enrollment, request, envelope)
    ensures
      var begun := set s | s in run.states[i].sessions && run.states[i].sessions[s].key == k;
      |begun| == envelope.policy.maximumAttempts ==>
        Act(t, run.states[i], Serve(BeginCall(1, document)), random, now)
        == Transaction(run.states[i], Failed(RecoveryRateLimited))
  {
    hide Valid, Act, Origin, Requests, MayBegin, Presents, Transactions.BeginRecovery;
    m, request, envelope := EnrollmentOrigin(t, run, i, k);
    OriginIs(t, run, m, k, run.states[i].enrollments[k].enrollment, request, envelope);
    AttemptAccounting(t, run, i, k);
    assert (set s | s in run.states[i].sessions && run.states[i].sessions[s].key == k)
        == SessionsOf(run.states[i].sessions, k);
    ReachableValid(t, run, i);
    OtherDispatch(t, run.states[i], random, now);
    BeginRefused(t, run.states[i], document, session, now, k);
    BeginServed(t, run.states[i], document, session, now, k);
    NotWhenSpent(t, run.states[i].enrollments[k], session, now);
  }

  lemma NotWhenSpent(t: Trustee, row: EnrollmentRow, session: Session, now: int)
    ensures row.attemptsUsed >= row.enrollment.policy.maximumAttempts ==> !MayBegin(t, row, session, now)
  {
  }

  // -------------------------------------------------------------------------
  // The holder's poll

  /** Event `m` answered an ending of the enrollment. */
  ghost predicate AnswersEnding(t: Trustee, run: Run, m: nat, k: EnrollmentKey)
    requires m < |run.events| && m < |run.states|
  {
    Settles(Performed(t, run, m).pending, EnrollmentScope(k))
  }

  /** Event `m` answered a closure of it. */
  ghost predicate AnswersClosure(t: Trustee, run: Run, m: nat, k: EnrollmentKey)
    requires m < |run.events| && m < |run.states|
  {
    && AnswersEnding(t, run, m, k)
    && exists signed :: SignedAt(t, run, m, signed) && signed.operation == CloseEnrollment
  }

  lemma AnsweredIsRecorded(t: Trustee, run: Run, m: nat, k: EnrollmentKey) returns (o: nat)
    requires IsRun(t, run) && m < |run.events| && AnswersEnding(t, run, m, k)
    ensures o <= m && EndedAt(t, run, o, k) && (AnswersClosure(t, run, m, k) ==> ClosedAt(t, run, o, k))
  {
    hide Valid, Act, SignedAt, MayEnd, EnrollmentIs;
    var signed;
    o, signed := AnsweredOutcome(t, run, m);
    RecordedRow(t, run, o, signed, RequestKey(EnrollmentScope(k), Performed(t, run, m).pending.requestId));
    assert EndsAt(t, run, o, signed, k);
    forall other | SignedAt(t, run, m, other)
      ensures other == signed
    {
      SignedAtIs(t, run, m, other);
      SignedAtIs(t, run, m, signed);
    }
  }

  lemma RecordedIsAnswered(t: Trustee, run: Run, m: nat, k: EnrollmentKey)
    requires IsRun(t, run) && m < |run.events|
    ensures EndedAt(t, run, m, k) ==> AnswersEnding(t, run, m, k)
    ensures ClosedAt(t, run, m, k) ==> AnswersClosure(t, run, m, k)
  {
    hide Valid, Act, EndsAt, SignedAt, EnrollmentIs;
    forall signed | EndsAt(t, run, m, signed, k)
      ensures AnswersEnding(t, run, m, k) && SignedAt(t, run, m, signed)
    {
      EndsSigned(t, run, m, signed, k);
      var l := EndsAtDoes(t, run, m, signed);
    }
  }

  /** What the holder is told of the enrollment itself, by the history: closed
      exactly after a closure was answered, revoked exactly after endings that
      were none, and until then active or, from the envelope's own expiry on,
      expired. */
  lemma HolderReceiptSays(t: Trustee, run: Run, i: nat, signed: Signed)
    returns (k: EnrollmentKey, m: nat, request: EnrollRequest, envelope: ShareEnvelope)
    requires IsRun(t, run) && i < |run.events| && HolderPollsAt(t, run, i, signed)
    ensures k in run.states[i].enrollments && k.id == signed.target && m < i
    ensures Origin(t, run, m, k, run.states[i].enrollments[k].enrollment, request, envelope) && envelope.expiresAt.At?
    ensures
      var answer := Performed(t, run, i).pending.answer;
      && answer.Receipted?
      && answer.receipt.signature == Signature.Signature(PublicKey(t.signingKey.seed), answer.receipt.content)
      && var r := answer.receipt.content;
      && r.operation == signed.operation && r.requestId == signed.requestId && r.componentId == t.componentId
      && r.enrollmentId == k.id && r.sequence == k.sequence && r.policyDigest == request.context.policyDigest
      && r.recordedAt == run.events[i].now && r.expiresAt == envelope.expiresAt.seconds && r.oldState == r.newState
      && var ended := exists o: nat :: o < i && AnswersEnding(t, run, o, k);
      && var closed := exists o: nat :: o < i && AnswersClosure(t, run, o, k);
      && r.newState == (if closed then Closed else if ended then Revoked
                        else if run.events[i].now < envelope.expiresAt.seconds then Active else Expired)
  {
    hide Valid, Act, Evolves, SignedOf, Origin, Transactions.ReadEnrollment, MayPollEnrollment, Spends, NoticeIs;
    hide AnswersEnding, AnswersClosure, EndedAt, ClosedAt;
    ReachableValid(t, run, i);
    var event := run.events[i];
    SignedActs(t, run.states[i], event.action, event.random, event.now);
    k := HolderPollSays(t, run.states[i], signed, event.now);
    HolderServed(t, run.states[i], signed, event.now, k);
    m, request, envelope := EnrollmentOrigin(t, run, i, k);
    OriginIs(t, run, m, k, run.states[i].enrollments[k].enrollment, request, envelope);
    EndCause(t, run, i, k);
    forall o: nat | o < i && AnswersEnding(t, run, o, k)
      ensures exists p: nat ::
                p < i && EndedAt(t, run, p, k) && (AnswersClosure(t, run, o, k) ==> ClosedAt(t, run, p, k))
    {
      var p := AnsweredIsRecorded(t, run, o, k);
    }
    forall o: nat | o < i
      ensures EndedAt(t, run, o, k) ==> AnswersEnding(t, run, o, k)
      ensures ClosedAt(t, run, o, k) ==> AnswersClosure(t, run, o, k)
      ensures AnswersClosure(t, run, o, k) ==> AnswersEnding(t, run, o, k)
    {
      RecordedIsAnswered(t, run, o, k);
      ClosureIsEnding(t, run, o, k);
    }
  }

  lemma ClosureIsEnding(t: Trustee, run: Run, m: nat, k: EnrollmentKey)
    requires m < |run.events| && m < |run.states|
    ensures AnswersClosure(t, run, m, k) ==> AnswersEnding(t, run, m, k)
  {
    hide AnswersEnding;
  }

  /** And a fresh poll signed by the authorization key with an unspent nonce is
      always answered. */
  lemma HolderAnswered(
    t: Trustee, run: Run, i: nat, k: EnrollmentKey, poll: SignedRequest, signed: Signed, random: Random, now: int)
    requires IsRun(t, run) && i < |run.states| && Formattable(now)
    requires Addressed(poll, t.componentId, signed) && signed.operation == Operation.ReadEnrollment
    requires MayPollEnrollment(t, run.states[i], signed, now, k)
    ensures Act(t, run.states[i], Serve(SignedCall(poll)), random, now).pending.Settled?
  {
    hide Valid, Addressed, Act, Transactions.ReadEnrollment, Genuine, Timely, Unspent;
    ReachableValid(t, run, i);
    SignedDispatch(t, run.states[i], poll, signed, random, now);
    HolderServed(t, run.states[i], signed, now, k);
  }

  /** A candidate's fresh, signed poll while custody lives is answered, unless
      the trustee's clock is behind its own past; and that refusal is one the
      recovering device retries, not one it drops the trustee for. */
  lemma CandidateAnswered(
    t: Trustee, run: Run, i: nat, poll: SignedRequest, signed: Signed, random: Random, now: int, text: string)
    requires IsRun(t, run) && i < |run.states| && Formattable(now)
    requires Addressed(poll, t.componentId, signed) && signed.operation == Operation.ReadRecovery
    requires now < run.states[i].highWater || MayPollSession(t, run.states[i], signed, now)
    ensures
      var pending := Act(t, run.states[i], Serve(SignedCall(poll)), random, now).pending;
      if run.states[i].highWater <= now then pending.Settled?
      else pending.Failed? && Polling.Transient(Polling.RefusedBy(Polling.HttpStatus(pending.code), Some(text)))
  {
    hide Valid, Addressed, Act, Genuine, Timely, Unspent, SignedBy, Fresh, SpendNonce, Released, MayRelease;
    ReachableValid(t, run, i);
    SignedDispatch(t, run.states[i], poll, signed, random, now);
    CandidateServed(t, run.states[i], signed, random, now);
    Polling.OnlyUndecidedRetried(TemporarilyUnavailable, text, 503);
  }

  // -------------------------------------------------------------------------
  // Receipts of stops and endings

  /** The fields of a receipt that say whose it is. */
  predicate Names(t: Trustee, r: Receipt, signed: Signed, context: EnrollmentContext) {
    && r.operation == signed.operation && r.requestId == signed.requestId && r.componentId == t.componentId
    && r.profile == context.profile && r.enrollmentId == context.enrollmentId && r.sequence == context.sequence
    && r.policyDigest == context.policyDigest
  }

  /** A cancellation receipt, first or repeated, read back at once or after any
      other commits, tells of the one event that recorded it: the state of the
      session before and after, its time, and its deadlines. The reason is a
      veto exactly if the holder stopped the session live, then or before; a
      failed factor exactly if it was refused at begin; and none after the
      candidate stopped it live. */
  lemma CancelReceiptSays(t: Trustee, run: Run, i: nat, at: nat, s: string) returns (m: nat, signed: Signed)
    requires IsRun(t, run) && i < |run.events| && i < at < |run.states|
    requires Settles(Performed(t, run, i).pending, SessionScope(s))
    ensures m <= i && run.events[m].action == run.events[i].action
    ensures CancelsAt(t, run, m, signed) && signed.target == s && signed.operation == CancelRecovery
    ensures s in run.states[m].sessions && s in run.states[m + 1].sessions
    ensures run.states[m].sessions[s].key in run.states[m].enrollments
    ensures
      var row, after := run.states[m].sessions[s], run.states[m + 1].sessions[s];
      var answer := AnswerAt(t, run, i, at);
      && answer.Ok? && answer.value.Receipted?
      && answer.value.receipt.signature
         == Signature.Signature(PublicKey(t.signingKey.seed), answer.value.receipt.content)
      && var r := answer.value.receipt.content;
      && Names(t, r, signed, run.states[m].enrollments[row.key].enrollment.context) && r.sessionId == Some(s)
      && r.recordedAt == run.events[m].now && r.expiresAt == row.expiresAt
      && r.cooldownEndsAt == Some(row.cooldownEndsAt) && r.destinationKeysDigest == Some(row.destinationKeysDigest)
      && r.contribution.None? && r.notices.None?
      && SessionIs(r.oldState, row, run.events[m].now) && SessionIs(r.newState, after, run.events[m].now)
      && (r.reason == Some(RecoveryVetoed) <==> exists v: nat :: v <= m && StopsAt(t, run, v, s, Holder))
      && (r.reason == Some(InvalidCandidateFactor) <==> row.status == SRefused)
      && ((exists v: nat :: v <= m && StopsAt(t, run, v, s, Candidate)) ==> r.reason.None?)
  {
    hide Valid, Act, Evolves, SessionIs, CancelsAt, RecordsAt, StopsAt, Frozen, OutcomeAnswer, ReasonIs;
    m, signed := AnsweredOutcome(t, run, i);
    var key := SessionOutcome(signed);
    CancelRecordSays(t, run, m, signed, s, Performed(t, run, i).pending.requestId);
    ReachableValid(t, run, m);
    ReachableValid(t, run, at);
    RunEvolves(t, run, i + 1, at);
    OutcomeKept(run.states[i + 1], run.states[at], key);
    FrozenAfterOutcome(t, run, m + 1, at, key);
    RunEvolves(t, run, m, at);
    FixedFields(run.states[m], run.states[at], s);
    CancellationAnswerIs(t, run.states[at], key, s);
    var answer := AnswerAt(t, run, i, at);
    ReasonCause(t, run, m, s, answer.value.receipt.content.reason);
  }

  lemma CancelRecordSays(t: Trustee, run: Run, m: nat, signed: Signed, s: string, requestId: string)
    requires IsRun(t, run) && m < |run.events|
    requires RecordsAt(t, run, m, signed, RequestKey(SessionScope(s), requestId))
    ensures CancelsAt(t, run, m, signed) && signed.target == s && signed.operation == CancelRecovery
    ensures signed.requestId == requestId
    ensures s in run.states[m].sessions && s in run.states[m + 1].sessions
    ensures run.states[m].sessions[s].key in run.states[m].enrollments
    ensures
      var row, after := run.states[m].sessions[s], run.states[m + 1].sessions[s];
      var key := SessionOutcome(signed);
      && key in run.states[m + 1].outcomes
      && var outcome := run.states[m + 1].outcomes[key];
      && outcome.operation == signed.operation && outcome.recordedAt == run.events[m].now
      && SessionIs(outcome.oldState, row, run.events[m].now) && SessionIs(outcome.newState, after, run.events[m].now)
  {
    hide Act, Valid, SessionIs, SignedAt, Genuine, Timely, EndsAt;
    RecordedRow(t, run, m, signed, RequestKey(SessionScope(s), requestId));
    CancelsSigned(t, run, m, signed);
  }

  /** Which reason is owed right after event `m`, a cancellation of `s`. */
  lemma ReasonCause(t: Trustee, run: Run, m: nat, s: string, reason: Option<Code>)
    requires IsRun(t, run) && m < |run.events| && s in run.states[m].sessions && s in run.states[m + 1].sessions
    requires exists signed :: CancelsAt(t, run, m, signed) && signed.target == s
    requires ReasonIs(reason, run.states[m + 1].sessions[s].status)
    ensures reason == Some(RecoveryVetoed) <==> exists v: nat :: v <= m && StopsAt(t, run, v, s, Holder)
    ensures reason == Some(InvalidCandidateFactor) <==> run.states[m].sessions[s].status == SRefused
    ensures (exists v: nat :: v <= m && StopsAt(t, run, v, s, Candidate)) ==> reason.None?
  {
    hide Valid, Act, CancelsAt, StopsAt;
    var signed :| CancelsAt(t, run, m, signed) && signed.target == s;
    StopCause(t, run, m + 1, s);
    SessionMoves(t, run, m, s);
    StoppedKeepsRefused(run.states[m].sessions[s], signed.party, run.events[m].now);
  }

  lemma FixedFields(a: Database, b: Database, s: string)
    requires Evolves(a, b) && s in a.sessions && a.sessions[s].key in a.enrollments
    ensures s in b.sessions && b.sessions[s].key in b.enrollments
    ensures
      var r, q := a.sessions[s], b.sessions[s];
      && q.key == r.key && q.expiresAt == r.expiresAt && q.cooldownEndsAt == r.cooldownEndsAt
      && q.destinationKeysDigest == r.destinationKeysDigest
      && b.enrollments[q.key].enrollment == a.enrollments[r.key].enrollment
  {
    hide Evolves;
    SessionEvolved(a, b, s);
    RowEvolves(a, b, a.sessions[s].key);
  }

  lemma StoppedKeepsRefused(row: SessionRow, party: Option<Party>, now: int)
    ensures Stopped(row, party, now).status == SRefused <==> row.status == SRefused
  {
  }

  /** A receipt of a revocation or closure likewise: closed if that was asked
      or the enrollment was closed before, and otherwise revoked. */
  lemma EndReceiptSays(t: Trustee, run: Run, i: nat, at: nat, k: EnrollmentKey) returns (m: nat, signed: Signed)
    requires IsRun(t, run) && i < |run.events| && i < at < |run.states|
    requires AnswersEnding(t, run, i, k)
    ensures m <= i && run.events[m].action == run.events[i].action
    ensures EndsAt(t, run, m, signed, k) && signed.target == k.id && k in run.states[m].enrollments
    ensures signed.operation in {RevokeEnrollment, CloseEnrollment}
    ensures
      var row := run.states[m].enrollments[k];
      var answer := AnswerAt(t, run, i, at);
      && answer.Ok? && answer.value.Receipted?
      && answer.value.receipt.signature
         == Signature.Signature(PublicKey(t.signingKey.seed), answer.value.receipt.content)
      && var r := answer.value.receipt.content;
      && Names(t, r, signed, row.enrollment.context) && r.sessionId.None? && r.reason.None?
      && r.recordedAt == run.events[m].now && r.expiresAt == row.enrollment.expiresAt
      && EnrollmentIs(r.oldState, row.status, row.enrollment.expiresAt, run.events[m].now)
      && r.newState == (if signed.operation == CloseEnrollment || row.status == EClosed then Closed else Revoked)
  {
    hide Valid, Act, Evolves, SignedAt, MayEnd, OutcomeAnswer, EnrollmentEvolves;
    m, signed := AnsweredOutcome(t, run, i);
    var key := EnrollmentOutcome(signed, k);
    RecordedRow(t, run, m, signed, key);
    EndsSigned(t, run, m, signed, k);
    ReachableValid(t, run, at);
    RunEvolves(t, run, i + 1, at);
    OutcomeKept(run.states[i + 1], run.states[at], key);
    RunEvolves(t, run, m, at);
    SameEnrollment(run.states[m], run.states[at], k);
    EndingAnswerIs(t, run.states[at], key, k);
  }

  lemma SameEnrollment(a: Database, b: Database, k: EnrollmentKey)
    requires Evolves(a, b) && k in a.enrollments
    ensures k in b.enrollments && b.enrollments[k].enrollment == a.enrollments[k].enrollment
  {
    hide Evolves;
    RowEvolves(a, b, k);
  }

  /** A session stands refused exactly if the document it was begun with did
      not present the factor. */
  lemma RefusedCause(t: Trustee, run: Run, i: nat, s: string)
    returns (b: nat, document: SessionDocument, m: nat, request: EnrollRequest, envelope: ShareEnvelope, key: PublicKey)
    requires IsRun(t, run) && i < |run.states| && s in run.states[i].sessions
    ensures b < i && run.events[b].action == Serve(BeginCall(1, document))
    ensures m < b && run.events[m].action == Serve(EnrollCall(request)) && NamesFactor(envelope, key)
    ensures Enrolled(t, run, b, EnrollmentKey(request.context.enrollmentId, request.context.sequence), m, request,
                     envelope)
    ensures run.states[i].sessions[s].status == SRefused
       <==> !Presents(document, key, request.context.componentId, request.context.slot)
  {
    hide Valid, Act, Evolves, Began, Presents, MayBegin, Origin, Requests;
    b := SessionBegan(t, run, i, s);
    var session, k;
    document, session, k := BeganAttempt(t, run, b, s);
    m, request, envelope := EnrollmentOrigin(t, run, b, k);
    OriginIs(t, run, m, k, run.states[b].enrollments[k].enrollment, request, envelope);
    key := run.states[b].enrollments[k].enrollment.policy.factorKey;
    RunEvolves(t, run, b + 1, i);
    SessionEvolved(run.states[b + 1], run.states[i], s);
    RequestsCanonical(document, session);
  }

  lemma RequestsCanonical(document: SessionDocument, session: Session)
    requires Requests(document, session)
    ensures session.canonical == document
  {
    hide IsHex, IsDigestText;
  }
}
