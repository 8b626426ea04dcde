/** Where what the tables hold comes from: the events of a run that enrolled,
    recorded, stopped and closed. */
module Origins {
  import opened Basics
  import opened Crypto
  import opened Wire
  import opened State
  import opened Trustee
  import opened Tables
  import opened Transactions
  import opened Invariant
  import opened RecoveryPreservation
  import opened Retries
  import opened Steps
  import opened Runs
  import opened Releases
  import opened History
  import opened Receipts
  import opened Acceptance
  import opened Effects

  // -------------------------------------------------------------------------
  // Enrollments

  /** The row under `k` was enrolled from this request. */
  ghost predicate EnrolledBy(tx: Transaction, action: Action, now: int, k: EnrollmentKey) {
    && action.Serve? && action.request.EnrollCall?
    && k in tx.db.enrollments
    && tx.db.enrollments[k].requestDigest == Sha256(action.request.enroll)
    && tx.db.enrollments[k].storedAt == now
  }

  lemma EnrollAdds(t: Trustee, db: Database, request: EnrollRequest, now: int, k: EnrollmentKey)
    ensures
      var tx := Transactions.Enroll(t, db, request, now);
      k in tx.db.enrollments ==> k in db.enrollments || EnrolledBy(tx, Serve(EnrollCall(request)), now, k)
  {
    hide Accepted, CheckArtifact, ByChallenge, Redeemable, Current;
  }

  lemma BeginAddsNone(t: Trustee, db: Database, version: nat, document: SessionDocument, now: int, k: EnrollmentKey)
    requires Valid(t, db)
    ensures k in Transactions.BeginRecovery(t, db, version, document, now).db.enrollments ==> k in db.enrollments
  {
    hide Valid, VerifySession, Session.Binds, Admit, NewSession, EnrollmentOk, Current;
    if Transactions.BeginRecovery(t, db, version, document, now).db != db {
      var session := VerifySession(document).value;
      var row := Current(db.enrollments, session.enrollmentId).value;
      var l :| IsCurrent(db.enrollments, session.enrollmentId, l) && row == db.enrollments[l];
      KnownRow(t, db, l);
    }
  }

  lemma SignedAddsNone(t: Trustee, db: Database, signed: Signed, random: Random, now: int, k: EnrollmentKey)
    requires Valid(t, db) && Formattable(now)
    ensures k in ActSigned(t, db, signed, random, now).db.enrollments ==> k in db.enrollments
  {
    hide Valid, Polls;
    hide Transactions.ReadEnrollment, Transactions.ReadRecovery, Transactions.CancelRecovery, EndEnrollment;
    match signed.operation
    case ReadEnrollment => ReadEnrollmentSteps(t, db, signed, now);
    case ReadRecovery =>
      ReadRecoveryPolls(t, db, signed, random, now);
      var tx := Transactions.ReadRecovery(t, db, signed, random, now);
      if !tx.pending.Failed? {
        PollsKeepEnrollments(t, db, tx, signed, random.sealing, now);
      }
    case CancelRecovery => CancelSteps(t, db, signed, now, "");
    case RevokeEnrollment | CloseEnrollment => EndSteps(t, db, signed, now, k);
    case _ =>
  }

  lemma ActAdds(t: Trustee, db: Database, action: Action, random: Random, now: int, k: EnrollmentKey)
    requires Valid(t, db) && Formattable(now)
    ensures
      var tx := Act(t, db, action, random, now);
      k in tx.db.enrollments ==> k in db.enrollments || EnrolledBy(tx, action, now, k)
  {
    hide Valid, EnrolledBy, Transactions.Enroll, Transactions.BeginRecovery, ActSigned, ParseSigned;
    match action
    case Invite(_) =>
    case Serve(EnrollCall(request)) => EnrollAdds(t, db, request, now, k);
    case Serve(BeginCall(version, document)) => BeginAddsNone(t, db, version, document, now, k);
    case Serve(SignedCall(request)) =>
      var signed := ParseSigned(request, t.componentId);
      if signed.Some? {
        SignedAddsNone(t, db, signed.value, random, now, k);
      }
    case Serve(_) =>
  }

  /** Every enrollment row comes from one enroll request of the run, accepted
      when it was served, for an envelope the holder sealed and signed. */
  ghost predicate Origin(
    t: Trustee, run: Run, m: nat, k: EnrollmentKey, e: Enrollment, request: EnrollRequest, envelope: ShareEnvelope)
    requires m < |run.events|
  {
    && run.events[m].action == Serve(EnrollCall(request)) && request.sealedEnvelope.Some?
    && k == EnrollmentKey(request.context.enrollmentId, request.context.sequence)
    && WellFormed(request.context) && request.context.componentId == t.componentId
    && EnrollsAs(t, request.context, envelope, run.events[m].now, e)
    && exists a: nat ::
         && HolderSealed(t, request.context, request.sealedEnvelope.value, envelope, a)
         && SameBindings(envelope, request.context, a)
  }

  lemma {:induction false} EnrollmentOrigin(t: Trustee, run: Run, i: nat, k: EnrollmentKey)
    returns (m: nat, request: EnrollRequest, envelope: ShareEnvelope)
    requires IsRun(t, run) && i < |run.states| && k in run.states[i].enrollments
    ensures m < i && k !in run.states[m].enrollments
    ensures Origin(t, run, m, k, run.states[i].enrollments[k].enrollment, request, envelope)
    ensures run.states[i].enrollments[k].requestDigest == Sha256(request)
    decreases i
  {
    hide Act, Valid, Evolves, EnrolledBy, Accepted, WellFormed, EnrollsAs, HolderSealed, SameBindings;
    assert i > 0;
    var event := run.events[i - 1];
    ReachableValid(t, run, i - 1);
    if k in run.states[i - 1].enrollments {
      m, request, envelope := EnrollmentOrigin(t, run, i - 1, k);
      RunEvolves(t, run, i - 1, i);
      RowEvolves(run.states[i - 1], run.states[i], k);
    } else {
      ActAdds(t, run.states[i - 1], event.action, event.random, event.now, k);
      m := i - 1;
      request, envelope := RowOrigin(t, run, i, k);
    }
  }

  lemma RowOrigin(t: Trustee, run: Run, i: nat, k: EnrollmentKey)
    returns (request: EnrollRequest, envelope: ShareEnvelope)
    requires IsRun(t, run) && 0 < i < |run.states| && k in run.states[i].enrollments
    requires EnrolledBy(Performed(t, run, i - 1), run.events[i - 1].action, run.events[i - 1].now, k)
    ensures Origin(t, run, i - 1, k, run.states[i].enrollments[k].enrollment, request, envelope)
    ensures run.states[i].enrollments[k].requestDigest == Sha256(request)
  {
    hide Act, Valid, Accepted, WellFormed, EnrollsAs, HolderSealed, SameBindings;
    ReachableRow(t, run, i, k);
    var row := run.states[i].enrollments[k];
    request := run.events[i - 1].action.request.enroll;
    AcceptsExactly(t, request.context, request.sealedEnvelope.value, row.storedAt, row.enrollment);
    var a: nat;
    envelope, a :| && HolderSealed(t, request.context, request.sealedEnvelope.value, envelope, a)
                   && SameBindings(envelope, request.context, a)
                   && EnrollsAs(t, request.context, envelope, row.storedAt, row.enrollment);
    EnrollsContext(t, request.context, envelope, row.storedAt, row.enrollment);
  }

  lemma EnrollsContext(t: Trustee, context: EnrollmentContext, envelope: ShareEnvelope, now: int, e: Enrollment)
    requires EnrollsAs(t, context, envelope, now, e)
    ensures e.context == context && PolicyOf(envelope.policy, e.policy)
    ensures envelope.authorizationKey == Some(e.authorizationKey) && envelope.expiresAt == At(e.expiresAt)
  {
    hide Slip39.Validated, PolicyOf;
  }

  // -------------------------------------------------------------------------
  // Outcomes

  /** Event `m` is this signed request. */
  ghost predicate SignedAt(t: Trustee, run: Run, m: nat, signed: Signed)
    requires m < |run.events|
  {
    && run.events[m].action.Serve? && run.events[m].action.request.SignedCall?
    && Addressed(run.events[m].action.request.signed, t.componentId, signed)
  }

  lemma SignedAtIs(t: Trustee, run: Run, m: nat, signed: Signed)
    requires m < |run.events|
    ensures SignedAt(t, run, m, signed) <==> SignedOf(t, run.events[m].action) == Some(signed)
  {
    hide Addressed, ParseSigned;
    var action := run.events[m].action;
    if action.Serve? && action.request.SignedCall? {
      ParsesExactly(action.request.signed, t.componentId, signed);
    }
  }

  /** Event `m` is a cancellation that was served and recorded. */
  ghost predicate CancelsAt(t: Trustee, run: Run, m: nat, signed: Signed)
    requires m < |run.events| && m < |run.states|
  {
    && SignedAt(t, run, m, signed) && signed.operation == CancelRecovery
    && MayCancel(t, run.states[m], signed, run.events[m].now)
  }

  /** Event `m` is a revocation or closure of `k` that was served and recorded. */
  ghost predicate EndsAt(t: Trustee, run: Run, m: nat, signed: Signed, k: EnrollmentKey)
    requires m < |run.events| && m < |run.states|
  {
    && SignedAt(t, run, m, signed) && signed.operation in {RevokeEnrollment, CloseEnrollment}
    && MayEnd(t, run.states[m], signed, run.events[m].now, k)
  }

  lemma CancelsAtDoes(t: Trustee, run: Run, m: nat, signed: Signed)
    requires IsRun(t, run) && m < |run.events| && SignedAt(t, run, m, signed) && signed.operation == CancelRecovery
    ensures
      var tx := Performed(t, run, m);
      && run.states[m + 1] == tx.db
      && (CancelsAt(t, run, m, signed) ==> Cancels(run.states[m], tx, signed, run.events[m].now))
      && (!CancelsAt(t, run, m, signed) ==> tx.db == run.states[m])
      && (tx.pending.OutcomeReceipt? && !CancelsAt(t, run, m, signed) ==>
            && SessionOutcome(signed) in run.states[m].outcomes
            && tx.pending == OutcomeReceipt(SessionScope(signed.target), signed.requestId)
            && run.states[m].outcomes[SessionOutcome(signed)].requestDigest == signed.digest)
  {
    hide Act, SignedOf, Addressed, MayCancel, Cancels, Transactions.CancelRecovery;
    SignedAtIs(t, run, m, signed);
    var event := run.events[m];
    SignedActs(t, run.states[m], event.action, event.random, event.now);
    CancelServed(t, run.states[m], signed, event.now);
  }

  /** The enrollment an ending names, if there is one. */
  lemma EndsAtDoes(t: Trustee, run: Run, m: nat, signed: Signed) returns (k: EnrollmentKey)
    requires IsRun(t, run) && m < |run.events| && SignedAt(t, run, m, signed)
    requires signed.operation in {RevokeEnrollment, CloseEnrollment}
    ensures
      var tx := Performed(t, run, m);
      && run.states[m + 1] == tx.db
      && (forall l :: EndsAt(t, run, m, signed, l) ==> l == k)
      && (EndsAt(t, run, m, signed, k) ==> Ends(run.states[m], tx, signed, run.events[m].now, k))
      && (!EndsAt(t, run, m, signed, k) ==> tx.db == run.states[m])
      && (tx.pending.OutcomeReceipt? && !EndsAt(t, run, m, signed, k) ==>
            && EnrollmentOutcome(signed, k) in run.states[m].outcomes
            && tx.pending == OutcomeReceipt(EnrollmentScope(k), signed.requestId)
            && run.states[m].outcomes[EnrollmentOutcome(signed, k)].requestDigest == signed.digest)
  {
    hide Act, Valid, SignedOf, Addressed, Ends, EndEnrollment, EnrollmentOk;
    SignedAtIs(t, run, m, signed);
    var event := run.events[m];
    var db := run.states[m];
    SignedActs(t, db, event.action, event.random, event.now);
    ReachableValid(t, run, m);
    if l :| l in db.enrollments && l.id == signed.target {
      k := l;
      EndServed(t, db, signed, event.now, k);
      OneRow(t, db, k);
    } else {
      k := EnrollmentKey(signed.target, 0);
      UnknownNotEnded(t, db, signed, event.now);
    }
  }

  /** The only ways an outcome is recorded. */
  lemma OutcomeAdded(t: Trustee, run: Run, m: nat, key: RequestKey) returns (signed: Signed)
    requires IsRun(t, run) && m < |run.events|
    requires key !in run.states[m].outcomes && key in run.states[m + 1].outcomes
    ensures match key.scope
            case SessionScope(_) => CancelsAt(t, run, m, signed) && key == SessionOutcome(signed)
            case EnrollmentScope(k) => EndsAt(t, run, m, signed, k) && key == EnrollmentOutcome(signed, k)
  {
    hide Act, Valid, Addressed, MayCancel, MayEnd, SignedOf, SessionIs, EnrollmentIs;
    hide Transactions.ReadEnrollment, Transactions.ReadRecovery;
    var event := run.events[m];
    var db := run.states[m];
    if SignedOf(t, event.action).None? {
      OthersRecordNothing(t, db, event.action, event.random, event.now);
      assert false;
    } else {
      signed := SignedOf(t, event.action).value;
      SignedAtIs(t, run, m, signed);
      SignedActs(t, db, event.action, event.random, event.now);
      match signed.operation
      case ReadEnrollment | ReadRecovery => PollsRecordNothing(t, db, signed, event.random, event.now);
      case CancelRecovery => CancelsAtDoes(t, run, m, signed);
      case RevokeEnrollment | CloseEnrollment => var k := EndsAtDoes(t, run, m, signed);
      case _ =>
    }
  }

  /** Event `m` recorded the outcome under `key`. */
  ghost predicate RecordsAt(t: Trustee, run: Run, m: nat, signed: Signed, key: RequestKey)
    requires m < |run.events| && m + 1 < |run.states|
  {
    && key !in run.states[m].outcomes && key in run.states[m + 1].outcomes
    && match key.scope
       case SessionScope(_) => CancelsAt(t, run, m, signed) && key == SessionOutcome(signed)
       case EnrollmentScope(k) => EndsAt(t, run, m, signed, k) && key == EnrollmentOutcome(signed, k)
  }

  lemma {:induction false} OutcomeOrigin(t: Trustee, run: Run, i: nat, key: RequestKey) returns (m: nat, signed: Signed)
    requires IsRun(t, run) && i < |run.states| && key in run.states[i].outcomes
    ensures m < i && RecordsAt(t, run, m, signed, key)
    ensures run.states[i].outcomes[key] == run.states[m + 1].outcomes[key]
    decreases i
  {
    hide Act, Valid, Evolves, CancelsAt, EndsAt;
    assert i > 0;
    if key in run.states[i - 1].outcomes {
      m, signed := OutcomeOrigin(t, run, i - 1, key);
      RunEvolves(t, run, i - 1, i);
      OutcomeKept(run.states[i - 1], run.states[i], key);
    } else {
      m := i - 1;
      signed := OutcomeAdded(t, run, i - 1, key);
    }
  }

  /** What the recording event left under its key. */
  lemma RecordedRow(t: Trustee, run: Run, m: nat, signed: Signed, key: RequestKey)
    requires IsRun(t, run) && m < |run.events| && RecordsAt(t, run, m, signed, key)
    ensures
      var outcome := run.states[m + 1].outcomes[key];
      && outcome.requestDigest == signed.digest && outcome.operation == signed.operation
      && outcome.recordedAt == run.events[m].now && key.requestId == signed.requestId
      && Performed(t, run, m).pending == OutcomeReceipt(key.scope, key.requestId)
      && SignedAt(t, run, m, signed)
    ensures match key.scope
            case SessionScope(s) =>
              CancelsAt(t, run, m, signed) && s == signed.target
              && Cancels(run.states[m], Performed(t, run, m), signed, run.events[m].now)
            case EnrollmentScope(k) =>
              EndsAt(t, run, m, signed, k) && k.id == signed.target
              && Ends(run.states[m], Performed(t, run, m), signed, run.events[m].now, k)
  {
    hide Act, Valid, Addressed, MayCancel, SessionIs, EnrollmentIs, Genuine, Timely;
    match key.scope
    case SessionScope(s) => CancelsAtDoes(t, run, m, signed);
    case EnrollmentScope(k) =>
      var l := EndsAtDoes(t, run, m, signed);
  }

  /** An answered outcome, first or repeated, goes back to the one event that
      recorded it, which was the same request byte for byte. */
  lemma AnsweredOutcome(t: Trustee, run: Run, i: nat) returns (m: nat, signed: Signed)
    requires IsRun(t, run) && i < |run.events| && Performed(t, run, i).pending.OutcomeReceipt?
    ensures
      var pending := Performed(t, run, i).pending;
      var key := RequestKey(pending.scope, pending.requestId);
      && m <= i && RecordsAt(t, run, m, signed, key)
      && run.events[m].action == run.events[i].action && SignedAt(t, run, i, signed)
      && key in run.states[i + 1].outcomes
      && run.states[i + 1].outcomes[key] == run.states[m + 1].outcomes[key]
  {
    hide Act, Valid, Evolves, RecordsAt, SignedAt, CancelsAt, EndsAt;
    var pending := Performed(t, run, i).pending;
    var key := RequestKey(pending.scope, pending.requestId);
    var mine := OutcomeAnswerSigned(t, run, i);
    m, signed := OutcomeOrigin(t, run, i + 1, key);
    RecordedRow(t, run, m, signed, key);
    SameRequest(t, run, m, i, signed, mine);
  }

  lemma OutcomeAnswerSigned(t: Trustee, run: Run, i: nat) returns (mine: Signed)
    requires IsRun(t, run) && i < |run.events| && Performed(t, run, i).pending.OutcomeReceipt?
    ensures SignedAt(t, run, i, mine)
    ensures
      var pending := Performed(t, run, i).pending;
      var key := RequestKey(pending.scope, pending.requestId);
      key in run.states[i + 1].outcomes && run.states[i + 1].outcomes[key].requestDigest == mine.digest
  {
    hide Act, Valid, Addressed, MayCancel, MayEnd, SignedOf, SessionIs, EnrollmentIs;
    hide Transactions.ReadEnrollment, Transactions.ReadRecovery;
    var event := run.events[i];
    var db := run.states[i];
    if SignedOf(t, event.action).None? {
      UnsignedRecordsNothing(t, db, event.action, event.random, event.now);
      assert false;
    } else {
      mine := SignedOf(t, event.action).value;
      SignedAtIs(t, run, i, mine);
      SignedActs(t, db, event.action, event.random, event.now);
      SignedRecordsOutcome(t, db, mine, event.random, event.now);
      match mine.operation
      case CancelRecovery => CancelsAtDoes(t, run, i, mine);
      case RevokeEnrollment | CloseEnrollment => var k := EndsAtDoes(t, run, i, mine);
      case _ =>
    }
  }

  lemma UnsignedRecordsNothing(t: Trustee, db: Database, action: Action, random: Random, now: int)
    requires SignedOf(t, action).None?
    ensures !Act(t, db, action, random, now).pending.OutcomeReceipt?
  {
    hide ParseSigned, ActSigned, Transactions.Enroll, Transactions.BeginRecovery;
    match action
    case Serve(EnrollCall(request)) => EnrollRecordsEnrollment(t, db, request, now);
    case Serve(BeginCall(version, document)) => BeginRecordsSession(t, db, version, document, now);
    case _ =>
  }

  lemma SameRequest(t: Trustee, run: Run, m: nat, i: nat, first: Signed, second: Signed)
    requires m < |run.events| && i < |run.events| && SignedAt(t, run, m, first) && SignedAt(t, run, i, second)
    requires first.digest == second.digest
    ensures run.events[m].action == run.events[i].action && SignedAt(t, run, i, first)
  {
    hide IsHex;
  }

  // -------------------------------------------------------------------------
  // Causes

  lemma SessionMoves(t: Trustee, run: Run, j: nat, s: string)
    requires IsRun(t, run) && j < |run.events| && s in run.states[j].sessions
    ensures s in run.states[j + 1].sessions
    ensures
      var row, after := run.states[j].sessions[s], run.states[j + 1].sessions[s];
      && (forall signed | CancelsAt(t, run, j, signed) && signed.target == s ::
            after == Stopped(row, signed.party, run.events[j].now))
      && ((forall signed | CancelsAt(t, run, j, signed) :: signed.target != s) ==>
            after.status == row.status || (row.status == SCoolingDown && after.status == SReleased))
  {
    hide Act, Valid, Evolves, CancelsAt, EndsAt, SignedAt, SessionIs, Hands, Begins;
    RunEvolves(t, run, j, j + 1);
    SessionEvolved(run.states[j], run.states[j + 1], s);
    forall signed | CancelsAt(t, run, j, signed) && signed.target == s
      ensures run.states[j + 1].sessions[s] == Stopped(run.states[j].sessions[s], signed.party, run.events[j].now)
    {
      CancelsSigned(t, run, j, signed);
      CancelsAtDoes(t, run, j, signed);
    }
    if forall signed | CancelsAt(t, run, j, signed) :: signed.target != s {
      Stepped(t, run, j, s, EnrollmentKey("", 0));
      if Stops(run.states[j], Performed(t, run, j), s) {
        var m, signed := AnsweredOutcome(t, run, j);
        RecordedRow(t, run, m, signed, SessionOutcome(signed));
        CancelsSigned(t, run, m, signed);
        CancelsAtDoes(t, run, j, signed);
      }
    }
  }

  lemma CancelsSigned(t: Trustee, run: Run, m: nat, signed: Signed)
    requires m < |run.events| && m < |run.states| && CancelsAt(t, run, m, signed)
    ensures SignedAt(t, run, m, signed) && signed.operation == CancelRecovery
    ensures signed.target in run.states[m].sessions && signed.party in {Some(Holder), Some(Candidate)}
  {
    hide SignedAt, Genuine, Timely;
  }

  /** Event `v` is this party's cancellation of the session while it was live. */
  ghost predicate StopsAt(t: Trustee, run: Run, v: nat, s: string, party: Party)
    requires v < |run.events| && v < |run.states|
  {
    && s in run.states[v].sessions && run.states[v].sessions[s].status in {SCoolingDown, SReleased}
    && run.events[v].now < run.states[v].sessions[s].expiresAt
    && exists signed :: CancelsAt(t, run, v, signed) && signed.target == s && signed.party == Some(party)
  }

  /** A session is vetoed exactly after the holder stopped it live, cancelled
      exactly after the candidate did. */
  lemma {:induction false} StopCause(t: Trustee, run: Run, i: nat, s: string)
    requires IsRun(t, run) && i < |run.states| && s in run.states[i].sessions
    ensures run.states[i].sessions[s].status == SVetoed <==> exists v: nat :: v < i && StopsAt(t, run, v, s, Holder)
    ensures run.states[i].sessions[s].status == SCancelled
       <==> exists v: nat :: v < i && StopsAt(t, run, v, s, Candidate)
    decreases i
  {
    hide Act, Valid, Evolves, CancelsAt, StopsAt, Began;
    assert i > 0;
    if s in run.states[i - 1].sessions {
      StopCause(t, run, i - 1, s);
      StopMoves(t, run, i - 1, s);
    } else {
      NotStoppedBefore(t, run, i, s);
    }
  }

  lemma NotStoppedBefore(t: Trustee, run: Run, i: nat, s: string)
    requires IsRun(t, run) && 0 < i < |run.states| && s in run.states[i].sessions && s !in run.states[i - 1].sessions
    ensures run.states[i].sessions[s].status in {SCoolingDown, SRefused}
    ensures forall v: nat, party | v < i :: !StopsAt(t, run, v, s, party)
  {
    hide Act, Valid, Evolves, CancelsAt, VerifySession, FactorHolds, Emits, Stops;
    Stepped(t, run, i - 1, s, EnrollmentKey("", 0));
    forall v: nat, party | v < i
      ensures !StopsAt(t, run, v, s, party)
    {
      if s in run.states[v].sessions {
        RunEvolves(t, run, v, i - 1);
        SessionEvolved(run.states[v], run.states[i - 1], s);
      }
    }
  }

  lemma StopMoves(t: Trustee, run: Run, j: nat, s: string)
    requires IsRun(t, run) && j < |run.events| && s in run.states[j].sessions && s in run.states[j + 1].sessions
    ensures
      var before, after := run.states[j].sessions[s].status, run.states[j + 1].sessions[s].status;
      && (after == SVetoed <==> before == SVetoed || StopsAt(t, run, j, s, Holder))
      && (after == SCancelled <==> before == SCancelled || StopsAt(t, run, j, s, Candidate))
  {
    hide Act, CancelsAt, Valid;
    SessionMoves(t, run, j, s);
    if signed :| CancelsAt(t, run, j, signed) && signed.target == s {
      CancelsSigned(t, run, j, signed);
      forall other | CancelsAt(t, run, j, other)
        ensures other == signed
      {
        OneSigned(t, run, j, signed, other);
      }
    }
  }

  lemma OneSigned(t: Trustee, run: Run, m: nat, first: Signed, second: Signed)
    requires m < |run.events| && m < |run.states| && CancelsAt(t, run, m, first) && CancelsAt(t, run, m, second)
    ensures first == second
  {
    hide MayCancel, SignedOf, SignedAt;
    SignedAtIs(t, run, m, first);
    SignedAtIs(t, run, m, second);
  }

  // -------------------------------------------------------------------------
  // Endings

  lemma EnrollmentMoves(t: Trustee, run: Run, j: nat, k: EnrollmentKey)
    requires IsRun(t, run) && j < |run.events| && k in run.states[j].enrollments
    ensures k in run.states[j + 1].enrollments
    ensures
      var row, after := run.states[j].enrollments[k], run.states[j + 1].enrollments[k];
      && (forall signed | EndsAt(t, run, j, signed, k) :: after.status == Tombstone(row, signed.operation).status)
      && ((forall signed :: !EndsAt(t, run, j, signed, k)) ==> after.status == row.status)
  {
    hide Act, Valid, Evolves, CancelsAt, EndsAt, SignedAt, EnrollmentIs, SessionStep;
    RunEvolves(t, run, j, j + 1);
    RowEvolves(run.states[j], run.states[j + 1], k);
    forall signed | EndsAt(t, run, j, signed, k)
      ensures run.states[j + 1].enrollments[k].status
           == Tombstone(run.states[j].enrollments[k], signed.operation).status
    {
      EndsSigned(t, run, j, signed, k);
      var l := EndsAtDoes(t, run, j, signed);
    }
    if forall signed :: !EndsAt(t, run, j, signed, k) {
      Stepped(t, run, j, "", k);
      if Settles(Performed(t, run, j).pending, EnrollmentScope(k)) {
        var m, signed := AnsweredOutcome(t, run, j);
        RecordedRow(t, run, m, signed, EnrollmentOutcome(signed, k));
        EndsSigned(t, run, m, signed, k);
        var l := EndsAtDoes(t, run, j, signed);
      }
    }
  }

  lemma EndsSigned(t: Trustee, run: Run, m: nat, signed: Signed, k: EnrollmentKey)
    requires m < |run.events| && m < |run.states| && EndsAt(t, run, m, signed, k)
    ensures SignedAt(t, run, m, signed) && signed.operation in {RevokeEnrollment, CloseEnrollment}
    ensures k in run.states[m].enrollments && k.id == signed.target
  {
    hide SignedAt, Genuine, Timely;
  }

  /** Event `m` is a recorded ending of the enrollment; and a closure. */
  ghost predicate EndedAt(t: Trustee, run: Run, m: nat, k: EnrollmentKey)
    requires m < |run.events| && m < |run.states|
  {
    exists signed :: EndsAt(t, run, m, signed, k)
  }

  ghost predicate ClosedAt(t: Trustee, run: Run, m: nat, k: EnrollmentKey)
    requires m < |run.events| && m < |run.states|
  {
    exists signed :: EndsAt(t, run, m, signed, k) && signed.operation == CloseEnrollment
  }

  lemma EndMoves(t: Trustee, run: Run, j: nat, k: EnrollmentKey)
    requires IsRun(t, run) && j < |run.events| && k in run.states[j].enrollments
    ensures k in run.states[j + 1].enrollments
    ensures
      var before, after := run.states[j].enrollments[k].status, run.states[j + 1].enrollments[k].status;
      && (after == EClosed <==> before == EClosed || ClosedAt(t, run, j, k))
      && (after == EAccepted <==> before == EAccepted && !EndedAt(t, run, j, k))
  {
    hide Act, Valid, EndsAt;
    EnrollmentMoves(t, run, j, k);
    if signed :| EndsAt(t, run, j, signed, k) {
      forall other | EndsAt(t, run, j, other, k)
        ensures other == signed
      {
        OneEnding(t, run, j, signed, other, k);
      }
    }
  }

  /** An enrollment is closed exactly after a recorded closure, accepted exactly
      before any ending, and revoked otherwise. */
  lemma {:induction false} EndCause(t: Trustee, run: Run, i: nat, k: EnrollmentKey)
    requires IsRun(t, run) && i < |run.states| && k in run.states[i].enrollments
    ensures run.states[i].enrollments[k].status == EClosed <==> exists m: nat :: m < i && ClosedAt(t, run, m, k)
    ensures run.states[i].enrollments[k].status == EAccepted <==> forall m: nat :: m < i ==> !EndedAt(t, run, m, k)
    ensures run.states[i].enrollments[k].status in {EAccepted, ERevoked, EClosed}
    decreases i
  {
    hide Act, Valid, Evolves, EndedAt, ClosedAt, EnrollmentOk;
    assert i > 0;
    ReachableRow(t, run, i, k);
    RowIs(t, k, run.states[i].enrollments[k]);
    if k in run.states[i - 1].enrollments {
      EndCause(t, run, i - 1, k);
      EndMoves(t, run, i - 1, k);
    } else {
      NotEndedBefore(t, run, i, k);
    }
  }

  lemma NotEndedBefore(t: Trustee, run: Run, i: nat, k: EnrollmentKey)
    requires IsRun(t, run) && 0 < i < |run.states|
    requires k in run.states[i].enrollments && k !in run.states[i - 1].enrollments
    ensures run.states[i].enrollments[k].status == EAccepted
    ensures forall m: nat :: m < i ==> !EndedAt(t, run, m, k) && !ClosedAt(t, run, m, k)
  {
    hide Act, Valid, Evolves, SignedAt, SessionStep;
    Stepped(t, run, i - 1, "", k);
    forall m: nat, signed | m < i
      ensures !EndsAt(t, run, m, signed, k)
    {
      if k in run.states[m].enrollments {
        RunEvolves(t, run, m, i - 1);
        RowEvolves(run.states[m], run.states[i - 1], k);
      }
    }
    if Settles(Performed(t, run, i - 1).pending, EnrollmentScope(k)) {
      var m, signed := AnsweredOutcome(t, run, i - 1);
      RecordedRow(t, run, m, signed, EnrollmentOutcome(signed, k));
    }
  }

  lemma OneEnding(t: Trustee, run: Run, m: nat, first: Signed, second: Signed, k: EnrollmentKey)
    requires m < |run.events| && m < |run.states| && EndsAt(t, run, m, first, k) && EndsAt(t, run, m, second, k)
    ensures first == second
  {
    hide MayEnd, SignedOf, SignedAt;
    SignedAtIs(t, run, m, first);
    SignedAtIs(t, run, m, second);
  }
}
