/** Recovery, cancellation and endings keep the invariant too; so every
    action does. */
module RecoveryPreservation {
  import opened Basics
  import opened Wire
  import opened State
  import opened Trustee
  import opened Tables
  import opened Transactions
  import opened Invariant
  import opened Preservation

  // -------------------------------------------------------------------------
  // Beginning a recovery

  lemma NewSessionOk(t: Trustee, session: Session, e: EnrollmentRow, now: int, skew: int)
    requires VerifySession(session.canonical) == Ok(session) && session.Binds(e.enrollment.context)
    requires e.requestDigest.Sha256? && Source(e).sealedEnvelope.Some? && Formattable(now)
    requires Admit(e.State(), e.enrollment.policy, e.attemptsUsed, session.requestedAt, session.expiresAt, now,
                   skew).Ok?
    ensures
      var admission :=
        Admit(e.State(), e.enrollment.policy, e.attemptsUsed, session.requestedAt, session.expiresAt, now, skew).value;
      var row := NewSession(session, e, admission, now);
      && SessionOk(t, session.sessionId, row, e.(attemptsUsed := e.attemptsUsed + 1))
      && row.key == e.Key() && row.createdAt == now && row.contribution.None?
      && row.remainingAttempts == e.enrollment.policy.maximumAttempts - e.attemptsUsed - 1
  {
    hide FactorHolds;
  }

  lemma NewSessionKeeps(
    t: Trustee, sessions: map<string, SessionRow>, enrollments: map<EnrollmentKey, EnrollmentRow>, id: string,
    row: SessionRow, now: int)
    requires SessionsOk(t, sessions, enrollments) && SessionsPast(sessions, now) && row.createdAt <= now
    requires DecidedBy(row.contribution, now)
    requires id !in sessions && row.key in enrollments && SessionOk(t, id, row, enrollments[row.key])
    requires forall s | s in sessions && sessions[s].key == row.key ::
               sessions[s].remainingAttempts > row.remainingAttempts
    ensures SessionsOk(t, sessions[id := row], enrollments) && SessionsPast(sessions[id := row], now)
    ensures SessionsEvolve(sessions, sessions[id := row], now)
  {
    hide SessionOk;
  }

  /** Every earlier attempt of the enrollment left more attempts. */
  lemma EarlierLeftMore(
    t: Trustee, sessions: map<string, SessionRow>, enrollments: map<EnrollmentKey, EnrollmentRow>, k: EnrollmentKey)
    requires SessionsOk(t, sessions, enrollments) && k in enrollments
    ensures forall s | s in sessions && sessions[s].key == k ::
              sessions[s].remainingAttempts
              >= enrollments[k].enrollment.policy.maximumAttempts - enrollments[k].attemptsUsed
  {
    hide VerifySession, FactorHolds, ContributionOk;
    forall s | s in sessions && sessions[s].key == k
      ensures sessions[s].remainingAttempts
              >= enrollments[k].enrollment.policy.maximumAttempts - enrollments[k].attemptsUsed
    {
      assert SessionOk(t, s, sessions[s], enrollments[k]);
    }
  }

  lemma CountGrows(sessions: map<string, SessionRow>, id: string, row: SessionRow, k: EnrollmentKey)
    requires id !in sessions
    ensures |SessionsOf(sessions[id := row], k)| == |SessionsOf(sessions, k)| + (if k == row.key then 1 else 0)
  {
    assert SessionsOf(sessions[id := row], k) == SessionsOf(sessions, k) + (if k == row.key then {id} else {});
  }

  lemma AttemptCounted(
    sessions: map<string, SessionRow>, enrollments: map<EnrollmentKey, EnrollmentRow>, id: string, row: SessionRow)
    requires AttemptsOk(sessions, enrollments) && id !in sessions && row.key in enrollments
    requires enrollments[row.key].attemptsUsed < enrollments[row.key].enrollment.policy.maximumAttempts
    ensures
      var e := enrollments[row.key];
      AttemptsOk(sessions[id := row], enrollments[row.key := e.(attemptsUsed := e.attemptsUsed + 1)])
  {
    hide SessionsOf;
    forall k | k in enrollments
      ensures |SessionsOf(sessions[id := row], k)| == |SessionsOf(sessions, k)| + (if k == row.key then 1 else 0)
    {
      CountGrows(sessions, id, row, k);
    }
  }

  lemma FrozenStays(r: SessionRow, s: SessionRow, now: int)
    requires Frozen(r, now) && SessionEvolves(r, s, now)
    ensures Frozen(s, now) && s.status == r.status
  {
  }

  lemma MoreSessionsKeep(
    outcomes: map<RequestKey, OutcomeRow>, sessions: map<string, SessionRow>, more: map<string, SessionRow>,
    enrollments: map<EnrollmentKey, EnrollmentRow>, now: int)
    requires OutcomesOk(outcomes, sessions, enrollments, now) && SessionsEvolve(sessions, more, now)
    ensures OutcomesOk(outcomes, more, enrollments, now) && FrozenKept(outcomes, sessions, more)
  {
    hide SessionEvolves, Frozen;
    forall o | o in outcomes
      ensures OutcomeOk(o, more, enrollments, now)
      ensures o.scope.SessionScope? ==> more[o.scope.sessionId].status == sessions[o.scope.sessionId].status
    {
      assert OutcomeOk(o, sessions, enrollments, now);
      if o.scope.SessionScope? {
        FrozenStays(sessions[o.scope.sessionId], more[o.scope.sessionId], now);
      }
    }
  }

  lemma KnownRow(t: Trustee, db: Database, k: EnrollmentKey)
    requires Valid(t, db) && k in db.enrollments
    ensures
      var e := db.enrollments[k];
      && e.Key() == k && e.storedAt <= db.highWater && EnrollmentOk(t, k, e)
      && EnrollmentOk(t, k, e.(attemptsUsed := e.attemptsUsed + 1))
      && e.requestDigest.Sha256? && Source(e).sealedEnvelope.Some?
      && Current(db.enrollments, k.id) == Some(e)
  {
    hide Accepted, SessionsOk, AttemptsOk, InvitationsOk, FewOpen, OutcomesOk;
    assert EnrollmentOk(t, k, db.enrollments[k]);
    CurrentIs(t, db.enrollments, db.challenges, k);
  }

  lemma NewAttemptKeeps(t: Trustee, db: Database, id: string, row: SessionRow)
    requires Valid(t, db) && id !in db.sessions && row.key in db.enrollments
    requires
      var e := db.enrollments[row.key];
      && SessionOk(t, id, row, e.(attemptsUsed := e.attemptsUsed + 1))
      && row.createdAt <= db.highWater && row.contribution.None?
      && e.attemptsUsed < e.enrollment.policy.maximumAttempts
      && row.remainingAttempts == e.enrollment.policy.maximumAttempts - e.attemptsUsed - 1
    ensures
      var e := db.enrollments[row.key];
      Keeps(t, db, db.(enrollments := db.enrollments[row.key := e.(attemptsUsed := e.attemptsUsed + 1)],
                       sessions := db.sessions[id := row]))
  {
    hide EnrollmentsOk, SessionsOk, AttemptsOk, InvitationsOk, FewOpen, OutcomesOk, SessionOk, EnrollmentOk;
    hide InvitationsEvolve, ChallengesEvolve, EnrollmentsEvolve, SessionsEvolve, OutcomesKept, FrozenKept;
    hide InvitationsPast, ChallengesPast, EnrollmentsPast, SessionsPast, NoncesPast, OutcomesPast;
    EvolvesReflexive(db);
    var e := db.enrollments[row.key];
    KnownRow(t, db, row.key);
    var f := e.(attemptsUsed := e.attemptsUsed + 1);
    EnrollmentChanges(t, db.enrollments, db.challenges, db.sessions, row.key, f);
    MoreEnrollmentsKeep(db.outcomes, db.sessions, db.enrollments, row.key, f, db.highWater);
    EarlierLeftMore(t, db.sessions, db.enrollments, row.key);
    var enrollments := db.enrollments[row.key := f];
    NewSessionKeeps(t, db.sessions, enrollments, id, row, db.highWater);
    AttemptCounted(db.sessions, db.enrollments, id, row);
    MoreSessionsKeep(db.outcomes, db.sessions, db.sessions[id := row], enrollments, db.highWater);
  }

  lemma BeginRecoveryKeeps(t: Trustee, db: Database, version: nat, document: SessionDocument, now: int)
    requires Valid(t, db) && Formattable(now)
    ensures Keeps(t, db, Transactions.BeginRecovery(t, db, version, document, now).db)
  {
    hide Valid, Evolves, VerifySession, Session.Binds, Admit, NewSession, SessionOk, EnrollmentOk;
    var after := Transactions.BeginRecovery(t, db, version, document, now).db;
    if after == db {
      EvolvesReflexive(db);
    } else {
      var session := VerifySession(document).value;
      CanonicalIs(document);
      var row := Current(db.enrollments, session.enrollmentId).value;
      var k :| IsCurrent(db.enrollments, session.enrollmentId, k) && row == db.enrollments[k];
      KnownRow(t, db, k);
      Ticks(t, db, now);
      var ticked := db.(highWater := now);
      NewSessionOk(t, session, row, now, t.limits.skewSecs);
      var admission := Admit(row.State(), row.enrollment.policy, row.attemptsUsed, session.requestedAt,
                             session.expiresAt, now, t.limits.skewSecs).value;
      NewAttemptKeeps(t, ticked, session.sessionId, NewSession(session, row, admission, now));
      EvolvesTransitive(db, ticked, after);
    }
  }

  lemma CanonicalIs(document: SessionDocument)
    requires VerifySession(document).Ok?
    ensures VerifySession(document).value.canonical == document
  {
  }

  // -------------------------------------------------------------------------
  // Changes to one session

  lemma SessionChanges(
    t: Trustee, sessions: map<string, SessionRow>, enrollments: map<EnrollmentKey, EnrollmentRow>, id: string,
    row: SessionRow, now: int)
    requires SessionsOk(t, sessions, enrollments) && SessionsPast(sessions, now)
    requires id in sessions && SessionEvolves(sessions[id], row, now) && DecidedBy(row.contribution, now)
    requires row.key in enrollments && SessionOk(t, id, row, enrollments[row.key])
    ensures
      var after := sessions[id := row];
      SessionsOk(t, after, enrollments) && SessionsPast(after, now) && SessionsEvolve(sessions, after, now)
  {
    hide SessionOk;
  }

  lemma SameAttempts(
    sessions: map<string, SessionRow>, enrollments: map<EnrollmentKey, EnrollmentRow>, id: string, row: SessionRow)
    requires AttemptsOk(sessions, enrollments) && id in sessions && sessions[id].key == row.key
    ensures AttemptsOk(sessions[id := row], enrollments)
  {
    forall k
      ensures SessionsOf(sessions[id := row], k) == SessionsOf(sessions, k)
    {
    }
  }

  lemma SessionChangeKeeps(t: Trustee, db: Database, id: string, row: SessionRow)
    requires Valid(t, db) && id in db.sessions && SessionEvolves(db.sessions[id], row, db.highWater)
    requires DecidedBy(row.contribution, db.highWater)
    requires row.key in db.enrollments && SessionOk(t, id, row, db.enrollments[row.key])
    ensures Keeps(t, db, db.(sessions := db.sessions[id := row]))
  {
    hide EnrollmentsOk, SessionsOk, AttemptsOk, InvitationsOk, FewOpen, OutcomesOk, SessionOk;
    hide InvitationsEvolve, ChallengesEvolve, EnrollmentsEvolve, SessionsEvolve, OutcomesKept, FrozenKept;
    hide InvitationsPast, ChallengesPast, EnrollmentsPast, SessionsPast, NoncesPast, OutcomesPast;
    EvolvesReflexive(db);
    SessionChanges(t, db.sessions, db.enrollments, id, row, db.highWater);
    SameAttempts(db.sessions, db.enrollments, id, row);
    MoreSessionsKeep(db.outcomes, db.sessions, db.sessions[id := row], db.enrollments, db.highWater);
  }

  lemma KnownSession(t: Trustee, db: Database, id: string)
    requires Valid(t, db) && id in db.sessions
    ensures
      var row := db.sessions[id];
      && row.key in db.enrollments && row.createdAt <= db.highWater && DecidedBy(row.contribution, db.highWater)
      && SessionOk(t, id, row, db.enrollments[row.key])
      && EnrollmentOk(t, row.key, db.enrollments[row.key])
  {
    hide SessionOk, EnrollmentOk, AttemptsOk, InvitationsOk, FewOpen, OutcomesOk;
  }

  // -------------------------------------------------------------------------
  // Releasing

  lemma CustodyHolds(t: Trustee, k: EnrollmentKey, e: EnrollmentRow) returns (plaintext: Document)
    requires EnrollmentOk(t, k, e)
    ensures Holds(t, e.enrollment.context, Source(e).sealedEnvelope.value, plaintext)
  {
    hide Accepted, Holds;
    AcceptedFacts(t, Source(e).context, Source(e).sealedEnvelope.value, e.storedAt);
    plaintext :| Holds(t, e.enrollment.context, Source(e).sealedEnvelope.value, plaintext);
  }

  /** No stuck release: whenever the release predicate says to emit, emitting
      succeeds, whatever randomness sealing draws, with a contribution only
      this session's destination opens, to the plaintext accepted. */
  lemma EmissionSucceeds(
    t: Trustee, id: string, row: SessionRow, e: EnrollmentRow, now: int, floor: int, sealing: nat)
    requires SessionOk(t, id, row, e) && EnrollmentOk(t, row.key, e) && Formattable(now)
    requires MayRelease(e.State(), row.State(), now, floor) == Ok(Emit)
    ensures
      var released := Released(t, e, row, now, floor, sealing);
      && released.Ok? && released.value.Some? && released.value.value.content.decidedAt == now
      && ContributionOk(t, row, e, VerifySession(row.request).value, released.value.value)
      && SessionOk(t, id, row.(status := SReleased, contribution := released.value), e)
  {
    hide VerifySession, Accepted, FactorHolds, VerifiedEnvelope;
    var plaintext := CustodyHolds(t, row.key, e);
    var s := VerifySession(row.request).value;
    SessionFormats(row.request);
    var sealed := Source(e).sealedEnvelope.value;
    assert e.sealedEnvelope == Some(sealed);
    var info := RecoveryInfoFor(id, e.enrollment.context, s.destinationKeysDigest, s.expiresAt);
    assert Contribute(t, e.enrollment, sealed, s, now, sealing).Ok?;
  }

  lemma SessionFormats(document: SessionDocument)
    requires VerifySession(document).Ok?
    ensures
      var s := VerifySession(document).value;
      Formattable(s.expiresAt) && s.destinationKey.PublicKey?
  {
  }

  lemma ReadRecoveryKeeps(t: Trustee, db: Database, signed: Signed, random: Random, now: int)
    requires Valid(t, db) && Formattable(now)
    ensures Keeps(t, db, Transactions.ReadRecovery(t, db, signed, random, now).db)
  {
    hide Valid, Evolves, SessionOk, EnrollmentOk, Released, SpendNonce, MayRelease, NoncesPast;
    var after := Transactions.ReadRecovery(t, db, signed, random, now).db;
    if after == db {
      EvolvesReflexive(db);
    } else {
      var id := signed.target;
      var session := db.sessions[id];
      var key := RequestKey(SessionScope(id), signed.requestId);
      var nonces := SpendNonce(t, db.nonces, key, now).value;
      NoncesAre(t, db);
      SpendNonceKeeps(t, db.nonces, key, now, db.highWater);
      TickKeeps(t, db, now, nonces);
      var ticked := db.(highWater := now, nonces := nonces);
      KnownSession(t, db, id);
      var row := db.enrollments[session.key];
      if MayRelease(row.State(), session.State(), now, db.highWater) == Ok(Emit) {
        EmissionSucceeds(t, id, session, row, now, db.highWater, random.sealing);
        var contribution := Released(t, row, session, now, db.highWater, random.sealing).value;
        EmissionEvolves(t, id, session, row, now, db.highWater, contribution);
        SessionChangeKeeps(t, ticked, id, session.(status := SReleased, contribution := contribution));
        EvolvesTransitive(db, ticked, after);
      } else {
        assert db.sessions[id := session] == db.sessions;
      }
    }
  }

  lemma NoncesAre(t: Trustee, db: Database)
    requires Valid(t, db)
    ensures NoncesPast(db.nonces, db.highWater)
  {
    hide EnrollmentsOk, SessionsOk, AttemptsOk, InvitationsOk, FewOpen, OutcomesOk;
  }

  lemma EmissionEvolves(
    t: Trustee, id: string, row: SessionRow, e: EnrollmentRow, now: int, floor: int,
    contribution: Option<Contribution>)
    requires SessionOk(t, id, row, e) && contribution.Some?
    requires MayRelease(e.State(), row.State(), now, floor) == Ok(Emit)
    ensures SessionEvolves(row, row.(status := SReleased, contribution := contribution), now)
  {
    hide VerifySession, FactorHolds, ContributionOk;
  }

  // -------------------------------------------------------------------------
  // Cancelling and ending

  lemma CancelledOk(t: Trustee, id: string, row: SessionRow, e: EnrollmentRow, byHolder: bool, now: int)
    requires SessionOk(t, id, row, e)
    ensures
      var after := row.(status := CancelledStatus(row, byHolder, now));
      SessionOk(t, id, after, e) && SessionEvolves(row, after, now) && Frozen(after, now)
  {
    hide VerifySession, FactorHolds, Holds, Session.Binds;
  }

  lemma NewOutcomeKeeps(t: Trustee, db: Database, key: RequestKey, row: OutcomeRow)
    requires Valid(t, db) && key !in db.outcomes
    requires OutcomeOk(key, db.sessions, db.enrollments, db.highWater)
    requires Formattable(row.recordedAt) && row.recordedAt <= db.highWater
    ensures Keeps(t, db, db.(outcomes := db.outcomes[key := row]))
  {
    hide EnrollmentsOk, SessionsOk, AttemptsOk, InvitationsOk, FewOpen, OutcomeOk;
    hide InvitationsEvolve, ChallengesEvolve, EnrollmentsEvolve, SessionsEvolve, FrozenKept;
    hide InvitationsPast, ChallengesPast, EnrollmentsPast, SessionsPast, NoncesPast;
    EvolvesReflexive(db);
  }

  lemma CancelRecoveryKeeps(t: Trustee, db: Database, signed: Signed, now: int)
    requires Valid(t, db) && Formattable(now)
    ensures Keeps(t, db, Transactions.CancelRecovery(t, db, signed, now).db)
  {
    hide Valid, Evolves, SessionOk, EnrollmentOk, CancelledStatus, Frozen, SessionEvolves;
    var after := Transactions.CancelRecovery(t, db, signed, now).db;
    if after == db {
      EvolvesReflexive(db);
    } else {
      var id := signed.target;
      var session := db.sessions[id];
      var byHolder := signed.party == Some(Holder);
      Ticks(t, db, now);
      var ticked := db.(highWater := now);
      KnownSession(t, db, id);
      CancelledOk(t, id, session, db.enrollments[session.key], byHolder, now);
      var row := session.(status := CancelledStatus(session, byHolder, now));
      SessionChangeKeeps(t, ticked, id, row);
      var changed := ticked.(sessions := db.sessions[id := row]);
      EvolvesTransitive(db, ticked, changed);
      var key := RequestKey(SessionScope(id), signed.requestId);
      NewOutcomeKeeps(t, changed, key, after.outcomes[key]);
      EvolvesTransitive(db, changed, after);
    }
  }

  lemma EndedOk(t: Trustee, k: EnrollmentKey, e: EnrollmentRow, operation: Operation)
    requires EnrollmentOk(t, k, e)
    ensures
      var after := e.(status := EndedStatus(operation, e.status), sealedEnvelope := None, protectedArtifact := None);
      EnrollmentOk(t, k, after) && EnrollmentEvolves(e, after) && after.status in {ERevoked, EClosed}
  {
    hide Accepted;
  }

  lemma EnrollmentChangeKeeps(t: Trustee, db: Database, k: EnrollmentKey, row: EnrollmentRow)
    requires Valid(t, db) && k in db.enrollments && EnrollmentOk(t, k, row)
    requires EnrollmentEvolves(db.enrollments[k], row) && row.attemptsUsed == db.enrollments[k].attemptsUsed
    requires row.status in {ERevoked, EClosed}
    ensures Keeps(t, db, db.(enrollments := db.enrollments[k := row]))
  {
    hide EnrollmentsOk, SessionsOk, InvitationsOk, FewOpen, OutcomesOk, EnrollmentOk, SessionsOf;
    hide InvitationsEvolve, ChallengesEvolve, EnrollmentsEvolve, SessionsEvolve, OutcomesKept, FrozenKept;
    hide InvitationsPast, ChallengesPast, EnrollmentsPast, SessionsPast, NoncesPast, OutcomesPast;
    EvolvesReflexive(db);
    KnownRow(t, db, k);
    EnrollmentChanges(t, db.enrollments, db.challenges, db.sessions, k, row);
    MoreEnrollmentsKeep(db.outcomes, db.sessions, db.enrollments, k, row, db.highWater);
  }

  lemma EndEnrollmentKeeps(t: Trustee, db: Database, signed: Signed, now: int)
    requires Valid(t, db) && Formattable(now)
    ensures Keeps(t, db, EndEnrollment(t, db, signed, now).db)
  {
    hide Valid, Evolves, EnrollmentOk, EndedStatus, EnrollmentEvolves, EnrollmentName;
    var after := EndEnrollment(t, db, signed, now).db;
    if after == db {
      EvolvesReflexive(db);
    } else {
      var row := Current(db.enrollments, signed.target).value;
      var k :| IsCurrent(db.enrollments, signed.target, k) && row == db.enrollments[k];
      KnownRow(t, db, k);
      Ticks(t, db, now);
      var ticked := db.(highWater := now);
      EndedOk(t, k, row, signed.operation);
      EnrollmentChangeKeeps(t, ticked, k, after.enrollments[k]);
      var changed := ticked.(enrollments := after.enrollments);
      EvolvesTransitive(db, ticked, changed);
      var key := RequestKey(row.Scope(), signed.requestId);
      NewOutcomeKeeps(t, changed, key, after.outcomes[key]);
      EvolvesTransitive(db, changed, after);
    }
  }

  // -------------------------------------------------------------------------
  // Every action

  /** Whatever is asked, by whomever, at whatever time: the invariant holds
      after, and the tables evolved. */
  lemma ActKeeps(t: Trustee, db: Database, action: Action, random: Random, now: int)
    requires Valid(t, db) && Formattable(now)
    ensures Keeps(t, db, Act(t, db, action, random, now).db)
  {
    hide Valid, Evolves, Transactions.IssueChallenge, Transactions.Enroll, Transactions.BeginRecovery;
    hide CreateInvitation, Transactions.ReadEnrollment, Transactions.ReadRecovery, Transactions.CancelRecovery;
    hide EndEnrollment, ParseSigned;
    EvolvesReflexive(db);
    match action
    case Invite(lifetime) => CreateInvitationKeeps(t, db, lifetime, random, now);
    case Serve(ChallengeCall(version, componentId, code)) =>
      IssueChallengeKeeps(t, db, version, componentId, code, random, now);
    case Serve(EnrollCall(enroll)) => EnrollKeeps(t, db, enroll, now);
    case Serve(BeginCall(version, session)) => BeginRecoveryKeeps(t, db, version, session, now);
    case Serve(SignedCall(request)) =>
      var signed := ParseSigned(request, t.componentId);
      if signed.Some? {
        match signed.value.operation
        case ReadEnrollment => ReadEnrollmentKeeps(t, db, signed.value, now);
        case ReadRecovery => ReadRecoveryKeeps(t, db, signed.value, random, now);
        case CancelRecovery => CancelRecoveryKeeps(t, db, signed.value, now);
        case RevokeEnrollment | CloseEnrollment => EndEnrollmentKeeps(t, db, signed.value, now);
        case _ =>
      }
    case Serve(_) =>
  }
}
