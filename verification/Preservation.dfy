/** Every transaction keeps the invariant and evolves the tables. */
module Preservation {
  import opened Basics
  import opened Crypto
  import opened Wire
  import opened State
  import opened Trustee
  import opened Tables
  import opened Transactions
  import opened Invariant

  // -------------------------------------------------------------------------
  // Time passing

  lemma FewOpenLater(challenges: map<string, ChallengeRow>, now: int, later: int)
    requires FewOpen(challenges, now) && now <= later
    ensures FewOpen(challenges, later)
  {
    forall i
      ensures |OpenChallenges(challenges, i, later)| <= MAX_OPEN_CHALLENGES
    {
      SubsetSize(OpenChallenges(challenges, i, later), OpenChallenges(challenges, i, now));
    }
  }

  lemma OutcomesLater(
    outcomes: map<RequestKey, OutcomeRow>, sessions: map<string, SessionRow>,
    enrollments: map<EnrollmentKey, EnrollmentRow>, now: int, later: int)
    requires OutcomesOk(outcomes, sessions, enrollments, now) && now <= later
    ensures OutcomesOk(outcomes, sessions, enrollments, later)
  {
    forall o | o in outcomes
      ensures OutcomeOk(o, sessions, enrollments, later)
    {
      assert OutcomeOk(o, sessions, enrollments, now);
    }
  }

  /** Setting the clock forward, with any nonces seen by then. */
  lemma TickKeeps(t: Trustee, db: Database, now: int, nonces: map<RequestKey, int>)
    requires Valid(t, db) && db.highWater <= now && NoncesPast(nonces, now)
    ensures Keeps(t, db, db.(highWater := now, nonces := nonces))
  {
    hide EnrollmentsOk, SessionsOk, AttemptsOk, InvitationsOk, FewOpen, OutcomesOk, NoncesPast;
    hide InvitationsEvolve, ChallengesEvolve, EnrollmentsEvolve, SessionsEvolve, OutcomesKept, FrozenKept;
    FewOpenLater(db.challenges, db.highWater, now);
    OutcomesLater(db.outcomes, db.sessions, db.enrollments, db.highWater, now);
    EvolvesReflexive(db);
  }

  lemma LaterPast(nonces: map<RequestKey, int>, now: int, later: int)
    requires NoncesPast(nonces, now) && now <= later
    ensures NoncesPast(nonces, later)
  {
  }

  lemma Ticks(t: Trustee, db: Database, now: int)
    requires Valid(t, db) && db.highWater <= now
    ensures Keeps(t, db, db.(highWater := now))
  {
    hide EnrollmentsOk, SessionsOk, AttemptsOk, InvitationsOk, FewOpen, OutcomesOk, Evolves;
    LaterPast(db.nonces, db.highWater, now);
    TickKeeps(t, db, now, db.nonces);
    assert db.(highWater := now) == db.(highWater := now, nonces := db.nonces);
  }

  // -------------------------------------------------------------------------
  // Invitations and challenges

  lemma NewInvitationKeeps(
    invitations: map<Digest<string>, InvitationRow>, challenges: map<string, ChallengeRow>, i: Digest<string>,
    row: InvitationRow, now: int)
    requires InvitationsOk(invitations, challenges) && InvitationsPast(invitations, now)
    requires i !in invitations && row.usedAt.None?
    ensures InvitationsOk(invitations[i := row], challenges) && InvitationsPast(invitations[i := row], now)
    ensures InvitationsEvolve(invitations, invitations[i := row])
  {
  }

  lemma CreateInvitationKeeps(t: Trustee, db: Database, lifetime: int, random: Random, now: int)
    requires Valid(t, db)
    ensures Keeps(t, db, CreateInvitation(db, lifetime, random, now).db)
  {
    hide EnrollmentsOk, SessionsOk, AttemptsOk, InvitationsOk, FewOpen, OutcomesOk;
    hide InvitationsEvolve, ChallengesEvolve, EnrollmentsEvolve, SessionsEvolve, OutcomesKept, FrozenKept;
    hide InvitationsPast, ChallengesPast, EnrollmentsPast, SessionsPast, NoncesPast, OutcomesPast;
    EvolvesReflexive(db);
    var after := CreateInvitation(db, lifetime, random, now).db;
    if after != db {
      Ticks(t, db, now);
      NewInvitationKeeps(db.invitations, db.challenges, Sha256(random.id.value), InvitationRow(now + lifetime, None),
                         now);
    }
  }

  lemma NewChallengeKeeps(
    invitations: map<Digest<string>, InvitationRow>, challenges: map<string, ChallengeRow>, c: string,
    row: ChallengeRow, now: int)
    requires InvitationsOk(invitations, challenges) && ChallengesPast(challenges, now)
    requires c !in challenges && row.invitation in invitations && row.usedAt.None?
    ensures
      var after := challenges[c := row];
      InvitationsOk(invitations, after) && ChallengesPast(after, now) && ChallengesEvolve(challenges, after)
  {
    var after := challenges[c := row];
    forall d | Used(after, d)
      ensures Used(challenges, d) && after[d] == challenges[d]
    {
    }
    forall i | i in invitations && invitations[i].usedAt.Some?
      ensures exists d :: Used(after, d) && after[d].invitation == i
    {
      var d :| Used(challenges, d) && challenges[d].invitation == i;
      assert Used(after, d);
    }
  }

  lemma FewStayOpen(challenges: map<string, ChallengeRow>, c: string, row: ChallengeRow, now: int)
    requires FewOpen(challenges, now) && c !in challenges
    requires |OpenChallenges(challenges, row.invitation, now)| < MAX_OPEN_CHALLENGES
    ensures FewOpen(challenges[c := row], now)
  {
    var after := challenges[c := row];
    forall i
      ensures |OpenChallenges(after, i, now)| <= MAX_OPEN_CHALLENGES
    {
      var before := OpenChallenges(challenges, i, now);
      SubsetSize(OpenChallenges(after, i, now), if i == row.invitation then before + {c} else before);
    }
  }

  lemma MoreChallengesKeep(
    t: Trustee, enrollments: map<EnrollmentKey, EnrollmentRow>, challenges: map<string, ChallengeRow>,
    more: map<string, ChallengeRow>)
    requires EnrollmentsOk(t, enrollments, challenges) && ChallengesEvolve(challenges, more)
    ensures EnrollmentsOk(t, enrollments, more)
  {
    hide EnrollmentOk;
  }

  lemma IssueChallengeKeeps(
    t: Trustee, db: Database, version: nat, componentId: string, code: string, random: Random, now: int)
    requires Valid(t, db)
    ensures Keeps(t, db, Transactions.IssueChallenge(t, db, version, componentId, code, random, now).db)
  {
    hide EnrollmentsOk, SessionsOk, AttemptsOk, InvitationsOk, FewOpen, OutcomesOk;
    hide InvitationsEvolve, ChallengesEvolve, EnrollmentsEvolve, SessionsEvolve, OutcomesKept, FrozenKept;
    hide InvitationsPast, ChallengesPast, EnrollmentsPast, SessionsPast, NoncesPast, OutcomesPast;
    EvolvesReflexive(db);
    var after := Transactions.IssueChallenge(t, db, version, componentId, code, random, now).db;
    if after != db {
      Ticks(t, db, now);
      var row := ChallengeRow(Sha256(code), now + CHALLENGE_LIFETIME_SECS, None);
      NewChallengeKeeps(db.invitations, db.challenges, random.id.value, row, now);
      FewStayOpen(db.challenges, random.id.value, row, now);
      MoreChallengesKeep(t, db.enrollments, db.challenges, after.challenges);
    }
  }

  lemma SpendKeepsInvitations(
    invitations: map<Digest<string>, InvitationRow>, challenges: map<string, ChallengeRow>, c: string, now: int)
    requires InvitationsOk(invitations, challenges) && FewOpen(challenges, now)
    requires InvitationsPast(invitations, now) && ChallengesPast(challenges, now)
    requires c in challenges && challenges[c].usedAt.None?
    requires invitations[challenges[c].invitation].usedAt.None?
    ensures
      var i := challenges[c].invitation;
      var challenges' := challenges[c := challenges[c].(usedAt := Some(now))];
      var invitations' := invitations[i := invitations[i].(usedAt := Some(now))];
      && InvitationsOk(invitations', challenges') && FewOpen(challenges', now)
      && InvitationsPast(invitations', now) && ChallengesPast(challenges', now)
      && InvitationsEvolve(invitations, invitations') && ChallengesEvolve(challenges, challenges')
      && Used(challenges', c)
  {
    var i := challenges[c].invitation;
    var challenges' := challenges[c := challenges[c].(usedAt := Some(now))];
    var invitations' := invitations[i := invitations[i].(usedAt := Some(now))];
    forall d | Used(challenges', d)
      ensures challenges'[d].invitation == i <==> d == c
      ensures d != c ==> Used(challenges, d)
    {
    }
    forall j | j in invitations' && invitations'[j].usedAt.Some?
      ensures exists d :: Used(challenges', d) && challenges'[d].invitation == j
    {
      if j == i {
        assert Used(challenges', c);
      } else {
        var d :| Used(challenges, d) && challenges[d].invitation == j;
        assert Used(challenges', d);
      }
    }
    forall j
      ensures |OpenChallenges(challenges', j, now)| <= MAX_OPEN_CHALLENGES
    {
      SubsetSize(OpenChallenges(challenges', j, now), OpenChallenges(challenges, j, now));
    }
  }

  /** Spending a redeemable challenge. */
  lemma SpendKeeps(t: Trustee, db: Database, challenge: string, invitation: Digest<string>, now: int)
    requires Valid(t, db) && db.highWater == now && Redeemable(db, challenge, now) == Some(invitation)
    ensures
      var after := Spend(db, challenge, invitation, now);
      Keeps(t, db, after) && Used(after.challenges, challenge)
  {
    hide EnrollmentsOk, SessionsOk, AttemptsOk, InvitationsOk, FewOpen, OutcomesOk, Used;
    hide InvitationsEvolve, ChallengesEvolve, EnrollmentsEvolve, SessionsEvolve, OutcomesKept, FrozenKept;
    hide InvitationsPast, ChallengesPast, EnrollmentsPast, SessionsPast, NoncesPast, OutcomesPast;
    var after := Spend(db, challenge, invitation, now);
    EvolvesReflexive(db);
    SpendKeepsInvitations(db.invitations, db.challenges, challenge, now);
    MoreChallengesKeep(t, db.enrollments, db.challenges, after.challenges);
  }

  // -------------------------------------------------------------------------
  // Enrollment

  /** One row per ID: a row with the ID is the current one. */
  lemma CurrentIs(
    t: Trustee, enrollments: map<EnrollmentKey, EnrollmentRow>, challenges: map<string, ChallengeRow>, k: EnrollmentKey)
    requires EnrollmentsOk(t, enrollments, challenges) && k in enrollments
    ensures Current(enrollments, k.id) == Some(enrollments[k]) && enrollments[k].Key() == k
  {
    assert IsCurrent(enrollments, k.id, k);
    assert EnrollmentOk(t, k, enrollments[k]);
  }

  lemma CurrentNone(
    t: Trustee, enrollments: map<EnrollmentKey, EnrollmentRow>, challenges: map<string, ChallengeRow>, id: string)
    requires EnrollmentsOk(t, enrollments, challenges) && Current(enrollments, id).None?
    ensures forall k :: k in enrollments ==> k.id != id
  {
    hide EnrollmentOk;
    forall k | k in enrollments
      ensures k.id != id
    {
      if k.id == id {
        CurrentIs(t, enrollments, challenges, k);
      }
    }
  }

  lemma NewEnrollmentKeeps(
    t: Trustee, enrollments: map<EnrollmentKey, EnrollmentRow>, challenges: map<string, ChallengeRow>,
    k: EnrollmentKey, row: EnrollmentRow)
    requires EnrollmentsOk(t, enrollments, challenges)
    requires EnrollmentOk(t, k, row) && Used(challenges, row.challenge)
    requires forall l :: l in enrollments ==> l.id != k.id && enrollments[l].challenge != row.challenge
    ensures EnrollmentsOk(t, enrollments[k := row], challenges)
    ensures EnrollmentsEvolve(enrollments, enrollments[k := row])
  {
    hide EnrollmentOk, Used;
  }

  lemma NewEnrollmentKeepsSessions(
    t: Trustee, enrollments: map<EnrollmentKey, EnrollmentRow>, sessions: map<string, SessionRow>,
    k: EnrollmentKey, row: EnrollmentRow)
    requires SessionsOk(t, sessions, enrollments) && AttemptsOk(sessions, enrollments)
    requires k !in enrollments && row.attemptsUsed == 0
    ensures SessionsOk(t, sessions, enrollments[k := row]) && AttemptsOk(sessions, enrollments[k := row])
  {
    hide SessionOk;
    assert SessionsOf(sessions, k) == {};
  }

  lemma MoreEnrollmentsKeep(
    outcomes: map<RequestKey, OutcomeRow>, sessions: map<string, SessionRow>,
    enrollments: map<EnrollmentKey, EnrollmentRow>, k: EnrollmentKey, row: EnrollmentRow, now: int)
    requires OutcomesOk(outcomes, sessions, enrollments, now) && EnrollmentsPast(enrollments, now)
    requires k in enrollments ==> enrollments[k].status in {ERevoked, EClosed} ==> row.status in {ERevoked, EClosed}
    requires row.storedAt <= now
    ensures OutcomesOk(outcomes, sessions, enrollments[k := row], now)
    ensures EnrollmentsPast(enrollments[k := row], now)
  {
    forall o | o in outcomes
      ensures OutcomeOk(o, sessions, enrollments[k := row], now)
    {
      assert OutcomeOk(o, sessions, enrollments, now);
    }
  }

  lemma AddEnrollmentKeeps(t: Trustee, db: Database, k: EnrollmentKey, row: EnrollmentRow)
    requires Valid(t, db) && EnrollmentOk(t, k, row)
    requires Used(db.challenges, row.challenge) && row.attemptsUsed == 0 && row.storedAt <= db.highWater
    requires forall l :: l in db.enrollments ==> l.id != k.id && db.enrollments[l].challenge != row.challenge
    ensures Keeps(t, db, db.(enrollments := db.enrollments[k := row]))
  {
    hide EnrollmentsOk, SessionsOk, AttemptsOk, InvitationsOk, FewOpen, OutcomesOk, Used, EnrollmentOk;
    hide InvitationsEvolve, ChallengesEvolve, EnrollmentsEvolve, SessionsEvolve, OutcomesKept, FrozenKept;
    hide InvitationsPast, ChallengesPast, EnrollmentsPast, SessionsPast, NoncesPast, OutcomesPast;
    EvolvesReflexive(db);
    NewEnrollmentKeeps(t, db.enrollments, db.challenges, k, row);
    NewEnrollmentKeepsSessions(t, db.enrollments, db.sessions, k, row);
    MoreEnrollmentsKeep(db.outcomes, db.sessions, db.enrollments, k, row, db.highWater);
  }

  lemma NewRowOk(t: Trustee, request: EnrollRequest, enrollment: Enrollment, now: int)
    requires request.sealedEnvelope.Some? && Formattable(now)
    requires Accepted(t, request.context, request.sealedEnvelope.value, now) == Ok(enrollment)
    ensures EnrollmentOk(t, EnrollmentKey(request.context.enrollmentId, request.context.sequence),
                         NewEnrollment(request, enrollment, now))
  {
    hide Accepted;
    AcceptedFacts(t, request.context, request.sealedEnvelope.value, now);
  }

  lemma EnrollKeeps(t: Trustee, db: Database, request: EnrollRequest, now: int)
    requires Valid(t, db) && Formattable(now)
    ensures Keeps(t, db, Transactions.Enroll(t, db, request, now).db)
  {
    hide EnrollmentsOk, SessionsOk, AttemptsOk, InvitationsOk, FewOpen, OutcomesOk, Used, EnrollmentOk;
    hide InvitationsEvolve, ChallengesEvolve, EnrollmentsEvolve, SessionsEvolve, OutcomesKept, FrozenKept;
    hide InvitationsPast, ChallengesPast, EnrollmentsPast, SessionsPast, NoncesPast, OutcomesPast;
    hide Accepted, CheckArtifact;
    EvolvesReflexive(db);
    var after := Transactions.Enroll(t, db, request, now).db;
    if after != db {
      var context := request.context;
      var challenge := context.challenge;
      var invitation := Redeemable(db, challenge, now).value;
      var ticked := db.(highWater := now);
      Ticks(t, db, now);
      SpendKeeps(t, ticked, challenge, invitation, now);
      var spent := Spend(ticked, challenge, invitation, now);
      EvolvesTransitive(db, ticked, spent);
      if Current(db.enrollments, context.enrollmentId).None? {
        var enrollment := Accepted(t, context, request.sealedEnvelope.value, now).value;
        var row := NewEnrollment(request, enrollment, now);
        NewRowOk(t, request, enrollment, now);
        CurrentNone(t, db.enrollments, db.challenges, context.enrollmentId);
        AddEnrollmentKeeps(t, spent, EnrollmentKey(context.enrollmentId, context.sequence), row);
        EvolvesTransitive(db, spent, after);
      }
    }
  }

  // -------------------------------------------------------------------------
  // Reads

  lemma SpendNonceKeeps(t: Trustee, nonces: map<RequestKey, int>, key: RequestKey, now: int, floor: int)
    requires NoncesPast(nonces, floor) && floor <= now && SpendNonce(t, nonces, key, now).Ok?
    ensures NoncesPast(SpendNonce(t, nonces, key, now).value, now)
  {
  }

  lemma ReadEnrollmentKeeps(t: Trustee, db: Database, signed: Signed, now: int)
    requires Valid(t, db)
    ensures Keeps(t, db, Transactions.ReadEnrollment(t, db, signed, now).db)
  {
    hide EnrollmentsOk, SessionsOk, AttemptsOk, InvitationsOk, FewOpen, OutcomesOk, Evolves;
    hide InvitationsPast, ChallengesPast, EnrollmentsPast, SessionsPast, NoncesPast, OutcomesPast, SpendNonce;
    EvolvesReflexive(db);
    if Transactions.ReadEnrollment(t, db, signed, now).db != db {
      var row := Current(db.enrollments, signed.target).value;
      var key := RequestKey(row.Scope(), signed.requestId);
      SpendNonceKeeps(t, db.nonces, key, now, db.highWater);
      TickKeeps(t, db, now, SpendNonce(t, db.nonces, key, now).value);
    }
  }

  // -------------------------------------------------------------------------
  // Changes to one enrollment

  /** A session does not depend on its enrollment's status or custody. */
  lemma SessionOkMore(t: Trustee, id: string, row: SessionRow, e: EnrollmentRow, f: EnrollmentRow)
    requires SessionOk(t, id, row, e) && EnrollmentEvolves(e, f)
    ensures SessionOk(t, id, row, f)
  {
    hide VerifySession, FactorHolds, Holds;
  }

  lemma EnrollmentChanges(
    t: Trustee, enrollments: map<EnrollmentKey, EnrollmentRow>, challenges: map<string, ChallengeRow>,
    sessions: map<string, SessionRow>, k: EnrollmentKey, row: EnrollmentRow)
    requires EnrollmentsOk(t, enrollments, challenges) && SessionsOk(t, sessions, enrollments)
    requires k in enrollments && EnrollmentOk(t, k, row) && EnrollmentEvolves(enrollments[k], row)
    ensures
      var after := enrollments[k := row];
      && EnrollmentsOk(t, after, challenges) && SessionsOk(t, sessions, after)
      && EnrollmentsEvolve(enrollments, after)
  {
    hide EnrollmentOk, SessionOk, Used;
    var after := enrollments[k := row];
    forall id | id in sessions
      ensures sessions[id].key in after && SessionOk(t, id, sessions[id], after[sessions[id].key])
    {
      if sessions[id].key == k {
        SessionOkMore(t, id, sessions[id], enrollments[k], row);
      }
    }
  }
}
