/** What receipts report over a run: states are honest and only advance, and
    each attempt is spent by exactly one beginning. */
module Reports {
  import opened Wire
  import opened State
  import opened Trustee
  import opened Tables
  import opened Transactions
  import opened Invariant
  import opened RecoveryPreservation
  import opened Steps
  import opened Runs
  import opened Releases
  import opened History

  // -------------------------------------------------------------------------
  // Candidate polls

  lemma PollHonest(t: Trustee, db: Database, tx: Transaction, signed: Signed, sealing: nat, now: int)
    requires Valid(t, db) && Formattable(now) && Polls(t, db, tx, signed, sealing, now)
    ensures tx.pending.Settled? && tx.pending.answer.Receipted?
    ensures
      var receipt := tx.pending.answer.receipt.content;
      && receipt.oldState == receipt.newState
      && (receipt.newState == Collecting <==> receipt.contribution.Some?)
      && signed.target in tx.db.sessions && receipt.newState == tx.db.sessions[signed.target].Name(now)
      && !tx.db.sessions[signed.target].status.SFinalized? && tx.db.highWater == now
  {
    hide Valid, EnrollmentOk, Released, SpendNonce, SignedBy, Fresh, SessionOk;
    var s := signed.target;
    var row := db.sessions[s];
    var e := db.enrollments[row.key];
    KnownSession(t, db, s);
    ReleasedCases(t, s, row, e, now, db.highWater, sealing);
    Unfinalized(t, s, row, e);
  }

  lemma Unfinalized(t: Trustee, id: string, row: SessionRow, e: EnrollmentRow)
    requires SessionOk(t, id, row, e)
    ensures !row.status.SFinalized? && row.expiresAt <= e.enrollment.expiresAt && row.cooldownEndsAt < row.expiresAt
    ensures row.status.SReleased? ==>
              row.contribution.Some? && row.cooldownEndsAt <= row.contribution.value.content.decidedAt
  {
    hide VerifySession, FactorHolds, Holds;
  }

  /** Every answered poll reports one state, before and after alike, and says
      collecting exactly when it hands out the contribution. */
  lemma HonestPolls(t: Trustee, run: Run, i: nat, signed: Signed)
    requires IsRun(t, run) && i < |run.events| && PollsAt(t, run, i, signed)
    ensures Performed(t, run, i).pending.answer.Receipted?
    ensures
      var receipt := Performed(t, run, i).pending.answer.receipt.content;
      && receipt.oldState == receipt.newState
      && (receipt.newState == Collecting <==> receipt.contribution.Some?)
      && signed.target in run.states[i + 1].sessions
      && receipt.newState == run.states[i + 1].sessions[signed.target].Name(run.events[i].now)
      && run.states[i + 1].sessions[signed.target].status != SFinalized
      && run.states[i + 1].highWater == run.events[i].now
  {
    hide Valid, Act, Polls, SignedOf;
    PollsAtPolls(t, run, i, signed);
    PollHonest(t, run.states[i], Performed(t, run, i), signed, run.events[i].random.sealing, run.events[i].now);
  }

  /** How far a reported state is: cooling down, collecting, or over. */
  function Stage(name: StateName): nat {
    match name
    case CoolingDown => 0
    case Collecting => 1
    case _ => 2
  }

  lemma NameAdvances(r: SessionRow, s: SessionRow, now: int, later: int)
    requires SessionEvolves(r, s, now) && now <= later && r.status != SFinalized
    ensures Stage(r.Name(now)) <= Stage(s.Name(later))
    ensures Stage(r.Name(now)) == 2 ==> s.Name(later) == r.Name(now)
  {
  }

  /** The states polls report of one session only advance, and once over the
      report never changes again. */
  lemma ReportsAdvance(t: Trustee, run: Run, i: nat, j: nat, first: Signed, second: Signed)
    requires IsRun(t, run) && i < j < |run.events| && second.target == first.target
    requires PollsAt(t, run, i, first) && PollsAt(t, run, j, second)
    ensures Performed(t, run, i).pending.answer.Receipted? && Performed(t, run, j).pending.answer.Receipted?
    ensures
      var before := Performed(t, run, i).pending.answer.receipt.content.newState;
      var after := Performed(t, run, j).pending.answer.receipt.content.newState;
      Stage(before) <= Stage(after) && (Stage(before) == 2 ==> after == before)
  {
    hide Valid, Act, Evolves, PollsAt, SessionName, SessionEvolves, Stage;
    HonestPolls(t, run, i, first);
    HonestPolls(t, run, j, second);
    RunEvolves(t, run, i + 1, j + 1);
    SessionEvolved(run.states[i + 1], run.states[j + 1], first.target);
    ClockAdvances(t, run, i + 1, j + 1);
    NameAdvances(run.states[i + 1].sessions[first.target], run.states[j + 1].sessions[first.target],
                 run.events[i].now, run.events[j].now);
  }

  lemma ClockAdvances(t: Trustee, run: Run, i: nat, j: nat)
    requires IsRun(t, run) && i <= j < |run.states|
    ensures run.states[i].highWater <= run.states[j].highWater
  {
    hide Act, InvitationsEvolve, ChallengesEvolve, EnrollmentsEvolve, SessionsEvolve, OutcomesKept, FrozenKept;
    RunEvolves(t, run, i, j);
  }

  // -------------------------------------------------------------------------
  // Attempts

  /** The sessions an event adds to an enrollment. */
  ghost function Created(run: Run, i: nat, k: EnrollmentKey): set<string>
    requires i + 1 < |run.states|
  {
    SessionsOf(run.states[i + 1].sessions, k) - SessionsOf(run.states[i].sessions, k)
  }

  /** Each attempt is one new session and each new session one attempt, made
      by the `begin-recovery` that is answered with it; as the enrollment's
      k-th it stores the maximum less k. Refused and replayed requests spend
      nothing. */
  lemma AttemptSpent(t: Trustee, run: Run, i: nat, k: EnrollmentKey)
    requires IsRun(t, run) && i < |run.events| && k in run.states[i].enrollments
    ensures k in run.states[i + 1].enrollments
    ensures
      var before, after := run.states[i].enrollments[k], run.states[i + 1].enrollments[k];
      && after.attemptsUsed == before.attemptsUsed + |Created(run, i, k)| <= before.attemptsUsed + 1
      && (after.attemptsUsed != before.attemptsUsed ==>
            exists s :: && s in Created(run, i, k)
                        && Performed(t, run, i).pending == SessionReceipt(s)
                        && s in run.states[i + 1].sessions
                        && run.states[i + 1].sessions[s].remainingAttempts
                           == after.enrollment.policy.maximumAttempts - after.attemptsUsed)
  {
    hide Valid, Act, Evolves, SessionsOf;
    ReachableValid(t, run, i);
    ReachableValid(t, run, i + 1);
    RunEvolves(t, run, i, i + 1);
    RowEvolves(run.states[i], run.states[i + 1], k);
    AttemptsAre(t, run.states[i], k);
    AttemptsAre(t, run.states[i + 1], k);
    SessionsStay(run.states[i], run.states[i + 1], k);
    var created := Created(run, i, k);
    if created != {} {
      var s :| s in created;
      CreatedOne(t, run, i, k, s);
    }
  }

  lemma CreatedOne(t: Trustee, run: Run, i: nat, k: EnrollmentKey, s: string)
    requires IsRun(t, run) && i < |run.events| && k in run.states[i].enrollments && s in Created(run, i, k)
    ensures Created(run, i, k) == {s} && Performed(t, run, i).pending == SessionReceipt(s)
    ensures s in run.states[i + 1].sessions
    ensures
      var e := run.states[i].enrollments[k];
      run.states[i + 1].sessions[s].remainingAttempts
      == e.enrollment.policy.maximumAttempts - (e.attemptsUsed + 1)
  {
    hide Valid, Act, Evolves, EnrollmentStep, VerifySession, FactorHolds, Emits, Stops;
    RunEvolves(t, run, i, i + 1);
    KeysStay(run.states[i], run.states[i + 1]);
    Stepped(t, run, i, s, k);
  }

  lemma SessionsStay(a: Database, b: Database, k: EnrollmentKey)
    requires Evolves(a, b)
    ensures SessionsOf(a.sessions, k) <= SessionsOf(b.sessions, k)
    ensures |SessionsOf(b.sessions, k)|
            == |SessionsOf(a.sessions, k)| + |SessionsOf(b.sessions, k) - SessionsOf(a.sessions, k)|
  {
    hide InvitationsEvolve, ChallengesEvolve, EnrollmentsEvolve, OutcomesKept, FrozenKept;
    forall s | s in SessionsOf(a.sessions, k)
      ensures s in SessionsOf(b.sessions, k)
    {
      assert SessionEvolves(a.sessions[s], b.sessions[s], a.highWater);
    }
    var added := SessionsOf(b.sessions, k) - SessionsOf(a.sessions, k);
    assert SessionsOf(b.sessions, k) == SessionsOf(a.sessions, k) + added;
  }

  lemma KeysStay(a: Database, b: Database)
    requires Evolves(a, b)
    ensures forall s :: s in a.sessions ==> s in b.sessions && b.sessions[s].key == a.sessions[s].key
  {
    hide InvitationsEvolve, ChallengesEvolve, EnrollmentsEvolve, OutcomesKept, FrozenKept;
    forall s | s in a.sessions
      ensures s in b.sessions && b.sessions[s].key == a.sessions[s].key
    {
      assert SessionEvolves(a.sessions[s], b.sessions[s], a.highWater);
    }
  }
}
