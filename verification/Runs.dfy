/** Whole runs of a trustee, from an empty database, serving any requests in
    any order at any times; and what holds throughout. */
module Runs {
  import opened Basics
  import opened Wire
  import opened State
  import opened Trustee
  import opened Tables
  import opened Transactions
  import opened Invariant
  import opened Preservation
  import opened RecoveryPreservation
  import opened ReadBack
  import opened Retries

  datatype Event = Event(action: Action, random: Random, now: int)

  /** `states[i]` is what event `i` found. Transactions serialize, so one
      sequence of states is every interleaving of any number of connections. */
  datatype Run = Run(states: seq<Database>, events: seq<Event>)

  ghost predicate IsRun(t: Trustee, run: Run) {
    && |run.states| == |run.events| + 1
    && run.states[0] == EMPTY
    && forall i :: 0 <= i < |run.events| ==>
         Formattable(run.events[i].now) && run.states[i + 1] == Performed(t, run, i).db
  }

  ghost function Performed(t: Trustee, run: Run, i: nat): Transaction
    requires i < |run.events| && i < |run.states|
  {
    Act(t, run.states[i], run.events[i].action, run.events[i].random, run.events[i].now)
  }

  /** The answer to event `i`, read back from the tables as of `states[at]`. */
  ghost function AnswerAt(t: Trustee, run: Run, i: nat, at: nat): Reply<Answer>
    requires i < |run.events| && i < |run.states| && at < |run.states|
  {
    Respond(t, run.states[at], Performed(t, run, i).pending)
  }

  lemma EmptyValid(t: Trustee)
    ensures Valid(t, EMPTY)
  {
    assert FewOpen(EMPTY.challenges, 0) by {
      forall i
        ensures |OpenChallenges(EMPTY.challenges, i, 0)| <= MAX_OPEN_CHALLENGES
      {
        assert OpenChallenges(EMPTY.challenges, i, 0) == {};
      }
    }
  }

  /** Every reachable state holds the invariant. */
  lemma {:induction false} ReachableValid(t: Trustee, run: Run, i: nat)
    requires IsRun(t, run) && i < |run.states|
    ensures Valid(t, run.states[i])
  {
    hide Valid, Act, Evolves;
    if i == 0 {
      EmptyValid(t);
    } else {
      ReachableValid(t, run, i - 1);
      var event := run.events[i - 1];
      ActKeeps(t, run.states[i - 1], event.action, event.random, event.now);
    }
  }

  /** And evolved from every earlier one. */
  lemma {:induction false} RunEvolves(t: Trustee, run: Run, i: nat, j: nat)
    requires IsRun(t, run) && i <= j < |run.states|
    ensures Evolves(run.states[i], run.states[j])
    decreases j
  {
    hide Valid, Act, Evolves;
    if i == j {
      EvolvesReflexive(run.states[i]);
    } else {
      RunEvolves(t, run, i, j - 1);
      ReachableValid(t, run, j - 1);
      var event := run.events[j - 1];
      ActKeeps(t, run.states[j - 1], event.action, event.random, event.now);
      EvolvesTransitive(run.states[i], run.states[j - 1], run.states[j]);
    }
  }

  lemma ReachableRow(t: Trustee, run: Run, i: nat, k: EnrollmentKey)
    requires IsRun(t, run) && i < |run.states| && k in run.states[i].enrollments
    ensures EnrollmentOk(t, k, run.states[i].enrollments[k])
  {
    hide Act, Valid, Accepted;
    ReachableValid(t, run, i);
    KnownRow(t, run.states[i], k);
  }

  // -------------------------------------------------------------------------
  // Receipts

  /** However many other connections commit before an operation's read-back,
      its answer is the one it would have had at once; only an enrollment
      whose custody they deleted is answered as unavailable. */
  lemma InterleavedReadBack(t: Trustee, run: Run, i: nat, at: nat)
    requires IsRun(t, run) && i < |run.events| && i < at < |run.states|
    ensures
      var pending := Performed(t, run, i).pending;
      && (!pending.Failed? ==> AnswerAt(t, run, i, i + 1).Ok?)
      && AnswerAt(t, run, i, at)
         == if InCustody(run.states[at], pending) then AnswerAt(t, run, i, i + 1) else Err(TemporarilyUnavailable)
  {
    hide Valid, Act, Evolves, Respond, InCustody, Recorded;
    var event := run.events[i];
    ReachableValid(t, run, i);
    ReachableValid(t, run, i + 1);
    ReachableValid(t, run, at);
    RunEvolves(t, run, i + 1, at);
    ActRecords(t, run.states[i], event.action, event.random, event.now);
    ReadBackStable(t, run.states[i + 1], run.states[at], Performed(t, run, i).pending);
  }

  /** An identical retry, at any later accepted time, signs identical bytes
      and changes nothing: in particular a cancellation's reason is frozen
      even when it found its session merely expired. Only the retry of an
      enrollment ended meanwhile is refused. */
  lemma RetriesIdentical(t: Trustee, run: Run, i: nat, j: nat)
    requires IsRun(t, run) && i < j < |run.events|
    requires run.events[j].action == run.events[i].action && run.states[j].highWater <= run.events[j].now
    requires !Performed(t, run, i).pending.Settled? && !Performed(t, run, i).pending.Failed?
    ensures run.states[j + 1] == run.states[j]
    ensures AnswerAt(t, run, j, j + 1)
            == if InCustody(run.states[j], Performed(t, run, i).pending) then AnswerAt(t, run, i, i + 1)
               else Err(EnrollmentRevoked)
  {
    hide Valid, Act, Evolves, Respond, InCustody;
    var a, b := run.events[i], run.events[j];
    ReachableValid(t, run, i);
    ReachableValid(t, run, j);
    RunEvolves(t, run, i + 1, j);
    RetryIdentical(t, run.states[i], run.states[j], a.action, a.random, a.now, b.random, b.now);
    InterleavedReadBack(t, run, i, j);
    if !InCustody(run.states[j], Performed(t, run, i).pending) {
      RefusalAnswer(t, run.states[j], EnrollmentRevoked);
    }
  }

  lemma RefusalAnswer(t: Trustee, db: Database, code: Code)
    ensures Respond(t, db, Failed(code)) == Err(code)
  {
  }

  /** Once any cancellation of a session is recorded, even one that found it
      merely expired, the session's status never changes again. */
  lemma FrozenAfterOutcome(t: Trustee, run: Run, i: nat, j: nat, key: RequestKey)
    requires IsRun(t, run) && i <= j < |run.states| && key in run.states[i].outcomes && key.scope.SessionScope?
    ensures
      var s := key.scope.sessionId;
      && s in run.states[i].sessions && s in run.states[j].sessions
      && run.states[j].sessions[s].status == run.states[i].sessions[s].status
      && Frozen(run.states[j].sessions[s], run.states[j].highWater)
      && key in run.states[j].outcomes && run.states[j].outcomes[key] == run.states[i].outcomes[key]
  {
    hide Valid, Act, Frozen, InvitationsEvolve, ChallengesEvolve, EnrollmentsEvolve;
    ReachableValid(t, run, i);
    ReachableValid(t, run, j);
    RunEvolves(t, run, i, j);
    KnownOutcome(t, run.states[i], key);
    KnownOutcome(t, run.states[j], key);
    assert FrozenBy(run.states[i].outcomes, key.scope.sessionId);
  }

  // -------------------------------------------------------------------------
  // Attempts, invitations, tombstones

  /** Attempts are counted exactly: as many as the enrollment has sessions,
      never more than its policy allows, each session keeping its own number
      of attempts left after it. */
  lemma AttemptAccounting(t: Trustee, run: Run, i: nat, k: EnrollmentKey)
    requires IsRun(t, run) && i < |run.states| && k in run.states[i].enrollments
    ensures
      var db := run.states[i];
      var row := db.enrollments[k];
      var maximum := row.enrollment.policy.maximumAttempts;
      && row.attemptsUsed == |SessionsOf(db.sessions, k)| <= maximum
      && (forall s :: s in SessionsOf(db.sessions, k) ==>
            maximum - row.attemptsUsed <= db.sessions[s].remainingAttempts < maximum)
      && (forall s, r | s in SessionsOf(db.sessions, k) && r in SessionsOf(db.sessions, k)
                        && db.sessions[s].remainingAttempts == db.sessions[r].remainingAttempts :: s == r)
  {
    hide VerifySession, FactorHolds, ContributionOk, Valid, AttemptsOk;
    ReachableValid(t, run, i);
    var db := run.states[i];
    AttemptsAre(t, db, k);
    forall s | s in SessionsOf(db.sessions, k)
      ensures db.enrollments[k].enrollment.policy.maximumAttempts - db.enrollments[k].attemptsUsed
              <= db.sessions[s].remainingAttempts < db.enrollments[k].enrollment.policy.maximumAttempts
    {
      KnownSession(t, db, s);
    }
  }

  lemma AttemptsAre(t: Trustee, db: Database, k: EnrollmentKey)
    requires Valid(t, db) && k in db.enrollments
    ensures
      var row := db.enrollments[k];
      row.attemptsUsed == |SessionsOf(db.sessions, k)| <= row.enrollment.policy.maximumAttempts
    ensures forall s, r | s in SessionsOf(db.sessions, k) && r in SessionsOf(db.sessions, k)
                          && db.sessions[s].remainingAttempts == db.sessions[r].remainingAttempts :: s == r
  {
    hide EnrollmentsOk, InvitationsOk, FewOpen, OutcomesOk, PastOk, SessionOk;
  }

  /** An invitation is used exactly when one of its challenges is, and only
      one is; no two enrollments come from one invitation; and at no accepted
      time has an invitation more than four open challenges. */
  lemma InvitationEconomy(t: Trustee, run: Run, i: nat, now: int)
    requires IsRun(t, run) && i < |run.states| && run.states[i].highWater <= now
    ensures
      var db := run.states[i];
      && (forall v :: |OpenChallenges(db.challenges, v, now)| <= MAX_OPEN_CHALLENGES)
      && (forall c :: c in db.challenges ==> db.challenges[c].invitation in db.invitations)
      && (forall v :: v in db.invitations ==>
            (db.invitations[v].usedAt.Some? <==>
               exists c :: Used(db.challenges, c) && db.challenges[c].invitation == v))
      && (forall c, d | Used(db.challenges, c) && Used(db.challenges, d)
                        && db.challenges[c].invitation == db.challenges[d].invitation :: c == d)
      && (forall k :: k in db.enrollments ==> Used(db.challenges, db.enrollments[k].challenge))
      && (forall k, l | k in db.enrollments && l in db.enrollments
                        && db.challenges[db.enrollments[k].challenge].invitation
                           == db.challenges[db.enrollments[l].challenge].invitation :: k == l)
  {
    hide Valid, FewOpen;
    ReachableValid(t, run, i);
    InvitationsAre(t, run.states[i]);
    FewOpenLater(run.states[i].challenges, run.states[i].highWater, now);
    FewAre(run.states[i].challenges, now);
  }

  lemma FewAre(challenges: map<string, ChallengeRow>, now: int)
    requires FewOpen(challenges, now)
    ensures forall v :: |OpenChallenges(challenges, v, now)| <= MAX_OPEN_CHALLENGES
  {
  }

  lemma InvitationsAre(t: Trustee, db: Database)
    requires Valid(t, db)
    ensures InvitationsOk(db.invitations, db.challenges) && FewOpen(db.challenges, db.highWater)
    ensures forall k :: k in db.enrollments ==> Used(db.challenges, db.enrollments[k].challenge)
    ensures forall k, l | k in db.enrollments && l in db.enrollments
                          && db.enrollments[k].challenge == db.enrollments[l].challenge :: k == l
  {
    hide EnrollmentOk, InvitationsOk, FewOpen, SessionsOk, AttemptsOk, OutcomesOk, PastOk;
  }

  /** Every enrollment ID has one row for good; its status only rises, never
      to superseded; its custody is the bytes accepted until it is revoked or
      closed and gone from then on; and the record accepted never changes. */
  lemma Tombstones(t: Trustee, run: Run, i: nat, j: nat, k: EnrollmentKey)
    requires IsRun(t, run) && i <= j < |run.states| && k in run.states[i].enrollments
    ensures k in run.states[j].enrollments
    ensures
      var before, after := run.states[i].enrollments[k], run.states[j].enrollments[k];
      && (forall l :: l in run.states[j].enrollments && l.id == k.id ==> l == k)
      && after.enrollment == before.enrollment && after.requestDigest == before.requestDigest
      && Rank(before.status) <= Rank(after.status) && after.status in {EAccepted, ERevoked, EClosed}
      && after.requestDigest.Sha256?
      && after.sealedEnvelope == (if after.status == EAccepted then Source(after).sealedEnvelope else None)
      && after.protectedArtifact == (if after.status == EAccepted then Some(Source(after).protectedArtifact) else None)
      && (after.sealedEnvelope.None? <==> after.status in {ERevoked, EClosed})
  {
    hide Valid, Accepted, Evolves, EnrollmentOk;
    ReachableValid(t, run, j);
    RunEvolves(t, run, i, j);
    RowEvolves(run.states[i], run.states[j], k);
    KnownRow(t, run.states[j], k);
    CustodyRow(t, run.states[j], k);
    RowIs(t, k, run.states[j].enrollments[k]);
    OneRow(t, run.states[j], k);
  }

  lemma RowEvolves(a: Database, b: Database, k: EnrollmentKey)
    requires Evolves(a, b) && k in a.enrollments
    ensures k in b.enrollments && EnrollmentEvolves(a.enrollments[k], b.enrollments[k])
  {
    hide InvitationsEvolve, ChallengesEvolve, SessionsEvolve, OutcomesKept, FrozenKept, EnrollmentEvolves;
  }

  lemma RowIs(t: Trustee, k: EnrollmentKey, row: EnrollmentRow)
    requires EnrollmentOk(t, k, row)
    ensures row.status in {EAccepted, ERevoked, EClosed} && Source(row).sealedEnvelope.Some?
  {
    hide Accepted;
  }

  lemma OneRow(t: Trustee, db: Database, k: EnrollmentKey)
    requires Valid(t, db) && k in db.enrollments
    ensures forall l :: l in db.enrollments && l.id == k.id ==> l == k
  {
    hide EnrollmentOk, InvitationsOk, FewOpen, SessionsOk, AttemptsOk, OutcomesOk, PastOk;
  }

  /** A session belongs for good to the one sequence its enrollment has, and
      is never finalized; no event is recorded later than the clock's mark. */
  lemma Lineage(t: Trustee, run: Run, i: nat, s: string)
    requires IsRun(t, run) && i < |run.states| && s in run.states[i].sessions
    ensures
      var db := run.states[i];
      var row := db.sessions[s];
      && row.key in db.enrollments && row.key == db.enrollments[row.key].Key()
      && row.key.sequence == db.enrollments[row.key].State().sequence
      && row.status != SFinalized && row.createdAt <= db.highWater
      && Current(db.enrollments, row.key.id) == Some(db.enrollments[row.key])
  {
    hide Valid, EnrollmentOk, VerifySession, FactorHolds, ContributionOk;
    ReachableValid(t, run, i);
    KnownSession(t, run.states[i], s);
    KnownRow(t, run.states[i], run.states[i].sessions[s].key);
  }
}
