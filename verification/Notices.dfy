/** What the holder's poll says of each session, against what the candidate is
    told and what a veto would still do. */
module Notices {
  import opened Basics
  import opened Wire
  import opened State
  import opened Trustee
  import opened Tables
  import opened Transactions
  import opened Invariant
  import opened RecoveryPreservation
  import opened Steps
  import opened Runs
  import opened Releases
  import opened History
  import opened Reports

  /** What the holder's poll at event `i` lists. */
  function Listed(t: Trustee, pending: Pending): map<string, Notice> {
    if pending.Settled? && pending.answer.Receipted? && pending.answer.receipt.content.notices.Some?
    then pending.answer.receipt.content.notices.value
    else map[]
  }

  /** Holder and candidate are told the same: any candidate poll answered on
      the same tables at the same time reports the notice's state and reason. */
  lemma NoticeMatchesPoll(
    t: Trustee, run: Run, i: nat, signed: Signed, poll: Signed, random: Random)
    requires IsRun(t, run) && i < |run.events| && HolderPollsAt(t, run, i, signed)
    requires poll.target in Listed(t, Performed(t, run, i).pending)
    requires !Transactions.ReadRecovery(t, run.states[i], poll, random, run.events[i].now).pending.Failed?
    ensures
      var notice := Listed(t, Performed(t, run, i).pending)[poll.target];
      var pending := Transactions.ReadRecovery(t, run.states[i], poll, random, run.events[i].now).pending;
      && pending.Settled? && pending.answer.Receipted?
      && pending.answer.receipt.content.newState == notice.state
      && pending.answer.receipt.content.reason == notice.reason
  {
    hide Valid, Act, Polls, HolderPollsAt, Transactions.ReadRecovery, SessionName;
    var db, now := run.states[i], run.events[i].now;
    ReachableValid(t, run, i);
    var k := HolderPollTruthful(t, run, i, signed);
    ReadRecoveryPolls(t, db, poll, random, now);
    PollSaysStatus(t, db, Transactions.ReadRecovery(t, db, poll, random, now), poll, random.sealing, now);
  }

  lemma PollSaysStatus(t: Trustee, db: Database, tx: Transaction, poll: Signed, sealing: nat, now: int)
    requires Valid(t, db) && Formattable(now) && Polls(t, db, tx, poll, sealing, now)
    ensures tx.pending.Settled? && tx.pending.answer.Receipted? && poll.target in db.sessions
    ensures
      var receipt := tx.pending.answer.receipt.content;
      var row := db.sessions[poll.target];
      receipt.newState == row.Name(now) && receipt.reason == SessionReason(row.status)
  {
    hide Valid, Released, SpendNonce, SignedBy, Fresh, SessionName;
    PollHonest(t, db, tx, poll, sealing, now);
    var row := db.sessions[poll.target];
    ReleaseConditions(db.enrollments[row.key].State(), row.State(), now, db.highWater);
  }

  /** A session the holder saw stays listed, and its reported state only
      advances; once over it never changes. */
  lemma NoticesAdvance(t: Trustee, run: Run, i: nat, j: nat, first: Signed, second: Signed, s: string)
    requires IsRun(t, run) && i < j < |run.events| && second.target == first.target
    requires HolderPollsAt(t, run, i, first) && HolderPollsAt(t, run, j, second)
    requires s in Listed(t, Performed(t, run, i).pending)
    ensures s in Listed(t, Performed(t, run, j).pending)
    ensures
      var before := Listed(t, Performed(t, run, i).pending)[s].state;
      var after := Listed(t, Performed(t, run, j).pending)[s].state;
      Stage(before) <= Stage(after) && (Stage(before) == 2 ==> after == before)
  {
    hide Valid, Act, Evolves, SessionName, SessionEvolves, Stage, SignedOf, SessionOk, EnrollmentOk;
    var a, b := run.states[i], run.states[j];
    ReachableValid(t, run, i);
    ReachableValid(t, run, j);
    var k := HolderPollTruthful(t, run, i, first);
    var l := HolderPollTruthful(t, run, j, second);
    RunEvolves(t, run, i, j);
    RowEvolves(a, b, k);
    OneRow(t, b, k);
    KeysStay(a, b);
    HolderClock(t, run, i, first);
    RunEvolves(t, run, i + 1, j);
    HolderClock(t, run, j, second);
    ClockAdvances(t, run, i + 1, j);
    SessionEvolved(run.states[i + 1], b, s);
    KnownSession(t, a, s);
    Unfinalized(t, s, a.sessions[s], a.enrollments[a.sessions[s].key]);
    NameAdvances(a.sessions[s], b.sessions[s], run.events[i].now, run.events[j].now);
  }

  /** The holder's poll changes no session and sets the clock to its time. */
  lemma HolderClock(t: Trustee, run: Run, i: nat, signed: Signed)
    requires IsRun(t, run) && i < |run.events| && HolderPollsAt(t, run, i, signed)
    ensures run.states[i + 1].sessions == run.states[i].sessions
    ensures run.states[i].highWater <= run.events[i].now == run.states[i + 1].highWater
  {
    hide Act, SignedOf, SpendNonce, SignedBy, Fresh, Current, SessionsOf, NoticeOf;
    var event := run.events[i];
    SignedActs(t, run.states[i], event.action, event.random, event.now);
    ReadEnrollmentSteps(t, run.states[i], signed, event.now);
  }

  /** A notice says whether a veto is still possible: a fresh veto by the
      holder, served next at the same time, stops the session exactly when the
      notice calls it cooling down or collecting. */
  lemma NoticeTellsVeto(t: Trustee, run: Run, i: nat, signed: Signed, veto: Signed)
    requires IsRun(t, run) && i < |run.events| && HolderPollsAt(t, run, i, signed)
    requires veto.target in Listed(t, Performed(t, run, i).pending) && veto.party == Some(Holder)
    requires
      var db := run.states[i + 1];
      && veto.target in db.sessions && db.sessions[veto.target].key in db.enrollments
      && SignedBy(veto, db.enrollments[db.sessions[veto.target].key].enrollment.authorizationKey)
      && Fresh(t, veto, run.events[i].now)
      && RequestKey(SessionScope(veto.target), veto.requestId) !in db.outcomes
    ensures
      var after := Transactions.CancelRecovery(t, run.states[i + 1], veto, run.events[i].now);
      && veto.target in after.db.sessions
      && (Listed(t, Performed(t, run, i).pending)[veto.target].state in {CoolingDown, Collecting} <==>
            && run.states[i + 1].sessions[veto.target].status != SVetoed
            && after.db.sessions[veto.target].status == SVetoed)
  {
    hide Valid, Act, HolderPollsAt, SignedBy, Fresh, SessionOk, EnrollmentOk;
    ReachableValid(t, run, i);
    var k := HolderPollTruthful(t, run, i, signed);
    HolderClock(t, run, i, signed);
  }
}
