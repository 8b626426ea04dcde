/** The calls a recovery makes, one by one, and what each means: which reply
    is a failure, what is held after it, and who is lost. */
module Polling {
  import opened Basics
  import opened Crypto
  import opened Wire
  import opened Recovery

  /** Every way one trustee can fail: its refusal, the network, or a response
      that does not verify. */
  datatype Failure =
    | RefusedBy(status: int, code: Option<string>)
    | Unreachable
    | Unverified

  /** Worth retrying within the session. */
  predicate Transient(failure: Failure) {
    match failure
    case RefusedBy(status, code) => status in {502, 503, 504} || (status == 429 && code.None?)
    case Unreachable => true
    case Unverified => false
  }

  /** The status a trustee refuses with (`src/main.rs`). */
  function HttpStatus(code: Code): int {
    match code
    case InvalidRequest | UnsupportedProfile | InvalidManifest | InvalidPolicy | InvalidEnrollment | ArtifactMismatch
      | InvalidDestination | InvalidCandidateFactor | InvalidContribution => 400
    case RequestConflict | EnrollmentPending | EnrollmentExpired | EnrollmentRevoked | StaleEnrollmentSequence
      | RecoveryCoolingDown | RecoveryVetoed | RecoveryRefused | RecoveryExpired | InsufficientContributions
      | ServiceLapsed => 409
    case RecoveryRateLimited => 429
    case PaymentRequired => 402
    case BootstrapUnavailable | ExportUnavailable => 501
    case TemporarilyUnavailable => 503
  }

  /** Of all that a trustee itself can refuse with, only being unable to decide
      now is retried: spent attempts are final although a throttling proxy is
      not, and neither is one that names no code. */
  lemma OnlyUndecidedRetried(code: Code, text: string, status: int)
    ensures Transient(RefusedBy(HttpStatus(code), Some(text))) <==> code == TemporarilyUnavailable
    ensures Transient(RefusedBy(status, None)) <==> status == 429 || 502 <= status <= 504
    ensures Transient(Unreachable) && !Transient(Unverified)
  {
  }

  /** What one call comes back with, and the local time then. A receipt whose
      signature or echo is wrong, or a manifest with other keys, has already
      been raised as `Unverified`. */
  datatype Exchange =
    | Raised(failure: Failure)
    | Replied(state: StateName, contribution: Option<Contribution>, at: int)

  datatype Phase = AskManifest | AskBegin | AskRead

  datatype Call = Call(party: string, phase: Phase)

  /** What a recovery is given: its plan, the operator keys pinned in the
      recovery map, and what the k-th call of the run comes back with. */
  datatype World = World(plan: Plan, operators: map<string, PublicKey>, network: nat -> Exchange)

  // -------------------------------------------------------------------------
  // One reply

  /** The member indices of everyone else's envelopes. */
  function OtherIndices(held: map<string, ShareEnvelope>, name: string): set<nat> {
    set n | n in held && n != name :: held[n].memberIndex
  }

  /** The envelope in a contribution that verifies completely under the
      trustee's own operator key, at an index no one else holds. */
  function Acceptable(
    plan: Plan, operators: map<string, PublicKey>, held: map<string, ShareEnvelope>, name: string, c: Contribution,
    now: int): Option<ShareEnvelope>
  {
    if name !in operators then None
    else
      var envelope := Opened(plan, name, operators[name], c, now);
      if envelope.Some? && envelope.value.memberIndex !in OtherIndices(held, name) then envelope else None
  }

  /** The envelope a call adds to those held. */
  function Kept(w: World, held: map<string, ShareEnvelope>, call: Call, reply: Exchange): Option<ShareEnvelope> {
    if call.phase.AskRead? && reply.Replied? && reply.contribution.Some?
    then Acceptable(w.plan, w.operators, held, call.party, reply.contribution.value, reply.at)
    else None
  }

  /** How a call fails, if it does: as it raised; as a begin that is not
      cooling down; as a contribution that cannot be accepted; or as a state
      that will never release. */
  function FailureOf(w: World, held: map<string, ShareEnvelope>, call: Call, reply: Exchange): Option<Failure> {
    match reply
    case Raised(failure) => Some(failure)
    case Replied(state, contribution, _) =>
      match call.phase
      case AskManifest => None
      case AskBegin => if state == CoolingDown then None else Some(Unverified)
      case AskRead =>
        if contribution.Some? then if Kept(w, held, call, reply).Some? then None else Some(Unverified)
        else if state == CoolingDown || state == Collecting then None
        else Some(Unverified)
  }

  /** An envelope no one else's envelope clashes with, delivered by a reply. */
  ghost predicate Brings(
    w: World, held: map<string, ShareEnvelope>, call: Call, reply: Exchange, envelope: ShareEnvelope)
  {
    && call.phase == AskRead && reply.Replied? && reply.contribution.Some? && call.party in w.operators
    && Delivers(w.plan, call.party, w.operators[call.party], reply.contribution.value, reply.at, envelope)
    && forall n :: n in held && held[n].memberIndex == envelope.memberIndex ==> n == call.party
  }

  lemma KeptExactly(
    w: World, held: map<string, ShareEnvelope>, call: Call, reply: Exchange, envelope: ShareEnvelope)
    ensures Kept(w, held, call, reply) == Some(envelope) <==> Brings(w, held, call, reply, envelope)
  {
    hide Opened, Delivers;
    if call.phase == AskRead && reply.Replied? && reply.contribution.Some? && call.party in w.operators {
      OpenedExactly(w.plan, call.party, w.operators[call.party], reply.contribution.value, reply.at, envelope);
      assert forall n :: n in held && n != call.party ==> held[n].memberIndex in OtherIndices(held, call.party);
    }
  }

  /** What loses a trustee: a refusal or a failed check that is not worth
      retrying, a begin that is not cooling down, a contribution that brings no
      envelope, or a state from which none can come. */
  lemma FatalExactly(w: World, held: map<string, ShareEnvelope>, call: Call, reply: Exchange)
    ensures Fatal(FailureOf(w, held, call, reply))
       <==> match reply
            case Raised(RefusedBy(status, code)) => !(502 <= status <= 504 || (status == 429 && code.None?))
            case Raised(Unreachable) => false
            case Raised(Unverified) => true
            case Replied(state, contribution, _) =>
              || (call.phase == AskBegin && state != CoolingDown)
              || (call.phase == AskRead
                  && if contribution.Some? then forall envelope :: !Brings(w, held, call, reply, envelope)
                     else state != CoolingDown && state != Collecting)
  {
    hide Acceptable, Brings;
    if Kept(w, held, call, reply).Some? {
      KeptExactly(w, held, call, reply, Kept(w, held, call, reply).value);
    }
    forall envelope
      ensures Brings(w, held, call, reply, envelope) ==> Kept(w, held, call, reply).Some?
    {
      KeptExactly(w, held, call, reply, envelope);
    }
  }

  // -------------------------------------------------------------------------
  // A trace of calls

  /** The envelopes held after these calls, from those resumed with. */
  function Held(w: World, resumed: map<string, ShareEnvelope>, calls: seq<Call>): map<string, ShareEnvelope> {
    if calls == [] then resumed
    else
      var k := |calls| - 1;
      var before := Held(w, resumed, calls[..k]);
      match Kept(w, before, calls[k], w.network(k))
      case None => before
      case Some(envelope) => before[calls[k].party := envelope]
  }

  function Outcome(w: World, resumed: map<string, ShareEnvelope>, calls: seq<Call>, k: nat): Option<Failure>
    requires k < |calls|
  {
    FailureOf(w, Held(w, resumed, calls[..k]), calls[k], w.network(k))
  }

  /** The k-th call added an envelope. */
  predicate Added(w: World, resumed: map<string, ShareEnvelope>, calls: seq<Call>, k: nat)
    requires k < |calls|
  {
    Kept(w, Held(w, resumed, calls[..k]), calls[k], w.network(k)).Some?
  }

  predicate Fatal(outcome: Option<Failure>) {
    outcome.Some? && !Transient(outcome.value)
  }

  /** One of the trustee's own calls failed beyond retrying. */
  ghost predicate Lost(w: World, resumed: map<string, ShareEnvelope>, calls: seq<Call>, name: string) {
    exists k :: 0 <= k < |calls| && calls[k].party == name && Fatal(Outcome(w, resumed, calls, k))
  }

  /** The trustee answered a begin with a session cooling down. */
  ghost predicate Begun(w: World, resumed: map<string, ShareEnvelope>, calls: seq<Call>, name: string) {
    exists k :: 0 <= k < |calls| && calls[k] == Call(name, AskBegin) && Outcome(w, resumed, calls, k).None?
  }

  /** A call there is reason to make after these: to a trustee not lost, whose
      envelope is still wanted; a read only once its session has begun, a
      begin only right after its manifest was confirmed, and neither twice. */
  ghost predicate Proper(
    w: World, trustees: seq<string>, resumed: map<string, ShareEnvelope>, calls: seq<Call>, call: Call)
  {
    && call.party in trustees && !Lost(w, resumed, calls, call.party)
    && call.party !in Held(w, resumed, calls) && |Held(w, resumed, calls)| < w.plan.threshold
    && match call.phase
       case AskManifest => !Begun(w, resumed, calls, call.party)
       case AskBegin =>
         && !Begun(w, resumed, calls, call.party)
         && calls != [] && calls[|calls| - 1] == Call(call.party, AskManifest)
         && Outcome(w, resumed, calls, |calls| - 1).None?
       case AskRead => Begun(w, resumed, calls, call.party)
  }

  ghost predicate AllProper(w: World, trustees: seq<string>, resumed: map<string, ShareEnvelope>, calls: seq<Call>) {
    forall k :: 0 <= k < |calls| ==> Proper(w, trustees, resumed, calls[..k], calls[k])
  }

  /** Every envelope added was checkpointed right after. */
  ghost predicate AllSaved(w: World, resumed: map<string, ShareEnvelope>, calls: seq<Call>, saves: nat -> bool) {
    forall k :: 0 <= k < |calls| && Added(w, resumed, calls, k) ==> saves(k + 1)
  }

  /** The k-th call ends its trustee's turn: it failed, or it was the read. */
  ghost predicate Concludes(w: World, resumed: map<string, ShareEnvelope>, calls: seq<Call>, k: nat, name: string)
    requires k < |calls|
  {
    calls[k].party == name && (Outcome(w, resumed, calls, k).Some? || calls[k].phase.AskRead?)
  }

  /** The trustee's turn ended after the first `from` calls. */
  ghost predicate HadTurn(w: World, resumed: map<string, ShareEnvelope>, calls: seq<Call>, from: nat, name: string) {
    exists k :: from <= k < |calls| && Concludes(w, resumed, calls, k, name)
  }

  /** The calls after the first `from` are a whole round: unless the threshold
      was reached, every trustee then live and wanted had its turn. */
  ghost predicate Swept(
    w: World, trustees: seq<string>, resumed: map<string, ShareEnvelope>, calls: seq<Call>, from: nat)
    requires from <= |calls|
  {
    |Held(w, resumed, calls)| < w.plan.threshold ==>
      forall n | n in trustees && !Lost(w, resumed, calls[..from], n) && n !in Held(w, resumed, calls[..from]) ::
        HadTurn(w, resumed, calls, from, n)
  }

  function RoundStart(rounds: seq<nat>, r: nat): nat
    requires r <= |rounds|
  {
    if r == 0 then 0 else rounds[r - 1]
  }

  /** `rounds` says how many calls had been made as each round ended. */
  ghost predicate AllSwept(
    w: World, trustees: seq<string>, resumed: map<string, ShareEnvelope>, calls: seq<Call>, rounds: seq<nat>)
  {
    forall r :: 0 <= r < |rounds| ==>
      && RoundStart(rounds, r) <= rounds[r] <= |calls|
      && Swept(w, trustees, resumed, calls[..rounds[r]], RoundStart(rounds, r))
  }

  // -------------------------------------------------------------------------
  // One more call

  /** The bookkeeping of the loop agrees with its trace. */
  ghost predicate Tracks(
    w: World, trustees: seq<string>, resumed: map<string, ShareEnvelope>, calls: seq<Call>, current: set<string>,
    held: map<string, ShareEnvelope>)
  {
    && held == Held(w, resumed, calls)
    && AllProper(w, trustees, resumed, calls)
    && forall n :: n in current <==> Begun(w, resumed, calls, n)
  }

  lemma OutcomeStays(w: World, resumed: map<string, ShareEnvelope>, calls: seq<Call>, more: seq<Call>, k: nat)
    requires calls <= more && k < |calls|
    ensures Outcome(w, resumed, more, k) == Outcome(w, resumed, calls, k)
    ensures Added(w, resumed, more, k) == Added(w, resumed, calls, k)
  {
    assert more[..k] == calls[..k];
  }

  lemma LostOne(w: World, resumed: map<string, ShareEnvelope>, calls: seq<Call>, call: Call, n: string)
    ensures Lost(w, resumed, calls + [call], n)
       <==> Lost(w, resumed, calls, n)
            || (n == call.party && Fatal(FailureOf(w, Held(w, resumed, calls), call, w.network(|calls|))))
  {
    hide FailureOf, Held;
    var more := calls + [call];
    assert more[..|calls|] == calls;
    forall k | 0 <= k < |calls|
      ensures Outcome(w, resumed, more, k) == Outcome(w, resumed, calls, k)
    {
      OutcomeStays(w, resumed, calls, more, k);
    }
    if Lost(w, resumed, calls, n) {
      var k :| 0 <= k < |calls| && calls[k].party == n && Fatal(Outcome(w, resumed, calls, k));
      assert more[k].party == n && Fatal(Outcome(w, resumed, more, k));
    }
    if n == call.party && Fatal(FailureOf(w, Held(w, resumed, calls), call, w.network(|calls|))) {
      assert more[|calls|].party == n && Fatal(Outcome(w, resumed, more, |calls|));
    }
  }

  lemma BegunOne(w: World, resumed: map<string, ShareEnvelope>, calls: seq<Call>, call: Call, n: string)
    ensures Begun(w, resumed, calls + [call], n)
       <==> Begun(w, resumed, calls, n)
            || (call == Call(n, AskBegin) && FailureOf(w, Held(w, resumed, calls), call, w.network(|calls|)).None?)
  {
    hide FailureOf, Held;
    var more := calls + [call];
    assert more[..|calls|] == calls;
    forall k | 0 <= k < |calls|
      ensures Outcome(w, resumed, more, k) == Outcome(w, resumed, calls, k)
    {
      OutcomeStays(w, resumed, calls, more, k);
    }
    if Begun(w, resumed, calls, n) {
      var k :| 0 <= k < |calls| && calls[k] == Call(n, AskBegin) && Outcome(w, resumed, calls, k).None?;
      assert more[k] == Call(n, AskBegin) && Outcome(w, resumed, more, k).None?;
    }
    if call == Call(n, AskBegin) && FailureOf(w, Held(w, resumed, calls), call, w.network(|calls|)).None? {
      assert more[|calls|] == Call(n, AskBegin) && Outcome(w, resumed, more, |calls|).None?;
    }
  }

  /** One proper call more, and everything it changes. */
  lemma OneMoreCall(
    w: World, trustees: seq<string>, resumed: map<string, ShareEnvelope>, calls: seq<Call>, current: set<string>,
    held: map<string, ShareEnvelope>, call: Call)
    requires Tracks(w, trustees, resumed, calls, current, held) && Proper(w, trustees, resumed, calls, call)
    ensures
      var more := calls + [call];
      var failure := FailureOf(w, held, call, w.network(|calls|));
      var kept := Kept(w, held, call, w.network(|calls|));
      && Tracks(w, trustees, resumed, more,
                if call.phase.AskBegin? && failure.None? then current + {call.party} else current,
                if kept.None? then held else held[call.party := kept.value])
      && Outcome(w, resumed, more, |calls|) == failure
      && (Added(w, resumed, more, |calls|) <==> kept.Some?)
      && (forall n :: Lost(w, resumed, more, n) <==> Lost(w, resumed, calls, n) || (n == call.party && Fatal(failure)))
  {
    hide FailureOf, Kept, Proper, Lost, Begun, Fatal;
    var more := calls + [call];
    assert more[..|calls|] == calls;
    forall n
      ensures Lost(w, resumed, more, n) <==>
                Lost(w, resumed, calls, n)
                || (n == call.party && Fatal(FailureOf(w, held, call, w.network(|calls|))))
      ensures Begun(w, resumed, more, n) <==>
                Begun(w, resumed, calls, n)
                || (call == Call(n, AskBegin) && FailureOf(w, held, call, w.network(|calls|)).None?)
    {
      LostOne(w, resumed, calls, call, n);
      BegunOne(w, resumed, calls, call, n);
    }
    forall k | 0 <= k < |more|
      ensures Proper(w, trustees, resumed, more[..k], more[k])
    {
      if k < |calls| {
        assert more[..k] == calls[..k];
      }
    }
  }

  // -------------------------------------------------------------------------
  // One trustee's turn

  /** There is reason to call this trustee. */
  ghost predicate Wanted(
    w: World, trustees: seq<string>, resumed: map<string, ShareEnvelope>, calls: seq<Call>,
    held: map<string, ShareEnvelope>, name: string)
  {
    name in trustees && !Lost(w, resumed, calls, name) && name !in held && |held| < w.plan.threshold
  }

  /** `more` goes on from `calls` without adding or losing anything. */
  ghost predicate Uneventful(w: World, resumed: map<string, ShareEnvelope>, calls: seq<Call>, more: seq<Call>) {
    && calls <= more
    && (forall k :: |calls| <= k < |more| ==> !Added(w, resumed, more, k))
    && forall n :: Lost(w, resumed, more, n) <==> Lost(w, resumed, calls, n)
  }

  /** `more` is one trustee's turn after `calls`: only its last call ends it,
      and only that can add its envelope or lose it. */
  ghost predicate OneTurn(
    w: World, resumed: map<string, ShareEnvelope>, calls: seq<Call>, more: seq<Call>, name: string)
  {
    && calls < more
    && Concludes(w, resumed, more, |more| - 1, name)
    && (forall k :: |calls| <= k < |more| - 1 ==> !Added(w, resumed, more, k))
    && forall n :: Lost(w, resumed, more, n) <==>
                     Lost(w, resumed, calls, n) || (n == name && Fatal(Outcome(w, resumed, more, |more| - 1)))
  }

  lemma ManifestProper(
    w: World, trustees: seq<string>, resumed: map<string, ShareEnvelope>, calls: seq<Call>, current: set<string>,
    held: map<string, ShareEnvelope>, name: string)
    requires Tracks(w, trustees, resumed, calls, current, held)
    requires Wanted(w, trustees, resumed, calls, held, name) && name !in current
    ensures Proper(w, trustees, resumed, calls, Call(name, AskManifest))
  {
    hide Lost, Begun, Held, AllProper;
  }

  lemma BeginProper(
    w: World, trustees: seq<string>, resumed: map<string, ShareEnvelope>, calls: seq<Call>, current: set<string>,
    held: map<string, ShareEnvelope>, name: string)
    requires Tracks(w, trustees, resumed, calls, current, held)
    requires Wanted(w, trustees, resumed, calls, held, name) && name !in current
    requires calls != [] && calls[|calls| - 1] == Call(name, AskManifest)
    requires Outcome(w, resumed, calls, |calls| - 1).None?
    ensures Proper(w, trustees, resumed, calls, Call(name, AskBegin))
  {
    hide Lost, Begun, Held, AllProper, Outcome;
  }

  lemma ReadProper(
    w: World, trustees: seq<string>, resumed: map<string, ShareEnvelope>, calls: seq<Call>, current: set<string>,
    held: map<string, ShareEnvelope>, name: string)
    requires Tracks(w, trustees, resumed, calls, current, held)
    requires Wanted(w, trustees, resumed, calls, held, name) && name in current
    ensures Proper(w, trustees, resumed, calls, Call(name, AskRead))
  {
    hide Lost, Begun, Held, AllProper;
  }

  /** After an uneventful start, a call that fails or reads ends the turn; one
      that does neither goes on being uneventful. */
  lemma TurnEnds(
    w: World, resumed: map<string, ShareEnvelope>, calls: seq<Call>, mid: seq<Call>, call: Call,
    failure: Option<Failure>)
    requires Uneventful(w, resumed, calls, mid)
    requires Outcome(w, resumed, mid + [call], |mid|) == failure
    requires forall n :: Lost(w, resumed, mid + [call], n) <==>
                           Lost(w, resumed, mid, n) || (n == call.party && Fatal(failure))
    ensures failure.Some? || call.phase.AskRead? ==> OneTurn(w, resumed, calls, mid + [call], call.party)
    ensures failure.None? && !Added(w, resumed, mid + [call], |mid|) ==> Uneventful(w, resumed, calls, mid + [call])
  {
    hide Outcome, Lost, Added, Fatal;
    var more := mid + [call];
    forall k | |calls| <= k < |mid|
      ensures !Added(w, resumed, more, k)
    {
      OutcomeStays(w, resumed, mid, more, k);
    }
    NoneNotFatal();
  }

  lemma NoneNotFatal()
    ensures !Fatal(None)
  {
  }

  lemma TurnHad(
    w: World, resumed: map<string, ShareEnvelope>, calls: seq<Call>, more: seq<Call>, from: nat, name: string)
    requires OneTurn(w, resumed, calls, more, name) && from <= |calls|
    ensures HadTurn(w, resumed, more, from, name)
  {
    hide Outcome, Concludes, Added, Lost;
    assert Concludes(w, resumed, more, |more| - 1, name);
  }

  lemma HadStays(
    w: World, resumed: map<string, ShareEnvelope>, calls: seq<Call>, more: seq<Call>, from: nat, name: string)
    requires HadTurn(w, resumed, calls, from, name) && calls <= more
    ensures HadTurn(w, resumed, more, from, name)
  {
    hide Outcome;
    var k :| from <= k < |calls| && Concludes(w, resumed, calls, k, name);
    OutcomeStays(w, resumed, calls, more, k);
    assert Concludes(w, resumed, more, k, name);
  }

  /** A turn adds one envelope at most, its trustee's own, and it is saved as
      the calls before were unless it is that one. */
  lemma SavedByTurn(
    w: World, resumed: map<string, ShareEnvelope>, calls: seq<Call>, more: seq<Call>, name: string, saves: nat -> bool)
    requires OneTurn(w, resumed, calls, more, name) && AllSaved(w, resumed, calls, saves)
    ensures AllSaved(w, resumed, more[..|more| - 1], saves)
    ensures AllSaved(w, resumed, more, saves) <==> (Added(w, resumed, more, |more| - 1) ==> saves(|more|))
  {
    hide Outcome, Concludes, Added, Lost;
    var most := more[..|more| - 1];
    forall k | 0 <= k < |calls|
      ensures Added(w, resumed, more, k) == Added(w, resumed, calls, k)
    {
      OutcomeStays(w, resumed, calls, more, k);
    }
    forall k | 0 <= k < |most|
      ensures Added(w, resumed, most, k) == Added(w, resumed, more, k)
    {
      OutcomeStays(w, resumed, most, more, k);
    }
  }
}
