/** The recovery loop (`tools/client.py`): t shares from t trustees, each on
    its own, over a network and a clock that may do anything. */
module Collect {
  import opened Basics
  import opened Crypto
  import opened Wire
  import opened Recovery
  import opened Polling

  /** Why the whole recovery stops short. */
  datatype Stop = BadCheckpoint | SaveFailed | CannotComplete | BadExpiry | SessionExpired

  predicate Distinct(names: seq<string>) {
    forall i, j :: 0 <= i < j < |names| ==> names[i] != names[j]
  }

  function Remove(names: seq<string>, name: string): (rest: seq<string>)
    ensures forall n :: n in rest <==> n in names && n != name
    ensures |rest| <= |names|
  {
    if names == [] then []
    else if names[0] == name then Remove(names[1..], name)
    else [names[0]] + Remove(names[1..], name)
  }

  lemma {:induction false} RemoveDistinct(names: seq<string>, name: string)
    requires Distinct(names)
    ensures Distinct(Remove(names, name))
  {
    if names != [] {
      RemoveDistinct(names[1..], name);
      assert names[0] !in Remove(names[1..], name);
    }
  }

  lemma AppendDistinct(names: seq<string>, name: string)
    requires Distinct(names) && name !in names
    ensures Distinct(names + [name])
  {
  }

  ghost predicate Lists(order: seq<string>, envelopes: map<string, ShareEnvelope>) {
    forall n :: n in envelopes <==> n in order
  }

  ghost predicate Vouched(plan: Plan, name: string, operator: PublicKey, envelope: ShareEnvelope, c: Contribution) {
    exists now :: Opened(plan, name, operator, c, now) == Some(envelope)
  }

  ghost predicate AllVouched(
    plan: Plan, operators: map<string, PublicKey>, envelopes: map<string, ShareEnvelope>,
    contributions: map<string, Contribution>)
  {
    forall n :: n in envelopes ==>
      n in operators && n in contributions && Vouched(plan, n, operators[n], envelopes[n], contributions[n])
  }

  ghost predicate IndicesDiffer(envelopes: map<string, ShareEnvelope>) {
    forall m, n | m in envelopes && n in envelopes && envelopes[m].memberIndex == envelopes[n].memberIndex :: m == n
  }

  lemma VouchedMore(
    plan: Plan, operators: map<string, PublicKey>, envelopes: map<string, ShareEnvelope>,
    contributions: map<string, Contribution>, name: string, envelope: ShareEnvelope, c: Contribution, now: int)
    requires AllVouched(plan, operators, envelopes, contributions) && name in operators
    requires Opened(plan, name, operators[name], c, now) == Some(envelope)
    ensures AllVouched(plan, operators, envelopes[name := envelope], contributions[name := c])
  {
    hide Opened;
    assert Vouched(plan, name, operators[name], envelope, c);
  }

  lemma IndicesStayDifferent(envelopes: map<string, ShareEnvelope>, name: string, envelope: ShareEnvelope)
    requires IndicesDiffer(envelopes)
    requires envelope.memberIndex !in set n | n in envelopes && n != name :: envelopes[n].memberIndex
    ensures IndicesDiffer(envelopes[name := envelope])
  {
    assert forall n :: n in envelopes && n != name ==> envelopes[n].memberIndex != envelope.memberIndex;
  }

  lemma ListsMore(order: seq<string>, envelopes: map<string, ShareEnvelope>, name: string, envelope: ShareEnvelope)
    requires Distinct(order) && Lists(order, envelopes)
    ensures
      var more := if name in envelopes then order else order + [name];
      Distinct(more) && Lists(more, envelopes[name := envelope])
  {
    if name !in envelopes {
      AppendDistinct(order, name);
    }
  }

  /** A recovering device: the envelopes it has verified, in the order they
      came, and the contributions that carried them. */
  class Candidate {
    const plan: Plan
    /** The operator keys of the manifests pinned in the recovery map. */
    const operators: map<string, PublicKey>

    var order: seq<string>
    var envelopes: map<string, ShareEnvelope>
    var contributions: map<string, Contribution>

    constructor (plan: Plan, operators: map<string, PublicKey>)
      ensures this.plan == plan && this.operators == operators && Valid() && order == []
    {
      this.plan, this.operators := plan, operators;
      order, envelopes, contributions := [], map[], map[];
    }

    /** Each envelope held was opened from the contribution held beside it,
        under its own trustee's operator key; no two share a member index. */
    ghost predicate Valid()
      reads this
    {
      && Distinct(order) && Lists(order, envelopes) && contributions.Keys == envelopes.Keys
      && AllVouched(plan, operators, envelopes, contributions) && IndicesDiffer(envelopes)
    }

    /** Check a contribution completely, open it, and keep it. */
    method Accept(name: string, c: Contribution, now: int) returns (kept: Option<ShareEnvelope>)
      requires Valid() && name in operators
      modifies this
      ensures Valid()
      ensures kept == Acceptable(plan, operators, old(envelopes), name, c, now)
      ensures kept.None? ==> order == old(order) && envelopes == old(envelopes) && contributions == old(contributions)
      ensures kept.Some? ==> envelopes == old(envelopes)[name := kept.value]
      ensures kept.Some? ==> contributions == old(contributions)[name := c]
      ensures kept.Some? ==> order == if name in old(envelopes) then old(order) else old(order) + [name]
    {
      hide Opened, Distinct, Lists, AllVouched, IndicesDiffer;
      var envelope := Opened(plan, name, operators[name], c, now);
      if envelope.None? || envelope.value.memberIndex in OtherIndices(envelopes, name) {
        return None;
      }
      VouchedMore(plan, operators, envelopes, contributions, name, envelope.value, c, now);
      IndicesStayDifferent(envelopes, name, envelope.value);
      ListsMore(order, envelopes, name, envelope.value);
      if name !in envelopes {
        order := order + [name];
      }
      envelopes, contributions := envelopes[name := envelope.value], contributions[name := c];
      return envelope;
    }
  }

  /** What the calls made so far leave: the candidate's own invariant, and its
      envelopes, begun sessions and live trustees as the trace says. */
  ghost predicate Steady(
    c: Candidate, w: World, trustees: seq<string>, resumed: map<string, ShareEnvelope>, calls: seq<Call>,
    current: set<string>, live: seq<string>)
    reads c
  {
    && c.Valid() && w.plan == c.plan && w.operators == c.operators
    && (forall n :: n in trustees ==> n in w.operators) && (forall n :: n in c.order ==> n in trustees)
    && Tracks(w, trustees, resumed, calls, current, c.envelopes)
    && Distinct(live) && forall n :: n in live <==> n in trustees && !Lost(w, resumed, calls, n)
  }

  /** Confirm a trustee's manifest and begin there. */
  method Start(
    name: string, current: set<string>, network: nat -> Exchange, made: nat, ghost w: World,
    ghost trustees: seq<string>, ghost resumed: map<string, ShareEnvelope>, ghost calls: seq<Call>,
    ghost held: map<string, ShareEnvelope>)
    returns (failure: Option<Failure>, begun: set<string>, total: nat, ghost more: seq<Call>)
    requires w.network == network && |calls| == made && name !in current
    requires Tracks(w, trustees, resumed, calls, current, held) && Wanted(w, trustees, resumed, calls, held, name)
    ensures total == if network(made).Raised? then made + 1 else made + 2
    ensures failure.None? <==>
              network(made).Replied? && network(made + 1).Replied? && network(made + 1).state == CoolingDown
    ensures begun == if failure.None? then current + {name} else current
    ensures |more| == total && Tracks(w, trustees, resumed, more, begun, held)
    ensures failure.None? ==>
              Uneventful(w, resumed, calls, more) && Wanted(w, trustees, resumed, more, held, name) && name in begun
    ensures failure.Some? ==>
              && OneTurn(w, resumed, calls, more, name)
              && Outcome(w, resumed, more, total - 1) == failure && !Added(w, resumed, more, total - 1)
  {
    hide Tracks, Lost, Outcome, Added, OneTurn, Proper, Held, Acceptable;
    total, begun := made, current;
    var manifest := network(total);
    total := total + 1;
    ManifestProper(w, trustees, resumed, calls, current, held, name);
    OneMoreCall(w, trustees, resumed, calls, current, held, Call(name, AskManifest));
    ghost var asked := calls + [Call(name, AskManifest)];
    TurnEnds(w, resumed, calls, calls, Call(name, AskManifest), FailureOf(w, held, Call(name, AskManifest), manifest));
    more := asked;
    if manifest.Raised? {
      return Some(manifest.failure), begun, total, more;
    }
    // Idempotent: a resumed or retried begin resends the same bytes.
    var receipt := network(total);
    total := total + 1;
    BeginProper(w, trustees, resumed, asked, current, held, name);
    OneMoreCall(w, trustees, resumed, asked, current, held, Call(name, AskBegin));
    more := asked + [Call(name, AskBegin)];
    TurnEnds(w, resumed, calls, asked, Call(name, AskBegin), FailureOf(w, held, Call(name, AskBegin), receipt));
    if receipt.Raised? {
      return Some(receipt.failure), begun, total, more;
    }
    if receipt.state != CoolingDown {
      return Some(Unverified), begun, total, more;
    }
    begun := begun + {name};
    failure := None;
  }

  /** Begin at a trustee once, then read; its envelope once released. */
  method Poll(
    c: Candidate, name: string, current: set<string>, network: nat -> Exchange, made: nat, ghost w: World,
    ghost trustees: seq<string>, ghost resumed: map<string, ShareEnvelope>, ghost calls: seq<Call>)
    returns (r: Result<Option<ShareEnvelope>, Failure>, begun: set<string>, total: nat, ghost more: seq<Call>)
    requires c.Valid() && w == World(c.plan, c.operators, network) && name in w.operators && |calls| == made
    requires Tracks(w, trustees, resumed, calls, current, c.envelopes)
    requires Wanted(w, trustees, resumed, calls, c.envelopes, name)
    modifies c
    ensures c.Valid() && |more| == total && Tracks(w, trustees, resumed, more, begun, c.envelopes)
    ensures OneTurn(w, resumed, calls, more, name)
    ensures Outcome(w, resumed, more, total - 1) == if r.Err? then Some(r.error) else None
    ensures Added(w, resumed, more, total - 1) <==> r.Ok? && r.value.Some?
    ensures c.order == if r.Ok? && r.value.Some? then old(c.order) + [name] else old(c.order)
    ensures c.envelopes == if r.Ok? && r.value.Some? then old(c.envelopes)[name := r.value.value] else old(c.envelopes)
  {
    hide Candidate.Valid, Acceptable, Tracks, Lost, Outcome, Added, OneTurn, Proper, Held, Uneventful;
    total, begun := made, current;
    ghost var mid := calls;
    UneventfulNow(w, resumed, calls);
    if name !in current {
      var failure;
      failure, begun, total, mid :=
        Start(name, current, network, made, w, trustees, resumed, calls, c.envelopes);
      if failure.Some? {
        return Err(failure.value), begun, total, mid;
      }
    }
    var receipt := network(total);
    ghost var held := c.envelopes;
    ReadProper(w, trustees, resumed, mid, begun, held, name);
    OneMoreCall(w, trustees, resumed, mid, begun, held, Call(name, AskRead));
    TurnEnds(w, resumed, calls, mid, Call(name, AskRead), FailureOf(w, held, Call(name, AskRead), receipt));
    total, more := total + 1, mid + [Call(name, AskRead)];
    if receipt.Raised? {
      return Err(receipt.failure), begun, total, more;
    }
    if receipt.contribution.Some? {
      var kept := c.Accept(name, receipt.contribution.value, receipt.at);
      return if kept.None? then Err(Unverified) else Ok(kept), begun, total, more;
    }
    if receipt.state != CoolingDown && receipt.state != Collecting {
      return Err(Unverified), begun, total, more;
    }
    return Ok(None), begun, total, more;
  }

  lemma UneventfulNow(w: World, resumed: map<string, ShareEnvelope>, calls: seq<Call>)
    ensures Uneventful(w, resumed, calls, calls)
  {
  }

  /** The last call's envelope could not be checkpointed; all others were. */
  ghost predicate SaveLost(w: World, resumed: map<string, ShareEnvelope>, calls: seq<Call>, saves: nat -> bool) {
    && calls != [] && AllSaved(w, resumed, calls[..|calls| - 1], saves)
    && Added(w, resumed, calls, |calls| - 1) && !saves(|calls|)
  }

  /** One trustee's turn: its envelope, or a retry next round, or a drop. */
  method Turn(
    c: Candidate, network: nat -> Exchange, saves: nat -> bool, live: seq<string>, current: set<string>, made: nat,
    name: string, ghost w: World, ghost trustees: seq<string>, ghost resumed: map<string, ShareEnvelope>,
    ghost calls: seq<Call>)
    returns (saved: bool, left: seq<string>, begun: set<string>, total: nat, ghost more: seq<Call>)
    requires Steady(c, w, trustees, resumed, calls, current, live) && w.network == network && |calls| == made
    requires name in live && name !in c.envelopes && |c.envelopes| < c.plan.threshold
    requires AllSaved(w, resumed, calls, saves)
    modifies c
    ensures Steady(c, w, trustees, resumed, more, begun, left) && |more| == total
    ensures OneTurn(w, resumed, calls, more, name)
    ensures if saved then AllSaved(w, resumed, more, saves) else SaveLost(w, resumed, more, saves)
    ensures left == live || left == Remove(live, name)
    ensures c.envelopes.Keys <= old(c.envelopes.Keys) + {name} && old(c.envelopes.Keys) <= c.envelopes.Keys
  {
    hide Candidate.Valid, Tracks, Lost, Outcome, Added, Held, Transient, AllSaved, Distinct, Concludes;
    var r;
    r, begun, total, more := Poll(c, name, current, network, made, w, trustees, resumed, calls);
    SavedByTurn(w, resumed, calls, more, name, saves);
    left, saved := live, true;
    match r {
      case Err(failure) =>
        if !Transient(failure) {
          RemoveDistinct(live, name);
          left := Remove(live, name);
        }
      case Ok(None) =>
      case Ok(Some(_)) =>
        saved := saves(total);
    }
  }

  // -------------------------------------------------------------------------
  // One round

  /** Everyone before the i-th has had a turn, had no need of one, or the
      threshold is reached. */
  ghost predicate TurnsHad(
    w: World, resumed: map<string, ShareEnvelope>, calls: seq<Call>, more: seq<Call>, names: seq<string>)
  {
    |Held(w, resumed, more)| < w.plan.threshold ==>
      forall n | n in names && n !in Held(w, resumed, calls) :: HadTurn(w, resumed, more, |calls|, n)
  }

  lemma OneMoreHad(
    w: World, resumed: map<string, ShareEnvelope>, calls: seq<Call>, mid: seq<Call>, more: seq<Call>,
    names: seq<string>, name: string)
    requires TurnsHad(w, resumed, calls, mid, names) && calls <= mid && OneTurn(w, resumed, mid, more, name)
    requires |Held(w, resumed, mid)| < w.plan.threshold
    ensures TurnsHad(w, resumed, calls, more, names + [name])
  {
    hide Held, OneTurn, HadTurn;
    TurnHad(w, resumed, mid, more, |calls|, name);
    TurnGoesOn(w, resumed, mid, more, name);
    forall n | n in names && n !in Held(w, resumed, calls)
      ensures HadTurn(w, resumed, more, |calls|, n)
    {
      HadStays(w, resumed, mid, more, |calls|, n);
    }
  }

  /** One pass over the trustees live when it starts. */
  method Round(
    c: Candidate, network: nat -> Exchange, saves: nat -> bool, live: seq<string>, current: set<string>, made: nat,
    ghost w: World, ghost trustees: seq<string>, ghost resumed: map<string, ShareEnvelope>, ghost calls: seq<Call>)
    returns (saved: bool, left: seq<string>, begun: set<string>, total: nat, ghost more: seq<Call>)
    requires Steady(c, w, trustees, resumed, calls, current, live) && w.network == network && |calls| == made
    requires AllSaved(w, resumed, calls, saves)
    modifies c
    ensures Steady(c, w, trustees, resumed, more, begun, left) && |more| == total && calls <= more
    ensures saved ==> AllSaved(w, resumed, more, saves) && Swept(w, trustees, resumed, more, made)
    ensures !saved ==> SaveLost(w, resumed, more, saves)
  {
    hide Candidate.Valid, AllSaved, Lost, Held, OneTurn, TurnsHad, Tracks, Swept;
    left, begun, total, more := live, current, made, calls;
    NoTurnsHad(w, resumed, calls);
    HeldIs(w, trustees, resumed, calls, current, c.envelopes);
    for i := 0 to |live|
      invariant Steady(c, w, trustees, resumed, more, begun, left) && |more| == total && calls <= more
      invariant AllSaved(w, resumed, more, saves)
      invariant forall j :: i <= j < |live| ==> live[j] in left
      invariant forall n :: n in c.envelopes ==> n in old(c.envelopes) || n in live[..i]
      invariant TurnsHad(w, resumed, calls, more, live[..i])
    {
      var name := live[i];
      assert live[..i + 1] == live[..i] + [name];
      assert name !in live[..i];
      HeldIs(w, trustees, resumed, more, begun, c.envelopes);
      if name in c.envelopes || |c.envelopes| >= c.plan.threshold {
        NoTurnNeeded(w, resumed, calls, more, live[..i], name);
        continue;
      }
      ghost var mid := more;
      saved, left, begun, total, more :=
        Turn(c, network, saves, left, begun, total, name, w, trustees, resumed, mid);
      TurnGoesOn(w, resumed, mid, more, name);
      if !saved {
        return;
      }
      OneMoreHad(w, resumed, calls, mid, more, live[..i], name);
    }
    saved := true;
    assert live[..|live|] == live;
    RoundSwept(w, trustees, resumed, calls, more, live);
  }

  lemma HeldIs(
    w: World, trustees: seq<string>, resumed: map<string, ShareEnvelope>, calls: seq<Call>, current: set<string>,
    held: map<string, ShareEnvelope>)
    requires Tracks(w, trustees, resumed, calls, current, held)
    ensures held == Held(w, resumed, calls)
  {
  }

  lemma NoTurnsHad(w: World, resumed: map<string, ShareEnvelope>, calls: seq<Call>)
    ensures TurnsHad(w, resumed, calls, calls, [])
  {
  }

  lemma TurnGoesOn(w: World, resumed: map<string, ShareEnvelope>, calls: seq<Call>, more: seq<Call>, name: string)
    requires OneTurn(w, resumed, calls, more, name)
    ensures calls <= more
  {
  }

  lemma NoTurnNeeded(
    w: World, resumed: map<string, ShareEnvelope>, calls: seq<Call>, more: seq<Call>, names: seq<string>, name: string)
    requires TurnsHad(w, resumed, calls, more, names)
    requires name in Held(w, resumed, calls) || |Held(w, resumed, more)| >= w.plan.threshold
    ensures TurnsHad(w, resumed, calls, more, names + [name])
  {
    hide Held, HadTurn;
  }

  lemma RoundSwept(
    w: World, trustees: seq<string>, resumed: map<string, ShareEnvelope>, calls: seq<Call>, more: seq<Call>,
    live: seq<string>)
    requires TurnsHad(w, resumed, calls, more, live) && calls <= more
    requires forall n :: n in live <==> n in trustees && !Lost(w, resumed, calls, n)
    ensures Swept(w, trustees, resumed, more, |calls|)
  {
    hide Held, HadTurn, Lost;
    assert more[..|calls|] == calls;
  }

  // -------------------------------------------------------------------------
  // The loop

  /** The first `threshold` shares, in the order they came. */
  ghost predicate FirstShares(c: Candidate, shares: seq<string>)
    reads c
  {
    && |shares| == c.plan.threshold <= |c.order|
    && forall i :: 0 <= i < |shares| ==> c.order[i] in c.envelopes && shares[i] == c.envelopes[c.order[i]].share
  }

  method Shares(c: Candidate) returns (shares: seq<string>)
    requires c.Valid() && c.plan.threshold <= |c.order|
    ensures FirstShares(c, shares)
  {
    shares := [];
    for i := 0 to c.plan.threshold
      invariant |shares| == i
      invariant forall j :: 0 <= j < i ==> c.order[j] in c.envelopes && shares[j] == c.envelopes[c.order[j]].share
    {
      assert c.order[i] in c.order;
      shares := shares + [c.envelopes[c.order[i]].share];
    }
  }


  /** The envelopes resumed with: each saved pair in turn names one of the
      trustees and is accepted as if it came now, or nothing is. */
  function Resumed(
    w: World, trustees: seq<string>, saved: seq<(string, Contribution)>, started: nat -> int)
    : Option<map<string, ShareEnvelope>>
  {
    if saved == [] then Some(map[])
    else
      var k := |saved| - 1;
      match Resumed(w, trustees, saved[..k], started)
      case None => None
      case Some(held) =>
        var (name, c) := saved[k];
        var envelope := Acceptable(w.plan, w.operators, held, name, c, started(k));
        if name !in trustees || envelope.None? then None else Some(held[name := envelope.value])
  }

  /** A checkpoint is bad exactly when, after some good pairs, one is foreign
      or no longer accepted. */
  lemma {:induction false} BadPair(
    w: World, trustees: seq<string>, saved: seq<(string, Contribution)>, started: nat -> int)
    ensures Resumed(w, trustees, saved, started).None? <==>
              exists k :: 0 <= k < |saved| && PairFails(w, trustees, saved, started, k)
  {
    hide Acceptable;
    if saved != [] {
      var last := |saved| - 1;
      var most := saved[..last];
      BadPair(w, trustees, most, started);
      forall k | 0 <= k < last
        ensures PairFails(w, trustees, saved, started, k) <==> PairFails(w, trustees, most, started, k)
      {
        assert saved[..k] == most[..k];
      }
      assert Resumed(w, trustees, saved, started).None? && Resumed(w, trustees, most, started).Some? ==>
          PairFails(w, trustees, saved, started, last);
      if Resumed(w, trustees, most, started).None? {
        var k :| 0 <= k < last && PairFails(w, trustees, most, started, k);
        assert PairFails(w, trustees, saved, started, k);
      }
    }
  }

  ghost predicate PairFails(
    w: World, trustees: seq<string>, saved: seq<(string, Contribution)>, started: nat -> int, k: nat)
    requires k < |saved|
  {
    var before := Resumed(w, trustees, saved[..k], started);
    && before.Some?
    && (saved[k].0 !in trustees
        || Acceptable(w.plan, w.operators, before.value, saved[k].0, saved[k].1, started(k)).None?)
  }

  /** Contributions a previous run saved are checked like any other. */
  method Resume(
    c: Candidate, trustees: seq<string>, saved: seq<(string, Contribution)>, started: nat -> int, ghost w: World)
    returns (ok: bool)
    requires c.Valid() && c.order == [] && w.plan == c.plan && w.operators == c.operators
    requires forall n :: n in trustees ==> n in c.operators
    modifies c
    ensures c.Valid() && forall n :: n in c.order ==> n in trustees
    ensures Resumed(w, trustees, saved, started) == if ok then Some(c.envelopes) else None
  {
    hide Candidate.Valid, Acceptable;
    NothingHeld(c);
    for i := 0 to |saved|
      invariant c.Valid() && forall n :: n in c.order ==> n in trustees
      invariant Resumed(w, trustees, saved[..i], started) == Some(c.envelopes)
    {
      var name := saved[i].0;
      assert saved[..i + 1][..i] == saved[..i];
      if name !in trustees {
        StillBad(w, trustees, saved, started, i + 1);
        return false;
      }
      var kept := c.Accept(name, saved[i].1, started(i));
      if kept.None? {
        StillBad(w, trustees, saved, started, i + 1);
        return false;
      }
    }
    assert saved[..|saved|] == saved;
    return true;
  }

  lemma NothingHeld(c: Candidate)
    requires c.Valid() && c.order == []
    ensures c.envelopes == map[]
  {
  }

  lemma {:induction false} StillBad(
    w: World, trustees: seq<string>, saved: seq<(string, Contribution)>, started: nat -> int, k: nat)
    requires k <= |saved| && Resumed(w, trustees, saved[..k], started).None?
    ensures Resumed(w, trustees, saved, started).None?
  {
    hide Acceptable;
    if k == |saved| {
      assert saved[..k] == saved;
    } else {
      var most := saved[..|saved| - 1];
      assert most[..k] == saved[..k];
      StillBad(w, trustees, most, started, k);
    }
  }

  /** The clock had not reached the session's expiry as these rounds ended. */
  predicate Unexpired(w: World, clock: nat -> int, rounds: int) {
    var expiry := Timestamp(w.plan.session.expiresAt);
    rounds > 0 ==> expiry.Some? && forall k :: 0 <= k < rounds ==> clock(k) < expiry.value
  }

  /** What the run that led to this result was: proper calls only, in whole
      rounds, everything added saved, and the reason given the true one. */
  ghost predicate Concluded(
    w: World, trustees: seq<string>, resumed: map<string, ShareEnvelope>, calls: seq<Call>, rounds: seq<nat>,
    live: seq<string>, clock: nat -> int, saves: nat -> bool, stop: Option<Stop>)
  {
    var expiry := Timestamp(w.plan.session.expiresAt);
    var held, wanted := |Held(w, resumed, calls)|, w.plan.threshold;
    && AllProper(w, trustees, resumed, calls) && AllSwept(w, trustees, resumed, calls, rounds)
    && Unexpired(w, clock, |rounds| - 1)
    && Distinct(live) && (forall n :: n in live <==> n in trustees && !Lost(w, resumed, calls, n))
    && (stop != Some(SaveFailed) ==> RoundStart(rounds, |rounds|) == |calls| && AllSaved(w, resumed, calls, saves))
    && match stop
       case None => wanted <= held
       case Some(BadCheckpoint) => false
       case Some(SaveFailed) => SaveLost(w, resumed, calls, saves) && Unexpired(w, clock, |rounds|)
       case Some(CannotComplete) => held < wanted && |live| < wanted && rounds != []
       case Some(BadExpiry) => held < wanted <= |live| && expiry.None? && |rounds| == 1
       case Some(SessionExpired) =>
         held < wanted <= |live| && rounds != [] && expiry.Some? && clock(|rounds| - 1) >= expiry.value
  }

  /** Collect t verified shares. `network` answers the calls in turn, `clock`
      is the time as each round ends, `saves` whether a checkpoint can be
      written after so many calls. The loop ends once the clock has passed the
      session's expiry for good, and whatever it returns, `Concluded` says
      what calls it made and why it stopped. */
  method Recover(
    c: Candidate, trustees: seq<string>, saved: seq<(string, Contribution)>, network: nat -> Exchange,
    clock: nat -> int, saves: nat -> bool, started: nat -> int, ghost deadline: nat)
    returns (r: Result<seq<string>, Stop>, live: seq<string>, ghost calls: seq<Call>, ghost rounds: seq<nat>)
    requires c.Valid() && c.order == [] && Distinct(trustees) && forall n :: n in trustees ==> n in c.operators
    requires
      var expiry := Timestamp(c.plan.session.expiresAt);
      expiry.Some? ==> forall round :: round >= deadline ==> clock(round) >= expiry.value
    modifies c
    ensures c.Valid() && forall n :: n in c.order ==> n in trustees
    ensures
      var w := World(c.plan, c.operators, network);
      var resumed := Resumed(w, trustees, saved, started);
      if resumed.None? then r == Err(BadCheckpoint) && calls == []
      else
        && c.envelopes == Held(w, resumed.value, calls)
        && Concluded(w, trustees, resumed.value, calls, rounds, live, clock, saves,
                     if r.Ok? then None else Some(r.error))
    ensures r.Ok? ==> FirstShares(c, r.value)
  {
    hide Candidate.Valid, Tracks, Held, Lost, AllSaved, AllProper, AllSwept, FirstShares, Acceptable, Timestamp;
    ghost var w := World(c.plan, c.operators, network);
    live, calls, rounds := trustees, [], [];
    var resumes := Resume(c, trustees, saved, started, w);
    if !resumes {
      return Err(BadCheckpoint), live, calls, rounds;
    }
    ghost var resumed := c.envelopes;
    NoCalls(w, trustees, resumed, saves);
    var current: set<string>, made, round := {}, 0, 0;
    while HeldCount(c) < c.plan.threshold
      invariant made == |calls| && Steady(c, w, trustees, resumed, calls, current, live)
      invariant AllSaved(w, resumed, calls, saves) && AllSwept(w, trustees, resumed, calls, rounds)
      invariant round == |rounds| && RoundStart(rounds, round) == |calls| && Unexpired(w, clock, round)
      decreases deadline - round
    {
      ghost var before := calls;
      var kept;
      kept, live, current, made, calls := Round(c, network, saves, live, current, made, w, trustees, resumed, before);
      Tracked(w, trustees, resumed, calls, current, c.envelopes);
      if !kept {
        SweptStays(w, trustees, resumed, before, calls, rounds);
        return Err(SaveFailed), live, calls, rounds;
      }
      OneMoreRound(w, trustees, resumed, before, calls, rounds);
      rounds := rounds + [|calls|];
      if HeldCount(c) >= c.plan.threshold {
        break;
      }
      if |live| < c.plan.threshold {
        return Err(CannotComplete), live, calls, rounds;
      }
      var expiry := Timestamp(c.plan.session.expiresAt);
      if expiry.None? {
        return Err(BadExpiry), live, calls, rounds;
      }
      if clock(round) >= expiry.value {
        return Err(SessionExpired), live, calls, rounds;
      }
      round := round + 1;
    }
    Tracked(w, trustees, resumed, calls, current, c.envelopes);
    HeldCountIs(c);
    var shares := Shares(c);
    return Ok(shares), live, calls, rounds;
  }

  lemma NoCalls(w: World, trustees: seq<string>, resumed: map<string, ShareEnvelope>, saves: nat -> bool)
    ensures Tracks(w, trustees, resumed, [], {}, resumed) && AllSaved(w, resumed, [], saves)
    ensures AllSwept(w, trustees, resumed, [], []) && forall n :: !Lost(w, resumed, [], n)
  {
  }

  lemma Tracked(
    w: World, trustees: seq<string>, resumed: map<string, ShareEnvelope>, calls: seq<Call>, current: set<string>,
    held: map<string, ShareEnvelope>)
    requires Tracks(w, trustees, resumed, calls, current, held)
    ensures held == Held(w, resumed, calls) && AllProper(w, trustees, resumed, calls)
  {
  }

  lemma SweptStays(
    w: World, trustees: seq<string>, resumed: map<string, ShareEnvelope>, calls: seq<Call>, more: seq<Call>,
    rounds: seq<nat>)
    requires AllSwept(w, trustees, resumed, calls, rounds) && calls <= more
    ensures AllSwept(w, trustees, resumed, more, rounds)
  {
    hide Swept;
    forall r | 0 <= r < |rounds|
      ensures more[..rounds[r]] == calls[..rounds[r]]
    {
    }
  }

  lemma OneMoreRound(
    w: World, trustees: seq<string>, resumed: map<string, ShareEnvelope>, calls: seq<Call>, more: seq<Call>,
    rounds: seq<nat>)
    requires AllSwept(w, trustees, resumed, calls, rounds) && calls <= more
    requires RoundStart(rounds, |rounds|) == |calls| && Swept(w, trustees, resumed, more, |calls|)
    ensures AllSwept(w, trustees, resumed, more, rounds + [|more|])
  {
    hide Swept;
    SweptStays(w, trustees, resumed, calls, more, rounds);
    var longer := rounds + [|more|];
    assert more[..|more|] == more;
    forall r | 0 <= r < |longer|
      ensures RoundStart(longer, r) <= longer[r] <= |more|
      ensures Swept(w, trustees, resumed, more[..longer[r]], RoundStart(longer, r))
    {
      assert RoundStart(longer, r) == RoundStart(rounds, r);
    }
  }

  /** `len(candidate.envelopes)`. */
  function HeldCount(c: Candidate): nat
    reads c
  {
    |c.envelopes|
  }

  lemma {:induction false} CountDistinct(names: seq<string>)
    requires Distinct(names)
    ensures |set n | n in names| == |names|
  {
    if names != [] {
      CountDistinct(names[1..]);
      assert (set n | n in names) == (set n | n in names[1..]) + {names[0]};
    }
  }

  lemma HeldCountIs(c: Candidate)
    requires c.Valid()
    ensures |c.order| == HeldCount(c)
  {
    hide AllVouched, IndicesDiffer;
    CountDistinct(c.order);
    assert c.envelopes.Keys == set n | n in c.order;
  }

  /** What `Recover` returns combines: the shares come from different
      trustees, under different member indices of one t-of-n split. */
  lemma SharesIndependent(c: Candidate, shares: seq<string>)
    requires c.Valid() && FirstShares(c, shares)
    ensures forall i, j :: 0 <= i < j < |shares| ==>
              && c.order[i] != c.order[j]
              && c.order[i] in c.envelopes && c.order[j] in c.envelopes
              && c.envelopes[c.order[i]].memberIndex != c.envelopes[c.order[j]].memberIndex
    ensures forall i :: 0 <= i < |shares| ==>
              && c.order[i] in c.envelopes && c.order[i] in c.plan.slots
              && Enrolled(c.plan, c.order[i], c.envelopes[c.order[i]])
  {
    hide Enrolled, Delivers;
    forall i | 0 <= i < |shares|
      ensures c.order[i] in c.plan.slots && Enrolled(c.plan, c.order[i], c.envelopes[c.order[i]])
    {
      var now := HeldDelivered(c, c.order[i]);
      DeliversEnrolled(c.plan, c.order[i], c.operators[c.order[i]], c.contributions[c.order[i]], now,
                       c.envelopes[c.order[i]]);
    }
  }

  lemma HeldDelivered(c: Candidate, n: string) returns (now: int)
    requires c.Valid() && n in c.envelopes
    ensures n in c.operators && n in c.contributions
    ensures Delivers(c.plan, n, c.operators[n], c.contributions[n], now, c.envelopes[n])
  {
    hide Delivers;
    assert Vouched(c.plan, n, c.operators[n], c.envelopes[n], c.contributions[n]);
    now :| Opened(c.plan, n, c.operators[n], c.contributions[n], now) == Some(c.envelopes[n]);
    OpenedExactly(c.plan, n, c.operators[n], c.contributions[n], now, c.envelopes[n]);
  }

  lemma DeliversEnrolled(
    plan: Plan, name: string, operator: PublicKey, c: Contribution, now: int, envelope: ShareEnvelope)
    requires Delivers(plan, name, operator, c, now, envelope)
    ensures name in plan.slots && Enrolled(plan, name, envelope)
  {
  }

  /** And every one of them was authorized twice over: it is the share of an
      envelope that its slot's authorization key signed as it is, inside a
      contribution that its trustee's operator signed for this very session and
      sealed to this device's key. */
  lemma SharesAuthorized(c: Candidate, shares: seq<string>, i: nat)
    returns (name: string, envelope: ShareEnvelope, content: Approval, spelling: nat, randomness: nat)
    requires c.Valid() && FirstShares(c, shares) && i < |shares|
    ensures i < |c.order| && name == c.order[i]
    ensures name in c.plan.slots && name in c.operators && shares[i] == envelope.share
    ensures name in c.contributions
    ensures c.contributions[name] == SignedObject(content, Signature.Signature(c.operators[name], content))
    ensures c.operators[name].PublicKey? && c.plan.slots[name].authorizationKey.PublicKey?
    ensures
      var core, entry := c.plan.session, c.plan.slots[name];
      && content.sealedContribution
         == Ciphertext.Sealed(
              PublicKey(c.plan.destinationKey.seed),
              RecoveryInfo(core.sessionId, core.enrollmentId, core.sequence, core.policyDigest, core.artifactId,
                           core.artifactDigest, name, entry.slot, Sha256(core.destination), content.expiresAt),
              SignedEnvelope(envelope, Some(Signature.Signature(entry.authorizationKey, envelope)), spelling),
              randomness)
      && content.sessionId == core.sessionId && content.componentId == name && core.expiresAt == At(content.expiresAt)
      && content.destinationKeysDigest == Sha256(core.destination)
      && envelope.enrollmentId == content.enrollmentId == core.enrollmentId
      && envelope.sequence == content.sequence == core.sequence
      && envelope.componentId == name && envelope.slot == content.slot == entry.slot
  {
    hide AllVouched, IndicesDiffer;
    name := c.order[i];
    envelope := c.envelopes[name];
    var now := HeldDelivered(c, name);
    content := c.contributions[name].content;
    var sealed := content.sealedContribution;
    spelling, randomness := sealed.plaintext.spelling, sealed.randomness;
  }

  // -------------------------------------------------------------------------
  // Completeness

  lemma {:induction false} HeldGrows(w: World, resumed: map<string, ShareEnvelope>, calls: seq<Call>, k: nat)
    requires k <= |calls|
    ensures Held(w, resumed, calls[..k]).Keys <= Held(w, resumed, calls).Keys
  {
    hide Kept;
    if k == |calls| {
      assert calls[..k] == calls;
    } else {
      var most := calls[..|calls| - 1];
      assert most[..k] == calls[..k];
      HeldGrows(w, resumed, most, k);
    }
  }

  lemma AddedHeld(w: World, resumed: map<string, ShareEnvelope>, calls: seq<Call>, k: nat)
    requires k < |calls| && Added(w, resumed, calls, k)
    ensures calls[k].party in Held(w, resumed, calls)
  {
    hide Kept;
    assert calls[..k + 1][..k] == calls[..k];
    HeldGrows(w, resumed, calls, k + 1);
  }

  lemma LostStays(w: World, resumed: map<string, ShareEnvelope>, calls: seq<Call>, k: nat, name: string)
    requires k <= |calls| && Lost(w, resumed, calls[..k], name)
    ensures Lost(w, resumed, calls, name)
  {
    hide Outcome;
    var j :| 0 <= j < k && calls[..k][j].party == name && Fatal(Outcome(w, resumed, calls[..k], j));
    OutcomeStays(w, resumed, calls[..k], calls, j);
  }

  /** The k-th call came back as a trustee that cooperates would answer it: no
      failure, and a read with a contribution that is kept. */
  predicate Cooperates(w: World, resumed: map<string, ShareEnvelope>, calls: seq<Call>, k: nat)
    requires k < |calls|
  {
    Outcome(w, resumed, calls, k).None? && (calls[k].phase.AskRead? ==> Added(w, resumed, calls, k))
  }

  /** A round in which enough trustees cooperate reaches the threshold. */
  lemma CooperativeRound(
    w: World, trustees: seq<string>, resumed: map<string, ShareEnvelope>, calls: seq<Call>, from: nat,
    good: set<string>)
    requires from <= |calls| && Swept(w, trustees, resumed, calls, from) && |good| >= w.plan.threshold
    requires forall n :: n in good ==> n in trustees && !Lost(w, resumed, calls, n)
    requires forall k :: from <= k < |calls| && calls[k].party in good ==> Cooperates(w, resumed, calls, k)
    ensures |Held(w, resumed, calls)| >= w.plan.threshold
  {
    hide Held, Outcome, Added, Lost;
    var held := Held(w, resumed, calls).Keys;
    if |held| < w.plan.threshold {
      forall n | n in good
        ensures n in held
      {
        HeldGrows(w, resumed, calls, from);
        if Lost(w, resumed, calls[..from], n) {
          LostStays(w, resumed, calls, from, n);
        }
        if n !in Held(w, resumed, calls[..from]) {
          assert HadTurn(w, resumed, calls, from, n);
          var k :| from <= k < |calls| && Concludes(w, resumed, calls, k, n);
          assert Cooperates(w, resumed, calls, k);
          AddedHeld(w, resumed, calls, k);
        }
      }
      SubsetSize(good, held);
      assert false;
    }
  }

  /** Completeness. If some t trustees never fail beyond retrying, and from
      some round that starts before the expiry on they cooperate, and every
      checkpoint can be written, then whatever all others do, and however
      often these were unreachable before, the recovery returns its shares. */
  lemma RecoverCompletes(
    w: World, trustees: seq<string>, resumed: map<string, ShareEnvelope>, calls: seq<Call>, rounds: seq<nat>,
    live: seq<string>, clock: nat -> int, saves: nat -> bool, stop: Option<Stop>, good: set<string>, start: nat)
    requires Concluded(w, trustees, resumed, calls, rounds, live, clock, saves, stop)
    requires |good| >= w.plan.threshold && forall n :: n in good ==> n in trustees && !Lost(w, resumed, calls, n)
    requires start <= |rounds| ==>
               forall k :: RoundStart(rounds, start) <= k < |calls| && calls[k].party in good
                           ==> Cooperates(w, resumed, calls, k)
    requires
      var expiry := Timestamp(w.plan.session.expiresAt);
      expiry.Some? && forall r :: 0 <= r < start ==> clock(r) < expiry.value
    requires forall n :: saves(n)
    ensures stop.None?
  {
    hide Held, Outcome, Added, Lost, AllProper, AllSaved, Swept, Timestamp;
    match stop
    case Some(CannotComplete) =>
      CountDistinct(live);
      SubsetSize(good, set n | n in live);
      assert false;
    case Some(SessionExpired) =>
      assert start < |rounds|;
      var from, to := RoundStart(rounds, start), rounds[start];
      var prefix := calls[..to];
      forall k | from <= k < to && prefix[k].party in good
        ensures Cooperates(w, resumed, prefix, k)
      {
        OutcomeStays(w, resumed, prefix, calls, k);
        assert Cooperates(w, resumed, calls, k);
      }
      forall n | n in good
        ensures !Lost(w, resumed, prefix, n)
      {
        if Lost(w, resumed, prefix, n) {
          LostStays(w, resumed, calls, to, n);
        }
      }
      CooperativeRound(w, trustees, resumed, prefix, from, good);
      HeldGrows(w, resumed, calls, to);
      SubsetSize(Held(w, resumed, prefix).Keys, Held(w, resumed, calls).Keys);
      assert false;
    case _ =>
  }
}
