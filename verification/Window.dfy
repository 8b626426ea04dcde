/** The window `Candidate.new_session` picks (`tools/client.py`), against the
    trustees that have to admit it (`src/state.rs`). */
module Window {
  import opened Basics
  import opened Crypto
  import opened Wire
  import opened State
  import opened Trustee
  import Duration

  /** One trustee's terms in the candidate's policy, in seconds. */
  datatype Terms = Terms(cooldown: nat, lifetime: nat)

  datatype Window = Window(requestedAt: int, expiresAt: int)

  function Shortest(terms: seq<Terms>): (lifetime: nat)
    requires terms != []
    ensures (exists i :: 0 <= i < |terms| && terms[i].lifetime == lifetime)
    ensures forall i :: 0 <= i < |terms| ==> lifetime <= terms[i].lifetime
  {
    if |terms| == 1 then terms[0].lifetime
    else
      var rest := Shortest(terms[1..]);
      assert forall i :: 1 <= i < |terms| ==> terms[i] == terms[1..][i - 1];
      if terms[0].lifetime < rest then terms[0].lifetime else rest
  }

  function Longest(terms: seq<Terms>): (cooldown: nat)
    requires terms != []
    ensures (exists i :: 0 <= i < |terms| && terms[i].cooldown == cooldown)
    ensures forall i :: 0 <= i < |terms| ==> terms[i].cooldown <= cooldown
  {
    if |terms| == 1 then terms[0].cooldown
    else
      var rest := Longest(terms[1..]);
      assert forall i :: 1 <= i < |terms| ==> terms[i] == terms[1..][i - 1];
      if terms[0].cooldown > rest then terms[0].cooldown else rest
  }

  function Least(a: int, b: int): int {
    if b < a then b else a
  }

  /** Half the room between cooldown and lifetime, floored, a minute at most. */
  function Margin(terms: seq<Terms>): int
    requires terms != []
  {
    Least(60, (Shortest(terms) - Longest(terms)) / 2)
  }

  /** The window, unless its guard raises. */
  function NewWindow(terms: seq<Terms>, policyExpiresAt: int, now: int): Option<Window>
    requires terms != []
  {
    var margin := Margin(terms);
    var expires := Least(now + Shortest(terms) - margin, policyExpiresAt);
    if expires <= now + Longest(terms) + margin then None else Some(Window(now, expires))
  }

  /** The guard raises exactly when the policy ends no later than the longest
      cooldown and the margin, or the room between cooldown and lifetime is an
      even number of seconds, two minutes at most (or not positive): then
      twice the margin takes all of it. */
  lemma GuardRaises(terms: seq<Terms>, policyExpiresAt: int, now: int)
    requires terms != []
    ensures
      var room := Shortest(terms) - Longest(terms);
      NewWindow(terms, policyExpiresAt, now).None? <==>
        || (room % 2 == 0 && room <= 120)
        || policyExpiresAt <= now + Longest(terms) + Margin(terms)
  {
    var room := Shortest(terms) - Longest(terms);
    assert room == 2 * (room / 2) + room % 2;
  }

  /** A trustee of these terms admits the window at its own clock. */
  predicate Fits(term: Terms, window: Window, clock: int) {
    clock + term.cooldown < window.expiresAt <= clock + term.lifetime
  }

  /** When the shortest lifetime exceeds the longest cooldown, every trustee
      whose clock is within the margin of the client's can admit the window. */
  lemma FitsEveryone(terms: seq<Terms>, policyExpiresAt: int, now: int, i: nat, clock: int)
    requires terms != [] && i < |terms| && Longest(terms) < Shortest(terms)
    requires NewWindow(terms, policyExpiresAt, now).Some?
    requires Distance(now, clock) <= Margin(terms)
    ensures Fits(terms[i], NewWindow(terms, policyExpiresAt, now).value, clock)
  {
  }

  /** The window fits every term on every clock at most `slack` from `now`. */
  ghost predicate FitsAll(terms: seq<Terms>, window: Window, now: int, slack: nat) {
    forall i, clock | 0 <= i < |terms| && Distance(now, clock) <= slack :: Fits(terms[i], window, clock)
  }

  ghost predicate Possible(terms: seq<Terms>, policyExpiresAt: int, now: int, slack: nat) {
    exists expiresAt: int :: expiresAt <= policyExpiresAt && FitsAll(terms, Window(now, expiresAt), now, slack)
  }

  lemma FitsAllMeans(terms: seq<Terms>, window: Window, now: int, slack: nat)
    requires terms != []
    ensures FitsAll(terms, window, now, slack)
       <==> now + slack + Longest(terms) < window.expiresAt <= now - slack + Shortest(terms)
  {
    if FitsAll(terms, window, now, slack) {
      var i :| 0 <= i < |terms| && terms[i].cooldown == Longest(terms);
      var j :| 0 <= j < |terms| && terms[j].lifetime == Shortest(terms);
      assert Distance(now, now + slack) <= slack && Distance(now, now - slack) <= slack;
      assert Fits(terms[i], window, now + slack) && Fits(terms[j], window, now - slack);
    }
  }

  /** Which windows exist at all: one that ends with the policy and fits every
      term on every clock within `slack` exists exactly when the room exceeds
      twice the slack and the policy outlasts the longest cooldown by more
      than it. */
  lemma WindowExists(terms: seq<Terms>, policyExpiresAt: int, now: int, slack: nat)
    requires terms != []
    ensures Possible(terms, policyExpiresAt, now, slack)
       <==> Shortest(terms) - Longest(terms) > 2 * slack && now + Longest(terms) + slack < policyExpiresAt
  {
    hide FitsAll;
    if Possible(terms, policyExpiresAt, now, slack) {
      var expiresAt: int :| expiresAt <= policyExpiresAt && FitsAll(terms, Window(now, expiresAt), now, slack);
      FitsAllMeans(terms, Window(now, expiresAt), now, slack);
    } else {
      var expiresAt := Least(now - slack + Shortest(terms), policyExpiresAt);
      FitsAllMeans(terms, Window(now, expiresAt), now, slack);
    }
  }

  /** The guard is exact for the margin it is given: with compatible terms it
      raises if and only if no window at all has that margin on every clock.
      What fails is the choice of the margin. */
  lemma GuardMeansNoMargin(terms: seq<Terms>, policyExpiresAt: int, now: int)
    requires terms != [] && Longest(terms) < Shortest(terms)
    ensures Margin(terms) >= 0
    ensures NewWindow(terms, policyExpiresAt, now).None?
       <==> !Possible(terms, policyExpiresAt, now, Margin(terms))
  {
    hide Possible;
    WindowExists(terms, policyExpiresAt, now, Margin(terms));
  }

  /** When `new_session` raises although a session every trustee admits at the
      client's own time exists: the terms are compatible and the policy
      outlasts the longest cooldown, and either the room is even and at most
      two minutes or the policy ends inside the margin. */
  lemma GuardMisses(terms: seq<Terms>, policyExpiresAt: int, now: int)
    requires terms != []
    ensures
      var room := Shortest(terms) - Longest(terms);
      NewWindow(terms, policyExpiresAt, now).None? && Possible(terms, policyExpiresAt, now, 0) <==>
        && room > 0 && now + Longest(terms) < policyExpiresAt
        && ((room % 2 == 0 && room <= 120) || policyExpiresAt <= now + Longest(terms) + Margin(terms))
  {
    hide Possible, NewWindow, Margin;
    GuardRaises(terms, policyExpiresAt, now);
    WindowExists(terms, policyExpiresAt, now, 0);
  }

  /** Both ways of missing happen: two seconds of room, and a policy that ends
      thirty seconds after a ten-second cooldown. */
  lemma GuardMissesExamples(now: int)
    ensures
      && NewWindow([Terms(10, 12)], now + 1000, now).None?
      && FitsAll([Terms(10, 12)], Window(now, now + 11), now, 0)
    ensures
      && NewWindow([Terms(10, 1010)], now + 40, now).None?
      && FitsAll([Terms(10, 1010)], Window(now, now + 40), now, 0)
  {
    assert Margin([Terms(10, 12)]) == 1;
    assert Margin([Terms(10, 1010)]) == 60;
  }

  /** With incompatible terms, a window the guard lets through is, at the
      client's own time, too short for the longest cooldown or too long for
      the shortest lifetime. So the windows returned fit everyone if and only
      if the terms are compatible. */
  lemma FitsIffCompatible(terms: seq<Terms>, policyExpiresAt: int, now: int)
    requires terms != [] && NewWindow(terms, policyExpiresAt, now).Some?
    ensures
      var window := NewWindow(terms, policyExpiresAt, now).value;
      (forall i :: 0 <= i < |terms| ==> Fits(terms[i], window, now)) <==> Longest(terms) < Shortest(terms)
  {
    var window := NewWindow(terms, policyExpiresAt, now).value;
    if Longest(terms) < Shortest(terms) {
      var room := Shortest(terms) - Longest(terms);
      assert room / 2 >= 0;
      forall i | 0 <= i < |terms|
        ensures Fits(terms[i], window, now)
      {
        FitsEveryone(terms, policyExpiresAt, now, i, now);
      }
    } else {
      var i :| 0 <= i < |terms| && terms[i].cooldown == Longest(terms);
      var j :| 0 <= j < |terms| && terms[j].lifetime == Shortest(terms);
      assert !(Fits(terms[i], window, now) && Fits(terms[j], window, now));
    }
  }

  /** The margin is all there is: behind by more, a trustee of the shortest
      lifetime finds the window too long, unless the policy cut it short. */
  lemma MarginTight(terms: seq<Terms>, policyExpiresAt: int, now: int, i: nat, clock: int)
    requires terms != [] && i < |terms| && terms[i].lifetime == Shortest(terms)
    requires NewWindow(terms, policyExpiresAt, now).Some?
    requires now + Shortest(terms) - Margin(terms) <= policyExpiresAt && clock < now - Margin(terms)
    ensures !Fits(terms[i], NewWindow(terms, policyExpiresAt, now).value, clock)
  {
  }

  /** The candidate read these terms where the trustee parsed its policy. */
  ghost predicate ReadFrom(term: Terms, fields: PolicyFields) {
    && Duration.ClientReturns(fields.cooldown, term.cooldown)
    && Duration.ClientReturns(fields.sessionLifetime, term.lifetime)
  }

  lemma TermsAgree(limits: Limits, fields: PolicyFields, term: Terms)
    requires Policy(limits, fields).Ok? && ReadFrom(term, fields)
    ensures Policy(limits, fields).value.cooldownSecs == term.cooldown
    ensures Policy(limits, fields).value.sessionLifetimeSecs == term.lifetime
  {
    hide Duration.Parsed, Duration.ClientReturns;
    Duration.ClientAgrees(fields.cooldown, term.cooldown);
    Duration.ClientAgrees(fields.sessionLifetime, term.lifetime);
  }

  /** A session from `new_session` is admitted: by every trustee that enrolled
      one of the policy's terms until the policy's end, with attempts left,
      whose clock is within the margin of the client's and whose skew allows
      a minute, provided only that the terms are compatible. */
  lemma AdmittedEverywhere(
    terms: seq<Terms>, policyExpiresAt: int, now: int, i: nat, limits: Limits, fields: PolicyFields,
    enrollment: EnrollmentState, attemptsUsed: nat, clock: int)
    requires terms != [] && i < |terms| && Longest(terms) < Shortest(terms)
    requires NewWindow(terms, policyExpiresAt, now).Some?
    requires Policy(limits, fields).Ok? && ReadFrom(terms[i], fields)
    requires enrollment.status == EAccepted && policyExpiresAt <= enrollment.expiresAt
    requires attemptsUsed < Policy(limits, fields).value.maximumAttempts
    requires Distance(now, clock) <= Margin(terms) && 60 <= limits.skewSecs
    ensures
      var window := NewWindow(terms, policyExpiresAt, now).value;
      Admit(enrollment, Policy(limits, fields).value, attemptsUsed, window.requestedAt, window.expiresAt, clock,
            limits.skewSecs)
      == Ok(Admission(clock + terms[i].cooldown, window.expiresAt))
  {
    hide Policy, Duration.ClientReturns, Margin;
    TermsAgree(limits, fields, terms[i]);
    FitsEveryone(terms, policyExpiresAt, now, i, clock);
    assert Margin(terms) <= 60 by { MarginBound(terms); }
    var window := NewWindow(terms, policyExpiresAt, now).value;
    AdmissionBounds(enrollment, Policy(limits, fields).value, attemptsUsed, window.requestedAt, window.expiresAt, clock,
                    limits.skewSecs);
  }

  lemma MarginBound(terms: seq<Terms>)
    requires terms != []
    ensures Margin(terms) <= 60
  {
  }

  /** A returned window that does not fit a trustee's terms is refused there:
      with the enrollment live, attempts left and the clocks equal, the answer
      is a refusal of the session itself. */
  lemma MisfitRefused(
    terms: seq<Terms>, policyExpiresAt: int, now: int, i: nat, limits: Limits, fields: PolicyFields,
    enrollment: EnrollmentState, attemptsUsed: nat)
    requires terms != [] && i < |terms| && NewWindow(terms, policyExpiresAt, now).Some?
    requires !Fits(terms[i], NewWindow(terms, policyExpiresAt, now).value, now)
    requires Policy(limits, fields).Ok? && ReadFrom(terms[i], fields)
    requires enrollment.status == EAccepted && now < enrollment.expiresAt && 0 <= limits.skewSecs
    requires attemptsUsed < Policy(limits, fields).value.maximumAttempts
    ensures
      var window := NewWindow(terms, policyExpiresAt, now).value;
      Admit(enrollment, Policy(limits, fields).value, attemptsUsed, window.requestedAt, window.expiresAt, now,
            limits.skewSecs)
      == Err(RecoveryRefused)
  {
    hide Policy, Duration.ClientReturns;
    TermsAgree(limits, fields, terms[i]);
    assert (Shortest(terms) + Longest(terms)) / 2 >= 0;
  }

  /** Incompatible terms that trustees do enroll, one second short, pass the
      guard: of two trustees whose policies took them, both refuse the session
      the candidate then asks for. */
  lemma IncompatibleLetThrough(
    cooldown: nat, now: int, limits: Limits, first: PolicyFields, second: PolicyFields, enrollment: EnrollmentState)
    requires cooldown > 2 && Policy(limits, first).Ok? && Policy(limits, second).Ok?
    requires ReadFrom(Terms(cooldown, 2 * cooldown), first) && ReadFrom(Terms(1, cooldown - 1), second)
    requires enrollment.status == EAccepted && now + 2 * cooldown <= enrollment.expiresAt && 0 <= limits.skewSecs
    ensures
      var terms := [Terms(cooldown, 2 * cooldown), Terms(1, cooldown - 1)];
      var window := NewWindow(terms, now + 2 * cooldown, now);
      && window == Some(Window(now, now + cooldown))
      && Admit(enrollment, Policy(limits, first).value, 0, window.value.requestedAt, window.value.expiresAt, now,
               limits.skewSecs)
         == Err(RecoveryRefused)
      && Admit(enrollment, Policy(limits, second).value, 0, window.value.requestedAt, window.value.expiresAt, now,
               limits.skewSecs)
         == Err(RecoveryRefused)
  {
    hide Duration.ClientReturns, Duration.Parsed, ReadFrom, Admit;
    var terms := [Terms(cooldown, 2 * cooldown), Terms(1, cooldown - 1)];
    assert terms[1..] == [terms[1]];
    assert Shortest(terms) == cooldown - 1 && Longest(terms) == cooldown;
    assert (-1) / 2 == -1;
    MisfitRefused(terms, now + 2 * cooldown, now, 0, limits, first, enrollment, 0);
    MisfitRefused(terms, now + 2 * cooldown, now, 1, limits, second, enrollment, 0);
  }

  /** Policies like these are accepted, and read alike by both sides. */
  lemma IncompatibleEnrolled(limits: Limits, key: nat)
    requires limits.minCooldownSecs <= 1 && 10 <= limits.maxCooldownSecs && 20 <= limits.maxSessionLifetimeSecs
    requires 1 <= limits.maxAttempts
    ensures
      var first := PolicyFields([Ed25519Session(PublicKey(key))], "PT10S", "PT20S", 1, [HolderPoll],
                                AuthorizationKeyVeto, NoLapse);
      var second := first.(cooldown := "PT1S", sessionLifetime := "PT9S");
      && Policy(limits, first).Ok? && ReadFrom(Terms(10, 20), first)
      && Policy(limits, second).Ok? && ReadFrom(Terms(1, 9), second)
  {
    hide Duration.Parsed, Duration.ClientReturns;
    SecondsRead("10", 10);
    SecondsRead("20", 20);
    SecondsRead("1", 1);
    SecondsRead("9", 9);
    assert "PT" + "10" + "S" == "PT10S" && "PT" + "20" + "S" == "PT20S";
    assert "PT" + "1" + "S" == "PT1S" && "PT" + "9" + "S" == "PT9S";
  }

  lemma SecondsRead(digits: string, n: nat)
    requires Duration.IsNumber(digits) && Duration.Value(digits) == n
    ensures Duration.Parsed("PT" + digits + "S") == Some(n) && Duration.ClientReturns("PT" + digits + "S", n)
  {
    hide Duration.Parsed, Duration.ClientReturns;
    var c := Duration.Components(None, None, None, Some(digits));
    assert Duration.Print(c) == "PT" + digits + "S";
    Duration.ParsesPrinted(c);
    Duration.ClientAgrees("PT" + digits + "S", n);
  }
}
