/** The duration syntax `P[nD][T[nH][nM][nS]]`: the trustee's loop
    (`wire::duration`), the client's regular expression (`duration` in
    `tools/client.py`), and a printer for the grammar both accept. */
module Duration {
  import opened Basics

  // -------------------------------------------------------------------------
  // The grammar

  /** Each component is absent or a decimal number as written. */
  datatype Components = Components(
    days: Option<string>,
    hours: Option<string>,
    minutes: Option<string>,
    seconds: Option<string>)

  predicate IsDigit(c: char) {
    '0' <= c <= '9'
  }

  predicate IsNumber(digits: string) {
    1 <= |digits| <= 6 && forall i :: 0 <= i < |digits| ==> IsDigit(digits[i])
  }

  function Value(digits: string): (n: nat)
    requires forall i :: 0 <= i < |digits| ==> IsDigit(digits[i])
  {
    if digits == [] then 0
    else
      var last := digits[|digits| - 1];
      assert IsDigit(last);
      Value(digits[..|digits| - 1]) * 10 + (last - '0') as int
  }

  function Scaled(digits: string, scale: nat): nat
    requires IsNumber(digits)
  {
    Value(digits) * scale
  }

  predicate IsField(field: Option<string>) {
    field.Some? ==> IsNumber(field.value)
  }

  function Text(field: Option<string>, unit: char): string {
    match field
    case None => []
    case Some(digits) => digits + [unit]
  }

  function Amount(field: Option<string>): nat
    requires IsField(field)
  {
    match field
    case None => 0
    case Some(digits) => Value(digits)
  }

  predicate Fields(c: Components) {
    IsField(c.days) && IsField(c.hours) && IsField(c.minutes) && IsField(c.seconds)
  }

  /** At least one component, each a number of one to six digits. */
  predicate WellFormed(c: Components) {
    Fields(c) && (c.days.Some? || c.hours.Some? || c.minutes.Some? || c.seconds.Some?)
  }

  function TimeText(c: Components): string {
    Text(c.hours, 'H') + (Text(c.minutes, 'M') + Text(c.seconds, 'S'))
  }

  function Print(c: Components): string {
    ['P'] + (Text(c.days, 'D') + (if TimeText(c) == [] then [] else ['T'] + TimeText(c)))
  }

  function Seconds(c: Components): nat
    requires Fields(c)
  {
    Amount(c.days) * 86_400 + Amount(c.hours) * 3_600 + Amount(c.minutes) * 60 + Amount(c.seconds)
  }

  // -------------------------------------------------------------------------
  // The trustee's loop

  /** The variables the source's loops update. */
  datatype Tally = Tally(seconds: nat, components: nat, part: string)

  /** One round of the inner loop. */
  function TakeUnit(tally: Tally, unit: char, scale: nat): Option<Tally> {
    match SplitOnce(tally.part, unit)
    case None => Some(tally)
    case Some((digits, rest)) =>
      if IsNumber(digits)
      then Some(Tally(tally.seconds + Scaled(digits, scale), tally.components + 1, rest))
      else None
  }

  const DATE_UNITS: seq<(char, nat)> := [('D', 86_400)]
  const TIME_UNITS: seq<(char, nat)> := [('H', 3_600), ('M', 60), ('S', 1)]

  function TakeUnits(tally: Tally, units: seq<(char, nat)>): Option<Tally> {
    if units == [] then Some(tally)
    else match TakeUnits(tally, units[..|units| - 1])
      case None => None
      case Some(t) => TakeUnit(t, units[|units| - 1].0, units[|units| - 1].1)
  }

  /** One round of the outer loop: all units, and nothing left over. */
  function TakePart(tally: Tally, part: string, units: seq<(char, nat)>): Option<Tally> {
    match TakeUnits(tally.(part := part), units)
    case None => None
    case Some(t) => if t.part == [] then Some(t) else None
  }

  function Parsed(text: string): Option<nat> {
    if text == [] || text[0] != 'P' then None
    else
      var body := text[1..];
      match SplitOnce(body, 'T')
      case None => Counted(TakeParts(body, []))
      case Some((date, time)) => if time == [] then None else Counted(TakeParts(date, time))
  }

  function TakeParts(date: string, time: string): Option<Tally> {
    match TakePart(Tally(0, 0, []), date, DATE_UNITS)
    case None => None
    case Some(t) => TakePart(t, time, TIME_UNITS)
  }

  function Counted(tally: Option<Tally>): Option<nat> {
    match tally
    case None => None
    case Some(t) => if t.components > 0 then Some(t.seconds) else None
  }

  /** The source's inner loop, over the units of one part. */
  method ReadPart(tally: Tally, text: string, units: seq<(char, nat)>) returns (r: Option<Tally>)
    ensures r == TakePart(tally, text, units)
  {
    hide Scaled, TakeUnits, IsNumber, SplitOnce;
    var start := tally.(part := text);
    NoUnits(start, units);
    var seconds, components, part := tally.seconds, tally.components, text;
    for j := 0 to |units|
      invariant seconds >= 0 && components >= 0
      invariant TakeUnits(start, units[..j]) == Some(Tally(seconds, components, part))
    {
      var (unit, scale) := units[j];
      OneMoreUnit(start, units, j);
      match SplitOnce(part, unit) {
        case None =>
        case Some((digits, rest)) =>
          if !IsNumber(digits) {
            FailureStays(start, units, j + 1);
            return None;
          }
          seconds := seconds + Scaled(digits, scale);
          components := components + 1;
          part := rest;
      }
    }
    assert units[..|units|] == units;
    r := if part == [] then Some(Tally(seconds, components, part)) else None;
  }

  lemma NoUnits(tally: Tally, units: seq<(char, nat)>)
    ensures TakeUnits(tally, units[..0]) == Some(tally)
  {
  }

  lemma OneMoreUnit(tally: Tally, units: seq<(char, nat)>, j: nat)
    requires j < |units|
    ensures TakeUnits(tally, units[..j + 1])
         == match TakeUnits(tally, units[..j])
            case None => None
            case Some(t) => TakeUnit(t, units[j].0, units[j].1)
  {
    hide TakeUnit;
    assert units[..j + 1][..j] == units[..j];
  }

  /** The source's `duration`: the outer loop runs over the date part and the
      time part. */
  method ParseDuration(text: string) returns (r: Option<nat>)
    ensures r == Parsed(text)
  {
    if text == [] || text[0] != 'P' {
      return None;
    }
    var body := text[1..];
    var date, time := body, [];
    match SplitOnce(body, 'T') {
      case None =>
      case Some((before, after)) =>
        if after == [] {
          return None;
        }
        date, time := before, after;
    }
    var tally := Tally(0, 0, []);
    var parts := [(date, DATE_UNITS), (time, TIME_UNITS)];
    for k := 0 to 2
      invariant k == 0 ==> tally == Tally(0, 0, [])
      invariant k == 1 ==> TakePart(Tally(0, 0, []), date, DATE_UNITS) == Some(tally)
      invariant k == 2 ==> TakeParts(date, time) == Some(tally)
    {
      var after := ReadPart(tally, parts[k].0, parts[k].1);
      if after.None? {
        return None;
      }
      tally := after.value;
    }
    r := if tally.components > 0 then Some(tally.seconds) else None;
  }

  lemma {:induction false} FailureStays(tally: Tally, units: seq<(char, nat)>, j: nat)
    requires j <= |units| && TakeUnits(tally, units[..j]).None?
    ensures TakeUnits(tally, units).None?
  {
    if j == |units| {
      assert units[..j] == units;
    } else {
      var most := units[..|units| - 1];
      assert most[..j] == units[..j];
      FailureStays(tally, most, j);
    }
  }

  // -------------------------------------------------------------------------
  // Parsing inverts printing

  /** A unit consumes exactly its own field from the front of a part. */
  lemma TakeOwnField(tally: Tally, field: Option<string>, unit: char, scale: nat, rest: string)
    requires IsField(field) && !IsDigit(unit)
    requires tally.part == Text(field, unit) + rest
    requires field.None? ==> unit !in rest
    ensures TakeUnit(tally, unit, scale)
         == Some(Tally(tally.seconds + Amount(field) * scale,
                       tally.components + if field.Some? then 1 else 0, rest))
  {
    match field
    case None =>
      assert tally.part == rest;
    case Some(digits) =>
      assert unit !in digits;
      assert tally.part == digits + [unit] + rest;
      SplitOnceUnique(digits, unit, rest);
  }

  /** Conversely, whatever a unit consumes is such a field. */
  lemma TakenField(tally: Tally, unit: char, scale: nat) returns (field: Option<string>)
    requires TakeUnit(tally, unit, scale).Some?
    ensures IsField(field)
    ensures
      var t := TakeUnit(tally, unit, scale).value;
      && tally.part == Text(field, unit) + t.part
      && t.seconds == tally.seconds + Amount(field) * scale
      && t.components == tally.components + if field.Some? then 1 else 0
  {
    match SplitOnce(tally.part, unit)
    case None => field := None;
    case Some((digits, rest)) => field := Some(digits);
  }

  lemma UnitNotInField(field: Option<string>, unit: char, c: char)
    requires IsField(field) && !IsDigit(c) && c != unit
    ensures c !in Text(field, unit)
  {
  }

  lemma UnfoldDate(tally: Tally)
    ensures TakeUnits(tally, DATE_UNITS) == TakeUnit(tally, 'D', 86_400)
  {
    assert DATE_UNITS[..0] == [];
  }

  lemma UnfoldTime(tally: Tally)
    ensures TakeUnits(tally, TIME_UNITS)
         == match TakeUnit(tally, 'H', 3_600)
            case None => None
            case Some(h) =>
              match TakeUnit(h, 'M', 60)
              case None => None
              case Some(m) => TakeUnit(m, 'S', 1)
  {
    hide TakeUnit;
    var hm, h := TIME_UNITS[..2], TIME_UNITS[..1];
    assert hm[..1] == h && h[..0] == [];
    assert TakeUnits(tally, h) == TakeUnit(tally, 'H', 3_600);
    assert TakeUnits(tally, hm) == match TakeUnits(tally, h)
                                   case None => None
                                   case Some(t) => TakeUnit(t, 'M', 60);
  }

  lemma TimePrints(tally: Tally, c: Components)
    requires Fields(c)
    ensures TakePart(tally, TimeText(c), TIME_UNITS)
         == Some(Tally(tally.seconds + Amount(c.hours) * 3_600 + Amount(c.minutes) * 60 + Amount(c.seconds),
                       tally.components + (if c.hours.Some? then 1 else 0)
                       + (if c.minutes.Some? then 1 else 0) + (if c.seconds.Some? then 1 else 0), []))
  {
    hide TakeUnit, TakeUnits, IsField, Amount;
    var t := tally.(part := TimeText(c));
    var afterH := Text(c.minutes, 'M') + Text(c.seconds, 'S');
    UnfoldTime(t);
    UnitNotInField(c.minutes, 'M', 'H');
    UnitNotInField(c.seconds, 'S', 'H');
    UnitNotInField(c.seconds, 'S', 'M');
    TakeOwnField(t, c.hours, 'H', 3_600, afterH);
    var h := TakeUnit(t, 'H', 3_600).value;
    TakeOwnField(h, c.minutes, 'M', 60, Text(c.seconds, 'S'));
    var m := TakeUnit(h, 'M', 60).value;
    assert m.part == Text(c.seconds, 'S') + [];
    TakeOwnField(m, c.seconds, 'S', 1, []);
  }

  lemma DatePrints(c: Components)
    requires Fields(c)
    ensures TakePart(Tally(0, 0, []), Text(c.days, 'D'), DATE_UNITS)
         == Some(Tally(Amount(c.days) * 86_400, if c.days.Some? then 1 else 0, []))
  {
    hide TakeUnit, TakeUnits;
    var t := Tally(0, 0, Text(c.days, 'D'));
    assert t.part == Text(c.days, 'D') + [];
    UnfoldDate(t);
    TakeOwnField(t, c.days, 'D', 86_400, []);
  }

  /** Every printed duration parses to its seconds. */
  lemma ParsesPrinted(c: Components)
    requires WellFormed(c)
    ensures Parsed(Print(c)) == Some(Seconds(c))
  {
    hide TakePart, Amount, Text, TimeText, IsField, SplitOnce;
    var text := Print(c);
    var body := text[1..];
    DatePrints(c);
    TimePrints(Tally(Amount(c.days) * 86_400, if c.days.Some? then 1 else 0, []), c);
    UnitNotInField(c.days, 'D', 'T');
    TimeTextEmpty(c);
    if TimeText(c) == [] {
      assert body == Text(c.days, 'D');
    } else {
      assert body == Text(c.days, 'D') + ['T'] + TimeText(c);
      SplitOnceUnique(Text(c.days, 'D'), 'T', TimeText(c));
    }
  }

  lemma TimeTaken(tally: Tally, time: string) returns (h: Option<string>, m: Option<string>, s: Option<string>)
    requires TakePart(tally, time, TIME_UNITS).Some?
    ensures IsField(h) && IsField(m) && IsField(s)
    ensures time == Text(h, 'H') + (Text(m, 'M') + Text(s, 'S'))
    ensures TakePart(tally, time, TIME_UNITS).value.seconds
         == tally.seconds + Amount(h) * 3_600 + Amount(m) * 60 + Amount(s)
    ensures TakePart(tally, time, TIME_UNITS).value.components
         == tally.components + (if h.Some? then 1 else 0) + (if m.Some? then 1 else 0) + (if s.Some? then 1 else 0)
  {
    hide TakeUnit, TakeUnits, IsField, Amount;
    var t := tally.(part := time);
    UnfoldTime(t);
    h := TakenField(t, 'H', 3_600);
    var t1 := TakeUnit(t, 'H', 3_600).value;
    m := TakenField(t1, 'M', 60);
    var t2 := TakeUnit(t1, 'M', 60).value;
    s := TakenField(t2, 'S', 1);
  }

  /** Whatever parses was printed from some well-formed components. */
  lemma PrintsParsed(text: string) returns (c: Components)
    requires Parsed(text).Some?
    ensures WellFormed(c) && text == Print(c) && Parsed(text).value == Seconds(c)
  {
    hide TakePart, TakeUnits, TakeUnit, IsField, Amount;
    var body := text[1..];
    assert text == ['P'] + body;
    var date, time := body, [];
    match SplitOnce(body, 'T') {
      case None =>
      case Some((before, after)) => date, time := before, after;
    }
    var t := TakePart(Tally(0, 0, []), date, DATE_UNITS).value;
    var days := DateTaken(date);
    var h, m, s := TimeTaken(t, time);
    c := Components(days, h, m, s);
    assert TimeText(c) == time;
  }

  lemma DateTaken(date: string) returns (days: Option<string>)
    requires TakePart(Tally(0, 0, []), date, DATE_UNITS).Some?
    ensures IsField(days) && date == Text(days, 'D')
    ensures TakePart(Tally(0, 0, []), date, DATE_UNITS).value
         == Tally(Amount(days) * 86_400, if days.Some? then 1 else 0, [])
  {
    hide TakeUnit, TakeUnits, Amount;
    var t := Tally(0, 0, date);
    UnfoldDate(t);
    days := TakenField(t, 'D', 86_400);
  }

  // -------------------------------------------------------------------------
  // The client's regular expression

  /** `re.fullmatch` of the pattern in `tools/client.py`, for ASCII text: its
      four groups are `g`, and `time` tells whether the group opened by `T`
      took part. */
  ghost predicate RegexMatches(text: string, g: Components, time: bool) {
    && Fields(g)
    && (!time ==> g.hours.None? && g.minutes.None? && g.seconds.None?)
    && text == ['P'] + (Text(g.days, 'D') + (if time then ['T'] + TimeText(g) else []))
  }

  function ClientSeconds(g: Components): nat
    requires Fields(g)
  {
    ((Amount(g.days) * 24 + Amount(g.hours)) * 60 + Amount(g.minutes)) * 60 + Amount(g.seconds)
  }

  /** The client's `duration(text)` returns `n` rather than raise. */
  ghost predicate ClientReturns(text: string, n: nat) {
    && text != "P" && text != "PT"
    && (text == [] || text[|text| - 1] != 'T')
    && exists g: Components, time: bool | RegexMatches(text, g, time) ::
         n == ClientSeconds(g)
  }

  lemma LastLetter(text: string, field: Option<string>, unit: char)
    requires field.Some?
    ensures var whole := text + Text(field, unit); whole != [] && whole[|whole| - 1] == unit
  {
  }

  lemma TextEmpty(field: Option<string>, unit: char)
    ensures Text(field, unit) == [] <==> field.None?
  {
  }

  lemma TimeTextEmpty(c: Components)
    ensures TimeText(c) == [] <==> c.hours.None? && c.minutes.None? && c.seconds.None?
  {
    hide Text;
    TextEmpty(c.hours, 'H');
    TextEmpty(c.minutes, 'M');
    TextEmpty(c.seconds, 'S');
  }

  /** What is left of a regular-expression match after the client's three
      extra conditions is a printed duration. */
  lemma MatchIsPrinted(text: string, g: Components, time: bool)
    requires RegexMatches(text, g, time)
    requires text != "P" && text[|text| - 1] != 'T'
    ensures WellFormed(g) && text == Print(g)
  {
    hide TimeText, IsField;
    TimeTextEmpty(g);
    TextEmpty(g.days, 'D');
  }

  lemma PrintedMatches(c: Components)
    requires WellFormed(c)
    ensures RegexMatches(Print(c), c, TimeText(c) != [])
    ensures Print(c) != "P" && Print(c) != "PT" && Print(c)[|Print(c)| - 1] != 'T'
  {
    hide IsField, Text;
    TimeTextEmpty(c);
    TextEmpty(c.hours, 'H');
    TextEmpty(c.minutes, 'M');
    TextEmpty(c.seconds, 'S');
    TextEmpty(c.days, 'D');
    var upToTime := ['P'] + (Text(c.days, 'D') + ['T']);
    var upToMinutes := upToTime + Text(c.hours, 'H');
    if c.seconds.Some? {
      LastLetter(upToMinutes + Text(c.minutes, 'M'), c.seconds, 'S');
      assert Print(c) == upToMinutes + Text(c.minutes, 'M') + Text(c.seconds, 'S');
    } else if c.minutes.Some? {
      LastLetter(upToMinutes, c.minutes, 'M');
      assert Print(c) == upToMinutes + Text(c.minutes, 'M');
    } else if c.hours.Some? {
      LastLetter(upToTime, c.hours, 'H');
      assert Print(c) == upToTime + Text(c.hours, 'H');
    } else {
      LastLetter(['P'], c.days, 'D');
      assert Print(c) == ['P'] + Text(c.days, 'D');
    }
  }

  /** The two implementations accept the same texts, with equal seconds. */
  lemma ClientAgrees(text: string, n: nat)
    ensures Parsed(text) == Some(n) <==> ClientReturns(text, n)
  {
    hide Parsed, Print, TimeText, Amount, IsField, Text;
    if Parsed(text) == Some(n) {
      var c := PrintsParsed(text);
      PrintedMatches(c);
      assert RegexMatches(text, c, TimeText(c) != []) && n == ClientSeconds(c);
    }
    if ClientReturns(text, n) {
      var g, time :| RegexMatches(text, g, time) && n == ClientSeconds(g);
      MatchNotEmpty(text, g, time);
      MatchIsPrinted(text, g, time);
      ParsesPrinted(g);
    }
  }

  lemma MatchNotEmpty(text: string, g: Components, time: bool)
    requires RegexMatches(text, g, time)
    ensures text != []
  {
  }

  // -------------------------------------------------------------------------
  // Bounds

  function Power10(n: nat): nat {
    if n == 0 then 1 else 10 * Power10(n - 1)
  }

  lemma {:induction false} ValueBound(digits: string)
    requires forall i :: 0 <= i < |digits| ==> IsDigit(digits[i])
    ensures Value(digits) < Power10(|digits|)
  {
    if digits != [] {
      ValueBound(digits[..|digits| - 1]);
    }
  }

  lemma {:induction false} Power10Monotone(n: nat, m: nat)
    requires n <= m
    ensures Power10(n) <= Power10(m)
  {
    if n < m {
      Power10Monotone(n, m - 1);
    }
  }

  lemma AmountBound(field: Option<string>)
    requires IsField(field)
    ensures Amount(field) <= 999_999
  {
    if field.Some? {
      ValueBound(field.value);
      Power10Monotone(|field.value|, 6);
      assert Power10(3) == 1_000;
      assert Power10(6) == 1_000_000;
    }
  }

  /** No duration overflows: six digits per component bound them all. */
  lemma DurationBound(text: string)
    requires Parsed(text).Some?
    ensures Parsed(text).value <= 999_999 * 90_061
  {
    hide Parsed, Amount;
    var c := PrintsParsed(text);
    AmountBound(c.days);
    AmountBound(c.hours);
    AmountBound(c.minutes);
    AmountBound(c.seconds);
  }
}
