/** SLIP-0039 single-share validation (`src/slip39.rs`): the word parser, its
    printer inverse, and the packed fields. A mnemonic is modelled as its
    bytes, one `char` each. */
module Slip39 {
  import opened Basics
  import opened Rs1024
  import opened ErrorDetection

  const WORD_COUNT: nat := 33
  const MAX_MNEMONIC_BYTES: nat := WORD_COUNT * 8 + (WORD_COUNT - 1)

  datatype ShareError = Malformed | Unsupported

  /** Thresholds and counts are actual values, not their stored `value - 1`. */
  datatype Fields = Fields(
    identifier: bv16,
    extendable: bool,
    iterationExponent: bv8,
    groupIndex: bv8,
    groupThreshold: bv8,
    groupCount: bv8,
    memberIndex: bv8,
    memberThreshold: bv8)

  datatype Share = Share(memberIndex: nat, memberThreshold: nat)

  // -------------------------------------------------------------------------
  // The word list

  /** Byte order on words. */
  predicate Less(a: string, b: string) {
    b != [] && (a == [] || a[0] < b[0] || (a[0] == b[0] && Less(a[1..], b[1..])))
  }

  lemma {:induction false} LessTransitive(a: string, b: string, c: string)
    requires Less(a, b) && Less(b, c)
    ensures Less(a, c)
  {
    if a != [] && a[0] == b[0] && b[0] == c[0] {
      LessTransitive(a[1..], b[1..], c[1..]);
    }
  }

  lemma {:induction false} LessTotal(a: string, b: string)
    ensures Less(a, b) || Less(b, a) || a == b
    ensures !(Less(a, b) && (Less(b, a) || a == b))
  {
    if a != [] && b != [] {
      LessTotal(a[1..], b[1..]);
      if a[0] == b[0] && a[1..] == b[1..] {
        assert a == [a[0]] + a[1..] && b == [b[0]] + b[1..];
      }
    }
  }

  ghost predicate Sorted(list: seq<string>) {
    forall i, j :: 0 <= i < j < |list| ==> Less(list[i], list[j])
  }

  /** `wordlist.txt`, as its pinned content is: 1024 words in order, each of
      one to eight letters, none with a space. */
  ghost predicate IsWordlist(list: seq<string>) {
    && |list| == 1024
    && Sorted(list)
    && (forall i :: 0 <= i < |list| ==> 1 <= |list[i]| <= 8 && ' ' !in list[i])
  }

  lemma SortedDistinct(list: seq<string>, i: nat, j: nat)
    requires Sorted(list) && i < |list| && j < |list| && list[i] == list[j]
    ensures i == j
  {
    LessTotal(list[i], list[j]);
  }

  ghost predicate Position(list: seq<string>, word: string, found: Option<nat>) {
    match found
    case None => word !in list
    case Some(i) => i < |list| && list[i] == word
  }

  /** The library's `binary_search`. */
  method BinarySearch(list: seq<string>, word: string) returns (found: Option<nat>)
    requires Sorted(list)
    ensures Position(list, word, found)
  {
    var low, high := 0, |list|;
    while low < high
      invariant 0 <= low <= high <= |list|
      invariant forall i :: 0 <= i < low ==> list[i] != word
      invariant forall i :: high <= i < |list| ==> list[i] != word
    {
      var middle := (low + high) / 2;
      LessTotal(list[middle], word);
      if list[middle] == word {
        return Some(middle);
      } else if Less(list[middle], word) {
        forall i | 0 <= i <= middle
          ensures list[i] != word
        {
          LessTotal(list[i], word);
          if i < middle { LessTransitive(list[i], list[middle], word); }
        }
        low := middle + 1;
      } else {
        forall i | middle <= i < |list|
          ensures list[i] != word
        {
          LessTotal(word, list[i]);
          if middle < i { LessTransitive(word, list[middle], list[i]); }
        }
        high := middle;
      }
    }
    found := None;
  }

  lemma NextIndex(x: bv10)
    requires x != 1023
    ensures (x + 1) as int == (x as int) + 1
  {
  }

  lemma {:induction false} IndexOf(i: nat) returns (x: bv10)
    requires i < 1024
    ensures x as int == i
  {
    if i == 0 {
      x := 0;
    } else {
      var y := IndexOf(i - 1);
      NextIndex(y);
      x := y + 1;
    }
  }

  lemma IndexRoundTrip(i: nat)
    requires i < 1024
    ensures (i as bv10) as int == i
  {
    var x := IndexOf(i);
    assert i as bv10 == x;
  }

  // -------------------------------------------------------------------------
  // Splitting at spaces, and joining

  function Split(text: string): (parts: seq<string>)
    ensures parts != []
    decreases |text|
  {
    match SplitOnce(text, ' ')
    case None => [text]
    case Some((word, rest)) => [word] + Split(rest)
  }

  function Join(parts: seq<string>): string
    requires parts != []
  {
    if |parts| == 1 then parts[0] else parts[0] + [' '] + Join(parts[1..])
  }

  lemma {:induction false} JoinSplit(text: string)
    ensures Join(Split(text)) == text
    decreases |text|
  {
    match SplitOnce(text, ' ')
    case None =>
    case Some((word, rest)) =>
      JoinSplit(rest);
      assert Split(text)[1..] == Split(rest);
  }

  lemma {:induction false} SplitJoin(parts: seq<string>)
    requires parts != [] && forall i :: 0 <= i < |parts| ==> ' ' !in parts[i]
    ensures Split(Join(parts)) == parts
  {
    if |parts| > 1 {
      SplitOnceUnique(parts[0], ' ', Join(parts[1..]));
      SplitJoin(parts[1..]);
      assert [parts[0]] + parts[1..] == parts;
    }
  }

  lemma {:induction false} JoinLength(parts: seq<string>)
    requires parts != [] && forall i :: 0 <= i < |parts| ==> |parts[i]| <= 8
    ensures |Join(parts)| <= 9 * |parts| - 1
  {
    if |parts| > 1 {
      JoinLength(parts[1..]);
    }
  }

  function Word(list: seq<string>, index: bv10): string
    requires |list| == 1024
  {
    list[Number(index)]
  }

  function Number(index: bv10): (n: nat)
    ensures n < 1024
  {
    index as int
  }

  function Spelled(list: seq<string>, words: seq<bv10>): (parts: seq<string>)
    requires |list| == 1024
    ensures |parts| == |words|
  {
    if words == [] then []
    else Spelled(list, words[..|words| - 1]) + [Word(list, words[|words| - 1])]
  }

  lemma {:induction false} SpelledAt(list: seq<string>, words: seq<bv10>, i: nat)
    requires |list| == 1024 && i < |words|
    ensures Spelled(list, words)[i] == Word(list, words[i])
  {
    if i < |words| - 1 {
      SpelledAt(list, words[..|words| - 1], i);
    }
  }

  lemma WordShape(list: seq<string>, index: bv10)
    requires IsWordlist(list)
    ensures ' ' !in Word(list, index) && |Word(list, index)| <= 8
  {
  }

  /** The canonical text of a word sequence: list words, single spaces. */
  function Render(list: seq<string>, words: seq<bv10>): string
    requires |list| == 1024 && words != []
  {
    Join(Spelled(list, words))
  }

  lemma RenderIffSplit(list: seq<string>, text: string, words: seq<bv10>)
    requires IsWordlist(list) && words != []
    ensures text == Render(list, words) <==> Split(text) == Spelled(list, words)
    ensures text == Render(list, words) ==> |text| <= 9 * |words| - 1
  {
    var parts := Spelled(list, words);
    forall i | 0 <= i < |parts|
      ensures ' ' !in parts[i] && |parts[i]| <= 8
    {
      SpelledAt(list, words, i);
      WordShape(list, words[i]);
    }
    SplitJoin(parts);
    JoinSplit(text);
    JoinLength(parts);
  }

  lemma NumberBack(x: bv10, n: nat)
    requires n < 1024 && Number(x) == n
    ensures n as bv10 == x
  {
  }

  lemma NumberInjective(x: bv10, y: bv10, n: nat)
    requires n < 1024 && Number(x) == n && Number(y) == n
    ensures x == y
  {
    hide Number;
    NumberBack(x, n);
    NumberBack(y, n);
  }

  lemma WordInjective(list: seq<string>, x: bv10, y: bv10)
    requires |list| == 1024 && Sorted(list) && Word(list, x) == Word(list, y)
    ensures x == y
  {
    hide Number;
    SortedDistinct(list, Number(x), Number(y));
    NumberInjective(x, y, Number(x));
  }

  /** A rendering determines its words. */
  lemma SpelledInjective(list: seq<string>, v: seq<bv10>, w: seq<bv10>)
    requires |list| == 1024 && Sorted(list) && Spelled(list, v) == Spelled(list, w)
    ensures v == w
  {
    hide Word;
    assert |v| == |w|;
    forall i | 0 <= i < |v|
      ensures v[i] == w[i]
    {
      SpelledAt(list, v, i);
      SpelledAt(list, w, i);
      WordInjective(list, v[i], w[i]);
    }
  }

  // -------------------------------------------------------------------------
  // The fields of a word sequence

  const SHAMIR: seq<bv8> := [115, 104, 97, 109, 105, 114]
  const SHAMIR_EXTENDABLE: seq<bv8> :=
    [115, 104, 97, 109, 105, 114, 95, 101, 120, 116, 101, 110, 100, 97, 98, 108, 101]

  function Pair(high: bv10, low: bv10): bv32 {
    ((high as bv32) << 10) | (low as bv32)
  }

  function Extendable(words: seq<bv10>): bool
    requires |words| == WORD_COUNT
  {
    (Pair(words[0], words[1]) >> 4) & 1 == 1
  }

  function Customization(words: seq<bv10>): seq<bv8>
    requires |words| == WORD_COUNT
  {
    if Extendable(words) then SHAMIR_EXTENDABLE else SHAMIR
  }

  function FieldsOf(words: seq<bv10>): Fields
    requires |words| == WORD_COUNT
  {
    var idExp := Pair(words[0], words[1]);
    var params := Pair(words[2], words[3]);
    Fields(
      (idExp >> 5) as bv16,
      Extendable(words),
      (idExp & 0xF) as bv8,
      ((params >> 16) & 0xF) as bv8,
      ((params >> 12) & 0xF) as bv8 + 1,
      ((params >> 8) & 0xF) as bv8 + 1,
      ((params >> 4) & 0xF) as bv8,
      (params & 0xF) as bv8 + 1)
  }

  /** `Fields` holds words 0 to 3 in full: this packs them again. */
  function FirstFour(f: Fields): (bv10, bv10, bv10, bv10) {
    var idExp := ((f.identifier as bv32) << 5) | (if f.extendable then 0x10 else 0) | (f.iterationExponent as bv32);
    var params := ((f.groupIndex as bv32) << 16) | (((f.groupThreshold - 1) as bv32) << 12)
                | (((f.groupCount - 1) as bv32) << 8) | ((f.memberIndex as bv32) << 4)
                | ((f.memberThreshold - 1) as bv32);
    (((idExp >> 10) & 0x3FF) as bv10, (idExp & 0x3FF) as bv10,
     ((params >> 10) & 0x3FF) as bv10, (params & 0x3FF) as bv10)
  }

  lemma FieldsPack(words: seq<bv10>)
    requires |words| == WORD_COUNT
    ensures FirstFour(FieldsOf(words)) == (words[0], words[1], words[2], words[3])
  {
  }

  lemma FieldsInRange(words: seq<bv10>)
    requires |words| == WORD_COUNT
    ensures
      var f := FieldsOf(words);
      && f.identifier < 0x8000 && f.iterationExponent < 16 && f.groupIndex < 16 && f.memberIndex < 16
      && 1 <= f.groupThreshold <= 16 && 1 <= f.groupCount <= 16 && 1 <= f.memberThreshold <= 16
  {
  }

  // -------------------------------------------------------------------------
  // Decoding

  /** `mnemonic` is the canonical text of `words`, and `words` are a share. */
  ghost predicate Decodes(list: seq<string>, mnemonic: string, words: seq<bv10>)
    requires |list| == 1024
  {
    && |words| == WORD_COUNT
    && mnemonic == Render(list, words)
    && IsShare(words)
  }

  /** The checksum verifies and the four padding bits are zero. */
  predicate IsShare(words: seq<bv10>)
    requires |words| == WORD_COUNT
  {
    Verifies(Customization(words), words) && words[4] >> 6 == 0
  }

  ghost function Decoded(list: seq<string>, mnemonic: string): Result<Fields, ShareError>
    requires |list| == 1024
  {
    if words :| Decodes(list, mnemonic, words) then Ok(FieldsOf(words)) else Err(Malformed)
  }

  /** What is left of the source's `split(' ')` iterator. */
  ghost function Remaining(rest: Option<string>): seq<string> {
    match rest
    case None => []
    case Some(text) => Split(text)
  }

  /** The iterator's `next`. */
  method NextWord(rest: Option<string>) returns (word: Option<string>, after: Option<string>)
    ensures word.None? <==> Remaining(rest) == []
    ensures word.Some? ==> Remaining(rest) == [word.value] + Remaining(after)
  {
    match rest
    case None =>
      return None, None;
    case Some(text) =>
      match SplitOnce(text, ' ') {
        case None => return Some(text), None;
        case Some((before, behind)) => return Some(before), Some(behind);
      }
  }

  /** How far the word loop has come: `read` is what it filled in, and the
      iterator holds the rest of the words. */
  ghost predicate Reading(list: seq<string>, mnemonic: string, read: seq<bv10>, rest: Option<string>)
    requires |list| == 1024
  {
    Split(mnemonic) == Spelled(list, read) + Remaining(rest)
  }

  lemma ReadNone(list: seq<string>, mnemonic: string)
    requires |list| == 1024
    ensures Reading(list, mnemonic, [], Some(mnemonic))
  {
  }

  lemma ReadOne(
    list: seq<string>, mnemonic: string, read: seq<bv10>, rest: Option<string>, after: Option<string>, position: nat)
    requires |list| == 1024 && position < 1024 && Reading(list, mnemonic, read, rest)
    requires Remaining(rest) == [list[position]] + Remaining(after)
    ensures Reading(list, mnemonic, read + [AsIndex(position)], after)
  {
    hide Remaining, Split, AsIndex, Word;
    WordAtPosition(list, position);
    var more := read + [AsIndex(position)];
    assert more[..|more| - 1] == read;
    assert Spelled(list, read) + ([list[position]] + Remaining(after))
        == Spelled(list, read) + [list[position]] + Remaining(after);
  }

  lemma ReadAll(list: seq<string>, mnemonic: string, read: seq<bv10>, rest: Option<string>)
    requires IsWordlist(list) && |read| == WORD_COUNT && Reading(list, mnemonic, read, rest)
    ensures if Remaining(rest) == [] then mnemonic == Render(list, read)
            else forall w: seq<bv10> | |w| == WORD_COUNT :: mnemonic != Render(list, w)
  {
    hide Remaining, Split, Spelled, Render, Sorted;
    if Remaining(rest) == [] {
      RenderIffSplit(list, mnemonic, read);
    } else {
      WrongCount(list, mnemonic);
    }
  }

  lemma ReadShort(list: seq<string>, mnemonic: string, read: seq<bv10>, rest: Option<string>)
    requires IsWordlist(list) && |read| < WORD_COUNT && Reading(list, mnemonic, read, rest) && Remaining(rest) == []
    ensures forall w: seq<bv10> | |w| == WORD_COUNT :: mnemonic != Render(list, w)
  {
    hide Remaining, Split, Spelled, Render, Sorted;
    WrongCount(list, mnemonic);
  }

  lemma ReadUnknown(
    list: seq<string>, mnemonic: string, read: seq<bv10>, rest: Option<string>, word: string, after: Option<string>)
    requires IsWordlist(list) && Reading(list, mnemonic, read, rest)
    requires Remaining(rest) == [word] + Remaining(after) && word !in list
    ensures forall w: seq<bv10> | |w| == WORD_COUNT :: mnemonic != Render(list, w)
  {
    hide Remaining, Split, Spelled, Render, Sorted;
    UnknownWord(list, mnemonic, |read|);
  }

  /** The first half of `decode`: the word loop that fills `indices`. */
  method ReadWords(list: seq<string>, mnemonic: string) returns (read: Option<seq<bv10>>)
    requires IsWordlist(list)
    ensures read.Some? ==> |read.value| == WORD_COUNT && mnemonic == Render(list, read.value)
    ensures read.None? ==> forall w: seq<bv10> | |w| == WORD_COUNT :: mnemonic != Render(list, w)
  {
    hide AsIndex, Render, Sorted, Reading, Remaining;
    if |mnemonic| > MAX_MNEMONIC_BYTES {
      TooLong(list, mnemonic);
      return None;
    }
    var indices := new bv10[WORD_COUNT];
    var words := Some(mnemonic);
    ReadNone(list, mnemonic);
    for k := 0 to WORD_COUNT
      invariant Reading(list, mnemonic, indices[..k], words)
    {
      ghost var before := indices[..k];
      var word, after := NextWord(words);
      if word.None? {
        ReadShort(list, mnemonic, before, words);
        return None;
      }
      var position := BinarySearch(list, word.value);
      if position.None? {
        ReadUnknown(list, mnemonic, before, words, word.value, after);
        return None;
      }
      indices[k] := AsIndex(position.value);
      ReadOne(list, mnemonic, before, words, after, position.value);
      assert indices[..k + 1] == before + [AsIndex(position.value)];
      words := after;
    }
    assert indices[..WORD_COUNT] == indices[..];
    ReadAll(list, mnemonic, indices[..], words);
    var extra, _ := NextWord(words);
    if extra.Some? {
      return None;
    }
    read := Some(indices[..]);
  }

  lemma TooLong(list: seq<string>, mnemonic: string)
    requires IsWordlist(list) && |mnemonic| > MAX_MNEMONIC_BYTES
    ensures forall w: seq<bv10> | |w| == WORD_COUNT :: mnemonic != Render(list, w)
  {
    forall w: seq<bv10> | |w| == WORD_COUNT
      ensures mnemonic != Render(list, w)
    {
      RenderIffSplit(list, mnemonic, w);
    }
  }

  lemma WrongCount(list: seq<string>, mnemonic: string)
    requires IsWordlist(list) && |Split(mnemonic)| != WORD_COUNT
    ensures forall w: seq<bv10> | |w| == WORD_COUNT :: mnemonic != Render(list, w)
  {
    forall w: seq<bv10> | |w| == WORD_COUNT
      ensures mnemonic != Render(list, w)
    {
      RenderIffSplit(list, mnemonic, w);
    }
  }

  lemma UnknownWord(list: seq<string>, mnemonic: string, k: nat)
    requires IsWordlist(list) && k < |Split(mnemonic)| && Split(mnemonic)[k] !in list
    ensures forall w: seq<bv10> | |w| == WORD_COUNT :: mnemonic != Render(list, w)
  {
    forall w: seq<bv10> | |w| == WORD_COUNT
      ensures mnemonic != Render(list, w)
    {
      RenderIffSplit(list, mnemonic, w);
      if k < WORD_COUNT {
        SpelledAt(list, w, k);
      }
    }
  }

  function AsIndex(position: nat): bv10
    requires position < 1024
  {
    position as bv10
  }

  lemma WordAtPosition(list: seq<string>, i: nat)
    requires |list| == 1024 && i < 1024
    ensures Word(list, AsIndex(i)) == list[i]
  {
    IndexRoundTrip(i);
  }

  method Decode(list: seq<string>, mnemonic: string) returns (r: Result<Fields, ShareError>)
    requires IsWordlist(list)
    ensures r == Decoded(list, mnemonic)
  {
    hide Verifies, FieldsOf, Pair, Packed, Render;
    var read := ReadWords(list, mnemonic);
    if read.None? {
      return Err(Malformed);
    }
    var indices := read.value;
    DecodeInvertsRender(list, indices);
    var idExp := Pair(indices[0], indices[1]);
    var customization := if (idExp >> 4) & 1 == 1 then SHAMIR_EXTENDABLE else SHAMIR;
    var checksum := Polymod(customization, indices);
    VerifiesMeans(indices, customization, checksum);
    if checksum != 1 {
      return Err(Malformed);
    }
    if indices[4] >> 6 != 0 {
      return Err(Malformed);
    }
    r := Ok(FieldsOf(indices));
  }

  lemma VerifiesMeans(words: seq<bv10>, customization: seq<bv8>, checksum: bv32)
    requires |words| == WORD_COUNT
    requires customization == if (Pair(words[0], words[1]) >> 4) & 1 == 1 then SHAMIR_EXTENDABLE else SHAMIR
    requires checksum == Packed(Remainder(START, Bytes(customization) + words))
    ensures Verifies(Customization(words), words) <==> checksum == 1
  {
    hide Packed, Pair;
  }

  /** Parsing inverts printing: exactly the canonical texts of shares decode,
      each to its own fields. */
  lemma DecodeInvertsRender(list: seq<string>, words: seq<bv10>)
    requires IsWordlist(list) && |words| == WORD_COUNT
    ensures Decoded(list, Render(list, words))
         == if IsShare(words) then Ok(FieldsOf(words)) else Err(Malformed)
  {
    hide Verifies, FieldsOf;
    var text := Render(list, words);
    forall w | Decodes(list, text, w)
      ensures w == words
    {
      RenderIffSplit(list, text, words);
      RenderIffSplit(list, text, w);
      SpelledInjective(list, w, words);
    }
    if IsShare(words) {
      assert Decodes(list, text, words);
    }
  }

  lemma OnlyRenderingsDecode(list: seq<string>, mnemonic: string) returns (words: seq<bv10>)
    requires IsWordlist(list) && Decoded(list, mnemonic).Ok?
    ensures Decodes(list, mnemonic, words) && Decoded(list, mnemonic) == Ok(FieldsOf(words))
    ensures |mnemonic| <= MAX_MNEMONIC_BYTES
  {
    hide Verifies, FieldsOf;
    words :| Decodes(list, mnemonic, words) && Decoded(list, mnemonic) == Ok(FieldsOf(words));
    RenderIffSplit(list, mnemonic, words);
  }

  /** Error detection end to end: two mnemonics that both decode, with the
      same extendable flag, differ in no word or in at least four. */
  lemma DecodeDetectsThreeWrongWords(list: seq<string>, v: seq<bv10>, w: seq<bv10>, p: nat, q: nat, s: nat)
    requires IsWordlist(list) && |v| == |w| == WORD_COUNT && p < 33 && q < 33 && s < 33
    requires forall i :: 0 <= i < 33 && i != p && i != q && i != s ==> v[i] == w[i]
    requires Decoded(list, Render(list, v)).Ok? && Decoded(list, Render(list, w)).Ok?
    requires Extendable(v) == Extendable(w)
    ensures v == w
  {
    hide Verifies, FieldsOf, Extendable;
    DecodeInvertsRender(list, v);
    DecodeInvertsRender(list, w);
    DetectsThreeSubstitutions(Customization(v), v, w, p, q, s);
  }

  // -------------------------------------------------------------------------
  // The profile

  predicate InProfile(f: Fields) {
    && !f.extendable
    && f.iterationExponent == 0
    && f.groupIndex == 0
    && f.groupThreshold == 1
    && f.groupCount == 1
    && f.memberThreshold >= 2
  }

  function ProfileShare(f: Fields): Result<Share, ShareError> {
    if InProfile(f) then Ok(Share(f.memberIndex as nat, f.memberThreshold as nat)) else Err(Unsupported)
  }

  ghost function Validated(list: seq<string>, mnemonic: string): Result<Share, ShareError>
    requires |list| == 1024
  {
    match Decoded(list, mnemonic)
    case Err(error) => Err(error)
    case Ok(fields) => ProfileShare(fields)
  }

  method Validate(list: seq<string>, mnemonic: string) returns (r: Result<Share, ShareError>)
    requires IsWordlist(list)
    ensures r == Validated(list, mnemonic)
  {
    hide InProfile;
    var fields :- Decode(list, mnemonic);
    r := ProfileShare(fields);
  }

  /** What the two fields in word 3 are, below its top two bits. */
  function LastNibbles(word: bv10): Share {
    Share(((word >> 4) as bv8) as nat, ((word & 0xF) as bv8 + 1) as nat)
  }

  predicate ProfileBits(words: seq<bv10>)
    requires |words| == WORD_COUNT
  {
    words[1] & 0x1F == 0 && words[2] == 0 && words[3] < 0x100 && words[3] & 0xF != 0
  }

  lemma ProfileIsBits(words: seq<bv10>)
    requires |words| == WORD_COUNT
    ensures InProfile(FieldsOf(words)) <==> ProfileBits(words)
    ensures ProfileBits(words) ==> ProfileShare(FieldsOf(words)) == Ok(LastNibbles(words[3]))
  {
  }

  /** What validates, bit by bit: the rendering of 33 words that verify under
      the plain customization, with zero padding, with zeros from the flag at
      bit 4 of word 1 to bit 8 of word 3, and then the member index and one
      less than a threshold of at least two. */
  lemma ValidExactly(list: seq<string>, mnemonic: string, share: Share)
    requires IsWordlist(list)
    ensures Validated(list, mnemonic) == Ok(share)
       <==> exists words: seq<bv10> | |words| == 33 ::
              && mnemonic == Render(list, words)
              && Verifies([115, 104, 97, 109, 105, 114], words) && words[4] < 0x40
              && words[1] & 0x1F == 0 && words[2] == 0 && words[3] < 0x100 && words[3] & 0xF != 0
              && share == Share(((words[3] >> 4) as bv8) as nat, ((words[3] & 0xF) as bv8 + 1) as nat)
  {
    hide Render, Verifies, FieldsOf, ProfileShare, Extendable, IsShare;
    if Validated(list, mnemonic) == Ok(share) {
      var words := OnlyRenderingsDecode(list, mnemonic);
      ProfileIsBits(words);
      ShareBits(words);
    }
    forall words: seq<bv10> | |words| == 33 && mnemonic == Render(list, words)
      ensures Validated(list, mnemonic)
           == if IsShare(words) then ProfileShare(FieldsOf(words)) else Err(Malformed)
    {
      DecodeInvertsRender(list, words);
    }
    forall words: seq<bv10> | |words| == 33
      ensures ProfileBits(words) ==> (IsShare(words) <==> Verifies(SHAMIR, words) && words[4] < 0x40)
      ensures ProfileBits(words) ==> ProfileShare(FieldsOf(words)) == Ok(LastNibbles(words[3]))
    {
      ProfileIsBits(words);
      ShareBits(words);
    }
  }

  lemma ShareBits(words: seq<bv10>)
    requires |words| == WORD_COUNT
    ensures ProfileBits(words) ==> (IsShare(words) <==> Verifies(SHAMIR, words) && words[4] < 0x40)
    ensures ProfileShare(FieldsOf(words)).Ok? ==> InProfile(FieldsOf(words))
  {
    hide Verifies;
  }
}
