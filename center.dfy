/**
 * The request validators of the climbing-centre DTOs: operating times, fees,
 * holds, walls and the centre registration request. Each validator is a total
 * function from the submitted value to the value it hands on or to the reason
 * it raised. The second half of the module composes them the way the request
 * model does: every field is checked in declaration order, all errors are
 * collected, and the request is built only when none was raised.
 */
module CenterModel {
  import opened Wrappers
  import opened Text

  /** The kinds of ValueError the validators raise, one per message. */
  datatype Violation =
    | DayOfWeekNotAllowed
    | TimeFormat
    | FeeNameLength
    | NegativePrice
    | NegativeCount
    | HoldDifficultyLength
    | HoldNameLength
    | WallNameLength
    | CenterNameCharacters
    | CenterNameLength
    | TelFormat
    | InstagramNameCharacters
    | InstagramNameLength
    | YoutubeCodePrefix
    | YoutubeCodeEmpty    // `value[0]` on "": an IndexError, not a ValueError
    | TooManyImages
    | TooManyFeeImages
    | TooManyOperatingTimes
    | TooManyProofs

  /** The ValueErrors of a single validator result. */
  function ErrorsOf<T>(r: Result<T, Violation>): (errs: seq<Violation>)
    ensures errs == [] <==> r.Success?
  {
    if r.Success? then [] else [r.error]
  }

  // ---------------------------------------------------------------------------
  // Operating times

  const DaysOfWeek: seq<string> := ["월", "화", "수", "목", "금", "토", "일", "공휴일"]

  function ValidateDayOfWeek(value: string): (r: Result<string, Violation>)
    ensures r.Success? <==>
      value == "월" || value == "화" || value == "수" || value == "목" ||
      value == "금" || value == "토" || value == "일" || value == "공휴일"
    ensures r.Success? ==> r.value == value
    ensures r.Failure? ==> r.error == DayOfWeekNotAllowed
  {
    if value in DaysOfWeek then Success(value) else Failure(DayOfWeekNotAllowed)
  }

  /** The regex group `(0\d|1\d|2[0-3])`. */
  predicate HourGroup(a: char, b: char) {
    (a == '0' && IsDigit(b)) || (a == '1' && IsDigit(b)) || (a == '2' && '0' <= b <= '3')
  }

  /** The regex group `(0[1-9]|[0-5]\d)`. */
  predicate MinuteGroup(a: char, b: char) {
    (a == '0' && '1' <= b <= '9') || ('0' <= a <= '5' && IsDigit(b))
  }

  /** The pattern `(0\d|1\d|2[0-3]):(0[1-9]|[0-5]\d)` matched against the whole of s. */
  predicate TimeBody(s: string) {
    |s| == 5 && HourGroup(s[0], s[1]) && s[2] == ':' && MinuteGroup(s[3], s[4])
  }

  /**
   * `re.match(r'^P$', s)`: the pattern P covers all of s, or all of s but one
   * final line feed, which `$` is allowed to stand before.
   */
  predicate DollarMatch(body: string -> bool, s: string) {
    body(s) || (|s| > 0 && s[|s| - 1] == '\n' && body(s[..|s| - 1]))
  }

  /** The two-digit, zero-padded decimal form of n. */
  function TwoDigits(n: nat): (s: string)
    requires n < 100
    ensures |s| == 2 && AllDigits(s)
  {
    [DigitChar(n / 10), DigitChar(n % 10)]
  }

  /** A time of day written as `HH:MM`. */
  function FormatTime(h: nat, m: nat): (s: string)
    requires h < 24 && m < 60
    ensures |s| == 5 && s[2] == ':'
  {
    TwoDigits(h) + ":" + TwoDigits(m)
  }

  /** The minute alternation accepts exactly the two-digit numbers 00..59 (00 through its second branch). */
  lemma MinuteGroupRange(a: char, b: char)
    ensures MinuteGroup(a, b) <==> IsDigit(a) && IsDigit(b) && DigitValue(a) * 10 + DigitValue(b) < 60
  {
  }

  /** The hour alternation accepts exactly the two-digit numbers 00..23. */
  lemma HourGroupRange(a: char, b: char)
    ensures HourGroup(a, b) <==> IsDigit(a) && IsDigit(b) && DigitValue(a) * 10 + DigitValue(b) < 24
  {
  }

  /** The time pattern matches exactly the `HH:MM` texts of the 24 * 60 times of day. */
  lemma TimeBodyIsFormatTime(s: string)
    ensures TimeBody(s) <==> exists h: nat, m: nat :: h < 24 && m < 60 && s == FormatTime(h, m)
  {
    if TimeBody(s) {
      HourGroupRange(s[0], s[1]);
      MinuteGroupRange(s[3], s[4]);
      var h := DigitValue(s[0]) * 10 + DigitValue(s[1]);
      var m := DigitValue(s[3]) * 10 + DigitValue(s[4]);
      assert h / 10 == DigitValue(s[0]) && h % 10 == DigitValue(s[1]);
      assert m / 10 == DigitValue(s[3]) && m % 10 == DigitValue(s[4]);
      assert s == FormatTime(h, m);
    }
    if exists h: nat, m: nat :: h < 24 && m < 60 && s == FormatTime(h, m) {
      var h: nat, m: nat :| h < 24 && m < 60 && s == FormatTime(h, m);
      DigitCharValue(h / 10);
      DigitCharValue(h % 10);
      DigitCharValue(m / 10);
      DigitCharValue(m % 10);
      HourGroupRange(s[0], s[1]);
      MinuteGroupRange(s[3], s[4]);
    }
  }

  /** The anchored time pattern accepts a time of day, optionally followed by one line feed. */
  lemma TimeMatchIsFormatTime(value: string)
    ensures DollarMatch(TimeBody, value) <==>
      exists h: nat, m: nat :: h < 24 && m < 60 &&
        (value == FormatTime(h, m) || value == FormatTime(h, m) + "\n")
  {
    TimeBodyIsFormatTime(value);
    if |value| > 0 {
      var t := value[..|value| - 1];
      TimeBodyIsFormatTime(t);
      assert forall h: nat, m: nat | h < 24 && m < 60 && value == FormatTime(h, m) + "\n" :: t == FormatTime(h, m);
      assert forall h: nat, m: nat | h < 24 && m < 60 && t == FormatTime(h, m) && value[|value| - 1] == '\n'
        :: value == FormatTime(h, m) + "\n";
    }
  }

  /** The shared rule of `validate_start_time` and `validate_end_time`. */
  function ValidateTimeOfDay(value: string): (r: Result<string, Violation>)
    ensures r.Success? <==>
      exists h: nat, m: nat :: h < 24 && m < 60 &&
        (value == FormatTime(h, m) || value == FormatTime(h, m) + "\n")
    ensures r.Success? ==> r.value == value
    ensures r.Failure? ==> r.error == TimeFormat
  {
    TimeMatchIsFormatTime(value);
    if DollarMatch(TimeBody, value) then Success(value) else Failure(TimeFormat)
  }

  datatype OperatingTime = OperatingTime(dayOfWeek: string, startTime: string, endTime: string)

  // ---------------------------------------------------------------------------
  // Length windows and non-negative numbers

  /** The shape shared by the length validators: raise when `len(value) < lo or len(value) > hi`. */
  function ValidateLength(value: string, lo: nat, hi: nat, violation: Violation): (r: Result<string, Violation>)
    ensures r.Success? <==> lo <= |value| <= hi
    ensures r.Success? ==> r.value == value
    ensures r.Failure? ==> r.error == violation
  {
    if |value| < lo || |value| > hi then Failure(violation) else Success(value)
  }

  function ValidateFeeName(value: string): (r: Result<string, Violation>)
    ensures r.Success? <==> 2 <= |value| <= 50
    ensures r.Success? ==> r.value == value
    ensures r.Failure? ==> r.error == FeeNameLength
  {
    ValidateLength(value, 2, 50, FeeNameLength)
  }

  /** The shape of `validate_price` and `validate_count`: raise when `value < 0`. */
  function ValidateNonNegative(value: int, violation: Violation): (r: Result<int, Violation>)
    ensures r.Success? <==> value >= 0
    ensures r.Success? ==> r.value == value
    ensures r.Failure? ==> r.error == violation
  {
    if value < 0 then Failure(violation) else Success(value)
  }

  datatype Fee = Fee(name: string, price: int, count: int)

  /** Hold difficulty: at least 2 characters, although the message promises 1. */
  function ValidateHoldDifficulty(value: string): (r: Result<string, Violation>)
    ensures r.Success? <==> 2 <= |value| <= 10
    ensures |value| == 1 ==> r == Failure(HoldDifficultyLength)
    ensures r.Success? ==> r.value == value
    ensures r.Failure? ==> r.error == HoldDifficultyLength
  {
    ValidateLength(value, 2, 10, HoldDifficultyLength)
  }

  /** Hold name: at least 2 characters, although the message promises 1. */
  function ValidateHoldName(value: string): (r: Result<string, Violation>)
    ensures r.Success? <==> 2 <= |value| <= 10
    ensures |value| == 1 ==> r == Failure(HoldNameLength)
    ensures r.Success? ==> r.value == value
    ensures r.Failure? ==> r.error == HoldNameLength
  {
    ValidateLength(value, 2, 10, HoldNameLength)
  }

  datatype Hold = Hold(difficulty: string, name: string)

  function ValidateWallName(value: string): (r: Result<string, Violation>)
    ensures r.Success? <==> 2 <= |value| <= 20
    ensures r.Success? ==> r.value == value
    ensures r.Failure? ==> r.error == WallNameLength
  {
    ValidateLength(value, 2, 20, WallNameLength)
  }

  datatype WallType = Endurance | Bouldering

  datatype Wall = Wall(wallType: WallType, name: string)

  // ---------------------------------------------------------------------------
  // Centre name, telephone number, social-media handles

  /**
   * A character the centre and Instagram names may use: an ASCII letter, a
   * code point in [korBegin, korEnd] (the Hangul range of the configuration)
   * or a digit.
   */
  predicate NameChar(c: char, korBegin: int, korEnd: int) {
    ('a' <= c <= 'z') || ('A' <= c <= 'Z') || (korBegin <= c as int <= korEnd) || IsDigit(c)
  }

  /** The `for c in value` scan: true when it reaches the end without raising. */
  function AllNameChars(s: string, korBegin: int, korEnd: int): (ok: bool)
    ensures ok <==> forall i :: 0 <= i < |s| ==> NameChar(s[i], korBegin, korEnd)
  {
    s == [] || (NameChar(s[0], korBegin, korEnd) && AllNameChars(s[1..], korBegin, korEnd))
  }

  /** Centre name: the character scan runs first, then the length window [2, 50]. */
  function ValidateCenterName(value: string, korBegin: int, korEnd: int): (r: Result<string, Violation>)
    ensures r.Success? <==>
      (forall i :: 0 <= i < |value| ==> NameChar(value[i], korBegin, korEnd)) && 2 <= |value| <= 50
    ensures r.Success? ==> r.value == value
    ensures r == Failure(CenterNameCharacters) <==>
      exists i :: 0 <= i < |value| && !NameChar(value[i], korBegin, korEnd)
    ensures r == Failure(CenterNameLength) <==>
      (forall i :: 0 <= i < |value| ==> NameChar(value[i], korBegin, korEnd)) && (|value| < 2 || |value| > 50)
  {
    if !AllNameChars(value, korBegin, korEnd) then Failure(CenterNameCharacters)
    else if |value| < 2 || |value| > 50 then Failure(CenterNameLength)
    else Success(value)
  }

  /**
   * The pattern `(0)\d{1,2}-\d{3,4}-\d{4}` covering all of s with a leading
   * group of a digits after the `0` and a middle group of b digits.
   */
  predicate TelShape(s: string, a: nat, b: nat) {
    && |s| == a + b + 7
    && s[0] == '0' && AllDigits(s[1..a + 1])
    && s[a + 1] == '-' && AllDigits(s[a + 2..a + b + 2])
    && s[a + b + 2] == '-' && AllDigits(s[a + b + 3..])
  }

  /** The telephone pattern matched against the whole of s, any repetition counts allowed. */
  predicate TelBody(s: string) {
    exists a: nat, b: nat | 1 <= a <= 2 && 3 <= b <= 4 :: TelShape(s, a, b)
  }

  /**
   * An independent reading of a Korean telephone number: split at the dashes
   * into exactly three digit groups, the first being an area or carrier code
   * 0X or 0XX, then 3 or 4 digits, then 4 digits.
   */
  predicate TelGroups(parts: seq<string>) {
    && |parts| == 3
    && 2 <= |parts[0]| <= 3 && parts[0][0] == '0' && AllDigits(parts[0])
    && 3 <= |parts[1]| <= 4 && AllDigits(parts[1])
    && |parts[2]| == 4 && AllDigits(parts[2])
  }

  lemma DigitsHaveNoDash(s: string)
    requires AllDigits(s)
    ensures '-' !in s
  {
  }

  /** A telephone-shaped text is its three groups joined by the two dashes at positions a + 1 and a + b + 2. */
  lemma TelShapeParts(s: string, a: nat, b: nat)
    requires |s| == a + b + 7 && s[a + 1] == '-' && s[a + b + 2] == '-'
    ensures s == s[..a + 1] + ['-'] + (s[a + 2..a + b + 2] + ['-'] + s[a + b + 3..])
  {
    assert s == s[..a + 1] + s[a + 1..];
    assert s[a + 1..] == ['-'] + s[a + 2..];
    assert s[a + 2..] == s[a + 2..a + b + 2] + s[a + b + 2..];
    assert s[a + b + 2..] == ['-'] + s[a + b + 3..];
  }

  /** A text matching the telephone pattern splits at its dashes into three groups of the Korean shape. */
  lemma TelShapeGroups(s: string, a: nat, b: nat)
    requires 1 <= a <= 2 && 3 <= b <= 4 && TelShape(s, a, b)
    ensures TelGroups(Split(s, '-'))
  {
    var g0, g1, g2 := s[..a + 1], s[a + 2..a + b + 2], s[a + b + 3..];
    assert AllDigits(g0) by {
      assert g0 == [s[0]] + s[1..a + 1];
    }
    TelShapeParts(s, a, b);
    DigitsHaveNoDash(g0);
    DigitsHaveNoDash(g1);
    DigitsHaveNoDash(g2);
    SplitCons(g0, g1 + ['-'] + g2, '-');
    SplitCons(g1, g2, '-');
    SplitFree(g2, '-');
    assert Split(s, '-') == [g0, g1, g2];
  }

  /** A text whose dash-separated groups have the Korean shape matches the telephone pattern. */
  lemma GroupsTelShape(s: string)
    requires TelGroups(Split(s, '-'))
    ensures TelShape(s, |Split(s, '-')[0]| - 1, |Split(s, '-')[1]|)
  {
    var parts := Split(s, '-');
    JoinSplit(s, '-');
    var g0, g1, g2 := parts[0], parts[1], parts[2];
    assert parts[1..] == [g1, g2] && parts[1..][1..] == [g2];
    assert Join(parts, '-') == g0 + ['-'] + Join(parts[1..], '-');
    assert Join(parts[1..], '-') == g1 + ['-'] + Join(parts[1..][1..], '-');
    assert s == g0 + ['-'] + (g1 + ['-'] + g2);
    var a, b := |g0| - 1, |g1|;
    assert s[1..a + 1] == g0[1..];
    assert s[a + 2..a + b + 2] == g1;
    assert s[a + b + 3..] == g2;
  }

  /** The telephone pattern accepts exactly the texts whose dash-separated groups are three digit groups of the Korean shape. */
  lemma TelBodyIsGroups(s: string)
    ensures TelBody(s) <==> TelGroups(Split(s, '-'))
  {
    if TelBody(s) {
      var a: nat, b: nat :| 1 <= a <= 2 && 3 <= b <= 4 && TelShape(s, a, b);
      TelShapeGroups(s, a, b);
    }
    if TelGroups(Split(s, '-')) {
      GroupsTelShape(s);
      var parts := Split(s, '-');
      assert TelShape(s, |parts[0]| - 1, |parts[1]|);
    }
  }

  /** An accepted telephone text is `0`, 1-2 digits, `-`, 3-4 digits, `-`, 4 digits: 11 to 13 characters, two of them dashes. */
  lemma TelBodyLengthAndDashes(s: string)
    requires TelBody(s)
    ensures 11 <= |s| <= 13
    ensures Occurrences(s, '-') == 2
    ensures s[0] == '0'
  {
    var a: nat, b: nat :| 1 <= a <= 2 && 3 <= b <= 4 && TelShape(s, a, b);
    var g0, g1, g2 := s[..a + 1], s[a + 2..a + b + 2], s[a + b + 3..];
    assert AllDigits(g0) by {
      assert g0 == [s[0]] + s[1..a + 1];
    }
    TelShapeParts(s, a, b);
    DigitsHaveNoDash(g0);
    DigitsHaveNoDash(g1);
    DigitsHaveNoDash(g2);
    OccurrencesAppend(g0 + ['-'], g1 + ['-'] + g2, '-');
    OccurrencesAppend(g0, ['-'], '-');
    OccurrencesAppend(g1 + ['-'], g2, '-');
    OccurrencesAppend(g1, ['-'], '-');
  }

  /** The anchored telephone pattern, read through the dash-separated groups. */
  lemma TelMatchIsGroups(value: string)
    ensures DollarMatch(TelBody, value) <==>
      TelGroups(Split(value, '-')) ||
      (|value| > 0 && value[|value| - 1] == '\n' && TelGroups(Split(value[..|value| - 1], '-')))
    ensures TelBody(value) ==> 11 <= |value| <= 13 && Occurrences(value, '-') == 2
  {
    TelBodyIsGroups(value);
    if |value| > 0 { TelBodyIsGroups(value[..|value| - 1]); }
    if TelBody(value) { TelBodyLengthAndDashes(value); }
  }

  function ValidateTel(value: string): (r: Result<string, Violation>)
    ensures r.Success? <==>
      TelGroups(Split(value, '-')) ||
      (|value| > 0 && value[|value| - 1] == '\n' && TelGroups(Split(value[..|value| - 1], '-')))
    ensures r.Success? && TelBody(value) ==> 11 <= |value| <= 13 && Occurrences(value, '-') == 2
    ensures r.Success? ==> r.value == value
    ensures r.Failure? ==> r.error == TelFormat
  {
    TelMatchIsGroups(value);
    if DollarMatch(TelBody, value) then Success(value) else Failure(TelFormat)
  }

  /** Instagram name: None passes; otherwise the centre-name characters and a length in [3, 30]. */
  function ValidateInstagramName(value: Option<string>, korBegin: int, korEnd: int): (r: Result<Option<string>, Violation>)
    ensures value.None? ==> r == Success(None)
    ensures value.Some? ==>
      (r.Success? <==>
        (forall i :: 0 <= i < |value.value| ==> NameChar(value.value[i], korBegin, korEnd)) &&
        3 <= |value.value| <= 30)
    ensures value.Some? ==>
      (r == Failure(InstagramNameCharacters) <==>
        exists i :: 0 <= i < |value.value| && !NameChar(value.value[i], korBegin, korEnd))
    ensures value.Some? ==>
      (r == Failure(InstagramNameLength) <==>
        (forall i :: 0 <= i < |value.value| ==> NameChar(value.value[i], korBegin, korEnd)) &&
        (|value.value| < 3 || |value.value| > 30))
    ensures r.Success? ==> r.value == value
  {
    match value
    case None => Success(None)
    case Some(s) =>
      if !AllNameChars(s, korBegin, korEnd) then Failure(InstagramNameCharacters)
      else if |s| < 3 || |s| > 30 then Failure(InstagramNameLength)
      else Success(value)
  }

  /**
   * YouTube code: None passes; a code not starting with `@` is rejected; an
   * empty code makes `value[0]` raise IndexError; an accepted code falls off
   * the end of the validator, so the field becomes None.
   */
  function ValidateYoutubeCode(value: Option<string>): (r: Result<Option<string>, Violation>)
    ensures r.Success? ==> r.value == None
    ensures r.Success? <==> value.None? || (|value.value| > 0 && value.value[0] == '@')
    ensures r == Failure(YoutubeCodeEmpty) <==> value == Some("")
    ensures r == Failure(YoutubeCodePrefix) <==> value.Some? && |value.value| > 0 && value.value[0] != '@'
  {
    match value
    case None => Success(None)
    case Some(s) =>
      if |s| == 0 then Failure(YoutubeCodeEmpty)
      else if s[0] != '@' then Failure(YoutubeCodePrefix)
      else Success(None)
  }

  // ---------------------------------------------------------------------------
  // Caps on list sizes

  const MaxImages := 10
  const MaxFeeImages := 5      // the message speaks of 10
  const MaxOperatingTimes := 8
  const MaxProofs := 5

  /** The shape of the list validators: raise when `len(value) > cap`. */
  function ValidateCount(n: nat, cap: nat, violation: Violation): (r: Result<nat, Violation>)
    ensures r.Success? <==> n <= cap
    ensures r.Success? ==> r.value == n
    ensures r.Failure? ==> r.error == violation
  {
    if n > cap then Failure(violation) else Success(n)
  }

  lemma FeeImageCapIsFive()
    ensures ValidateCount(5, MaxFeeImages, TooManyFeeImages).Success?
    ensures ValidateCount(6, MaxFeeImages, TooManyFeeImages) == Failure(TooManyFeeImages)
  {
  }

  // ---------------------------------------------------------------------------
  // Composition: the errors of a DTO, field by field

  /** A step of an error location: a field name or a list position. */
  datatype LocStep = Field(name: string) | Index(i: nat)

  datatype FieldError = FieldError(loc: seq<LocStep>, violation: Violation)

  /** The errors of one field, located at that field. */
  function At(loc: seq<LocStep>, errs: seq<Violation>): (r: seq<FieldError>)
    ensures |r| == |errs|
    ensures forall k :: 0 <= k < |r| ==> r[k] == FieldError(loc, errs[k])
  {
    if errs == [] then [] else [FieldError(loc, errs[0])] + At(loc, errs[1..])
  }

  /** Nests the errors of a sub-DTO under a location prefix. */
  function Nest(prefix: seq<LocStep>, errs: seq<FieldError>): (r: seq<FieldError>)
    ensures |r| == |errs|
    ensures forall k :: 0 <= k < |r| ==> r[k] == FieldError(prefix + errs[k].loc, errs[k].violation)
  {
    if errs == [] then [] else [FieldError(prefix + errs[0].loc, errs[0].violation)] + Nest(prefix, errs[1..])
  }

  function Check<T>(name: string, r: Result<T, Violation>): (errs: seq<FieldError>)
    ensures errs == [] <==> r.Success?
    ensures r.Failure? ==> errs == [FieldError([Field(name)], r.error)]
  {
    At([Field(name)], ErrorsOf(r))
  }

  function OperatingTimeErrors(t: OperatingTime): (errs: seq<FieldError>)
    ensures errs == [] <==>
      ValidateDayOfWeek(t.dayOfWeek).Success? &&
      ValidateTimeOfDay(t.startTime).Success? && ValidateTimeOfDay(t.endTime).Success?
    ensures |errs| <= 3
    ensures forall k, l :: 0 <= k < l < |errs| ==> errs[k].loc != errs[l].loc
  {
    Check("day_of_week", ValidateDayOfWeek(t.dayOfWeek))
      + Check("start_time", ValidateTimeOfDay(t.startTime))
      + Check("end_time", ValidateTimeOfDay(t.endTime))
  }

  function FeeErrors(f: Fee): (errs: seq<FieldError>)
    ensures errs == [] <==> 2 <= |f.name| <= 50 && f.price >= 0 && f.count >= 0
    ensures FieldError([Field("price")], NegativePrice) in errs <==> f.price < 0
    ensures FieldError([Field("count")], NegativeCount) in errs <==> f.count < 0
  {
    Check("name", ValidateFeeName(f.name))
      + Check("price", ValidateNonNegative(f.price, NegativePrice))
      + Check("count", ValidateNonNegative(f.count, NegativeCount))
  }

  function HoldErrors(h: Hold): (errs: seq<FieldError>)
    ensures errs == [] <==> 2 <= |h.difficulty| <= 10 && 2 <= |h.name| <= 10
  {
    Check("difficulty", ValidateHoldDifficulty(h.difficulty)) + Check("name", ValidateHoldName(h.name))
  }

  function WallErrors(w: Wall): (errs: seq<FieldError>)
    ensures errs == [] <==> 2 <= |w.name| <= 20
  {
    Check("name", ValidateWallName(w.name))
  }

  /** The errors of the items of a list field, from position `from` on, each nested under the field and its position. */
  function ItemErrors<T>(field: string, items: seq<T>, from: nat, errorsOf: T -> seq<FieldError>): (errs: seq<FieldError>)
    requires from <= |items|
    ensures errs == [] <==> forall i :: from <= i < |items| ==> errorsOf(items[i]) == []
    decreases |items| - from
  {
    if from == |items| then []
    else Nest([Field(field), Index(from)], errorsOf(items[from])) + ItemErrors(field, items, from + 1, errorsOf)
  }

  /** A list field: its items are checked first; its own cap runs only when they all passed. */
  function ListErrors<T>(field: string, items: seq<T>, errorsOf: T -> seq<FieldError>, cap: Option<(nat, Violation)>): (errs: seq<FieldError>)
    ensures errs == [] <==>
      (forall i :: 0 <= i < |items| ==> errorsOf(items[i]) == []) && (cap.Some? ==> |items| <= cap.value.0)
  {
    var itemErrs := ItemErrors(field, items, 0, errorsOf);
    if itemErrs != [] then itemErrs
    else match cap
      case None => []
      case Some((limit, violation)) => Check(field, ValidateCount(|items|, limit, violation))
  }

  function NoItemErrors(s: string): seq<FieldError> { [] }

  datatype CenterRequest = CenterRequest(
    profileImage: string,
    name: string,
    address: string,
    detailAddress: Option<string>,
    tel: string,
    webUrl: Option<string>,
    instagramName: Option<string>,
    youtubeCode: Option<string>,
    imageList: seq<string>,
    utilityList: seq<string>,
    feeImageList: seq<string>,
    operatingTimeList: seq<OperatingTime>,
    feeList: seq<Fee>,
    holdList: seq<Hold>,
    wallList: seq<Wall>,
    proofList: seq<string>)

  /** What became of a registration request: the model built, the collected errors, or an uncaught exception. */
  datatype RequestOutcome = Accepted(request: CenterRequest) | Rejected(errors: seq<FieldError>) | Aborted

  /** The errors of the scalar fields that carry validators, in declaration order. */
  function ScalarErrors(req: CenterRequest, korBegin: int, korEnd: int): seq<FieldError> {
    Check("name", ValidateCenterName(req.name, korBegin, korEnd))
      + Check("tel", ValidateTel(req.tel))
      + Check("instagram_name", ValidateInstagramName(req.instagramName, korBegin, korEnd))
      + Check("youtube_code", ValidateYoutubeCode(req.youtubeCode))
  }

  /** The errors of the list fields, in declaration order. */
  function ListFieldErrors(req: CenterRequest): seq<FieldError> {
    (ListErrors("image_list", req.imageList, NoItemErrors, Some((MaxImages, TooManyImages)))
      + ListErrors("fee_image_list", req.feeImageList, NoItemErrors, Some((MaxFeeImages, TooManyFeeImages)))
      + ListErrors("operating_time_list", req.operatingTimeList, OperatingTimeErrors,
                   Some((MaxOperatingTimes, TooManyOperatingTimes)))
      + ListErrors("fee_list", req.feeList, FeeErrors, None))
    + (ListErrors("hold_list", req.holdList, HoldErrors, None)
      + ListErrors("wall_list", req.wallList, WallErrors, None)
      + ListErrors("proof_list", req.proofList, NoItemErrors, Some((MaxProofs, TooManyProofs))))
  }

  /** The errors of every field of the request, in declaration order. */
  function RequestErrors(req: CenterRequest, korBegin: int, korEnd: int): seq<FieldError> {
    ScalarErrors(req, korBegin, korEnd) + ListFieldErrors(req)
  }

  /** The scalar field conditions, each stated in its own terms. */
  predicate AcceptableScalars(req: CenterRequest, korBegin: int, korEnd: int) {
    && (forall i :: 0 <= i < |req.name| ==> NameChar(req.name[i], korBegin, korEnd))
    && 2 <= |req.name| <= 50
    && DollarMatch(TelBody, req.tel)
    && (req.instagramName.Some? ==>
          (forall i :: 0 <= i < |req.instagramName.value| ==> NameChar(req.instagramName.value[i], korBegin, korEnd))
          && 3 <= |req.instagramName.value| <= 30)
    && (req.youtubeCode.Some? ==> |req.youtubeCode.value| > 0 && req.youtubeCode.value[0] == '@')
  }

  predicate OperatingTimesValid(ot: seq<OperatingTime>) {
    forall i :: 0 <= i < |ot| ==>
      ValidateDayOfWeek(ot[i].dayOfWeek).Success? &&
      ValidateTimeOfDay(ot[i].startTime).Success? && ValidateTimeOfDay(ot[i].endTime).Success?
  }

  predicate FeesValid(fees: seq<Fee>) {
    forall i :: 0 <= i < |fees| ==> 2 <= |fees[i].name| <= 50 && fees[i].price >= 0 && fees[i].count >= 0
  }

  predicate HoldsValid(holds: seq<Hold>) {
    forall i :: 0 <= i < |holds| ==> 2 <= |holds[i].difficulty| <= 10 && 2 <= |holds[i].name| <= 10
  }

  predicate WallsValid(walls: seq<Wall>) {
    forall i :: 0 <= i < |walls| ==> 2 <= |walls[i].name| <= 20
  }

  /** The list field conditions: the caps, and every item of a nested DTO valid. */
  predicate AcceptableLists(req: CenterRequest) {
    && |req.imageList| <= 10
    && |req.feeImageList| <= 5
    && |req.operatingTimeList| <= 8 && OperatingTimesValid(req.operatingTimeList)
    && FeesValid(req.feeList)
    && HoldsValid(req.holdList)
    && WallsValid(req.wallList)
    && |req.proofList| <= 5
  }

  /** Every field condition of the request. */
  predicate AcceptableRequest(req: CenterRequest, korBegin: int, korEnd: int) {
    AcceptableScalars(req, korBegin, korEnd) && AcceptableLists(req)
  }

  lemma NameCheckEmpty(req: CenterRequest, korBegin: int, korEnd: int)
    ensures Check("name", ValidateCenterName(req.name, korBegin, korEnd)) == [] <==>
      (forall i :: 0 <= i < |req.name| ==> NameChar(req.name[i], korBegin, korEnd)) && 2 <= |req.name| <= 50
  {
  }

  lemma TelCheckEmpty(req: CenterRequest)
    ensures Check("tel", ValidateTel(req.tel)) == [] <==> DollarMatch(TelBody, req.tel)
  {
    TelMatchIsGroups(req.tel);
  }

  lemma InstagramCheckEmpty(req: CenterRequest, korBegin: int, korEnd: int)
    ensures Check("instagram_name", ValidateInstagramName(req.instagramName, korBegin, korEnd)) == [] <==>
      (req.instagramName.Some? ==>
          (forall i :: 0 <= i < |req.instagramName.value| ==> NameChar(req.instagramName.value[i], korBegin, korEnd))
          && 3 <= |req.instagramName.value| <= 30)
  {
  }

  lemma YoutubeCheckEmpty(req: CenterRequest)
    ensures Check("youtube_code", ValidateYoutubeCode(req.youtubeCode)) == [] <==>
      (req.youtubeCode.Some? ==> |req.youtubeCode.value| > 0 && req.youtubeCode.value[0] == '@')
  {
  }

  lemma ScalarErrorsEmpty(req: CenterRequest, korBegin: int, korEnd: int)
    ensures ScalarErrors(req, korBegin, korEnd) == [] <==> AcceptableScalars(req, korBegin, korEnd)
  {
    NameCheckEmpty(req, korBegin, korEnd);
    TelCheckEmpty(req);
    InstagramCheckEmpty(req, korBegin, korEnd);
    YoutubeCheckEmpty(req);
    EmptyConcat4(Check("name", ValidateCenterName(req.name, korBegin, korEnd)),
                 Check("tel", ValidateTel(req.tel)),
                 Check("instagram_name", ValidateInstagramName(req.instagramName, korBegin, korEnd)),
                 Check("youtube_code", ValidateYoutubeCode(req.youtubeCode)));
  }

  lemma EmptyConcat4<T>(a: seq<T>, b: seq<T>, c: seq<T>, d: seq<T>)
    ensures a + b + c + d == [] <==> a == [] && b == [] && c == [] && d == []
  {
    assert |a + b + c + d| == |a| + |b| + |c| + |d|;
  }

  lemma OperatingTimesEmpty(ot: seq<OperatingTime>)
    ensures ListErrors("operating_time_list", ot, OperatingTimeErrors, Some((MaxOperatingTimes, TooManyOperatingTimes))) == [] <==>
      |ot| <= 8 && OperatingTimesValid(ot)
  {
  }

  lemma FeesEmpty(fees: seq<Fee>)
    ensures ListErrors("fee_list", fees, FeeErrors, None) == [] <==> FeesValid(fees)
  {
  }

  lemma HoldsEmpty(holds: seq<Hold>)
    ensures ListErrors("hold_list", holds, HoldErrors, None) == [] <==> HoldsValid(holds)
  {
  }

  lemma WallsEmpty(walls: seq<Wall>)
    ensures ListErrors("wall_list", walls, WallErrors, None) == [] <==> WallsValid(walls)
  {
  }

  lemma CappedEmpty(field: string, items: seq<string>, cap: nat, violation: Violation)
    ensures ListErrors(field, items, NoItemErrors, Some((cap, violation))) == [] <==> |items| <= cap
  {
  }

  lemma ListFieldErrorsEmpty(req: CenterRequest)
    ensures ListFieldErrors(req) == [] <==> AcceptableLists(req)
  {
    var e1 := ListErrors("image_list", req.imageList, NoItemErrors, Some((MaxImages, TooManyImages)));
    var e2 := ListErrors("fee_image_list", req.feeImageList, NoItemErrors, Some((MaxFeeImages, TooManyFeeImages)));
    var e3 := ListErrors("operating_time_list", req.operatingTimeList, OperatingTimeErrors,
                         Some((MaxOperatingTimes, TooManyOperatingTimes)));
    var e4 := ListErrors("fee_list", req.feeList, FeeErrors, None);
    var e5 := ListErrors("hold_list", req.holdList, HoldErrors, None);
    var e6 := ListErrors("wall_list", req.wallList, WallErrors, None);
    var e7 := ListErrors("proof_list", req.proofList, NoItemErrors, Some((MaxProofs, TooManyProofs)));
    CappedEmpty("image_list", req.imageList, MaxImages, TooManyImages);
    CappedEmpty("fee_image_list", req.feeImageList, MaxFeeImages, TooManyFeeImages);
    OperatingTimesEmpty(req.operatingTimeList);
    FeesEmpty(req.feeList);
    HoldsEmpty(req.holdList);
    WallsEmpty(req.wallList);
    CappedEmpty("proof_list", req.proofList, MaxProofs, TooManyProofs);
    assert |ListFieldErrors(req)| == |e1| + |e2| + |e3| + |e4| + |e5| + |e6| + |e7|;
  }

  /**
   * `CenterRequestDto(**fields)`: an empty YouTube code aborts with IndexError;
   * otherwise the request is built when no field raised, and carries what the
   * validators returned - the YouTube code always reads None.
   */
  function ValidateCenterRequest(req: CenterRequest, korBegin: int, korEnd: int): (out: RequestOutcome)
    ensures out.Aborted? <==> req.youtubeCode == Some("")
    ensures out.Accepted? <==> AcceptableRequest(req, korBegin, korEnd)
    ensures out.Accepted? ==> out.request == req.(youtubeCode := None)
    ensures out.Rejected? ==> out.errors != []
  {
    ScalarErrorsEmpty(req, korBegin, korEnd);
    ListFieldErrorsEmpty(req);
    var errs := RequestErrors(req, korBegin, korEnd);
    if req.youtubeCode == Some("") then Aborted
    else if errs != [] then Rejected(errs)
    else Accepted(req.(youtubeCode := None))
  }
}
