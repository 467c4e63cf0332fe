/** The pure pieces of the check-in scanner page, frontend/src/demo.tsx: the
    QR payload parser, the custom-day rule and the quick-select day range. */
module ScanQr {
  import opened Wrappers

  // ---------------------------------------------------------------------
  // String.prototype.split with a one-character separator
  // ---------------------------------------------------------------------

  /** `s.split(sep)`: the pieces between separators, including empty ones;
      there is always at least one piece and no piece holds the separator. */
  function Split(s: string, sep: char): (parts: seq<string>)
    ensures |parts| >= 1
    ensures forall k :: 0 <= k < |parts| ==> sep !in parts[k]
    decreases |s|
  {
    if |s| == 0 then [""]
    else
      var rest := Split(s[1..], sep);
      if s[0] == sep then [""] + rest
      else [[s[0]] + rest[0]] + rest[1..]
  }

  /** `parts.join(sep)`: the inverse of `Split`. */
  function Join(parts: seq<string>, sep: char): string
    requires |parts| >= 1
  {
    if |parts| == 1 then parts[0] else parts[0] + [sep] + Join(parts[1..], sep)
  }

  /** Joining the pieces restores the string. */
  lemma {:induction false} JoinSplit(s: string, sep: char)
    ensures Join(Split(s, sep), sep) == s
    decreases |s|
  {
    if |s| > 0 {
      JoinSplit(s[1..], sep);
      var rest := Split(s[1..], sep);
      if s[0] != sep {
        if |rest| == 1 {
          assert Join(Split(s, sep), sep) == [s[0]] + rest[0];
        } else {
          assert Split(s, sep)[1..] == rest[1..];
          assert Join(Split(s, sep), sep) == [s[0]] + rest[0] + [sep] + Join(rest[1..], sep);
        }
        assert [s[0]] + s[1..] == s;
      } else {
        assert [sep] + s[1..] == s;
      }
    }
  }

  /** A string without the separator is a single piece. */
  lemma {:induction false} SplitWithoutSeparator(a: string, sep: char)
    requires sep !in a
    ensures Split(a, sep) == [a]
    decreases |a|
  {
    if |a| > 0 {
      SplitWithoutSeparator(a[1..], sep);
      assert [a[0]] + a[1..] == a;
    }
  }

  /** A separator-free prefix followed by the separator is the first piece. */
  lemma {:induction false} SplitAtFirstSeparator(a: string, b: string, sep: char)
    requires sep !in a
    ensures Split(a + [sep] + b, sep) == [a] + Split(b, sep)
    decreases |a|
  {
    if |a| == 0 {
      assert a + [sep] + b == [sep] + b;
      assert ([sep] + b)[1..] == b;
    } else {
      SplitAtFirstSeparator(a[1..], b, sep);
      assert (a + [sep] + b)[1..] == a[1..] + [sep] + b;
      assert [a[0]] + a[1..] == a;
    }
  }

  /** Splitting what was joined gives back the pieces, when none holds the separator. */
  lemma {:induction false} SplitJoin(parts: seq<string>, sep: char)
    requires |parts| >= 1
    requires forall k :: 0 <= k < |parts| ==> sep !in parts[k]
    ensures Split(Join(parts, sep), sep) == parts
    decreases |parts|
  {
    if |parts| == 1 {
      SplitWithoutSeparator(parts[0], sep);
    } else {
      SplitJoin(parts[1..], sep);
      SplitAtFirstSeparator(parts[0], Join(parts[1..], sep), sep);
      assert parts == [parts[0]] + parts[1..];
    }
  }

  // ---------------------------------------------------------------------
  // extractParticipantId
  // ---------------------------------------------------------------------

  const ParticipantTag: string := "participant"

  predicate IsAsciiAlnum(c: char) {
    'a' <= c <= 'z' || 'A' <= c <= 'Z' || '0' <= c <= '9'
  }

  /** The test `/^[a-zA-Z0-9]+$/`. */
  predicate IsAlnumWord(s: string) {
    |s| > 0 && forall i :: 0 <= i < |s| ==> IsAsciiAlnum(s[i])
  }

  /** `extractParticipantId(qrData)`. Format 1, `participant:ID:EVENT_ID`
      with any further parts ignored, yields ID (possibly empty); format 2 is
      a bare alphanumeric id longer than ten characters; anything else is
      `null`. */
  function ExtractParticipantId(qrData: string): (r: Option<string>)
    ensures ':' in qrData ==>
      (r.Some? <==> Split(qrData, ':')[0] == ParticipantTag && |Split(qrData, ':')| >= 3)
    ensures ':' !in qrData ==> (r.Some? <==> |qrData| > 10 && IsAlnumWord(qrData))
    ensures r.Some? ==> ':' !in r.value
    ensures r.Some? ==> r.value == qrData || ParticipantTag + [':'] + r.value + [':'] <= qrData
  {
    if ':' in qrData && (var parts := Split(qrData, ':'); parts[0] == ParticipantTag && |parts| >= 3) then
      var parts := Split(qrData, ':');
      ParticipantPrefix(qrData, parts);
      Some(parts[1])
    else if |qrData| > 10 && IsAlnumWord(qrData) then
      Some(qrData)
    else
      None
  }

  /** When the first two pieces are known, the string begins with them and two separators. */
  lemma ParticipantPrefix(s: string, parts: seq<string>)
    requires parts == Split(s, ':') && |parts| >= 3
    ensures parts[0] + [':'] + parts[1] + [':'] <= s
  {
    JoinSplit(s, ':');
    assert Join(parts, ':') == parts[0] + [':'] + (parts[1] + [':'] + Join(parts[2..], ':'));
    assert s == (parts[0] + [':'] + parts[1] + [':']) + Join(parts[2..], ':');
  }

  /** Format 1 read back: a payload built from an id without colons and any
      event part yields that id. */
  lemma ParticipantFormatRoundTrip(id: string, event: string)
    requires ':' !in id
    ensures ExtractParticipantId(ParticipantTag + [':'] + id + [':'] + event) == Some(id)
  {
    var s := ParticipantTag + [':'] + id + [':'] + event;
    assert ':' !in ParticipantTag;
    SplitAtFirstSeparator(id, event, ':');
    assert s == ParticipantTag + [':'] + (id + [':'] + event);
    SplitAtFirstSeparator(ParticipantTag, id + [':'] + event, ':');
    assert s[|ParticipantTag|] == ':';
  }

  /** An empty id between the colons is returned as the empty string. */
  lemma EmptyIdExample()
    ensures ExtractParticipantId("participant::x") == Some("")
  {
    ParticipantFormatRoundTrip("", "x");
    assert ParticipantTag + [':'] + "" + [':'] + "x" == "participant::x";
  }

  /** The page's caller (`handleQRCodeDetected`): a missing or empty id means
      "keep scanning". */
  function ScannedParticipant(qrData: string): (r: Option<string>)
    ensures r.Some? ==> r.value != "" && ExtractParticipantId(qrData) == r
    ensures r.None? ==> ExtractParticipantId(qrData) in {None, Some("")}
  {
    match ExtractParticipantId(qrData)
    case Some(id) => if id == "" then None else Some(id)
    case None => None
  }

  // ---------------------------------------------------------------------
  // parseInt(s, 10) and Number.prototype.toString
  // ---------------------------------------------------------------------

  /** A JavaScript number as far as `parseInt` can produce it. */
  datatype JsNumber = NaN | Num(value: int)

  /** The characters `parseInt` skips at the start: white space and line terminators. */
  predicate IsJsWhitespace(c: char) {
    || c == '\t' || c == '\n' || c == '\U{B}' || c == '\U{C}' || c == '\r' || c == ' '
    || c == '\U{A0}' || c == '\U{1680}' || ('\U{2000}' <= c <= '\U{200A}')
    || c == '\U{2028}' || c == '\U{2029}' || c == '\U{202F}' || c == '\U{205F}'
    || c == '\U{3000}' || c == '\U{FEFF}'
  }

  predicate IsDigit(c: char) {
    '0' <= c <= '9'
  }

  predicate AllDigits(s: string) {
    forall i :: 0 <= i < |s| ==> IsDigit(s[i])
  }

  /** The input with its leading white space removed. */
  function TrimStart(s: string): (t: string)
    ensures |t| <= |s| && t == s[|s| - |t|..]
    ensures forall i :: 0 <= i < |s| - |t| ==> IsJsWhitespace(s[i])
    ensures t == [] || !IsJsWhitespace(t[0])
    decreases |s|
  {
    if |s| > 0 && IsJsWhitespace(s[0]) then TrimStart(s[1..]) else s
  }

  /** The longest prefix made of decimal digits. */
  function DigitPrefix(s: string): (d: string)
    ensures d <= s && AllDigits(d)
    ensures |d| == |s| || !IsDigit(s[|d|])
    decreases |s|
  {
    if |s| > 0 && IsDigit(s[0]) then [s[0]] + DigitPrefix(s[1..]) else []
  }

  /** The value of a digit string, most significant digit first. */
  function DigitsValue(ds: string): nat
    requires AllDigits(ds)
    decreases |ds|
  {
    if |ds| == 0 then 0 else DigitsValue(ds[..|ds| - 1]) * 10 + (ds[|ds| - 1] as int - '0' as int)
  }

  /** `parseInt(s, 10)`: skip white space, take an optional sign, then the
      longest run of digits; no digits at all is NaN. */
  function ParseInt(s: string): JsNumber {
    var t := TrimStart(s);
    var negative := |t| > 0 && t[0] == '-';
    var unsigned := if |t| > 0 && (t[0] == '+' || t[0] == '-') then t[1..] else t;
    var digits := DigitPrefix(unsigned);
    if digits == [] then NaN
    else
      var magnitude: int := DigitsValue(digits);
      Num(if negative then -magnitude else magnitude)
  }

  function DigitChar(d: nat): char
    requires d < 10
  {
    ('0' as int + d) as char
  }

  /** `n.toString()` for a non-negative integer: its decimal digits. */
  function NatToString(n: nat): string
    decreases n
  {
    if n < 10 then [DigitChar(n)] else NatToString(n / 10) + [DigitChar(n % 10)]
  }

  /** The decimal string is canonical: digits only, no leading zero, and it
      denotes the number it was made from. */
  lemma {:induction false} NatToStringDigits(n: nat)
    ensures |NatToString(n)| >= 1 && AllDigits(NatToString(n))
    ensures DigitsValue(NatToString(n)) == n
    ensures n > 0 ==> NatToString(n)[0] != '0'
    decreases n
  {
    if n >= 10 {
      NatToStringDigits(n / 10);
      var s := NatToString(n);
      assert s[..|s| - 1] == NatToString(n / 10);
    }
  }

  /** A digit string is its own digit prefix. */
  lemma {:induction false} DigitPrefixOfDigits(s: string)
    requires AllDigits(s)
    ensures DigitPrefix(s) == s
    decreases |s|
  {
    if |s| > 0 {
      DigitPrefixOfDigits(s[1..]);
      assert [s[0]] + s[1..] == s;
    }
  }

  /** `parseInt` reads back what `toString` wrote. */
  lemma ParseIntNatToString(n: nat)
    ensures ParseInt(NatToString(n)) == Num(n)
  {
    var s := NatToString(n);
    NatToStringDigits(n);
    assert IsDigit(s[0]) && !IsJsWhitespace(s[0]);
    assert TrimStart(s) == s;
    assert s[0] != '+' && s[0] != '-';
    DigitPrefixOfDigits(s);
    assert DigitPrefix(s) == s && s != [];
  }

  // ---------------------------------------------------------------------
  // The custom day and the quick-select days
  // ---------------------------------------------------------------------

  /** `maxDay`. */
  const MAX_DAY: int := 10
  const QUICK_SELECT_LIMIT: int := 15

  /** The "Set Day" button's click handler: the day is accepted when
      `parseInt(customDay, 10) > 0` and the selected day becomes that number
      written in decimal; otherwise the page warns and selects nothing. */
  function AcceptCustomDay(customDay: string): (selected: Option<string>)
    ensures selected.Some? <==> ParseInt(customDay).Num? && ParseInt(customDay).value > 0
    ensures selected.Some? ==> ParseInt(selected.value) == ParseInt(customDay)
    ensures selected.Some? ==> AllDigits(selected.value) && |selected.value| >= 1 && selected.value[0] != '0'
  {
    match ParseInt(customDay)
    case Num(day) =>
      if day > 0 then
        ParseIntNatToString(day);
        NatToStringDigits(day);
        Some(NatToString(day))
      else None
    case NaN => None
  }

  /** The input's Enter-key handler: the same rule, guarded by a non-empty input. */
  function AcceptCustomDayOnEnter(key: string, customDay: string): Option<string> {
    if key == "Enter" && customDay != "" then AcceptCustomDay(customDay) else None
  }

  /** `disabled={!customDay || parseInt(customDay, 10) < 1}`; NaN < 1 is false. */
  predicate SetDayDisabled(customDay: string) {
    customDay == "" || (ParseInt(customDay).Num? && ParseInt(customDay).value < 1)
  }

  /** Enter and the button select the same day. */
  lemma EnterMatchesButton(customDay: string)
    ensures AcceptCustomDayOnEnter("Enter", customDay) == AcceptCustomDay(customDay)
  {
    if customDay == "" {
      assert TrimStart(customDay) == [];
      assert DigitPrefix([]) == [];
      assert ParseInt(customDay) == NaN;
    }
  }

  /** The enabled button refuses a day (and shows its warning) exactly when
      the input is not a number at all. */
  lemma EnabledButRejected(customDay: string)
    ensures (!SetDayDisabled(customDay) && AcceptCustomDay(customDay).None?)
        <==> customDay != "" && ParseInt(customDay).NaN?
  {
  }

  /** Accepting is idempotent: the selected day, typed in again, selects itself. */
  lemma AcceptIdempotent(customDay: string)
    requires AcceptCustomDay(customDay).Some?
    ensures AcceptCustomDay(AcceptCustomDay(customDay).value) == AcceptCustomDay(customDay)
  {
    var day := ParseInt(customDay).value;
    ParseIntNatToString(day);
  }

  /** Leading zeros are dropped: "007" selects day "7". */
  lemma LeadingZerosDropped()
    ensures AcceptCustomDay("007") == Some("7")
  {
    var s := "007";
    assert IsDigit(s[0]) && !IsJsWhitespace(s[0]);
    assert TrimStart(s) == s;
    DigitPrefixOfDigits(s);
    assert DigitsValue(s[..1]) == 0;
    assert DigitsValue(s[..2]) == 0 by { assert s[..2][..1] == s[..1]; }
    assert DigitsValue(s) == 7 by { assert s[..3][..2] == s[..2]; assert s[..3] == s; }
    assert ParseInt(s) == Num(7);
    assert NatToString(7) == "7";
  }

  /** `Array.from({ length: Math.min(maxDay, 15) }, (_, i) => i + 1)`; a
      negative length counts as zero. */
  function QuickSelectDays(maxDay: int): (days: seq<int>)
    ensures |days| == if maxDay < 0 then 0 else if maxDay < QUICK_SELECT_LIMIT then maxDay else QUICK_SELECT_LIMIT
    ensures forall d :: d in days <==> 1 <= d <= maxDay && d <= QUICK_SELECT_LIMIT
    ensures forall i, j :: 0 <= i < j < |days| ==> days[i] < days[j]
  {
    var n := if maxDay < QUICK_SELECT_LIMIT then maxDay else QUICK_SELECT_LIMIT;
    var len: nat := if n < 0 then 0 else n;
    var days := seq(len, i => i + 1);
    forall d | 1 <= d <= len
      ensures d in days
    {
      assert days[d - 1] == d;
    }
    days
  }

  /** With `maxDay = 10` the buttons are the days 1 to 10, and a button's
      day is also accepted as a custom day, selecting the same string. */
  lemma QuickSelectForMaxDay()
    ensures QuickSelectDays(MAX_DAY) == [1, 2, 3, 4, 5, 6, 7, 8, 9, 10]
    ensures forall d :: d in QuickSelectDays(MAX_DAY) ==> AcceptCustomDay(NatToString(d)) == Some(NatToString(d))
  {
    var days := QuickSelectDays(MAX_DAY);
    assert |days| == 10;
    forall d | d in days
      ensures AcceptCustomDay(NatToString(d)) == Some(NatToString(d))
    {
      ParseIntNatToString(d);
    }
  }
}
