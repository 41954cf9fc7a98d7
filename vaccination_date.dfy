/** The `YYYY-MM-DD` codec of VaccinationDate (chaincode/vaccination_date.go).
    A date is a (year, month, day) triple of the proleptic Gregorian calendar;
    the clock part of Go's time.Time plays no role, since the layout has none. */
module VaccinationDates {
  import opened Wrappers

  datatype Ymd = Ymd(year: int, month: int, day: int)

  predicate IsLeap(year: int) {
    year % 4 == 0 && (year % 100 != 0 || year % 400 == 0)
  }

  function DaysIn(year: int, month: int): (n: int)
    requires 1 <= month <= 12
    ensures 28 <= n <= 31
    ensures n == 29 <==> month == 2 && IsLeap(year)
  {
    if month == 2 then (if IsLeap(year) then 29 else 28)
    else if month == 4 || month == 6 || month == 9 || month == 11 then 30
    else 31
  }

  predicate IsCalendarDate(d: Ymd) {
    1 <= d.month <= 12 && 1 <= d.day <= DaysIn(d.year, d.month)
  }

  /** A VaccinationDate: always a real calendar day, as a time.Time is. */
  type Date = d: Ymd | IsCalendarDate(d) witness Ymd(1, 1, 1)

  /** Go's zero time.Time, 0001-01-01, which UnmarshalJSON stores on error. */
  const ZeroDate: Date := Ymd(1, 1, 1)

  predicate IsDigit(c: char) { '0' <= c <= '9' }

  function DigitChar(n: nat): (c: char)
    requires n < 10
    ensures IsDigit(c) && DigitValue(c) == n
  {
    (48 + n) as char
  }

  function DigitValue(c: char): nat
    requires IsDigit(c)
  {
    c as int - 48
  }

  /** The decimal digits of `u`, most significant first, without leading zeros. */
  function Decimal(u: nat): (s: string)
    ensures |s| >= 1 && forall i | 0 <= i < |s| :: IsDigit(s[i])
  {
    if u < 10 then [DigitChar(u)] else Decimal(u / 10) + [DigitChar(u % 10)]
  }

  function ZeroPad(s: string, width: nat): (r: string)
    ensures |r| >= width && |r| >= |s|
    decreases width - |s|
  {
    if |s| >= width then s else ZeroPad(['0'] + s, width)
  }

  /** Go's time.appendInt for a non-negative value: two- and four-digit fast
      paths, otherwise the decimal digits padded with zeros to `width`. */
  function FormatUnsigned(u: nat, width: nat): string {
    if width == 2 && u < 100 then
      [DigitChar(u / 10), DigitChar(u % 10)]
    else if width == 4 && u < 10000 then
      [DigitChar(u / 1000), DigitChar(u / 100 % 10), DigitChar(u / 10 % 10), DigitChar(u % 10)]
    else
      ZeroPad(Decimal(u), width)
  }

  /** Go's time.appendInt: a minus sign for negative values, then the magnitude. */
  function AppendInt(x: int, width: nat): string {
    if x < 0 then ['-'] + FormatUnsigned(-x, width) else FormatUnsigned(x, width)
  }

  /** time.Format with layout "2006-01-02": for a four-digit year, exactly
      the shape the layout parses. */
  function FormatDate(d: Date): (s: string)
    ensures 0 <= d.year <= 9999 ==> HasDateShape(s)
  {
    AppendInt(d.year, 4) + ['-'] + AppendInt(d.month, 2) + ['-'] + AppendInt(d.day, 2)
  }

  /** VaccinationDate.MarshalJSON: the formatted date between double quotes; it
      never fails. Years 0 through 9999 give the 12 characters `"YYYY-MM-DD"`. */
  function MarshalDate(d: Date): (b: string)
    ensures |b| >= 2 && b[0] == '"' && b[|b| - 1] == '"'
    ensures 0 <= d.year <= 9999 ==> |b| == 12
    ensures 0 <= d.year <= 9999 ==> forall i | 1 <= i < 11 :: b[i] != '"'
  {
    ['"'] + FormatDate(d) + ['"']
  }

  /** strings.TrimLeft(s, cutset): drops every leading character in the cut set. */
  function TrimLeft(s: string, cutset: set<char>): (r: string)
    ensures |r| <= |s| && r == s[|s| - |r|..]
    ensures forall i | 0 <= i < |s| - |r| :: s[i] in cutset
    ensures r == [] || r[0] !in cutset
  {
    if |s| > 0 && s[0] in cutset then TrimLeft(s[1..], cutset) else s
  }

  /** strings.TrimRight(s, cutset): drops every trailing character in the cut set. */
  function TrimRight(s: string, cutset: set<char>): (r: string)
    ensures |r| <= |s| && r == s[..|r|]
    ensures forall i | |r| <= i < |s| :: s[i] in cutset
    ensures r == [] || r[|r| - 1] !in cutset
  {
    if |s| > 0 && s[|s| - 1] in cutset then TrimRight(s[..|s| - 1], cutset) else s
  }

  /** strings.Trim(s, cutset). */
  function Trim(s: string, cutset: set<char>): string {
    TrimRight(TrimLeft(s, cutset), cutset)
  }

  const Quote: set<char> := {'"'}

  /** The white space JSON allows around a value. */
  const JsonSpace: set<char> := {' ', '\t', '\n', '\r'}

  /** The shape time.Parse demands for layout "2006-01-02": exactly four
      digits, a hyphen, two digits, a hyphen, two digits, nothing else. */
  predicate HasDateShape(s: string) {
    && |s| == 10
    && IsDigit(s[0]) && IsDigit(s[1]) && IsDigit(s[2]) && IsDigit(s[3])
    && s[4] == '-'
    && IsDigit(s[5]) && IsDigit(s[6])
    && s[7] == '-'
    && IsDigit(s[8]) && IsDigit(s[9])
  }

  function YearField(s: string): nat requires HasDateShape(s) {
    1000 * DigitValue(s[0]) + 100 * DigitValue(s[1]) + 10 * DigitValue(s[2]) + DigitValue(s[3])
  }

  function MonthField(s: string): nat requires HasDateShape(s) {
    10 * DigitValue(s[5]) + DigitValue(s[6])
  }

  function DayField(s: string): nat requires HasDateShape(s) {
    10 * DigitValue(s[8]) + DigitValue(s[9])
  }

  /** time.Parse("2006-01-02", s), restricted to its date part. It fails unless
      `s` has the date shape, the month is 1..12 and the day exists in that
      month; a successful parse is exactly what formatting the date gives back. */
  function ParseDate(s: string): (r: Result<Date>)
    ensures r.Success? <==>
      HasDateShape(s) && 1 <= MonthField(s) <= 12 && 1 <= DayField(s) <= DaysIn(YearField(s), MonthField(s))
    ensures r.Failure? ==> r.error == CodecError
    ensures r.Success? ==> 0 <= r.value.year <= 9999 && FormatDate(r.value) == s
  {
    if HasDateShape(s) then
      var year, month, day := YearField(s), MonthField(s), DayField(s);
      if 1 <= month <= 12 && 1 <= day <= DaysIn(year, month) then
        var d: Date := Ymd(year, month, day);
        FormatFieldsBack(s);
        Success(d)
      else
        Failure(CodecError)
    else
      Failure(CodecError)
  }

  /** Formatting the three fields read from a well-shaped string gives that string. */
  lemma FormatFieldsBack(s: string)
    requires HasDateShape(s) && 1 <= MonthField(s) <= 12 && 1 <= DayField(s) <= DaysIn(YearField(s), MonthField(s))
    ensures FormatDate(Ymd(YearField(s), MonthField(s), DayField(s))) == s
  {
    FourDigitsBack(s[..4]);
    TwoDigitsBack(s[5..7]);
    TwoDigitsBack(s[8..]);
    assert s == s[..4] + ['-'] + s[5..7] + ['-'] + s[8..];
  }

  lemma FourDigitsBack(s: string)
    requires |s| == 4 && IsDigit(s[0]) && IsDigit(s[1]) && IsDigit(s[2]) && IsDigit(s[3])
    ensures AppendInt(1000 * DigitValue(s[0]) + 100 * DigitValue(s[1]) + 10 * DigitValue(s[2]) + DigitValue(s[3]), 4) == s
  {
    var a, b, c, e := DigitValue(s[0]), DigitValue(s[1]), DigitValue(s[2]), DigitValue(s[3]);
    var y := 1000 * a + 100 * b + 10 * c + e;
    DigitsOf(y, a, b, c, e);
    assert DigitChar(a) == s[0] && DigitChar(b) == s[1] && DigitChar(c) == s[2] && DigitChar(e) == s[3];
  }

  /** The quotient-and-remainder reading of a four-digit value, one digit at a time. */
  lemma DigitsOf(y: nat, a: nat, b: nat, c: nat, e: nat)
    requires a < 10 && b < 10 && c < 10 && e < 10
    requires y == 1000 * a + 100 * b + 10 * c + e
    ensures y / 1000 == a && y / 100 % 10 == b && y / 10 % 10 == c && y % 10 == e
  {
    var q1 := 100 * a + 10 * b + c;
    assert y == 10 * q1 + e;
    assert y / 10 == q1 && y % 10 == e;
    var q2 := 10 * a + b;
    assert q1 == 10 * q2 + c;
    assert q1 / 10 == q2 && q1 % 10 == c;
    assert y == 100 * q2 + (10 * c + e);
    assert y / 100 == q2;
    assert q2 / 10 == a && q2 % 10 == b;
    assert y == 1000 * a + (100 * b + 10 * c + e);
  }

  lemma TwoDigitsBack(s: string)
    requires |s| == 2 && IsDigit(s[0]) && IsDigit(s[1])
    ensures AppendInt(10 * DigitValue(s[0]) + DigitValue(s[1]), 2) == s
  {
    var a, b := DigitValue(s[0]), DigitValue(s[1]);
    assert (10 * a + b) / 10 == a;
    assert DigitChar(a) == s[0] && DigitChar(b) == s[1];
  }

  /** The digits AppendInt writes for a four-digit value read back as that value. */
  lemma FourDigitsRead(y: nat)
    requires y < 10000
    ensures var s := AppendInt(y, 4);
      |s| == 4 && IsDigit(s[0]) && IsDigit(s[1]) && IsDigit(s[2]) && IsDigit(s[3]) &&
      1000 * DigitValue(s[0]) + 100 * DigitValue(s[1]) + 10 * DigitValue(s[2]) + DigitValue(s[3]) == y
  {
    var q1, e := y / 10, y % 10;
    assert y == 10 * q1 + e;
    var q2, c := q1 / 10, q1 % 10;
    assert q1 == 10 * q2 + c;
    var a, b := q2 / 10, q2 % 10;
    assert q2 == 10 * a + b;
    assert y == 1000 * a + 100 * b + 10 * c + e;
    DigitsOf(y, a, b, c, e);
    var s := AppendInt(y, 4);
    assert s == [DigitChar(a), DigitChar(b), DigitChar(c), DigitChar(e)];
  }

  lemma TwoDigitsRead(n: nat)
    requires n < 100
    ensures var s := AppendInt(n, 2);
      |s| == 2 && IsDigit(s[0]) && IsDigit(s[1]) && 10 * DigitValue(s[0]) + DigitValue(s[1]) == n
  {
  }

  /** VaccinationDate.UnmarshalJSON: trim every leading and trailing double
      quote, then parse; so quoted and bare dates are both accepted. */
  function UnmarshalDate(b: string): (r: Result<Date>)
    ensures r.Failure? ==> r.error == CodecError
    ensures r.Success? ==> 0 <= r.value.year <= 9999 && FormatDate(r.value) == Trim(b, Quote)
  {
    ParseDate(Trim(b, Quote))
  }

  /** The value UnmarshalJSON leaves in its receiver: the parsed date, or Go's
      zero time when parsing failed. */
  function ReceiverAfterUnmarshal(b: string): (d: Date)
    ensures UnmarshalDate(b).Success? ==> d == UnmarshalDate(b).value
    ensures UnmarshalDate(b).Failure? ==> d == ZeroDate
    ensures d == ZeroDate || FormatDate(d) == Trim(b, Quote)
  {
    match UnmarshalDate(b)
    case Success(parsed) => parsed
    case Failure(_) => ZeroDate
  }

  /** Formatting a date with a four-digit year and parsing it back is the identity. */
  lemma {:induction false} FormatParseRoundTrip(d: Date)
    requires 0 <= d.year <= 9999
    ensures ParseDate(FormatDate(d)) == Success(d)
  {
    var s := FormatDate(d);
    var ys, ms, ds := AppendInt(d.year, 4), AppendInt(d.month, 2), AppendInt(d.day, 2);
    FourDigitsRead(d.year);
    TwoDigitsRead(d.month);
    TwoDigitsRead(d.day);
    assert s[..4] == ys && s[5..7] == ms && s[8..] == ds;
    assert s[0] == ys[0] && s[1] == ys[1] && s[2] == ys[2] && s[3] == ys[3];
    assert s[5] == ms[0] && s[6] == ms[1] && s[8] == ds[0] && s[9] == ds[1];
    assert HasDateShape(s);
    assert YearField(s) == d.year && MonthField(s) == d.month && DayField(s) == d.day;
  }

  /** TrimLeft removes a prefix drawn from the cut set up to the first kept character. */
  lemma {:induction false} TrimLeftPrefix(pre: string, rest: string, cutset: set<char>)
    requires forall i | 0 <= i < |pre| :: pre[i] in cutset
    requires |rest| > 0 && rest[0] !in cutset
    ensures TrimLeft(pre + rest, cutset) == rest
  {
    if |pre| > 0 {
      assert (pre + rest)[1..] == pre[1..] + rest;
      TrimLeftPrefix(pre[1..], rest, cutset);
    } else {
      assert pre + rest == rest;
    }
  }

  /** TrimRight removes a suffix drawn from the cut set back to the last kept character. */
  lemma {:induction false} TrimRightSuffix(rest: string, post: string, cutset: set<char>)
    requires forall i | 0 <= i < |post| :: post[i] in cutset
    requires |rest| > 0 && rest[|rest| - 1] !in cutset
    ensures TrimRight(rest + post, cutset) == rest
  {
    if |post| > 0 {
      var w := rest + post;
      assert w[..|w| - 1] == rest + post[..|post| - 1];
      TrimRightSuffix(rest, post[..|post| - 1], cutset);
    } else {
      assert rest + post == rest;
    }
  }

  /** Trim gives back a body padded on both sides with characters of the cut set. */
  lemma TrimPadded(pre: string, body: string, post: string, cutset: set<char>)
    requires forall i | 0 <= i < |pre| :: pre[i] in cutset
    requires forall i | 0 <= i < |post| :: post[i] in cutset
    requires |body| > 0 && body[0] !in cutset && body[|body| - 1] !in cutset
    ensures Trim(pre + body + post, cutset) == body
  {
    assert pre + body + post == pre + (body + post);
    TrimLeftPrefix(pre, body + post, cutset);
    TrimRightSuffix(body, post, cutset);
  }

  /** Round trip of the JSON codec: UnmarshalJSON(MarshalJSON(d)) yields `d`
      for every date with a four-digit year. */
  lemma {:induction false} MarshalRoundTrip(d: Date)
    requires 0 <= d.year <= 9999
    ensures UnmarshalDate(MarshalDate(d)) == Success(d)
  {
    var f := FormatDate(d);
    FormatParseRoundTrip(d);
    assert IsDigit(f[0]) && IsDigit(f[9]);
    TrimPadded(['"'], f, ['"'], Quote);
  }

  /** Appending a cut character to a string that is not all cut characters survives TrimLeft. */
  lemma {:induction false} TrimLeftAppend(s: string, c: char, cutset: set<char>)
    requires TrimLeft(s, cutset) != []
    ensures TrimLeft(s + [c], cutset) == TrimLeft(s, cutset) + [c]
  {
    if |s| > 0 && s[0] in cutset {
      assert (s + [c])[1..] == s[1..] + [c];
      TrimLeftAppend(s[1..], c, cutset);
    }
  }

  /** A string made only of cut characters is trimmed to nothing from the left. */
  lemma {:induction false} TrimLeftAll(s: string, cutset: set<char>)
    requires forall i | 0 <= i < |s| :: s[i] in cutset
    ensures TrimLeft(s, cutset) == []
  {
    if |s| > 0 {
      TrimLeftAll(s[1..], cutset);
    }
  }

  /** Wrapping the input in one more pair of quotes never changes what
      UnmarshalJSON decodes: bare and quoted dates parse alike. */
  lemma QuotingIsIgnored(s: string)
    ensures UnmarshalDate(['"'] + s + ['"']) == UnmarshalDate(s)
  {
    OuterQuotesTrimmed(s);
  }

  /** Trimming quotes removes one more enclosing pair along with the rest. */
  lemma {:induction false} OuterQuotesTrimmed(s: string)
    ensures Trim(['"'] + s + ['"'], Quote) == Trim(s, Quote)
  {
    var w := ['"'] + s + ['"'];
    var sq := s + ['"'];
    assert w[0] in Quote && w[1..] == sq;
    var l := TrimLeft(s, Quote);
    if l == [] {
      forall i | 0 <= i < |sq| ensures sq[i] in Quote {
        if i < |s| { assert sq[i] == s[i]; }
      }
      TrimLeftAll(sq, Quote);
    } else {
      TrimLeftAppend(s, '"', Quote);
      var lq := l + ['"'];
      assert lq[|lq| - 1] in Quote && lq[..|lq| - 1] == l;
    }
  }

  /** json.Unmarshal([]byte(arg), &date), as IssueSlot calls it. The JSON
      decoder first rejects any argument that is not a JSON text, then hands
      UnmarshalJSON the value without its surrounding white space. The only
      JSON texts whose quote-trimmed form is a date are a date between double
      quotes, so exactly those are accepted. */
  function DecodeDateArgument(arg: string): (r: Result<Date>)
    ensures r.Failure? ==> r.error == CodecError
    ensures r.Success? ==> UnmarshalDate(Trim(arg, JsonSpace)) == r
    ensures r.Success? ==> 0 <= r.value.year <= 9999 && PaddedBy(arg, MarshalDate(r.value), JsonSpace)
  {
    var v := Trim(arg, JsonSpace);
    if |v| >= 2 && v[0] == '"' && v[|v| - 1] == '"' then
      var body := v[1..|v| - 1];
      var parsed := ParseDate(body);
      if parsed.Success? then
        QuotedDate(v, parsed.value);
        TrimIsPadding(arg, JsonSpace);
        parsed
      else parsed
    else
      Failure(CodecError)
  }

  /** Every character of `s` is in the cut set. */
  predicate AllIn(s: string, cutset: set<char>) {
    forall i | 0 <= i < |s| :: s[i] in cutset
  }

  /** `s` is `body` with characters of the cut set on either side. */
  ghost predicate PaddedBy(s: string, body: string, cutset: set<char>) {
    exists pre: string, post: string | AllIn(pre, cutset) && AllIn(post, cutset) :: s == pre + body + post
  }

  /** What Trim keeps is the input less padding drawn from the cut set. */
  lemma TrimIsPadding(s: string, cutset: set<char>)
    ensures PaddedBy(s, Trim(s, cutset), cutset)
  {
    var pre, post := TrimSplit(s, cutset);
  }

  /** The padding Trim drops on each side. */
  lemma TrimSplit(s: string, cutset: set<char>) returns (pre: string, post: string)
    ensures AllIn(pre, cutset) && AllIn(post, cutset)
    ensures s == pre + Trim(s, cutset) + post
  {
    var l := TrimLeft(s, cutset);
    pre := TrimLeftDropped(s, cutset);
    post := TrimRightDropped(l, cutset);
    assert s == pre + (TrimRight(l, cutset) + post);
  }

  /** The characters TrimLeft drops, all from the cut set. */
  lemma TrimLeftDropped(s: string, cutset: set<char>) returns (pre: string)
    ensures AllIn(pre, cutset) && s == pre + TrimLeft(s, cutset)
  {
    var l := TrimLeft(s, cutset);
    pre := s[..|s| - |l|];
    assert s == pre + s[|s| - |l|..];
    forall i | 0 <= i < |pre| ensures pre[i] in cutset {
      assert pre[i] == s[i];
    }
  }

  /** The characters TrimRight drops, all from the cut set. */
  lemma TrimRightDropped(s: string, cutset: set<char>) returns (post: string)
    ensures AllIn(post, cutset) && s == TrimRight(s, cutset) + post
  {
    var r := TrimRight(s, cutset);
    post := s[|r|..];
    assert s == s[..|r|] + post;
    forall i | 0 <= i < |post| ensures post[i] in cutset {
      assert post[i] == s[|r| + i];
    }
  }

  /** IssueSlot's date argument is accepted as `d` exactly when it is the
      marshalled form of `d`, a four-digit-year date, with JSON white space
      around it. */
  lemma DateArgumentAccepted(arg: string, d: Date)
    ensures DecodeDateArgument(arg) == Success(d) <==>
      0 <= d.year <= 9999 && PaddedBy(arg, MarshalDate(d), JsonSpace)
  {
    if 0 <= d.year <= 9999 && PaddedBy(arg, MarshalDate(d), JsonSpace) {
      var pre: string, post: string :|
        AllIn(pre, JsonSpace) && AllIn(post, JsonSpace) && arg == pre + MarshalDate(d) + post;
      DateArgumentRoundTrip(d, pre, post);
    }
  }

  /** A quoted string whose body parses as `d` is `d` marshalled, and
      UnmarshalJSON decodes it to `d`. */
  lemma QuotedDate(v: string, d: Date)
    requires |v| >= 2 && v[0] == '"' && v[|v| - 1] == '"' && ParseDate(v[1..|v| - 1]) == Success(d)
    ensures v == MarshalDate(d) && UnmarshalDate(v) == Success(d) && 0 <= d.year <= 9999
  {
    var body := v[1..|v| - 1];
    assert v == ['"'] + body + ['"'];
    QuotedBodyTrims(v, body);
  }

  /** Trimming the quotes off a quoted date leaves the date. */
  lemma QuotedBodyTrims(v: string, body: string)
    requires |v| >= 2 && v[0] == '"' && v[|v| - 1] == '"' && body == v[1..|v| - 1]
    requires HasDateShape(body)
    ensures Trim(v, Quote) == body
  {
    assert v == ['"'] + body + ['"'];
    TrimPadded(['"'], body, ['"'], Quote);
  }

  /** What MarshalJSON writes, with any JSON white space around it, is
      accepted as IssueSlot's date argument and decodes to the same date. */
  lemma DateArgumentRoundTrip(d: Date, pre: string, post: string)
    requires 0 <= d.year <= 9999
    requires forall i | 0 <= i < |pre| :: pre[i] in JsonSpace
    requires forall i | 0 <= i < |post| :: post[i] in JsonSpace
    ensures DecodeDateArgument(pre + MarshalDate(d) + post) == Success(d)
  {
    var m := MarshalDate(d);
    TrimPadded(pre, m, post, JsonSpace);
    assert m[1..|m| - 1] == FormatDate(d);
    FormatParseRoundTrip(d);
  }

  /** A bare date, which UnmarshalJSON alone would accept, is not a JSON text
      and is refused as IssueSlot's argument. */
  lemma BareDateArgumentRefused(d: Date)
    requires 0 <= d.year <= 9999
    ensures UnmarshalDate(FormatDate(d)) == Success(d)
    ensures DecodeDateArgument(FormatDate(d)) == Failure(CodecError)
  {
    var f := FormatDate(d);
    FormatParseRoundTrip(d);
    assert HasDateShape(f);
    TrimUnpadded(f, Quote);
    TrimUnpadded(f, JsonSpace);
    assert Trim(f, JsonSpace)[0] != '"';
  }

  /** A string whose ends are outside the cut set is its own trim. */
  lemma TrimUnpadded(s: string, cutset: set<char>)
    requires |s| > 0 && s[0] !in cutset && s[|s| - 1] !in cutset
    ensures Trim(s, cutset) == s
  {
    TrimPadded([], s, [], cutset);
    assert [] + s + [] == s;
  }

  /** Malformed input is rejected with an error and the receiver is reset to
      the zero date. */
  lemma MalformedYieldsZeroDate(b: string)
    requires !HasDateShape(Trim(b, Quote))
    ensures UnmarshalDate(b) == Failure(CodecError)
    ensures ReceiverAfterUnmarshal(b) == ZeroDate
  {
  }
}
