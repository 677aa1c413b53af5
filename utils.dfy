/** The shared helpers of the tool handlers: property-ID normalisation and
    date-range validation (src/tools/utils.ts), together with the inline
    property-name expressions that the handler files repeat. */
module Utils {
  import opened Common

  /** A property ID as callers pass it: a JSON number or a string. Numbers
      are integers here. */
  datatype PropId = Num(n: int) | Str(s: string)

  const PropertiesPrefix: string := "properties/"

  /** The text a template literal `${id}` produces. */
  function Text(id: PropId): string {
    match id
    case Num(n) => Decimal(n)
    case Str(s) => s
  }

  /** normalizePropertyId: numbers get the prefix; strings get it unless
      they already carry it. */
  function NormalizePropertyId(id: PropId): (r: string)
    ensures StartsWith(r, PropertiesPrefix)
  {
    match id
    case Num(n) => PropertiesPrefix + Decimal(n)
    case Str(s) => if StartsWith(s, PropertiesPrefix) then s else PropertiesPrefix + s
  }

  /** The conditional expression that most handlers write out in place of
      calling normalizePropertyId, and that the getPropertyName helpers of
      the key-event and integration tools return. */
  function InlinePropertyName(id: PropId): (r: string)
    ensures r == NormalizePropertyId(id)
  {
    if id.Num? then PropertiesPrefix + Text(id)
    else if StartsWith(id.s, PropertiesPrefix) then id.s
    else PropertiesPrefix + Text(id)
  }

  /** The advanced-reporting handlers declare the ID a string and apply the
      prefix test to it directly; a number reaches `.startsWith`, which is
      not a function on numbers, and the TypeError is that handler's
      failure. */
  function StringPropertyName(id: PropId): (r: Result<string>)
    ensures r.Ok? <==> id.Str?
    ensures r.Ok? ==> r.value == NormalizePropertyId(id)
  {
    match id
    case Num(_) => Err("args.property_id.startsWith is not a function")
    case Str(s) => Ok(if StartsWith(s, PropertiesPrefix) then s else PropertiesPrefix + s)
  }

  // ---------------------------------------------------------------------
  // Properties of normalisation

  /** A number becomes the prefix and its decimal text; a string is kept
      when it already starts with the prefix and is prefixed otherwise, so
      normalisation only ever adds text in front of a string ID. */
  lemma NormalizeCases(id: PropId)
    ensures id.Num? ==> NormalizePropertyId(id) == PropertiesPrefix + Decimal(id.n)
    ensures id.Str? && StartsWith(id.s, PropertiesPrefix) ==> NormalizePropertyId(id) == id.s
    ensures id.Str? && !StartsWith(id.s, PropertiesPrefix) ==> NormalizePropertyId(id) == PropertiesPrefix + id.s
    ensures id.Str? ==> EndsWith(NormalizePropertyId(id), id.s)
  {
    if id.Str? && !StartsWith(id.s, PropertiesPrefix) {
      var r := PropertiesPrefix + id.s;
      assert r[|r| - |id.s|..] == id.s;
    }
  }

  /** Normalising an already normalised name changes nothing. */
  lemma NormalizeIdempotent(id: PropId)
    ensures NormalizePropertyId(Str(NormalizePropertyId(id))) == NormalizePropertyId(id)
  {
  }

  /** A number and its decimal text name the same property. */
  lemma NumberAndTextAgree(n: int)
    ensures NormalizePropertyId(Num(n)) == NormalizePropertyId(Str(Decimal(n)))
  {
    DecimalShape(n);
    assert Decimal(n)[0] != PropertiesPrefix[0];
  }

  /** 123456 and "properties/123456" both become "properties/123456". */
  lemma NumericAndPrefixedIdsAgree()
    ensures NormalizePropertyId(Num(123456)) == "properties/123456"
    ensures NormalizePropertyId(Str("properties/123456")) == "properties/123456"
  {
    Digits123456();
    assert Decimal(123456) == "123456";
    assert PropertiesPrefix + "123456" == "properties/123456";
  }

  lemma Digits123()
    ensures NatDigits(123) == "123"
  {
    assert NatDigits(1) == "1";
    assert NatDigits(12) == NatDigits(1) + [DigitChar(2)] == "12";
    assert NatDigits(123) == NatDigits(12) + [DigitChar(3)] == "123";
  }

  lemma Digits123456()
    ensures NatDigits(123456) == "123456"
  {
    Digits123();
    assert NatDigits(1234) == NatDigits(123) + [DigitChar(4)] == "1234";
    assert NatDigits(12345) == NatDigits(1234) + [DigitChar(5)] == "12345";
    assert NatDigits(123456) == NatDigits(12345) + [DigitChar(6)] == "123456";
  }

  // ---------------------------------------------------------------------
  // Child resource names

  /** The template `${parent}/${collection}/${id}` that every handler uses
      to name a resource inside a property (or inside a data stream). */
  function ResourceName(parent: string, collection: string, id: string): string {
    parent + "/" + collection + "/" + id
  }

  /** The text after the last '/', as a server reads a resource ID back
      from its name. */
  function LastSegment(s: string): string {
    if |s| == 0 || s[|s| - 1] == '/' then "" else LastSegment(s[..|s| - 1]) + [s[|s| - 1]]
  }

  /** A resource name lies under its parent and gives back the ID it was
      built from, when that ID contains no '/'. */
  lemma ResourceNameParts(parent: string, collection: string, id: string)
    requires '/' !in id
    ensures StartsWith(ResourceName(parent, collection, id), parent + "/" + collection + "/")
    ensures LastSegment(ResourceName(parent, collection, id)) == id
  {
    var prefix := parent + "/" + collection + "/";
    assert ResourceName(parent, collection, id) == prefix + id;
    assert (prefix + id)[..|prefix|] == prefix;
    LastSegmentAfterSlash(parent + "/" + collection, id);
  }

  lemma {:induction false} LastSegmentAfterSlash(head: string, id: string)
    requires '/' !in id
    ensures LastSegment(head + "/" + id) == id
    decreases |id|
  {
    var s := head + "/" + id;
    if |id| == 0 {
      assert s[|s| - 1] == '/';
    } else {
      var shorter := id[..|id| - 1];
      assert s[..|s| - 1] == head + "/" + shorter;
      assert s[|s| - 1] == id[|id| - 1];
      LastSegmentAfterSlash(head, shorter);
      assert shorter + [id[|id| - 1]] == id;
    }
  }

  // ---------------------------------------------------------------------
  // parseInt with no radix argument

  /** The characters that parseInt skips at the start (ECMAScript
      StrWhiteSpaceChar: WhiteSpace and LineTerminator). */
  predicate IsStrWhiteSpace(c: char) {
    c == ' ' || c == '\t' || c == '\n' || c == '\r'
    || c as int == 0x0B || c as int == 0x0C || c as int == 0xA0 || c as int == 0xFEFF
    || c as int == 0x1680 || (0x2000 <= c as int <= 0x200A) || c as int == 0x2028
    || c as int == 0x2029 || c as int == 0x202F || c as int == 0x205F || c as int == 0x3000
  }

  function TrimStart(s: string): (r: string)
    ensures |r| <= |s|
  {
    if |s| > 0 && IsStrWhiteSpace(s[0]) then TrimStart(s[1..]) else s
  }

  /** The value of a digit in bases up to 36; 36 for anything else. */
  function DigitValue(c: char): nat {
    if '0' <= c <= '9' then c as nat - '0' as nat
    else if 'a' <= c <= 'z' then c as nat - 'a' as nat + 10
    else if 'A' <= c <= 'Z' then c as nat - 'A' as nat + 10
    else 36
  }

  predicate IsRadixDigit(c: char, radix: nat) {
    DigitValue(c) < radix
  }

  /** The longest prefix made of digits of the radix. */
  function LeadingDigits(s: string, radix: nat): (r: string)
    ensures |r| <= |s| && r == s[..|r|]
    ensures forall i :: 0 <= i < |r| ==> IsRadixDigit(r[i], radix)
  {
    if |s| > 0 && IsRadixDigit(s[0], radix) then [s[0]] + LeadingDigits(s[1..], radix) else ""
  }

  /** The value of a run of digits, most significant first, in base 10 or
      16 (the only bases parseInt is used with here). */
  function DigitsValue(ds: string, hex: bool): nat
    requires forall i :: 0 <= i < |ds| ==> IsRadixDigit(ds[i], if hex then 16 else 10)
  {
    if |ds| == 0 then 0
    else
      var high := DigitsValue(ds[..|ds| - 1], hex);
      (if hex then high * 16 else high * 10) + DigitValue(ds[|ds| - 1])
  }

  /** parseInt(s): skip leading white space, take an optional sign, switch
      to base 16 after "0x" or "0X", then read the longest run of digits;
      no digits at all is NaN (None). A negative zero is 0 here, which
      compares the same way. */
  function ParseInt(s: string): Option<int> {
    ParseSigned(TrimStart(s))
  }

  /** parseInt after the leading white space. */
  function ParseSigned(t: string): Option<int> {
    if |t| > 0 && t[0] == '-' then
      match ParseUnsigned(t[1..])
      case None => None
      case Some(v) => Some(-v)
    else if |t| > 0 && t[0] == '+' then ParseUnsigned(t[1..])
    else ParseUnsigned(t)
  }

  /** parseInt after the sign: base 16 after "0x" or "0X", otherwise base
      10, then the longest run of digits of that base. */
  function ParseUnsigned(u: string): Option<int> {
    var hex := |u| >= 2 && u[0] == '0' && (u[1] == 'x' || u[1] == 'X');
    var radix := if hex then 16 else 10;
    var ds := LeadingDigits(if hex then u[2..] else u, radix);
    if |ds| == 0 then None else Some(DigitsValue(ds, hex))
  }

  // ---------------------------------------------------------------------
  // isValidDateRange

  const DaysAgoSuffix: string := "daysAgo"

  /** The regular expression /^\d{4}-\d{2}-\d{2}$/. */
  predicate DateShape(d: string) {
    |d| == 10 && d[4] == '-' && d[7] == '-'
    && forall i :: 0 <= i < 10 && i != 4 && i != 7 ==> IsDigit(d[i])
  }

  /** isValidDateRange. `calendarOk` stands for `!isNaN(new Date(d).getTime())`,
      the date parsing of the JavaScript runtime. */
  function IsValidDateRange(date: string, calendarOk: string -> bool): bool {
    if date == "today" || date == "yesterday" then true
    else if EndsWith(date, DaysAgoSuffix) then
      match ParseInt(ReplaceFirst(date, DaysAgoSuffix, ""))
      case None => false
      case Some(k) => k >= 0
    else if !DateShape(date) then false
    else calendarOk(date)
  }

  // ---------------------------------------------------------------------
  // Properties of parseInt and of the validator

  lemma {:induction false} DigitsValueOfNatDigits(m: nat)
    ensures forall i :: 0 <= i < |NatDigits(m)| ==> IsRadixDigit(NatDigits(m)[i], 10)
    ensures DigitsValue(NatDigits(m), false) == m
    decreases m
  {
    var ds := NatDigits(m);
    if m >= 10 {
      DigitsValueOfNatDigits(m / 10);
      assert ds[..|ds| - 1] == NatDigits(m / 10);
      assert ds[|ds| - 1] == DigitChar(m % 10);
    }
  }

  lemma {:induction false} LeadingDigitsAll(s: string, radix: nat)
    requires forall i :: 0 <= i < |s| ==> IsRadixDigit(s[i], radix)
    ensures LeadingDigits(s, radix) == s
    decreases |s|
  {
    if |s| > 0 {
      LeadingDigitsAll(s[1..], radix);
      assert [s[0]] + s[1..] == s;
    }
  }

  /** parseInt skips nothing in front of a digit or a minus sign. */
  lemma TrimStartKeeps(t: string)
    requires |t| > 0 && (DigitValue(t[0]) < 10 || t[0] == '-')
    ensures TrimStart(t) == t
  {
    assert !IsStrWhiteSpace(t[0]);
  }

  /** After the sign, a run of decimal digits reads as its value. */
  lemma ParseUnsignedDigits(u: string)
    requires |u| > 0 && forall i :: 0 <= i < |u| ==> IsRadixDigit(u[i], 10)
    ensures ParseUnsigned(u) == Some(DigitsValue(u, false))
  {
    assert DigitValue('x') == 33 && DigitValue('X') == 33;
    assert |u| >= 2 ==> DigitValue(u[1]) < 10;
    LeadingDigitsAll(u, 10);
  }

  /** parseInt of a run of decimal digits is their value ... */
  lemma ParseIntDigits(u: string)
    requires |u| > 0 && forall i :: 0 <= i < |u| ==> IsRadixDigit(u[i], 10)
    ensures ParseInt(u) == Some(DigitsValue(u, false))
  {
    TrimStartKeeps(u);
    assert ParseInt(u) == ParseSigned(u);
    assert DigitValue('-') == 36 && DigitValue('+') == 36;
    assert u[0] != '-' && u[0] != '+';
    assert ParseSigned(u) == ParseUnsigned(u);
    ParseUnsignedDigits(u);
  }

  /** A minus sign negates what follows it. */
  lemma ParseSignedMinus(u: string)
    ensures ParseUnsigned(u).None? ==> ParseSigned("-" + u).None?
    ensures ParseUnsigned(u).Some? ==> ParseSigned("-" + u) == Some(-ParseUnsigned(u).value)
  {
    assert ("-" + u)[0] == '-' && ("-" + u)[1..] == u;
  }

  /** A minus sign in front of unsigned text negates what it reads. */
  lemma ParseIntMinus(u: string, v: int)
    requires ParseUnsigned(u) == Some(v)
    ensures ParseInt("-" + u) == Some(-v)
  {
    var t := "-" + u;
    assert t[0] == '-';
    TrimStartKeeps(t);
    ParseSignedMinus(u);
  }

  /** parseInt reads back the decimal text of every integer. */
  lemma ParseIntDecimal(n: int)
    ensures ParseInt(Decimal(n)) == Some(n)
  {
    if n < 0 {
      ParseIntNegativeDecimal(-n);
      assert Decimal(n) == "-" + NatDigits(-n);
    } else {
      ParseIntNaturalDecimal(n);
    }
  }

  lemma ParseIntNaturalDecimal(m: nat)
    ensures ParseInt(NatDigits(m)) == Some(m)
  {
    DigitsValueOfNatDigits(m);
    ParseIntDigits(NatDigits(m));
  }

  lemma ParseIntNegativeDecimal(m: nat)
    ensures ParseInt("-" + NatDigits(m)) == Some(-(m as int))
  {
    var u := NatDigits(m);
    DigitsValueOfNatDigits(m);
    ParseUnsignedDigits(u);
    ParseIntMinus(u, m);
  }

  lemma DaysAgoSplit(n: int)
    ensures ReplaceFirst(Decimal(n) + DaysAgoSuffix, DaysAgoSuffix, "") == Decimal(n)
  {
    var d := Decimal(n);
    var s := d + DaysAgoSuffix;
    DecimalShape(n);
    assert OccursAt(s, DaysAgoSuffix, |d|);
    forall j | 0 <= j < |d|
      ensures !OccursAt(s, DaysAgoSuffix, j)
    {
      assert s[j] == d[j];
    }
    assert IndexOf(s, DaysAgoSuffix, 0) == Some(|d|);
    assert s[..|d|] == d;
  }

  /** "<n>daysAgo" is accepted exactly when n is not negative. */
  lemma DaysAgoRule(n: int, calendarOk: string -> bool)
    ensures IsValidDateRange(Decimal(n) + DaysAgoSuffix, calendarOk) <==> n >= 0
  {
    var s := Decimal(n) + DaysAgoSuffix;
    DaysAgoSplit(n);
    ParseIntDecimal(n);
    assert |s| >= 8;
    assert s != "today" && s != "yesterday";
    assert s[|s| - |DaysAgoSuffix|..] == DaysAgoSuffix;
  }

  /** "today" and "yesterday" are always accepted. */
  lemma RelativeDayNamesValid(calendarOk: string -> bool)
    ensures IsValidDateRange("today", calendarOk)
    ensures IsValidDateRange("yesterday", calendarOk)
  {
  }

  /** "7daysAgo" is accepted. */
  lemma SevenDaysAgoValid(calendarOk: string -> bool)
    ensures IsValidDateRange("7daysAgo", calendarOk)
  {
    SevenDaysAgoText();
    DaysAgoRule(7, calendarOk);
  }

  lemma SevenDaysAgoText()
    ensures Decimal(7) + DaysAgoSuffix == "7daysAgo"
  {
    assert DigitChar(7) == '7';
    assert Decimal(7) == "7";
  }

  /** "-1daysAgo" (a negative count) is rejected. */
  lemma NegativeDaysAgoInvalid(calendarOk: string -> bool)
    ensures !IsValidDateRange("-1daysAgo", calendarOk)
  {
    MinusOneDaysAgoText();
    DaysAgoRule(-1, calendarOk);
  }

  lemma MinusOneDaysAgoText()
    ensures Decimal(-1) + DaysAgoSuffix == "-1daysAgo"
  {
    assert DigitChar(1) == '1';
    assert Decimal(-1) == "-1";
  }

  /** "daysAgo" with no number in front parses as NaN and is rejected. */
  lemma BareDaysAgoInvalid(calendarOk: string -> bool)
    ensures !IsValidDateRange("daysAgo", calendarOk)
  {
    var e := "daysAgo";
    assert OccursAt(e, DaysAgoSuffix, 0);
    assert ReplaceFirst(e, DaysAgoSuffix, "") == "";
    assert e[|e| - |DaysAgoSuffix|..] == DaysAgoSuffix;
  }

  /** Any other string is accepted only in the YYYY-MM-DD shape, and then
      exactly when the runtime parses it as a date. */
  lemma CalendarDateRule(date: string, calendarOk: string -> bool)
    requires date != "today" && date != "yesterday" && !EndsWith(date, DaysAgoSuffix)
    ensures IsValidDateRange(date, calendarOk) <==> DateShape(date) && calendarOk(date)
  {
  }
}
