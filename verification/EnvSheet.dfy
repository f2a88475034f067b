/** The environment sheet's threshold fields as edited text. */
module EnvSheet {
  import opened Protocol

  datatype Error = NotANumber | OffRefused | BlankInside(id: string)

  datatype Result<+T> = Ok(value: T) | Err(error: Error)

  // ----- white space -----

  /** The Unicode White_Space property. */
  predicate IsWhitespace(c: char) {
    var n := c as int;
    9 <= n <= 13 || n == 0x20 || n == 0x85 || n == 0xA0 || n == 0x1680 || 0x2000 <= n <= 0x200A
    || n == 0x2028 || n == 0x2029 || n == 0x202F || n == 0x205F || n == 0x3000
  }

  function TrimStart(s: string): string {
    if s != [] && IsWhitespace(s[0]) then TrimStart(s[1..]) else s
  }

  function TrimEnd(s: string): string {
    if s != [] && IsWhitespace(s[|s| - 1]) then TrimEnd(s[..|s| - 1]) else s
  }

  function Trim(s: string): string { TrimEnd(TrimStart(s)) }

  lemma TrimUntouched(s: string)
    requires s != [] ==> !IsWhitespace(s[0]) && !IsWhitespace(s[|s| - 1])
    ensures Trim(s) == s
  {}

  // ----- decimal numbers -----

  const U64_MAX := 0xFFFF_FFFF_FFFF_FFFF

  function Digit(d: nat): (c: char)
    requires d < 10
    ensures '0' <= c <= '9' && DigitValue(c) == d
  {
    '0' + d as char
  }

  function DigitValue(c: char): nat
    requires '0' <= c <= '9'
  {
    (c - '0') as nat
  }

  predicate AllDigits(s: string) { forall i :: 0 <= i < |s| ==> '0' <= s[i] <= '9' }

  function Decimal(n: nat): (s: string)
    ensures s != [] && AllDigits(s)
  {
    if n < 10 then [Digit(n)] else Decimal(n / 10) + [Digit(n % 10)]
  }

  function Valued(s: string): nat
    requires AllDigits(s)
  {
    if s == [] then 0 else 10 * Valued(s[..|s| - 1]) + DigitValue(s[|s| - 1])
  }

  lemma {:induction false} DecimalIsValued(n: nat)
    ensures Valued(Decimal(n)) == n
  {
    if n >= 10 {
      DecimalIsValued(n / 10);
      var front := Decimal(n / 10);
      assert Decimal(n)[..|front|] == front && Decimal(n)[|front|] == Digit(n % 10);
    } else {
      assert Decimal(n)[..0] == [];
    }
  }

  /** An unsigned 64-bit number: an optional plus sign and at least one digit, without overflow. */
  function ParseU64(s: string): Result<nat> {
    var digits := if s != [] && s[0] == '+' then s[1..] else s;
    if digits == [] || !AllDigits(digits) then Err(NotANumber)
    else if Valued(digits) > U64_MAX then Err(NotANumber)
    else Ok(Valued(digits))
  }

  lemma ParseU64Decimal(n: nat)
    requires n <= U64_MAX
    ensures ParseU64(Decimal(n)) == Ok(n)
  {
    DecimalIsValued(n);
  }

  /** A number too large for 64 bits is refused; a leading plus sign is not. */
  lemma ParseU64Edges(n: nat)
    ensures n > U64_MAX ==> ParseU64(Decimal(n)) == Err(NotANumber)
    ensures n <= U64_MAX ==> ParseU64(['+'] + Decimal(n)) == Ok(n)
  {
    DecimalIsValued(n);
    assert (['+'] + Decimal(n))[1..] == Decimal(n);
  }

  predicate Blank(s: string) { forall i :: 0 <= i < |s| ==> IsWhitespace(s[i]) }

  lemma {:induction false} TrimStartBlank(a: string, s: string)
    requires Blank(a) && s != [] && !IsWhitespace(s[0])
    ensures TrimStart(a + s) == s
  {
    if a == [] {
      assert a + s == s;
    } else {
      TrimStartBlank(a[1..], s);
      assert (a + s)[1..] == a[1..] + s;
    }
  }

  lemma {:induction false} TrimEndBlank(s: string, b: string)
    requires Blank(b) && s != [] && !IsWhitespace(s[|s| - 1])
    ensures TrimEnd(s + b) == s
  {
    if b == [] {
      assert s + b == s;
    } else {
      TrimEndBlank(s, b[..|b| - 1]);
      assert (s + b)[..|s + b| - 1] == s + b[..|b| - 1];
    }
  }

  /** White space around a text that does not begin or end with any is dropped. */
  lemma TrimDropsBlanks(a: string, s: string, b: string)
    requires Blank(a) && Blank(b) && s != [] && !IsWhitespace(s[0]) && !IsWhitespace(s[|s| - 1])
    ensures Trim(a + s + b) == s
  {
    assert a + s + b == a + (s + b);
    TrimStartBlank(a, s + b);
    TrimEndBlank(s, b);
  }

  // ----- threshold fields -----

  function LowerAscii(c: char): char { if 'A' <= c <= 'Z' then c - 'A' + 'a' else c }

  predicate IsOff(s: string) {
    |s| == 3 && LowerAscii(s[0]) == 'o' && LowerAscii(s[1]) == 'f' && LowerAscii(s[2]) == 'f'
  }

  /** A count threshold; the largest value means off and shows as nothing. */
  function FormatCount(v: nat): string { if v == U64_MAX then "" else Decimal(v) }

  function ParseCount(text: string, default: nat, off: Option<nat>): Result<nat> {
    var trimmed := Trim(text);
    if trimmed == [] then Ok(default)
    else if IsOff(trimmed) then (if off.Some? then Ok(off.value) else Err(OffRefused))
    else ParseU64(trimmed)
  }

  /** A ceiling in milliseconds; `None` shows as nothing and the largest value as off. */
  function FormatCeiling(v: Option<nat>): string {
    match v
    case None => ""
    case Some(ms) => if ms == U64_MAX then "off" else Decimal(ms)
  }

  function ParseCeiling(text: string, default: Option<nat>, off: Option<nat>): Result<Option<nat>> {
    var trimmed := Trim(text);
    if trimmed == [] then Ok(default)
    else if IsOff(trimmed) then Ok(off)
    else
      match ParseU64(trimmed)
      case Ok(ms) => Ok(Some(ms))
      case Err(e) => Err(e)
  }

  lemma DecimalIsPlain(n: nat)
    ensures Trim(Decimal(n)) == Decimal(n) && !IsOff(Decimal(n))
  {
    TrimUntouched(Decimal(n));
  }

  /** A count survives the sheet exactly when it is not the off value or off is also the default. */
  lemma CountRoundTripIff(v: nat, default: nat, off: Option<nat>)
    requires v <= U64_MAX
    ensures ParseCount(FormatCount(v), default, off) == Ok(v) <==> v != U64_MAX || default == U64_MAX
  {
    if v != U64_MAX {
      DecimalIsPlain(v);
      ParseU64Decimal(v);
    }
  }

  lemma CeilingRoundTripIff(v: Option<nat>, default: Option<nat>, off: Option<nat>)
    requires v.Some? ==> v.value <= U64_MAX
    ensures
      ParseCeiling(FormatCeiling(v), default, off) == Ok(v)
      <==> (v == None ==> default == None) && (v == Some(U64_MAX) ==> off == Some(U64_MAX))
  {
    if v.Some? && v.value != U64_MAX {
      DecimalIsPlain(v.value);
      ParseU64Decimal(v.value);
    } else if v.Some? {
      TrimUntouched("off");
    }
  }

  /**
   * In a field, blanks around the text do not matter: a number is read as it is, and off in any letter case is read
   * as the field's off value, which a count field without one refuses.
   */
  lemma FieldsReadThroughBlanks(a: string, b: string, n: nat, word: string, default: nat, off: Option<nat>)
    requires Blank(a) && Blank(b) && n <= U64_MAX && word in {"off", "Off", "OFF", "oFf", "ofF", "OFf", "OfF", "oFF"}
    ensures ParseCount(a + Decimal(n) + b, default, off) == Ok(n)
    ensures ParseCount(a + word + b, default, off) == if off.Some? then Ok(off.value) else Err(OffRefused)
    ensures ParseCeiling(a + Decimal(n) + b, Some(default), off) == Ok(Some(n))
    ensures ParseCeiling(a + word + b, Some(default), off) == Ok(off)
  {
    DecimalIsPlain(n);
    ParseU64Decimal(n);
    TrimDropsBlanks(a, Decimal(n), b);
    TrimDropsBlanks(a, word, b);
  }

  /** Default and off value of one count field, and of one ceiling field. */
  datatype CountField = CountField(default: nat, off: Option<nat>)
  datatype CeilingField = CeilingField(default: Option<nat>, off: Option<nat>)

  const AVAILABILITY_RTT_DEFAULT_MS := 5000

  const OPT_IN := CountField(U64_MAX, Some(U64_MAX))
  const VOTES_AT_ONE := CountField(1, None)

  /**
   * Jobs overdue, jobs errors, syslog, outbound, flow, email, upgrades, update sets, scan, actions, MIDs,
   * ECC errors, ECC queue, drift.
   */
  const COUNT_FIELDS: seq<CountField> :=
    [VOTES_AT_ONE, OPT_IN, VOTES_AT_ONE, VOTES_AT_ONE, VOTES_AT_ONE, OPT_IN, VOTES_AT_ONE, OPT_IN,
     VOTES_AT_ONE, VOTES_AT_ONE, VOTES_AT_ONE, VOTES_AT_ONE, CountField(100, None), VOTES_AT_ONE]

  /** Availability round trip, transaction average, probe round trip. */
  const CEILING_FIELDS: seq<CeilingField> :=
    [CeilingField(Some(AVAILABILITY_RTT_DEFAULT_MS), Some(U64_MAX)), CeilingField(None, None), CeilingField(None, None)]

  /** The seventeen thresholds, in the order of the two tables. */
  datatype Thresholds = Thresholds(counts: seq<nat>, ceilings: seq<Option<nat>>)

  datatype Texts = Texts(counts: seq<string>, ceilings: seq<string>)

  predicate WellSized(t: Thresholds) {
    && |t.counts| == |COUNT_FIELDS| && |t.ceilings| == |CEILING_FIELDS|
    && (forall i :: 0 <= i < |t.counts| ==> t.counts[i] <= U64_MAX)
    && (forall i :: 0 <= i < |t.ceilings| && t.ceilings[i].Some? ==> t.ceilings[i].value <= U64_MAX)
  }

  function FormatThresholds(t: Thresholds): (texts: Texts)
    requires WellSized(t)
    ensures |texts.counts| == |COUNT_FIELDS| && |texts.ceilings| == |CEILING_FIELDS|
  {
    Texts(seq(|t.counts|, i requires 0 <= i < |t.counts| => FormatCount(t.counts[i])),
          seq(|t.ceilings|, i requires 0 <= i < |t.ceilings| => FormatCeiling(t.ceilings[i])))
  }

  function ReadCount(text: string, i: nat): Result<nat>
    requires i < |COUNT_FIELDS|
  {
    ParseCount(text, COUNT_FIELDS[i].default, COUNT_FIELDS[i].off)
  }

  function ReadCeiling(text: string, i: nat): Result<Option<nat>>
    requires i < |CEILING_FIELDS|
  {
    ParseCeiling(text, CEILING_FIELDS[i].default, CEILING_FIELDS[i].off)
  }

  /**
   * What an empty field and an off field mean: only the counts of job errors, emails and update sets may be off,
   * and of the ceilings only availability's has a number for it.
   */
  lemma FieldsAsPublished(i: nat, c: nat)
    requires i < 14 && c < 3
    ensures ReadCount("", i) == Ok(if i in {1, 5, 7} then U64_MAX else if i == 12 then 100 else 1)
    ensures ReadCount("off", i) == if i in {1, 5, 7} then Ok(U64_MAX) else Err(OffRefused)
    ensures ReadCeiling("", c) == Ok(if c == 0 then Some(5000) else None)
    ensures ReadCeiling("off", c) == Ok(if c == 0 then Some(U64_MAX) else None)
  {
    TrimUntouched("");
    TrimUntouched("off");
  }

  /** `error` is that of the first refused field: ceilings are read before counts. */
  ghost predicate FirstRefusal(texts: Texts, error: Error)
    requires |texts.counts| == |COUNT_FIELDS| && |texts.ceilings| == |CEILING_FIELDS|
  {
    || (exists i :: 0 <= i < |CEILING_FIELDS| && ReadCeiling(texts.ceilings[i], i) == Err(error)
          && forall j :: 0 <= j < i ==> ReadCeiling(texts.ceilings[j], j).Ok?)
    || (&& (forall j :: 0 <= j < |CEILING_FIELDS| ==> ReadCeiling(texts.ceilings[j], j).Ok?)
        && exists i :: 0 <= i < |COUNT_FIELDS| && ReadCount(texts.counts[i], i) == Err(error)
             && forall j :: 0 <= j < i ==> ReadCount(texts.counts[j], j).Ok?)
  }

  /** Reads the ceilings and then the counts; the first refused field refuses the sheet. */
  method ParseThresholds(texts: Texts) returns (r: Result<Thresholds>)
    requires |texts.counts| == |COUNT_FIELDS| && |texts.ceilings| == |CEILING_FIELDS|
    ensures
      r.Ok? ==>
        && |r.value.counts| == |COUNT_FIELDS| && |r.value.ceilings| == |CEILING_FIELDS|
        && (forall i :: 0 <= i < |COUNT_FIELDS| ==>
              ReadCount(texts.counts[i], i) == Ok(r.value.counts[i]))
        && (forall i :: 0 <= i < |CEILING_FIELDS| ==>
              ReadCeiling(texts.ceilings[i], i) == Ok(r.value.ceilings[i]))
    ensures r.Err? ==> FirstRefusal(texts, r.error)
  {
    hide ReadCount, ReadCeiling;
    var ceilings, counts := [], [];
    for i := 0 to |CEILING_FIELDS|
      invariant |ceilings| == i
      invariant forall j :: 0 <= j < i ==>
        ReadCeiling(texts.ceilings[j], j) == Ok(ceilings[j])
    {
      var field := ReadCeiling(texts.ceilings[i], i);
      if field.Err? { return Err(field.error); }
      ceilings := ceilings + [field.value];
    }
    for i := 0 to |COUNT_FIELDS|
      invariant |counts| == i
      invariant forall j :: 0 <= j < i ==>
        ReadCount(texts.counts[j], j) == Ok(counts[j])
    {
      var field := ReadCount(texts.counts[i], i);
      if field.Err? { return Err(field.error); }
      counts := counts + [field.value];
    }
    r := Ok(Thresholds(counts, ceilings));
  }

  /** What every field of a sheet must be for the sheet to give it back. */
  predicate Expressible(t: Thresholds)
    requires WellSized(t)
  {
    && (forall i :: 0 <= i < |t.counts| ==> (t.counts[i] == U64_MAX ==> i in {1, 5, 7}))
    && t.ceilings[0] != None && t.ceilings[1] != Some(U64_MAX) && t.ceilings[2] != Some(U64_MAX)
  }

  lemma CountFieldRoundTrip(v: nat, i: nat)
    requires i < |COUNT_FIELDS| && v <= U64_MAX
    ensures ReadCount(FormatCount(v), i).Ok?
    ensures ReadCount(FormatCount(v), i) == Ok(v) <==> (v == U64_MAX ==> i in {1, 5, 7})
  {
    CountRoundTripIff(v, COUNT_FIELDS[i].default, COUNT_FIELDS[i].off);
  }

  lemma CeilingFieldRoundTrip(v: Option<nat>, i: nat)
    requires i < |CEILING_FIELDS| && (v.Some? ==> v.value <= U64_MAX)
    ensures ReadCeiling(FormatCeiling(v), i).Ok?
    ensures ReadCeiling(FormatCeiling(v), i) == Ok(v) <==> if i == 0 then v != None else v != Some(U64_MAX)
  {
    CeilingRoundTripIff(v, CEILING_FIELDS[i].default, CEILING_FIELDS[i].off);
    CeilingIsRead(v, CEILING_FIELDS[i].default, CEILING_FIELDS[i].off);
  }

  /** Whether a reachable environment's round trip counts as degraded; a missing ceiling follows the default. */
  predicate AvailabilityDegrades(rtt: nat, ceiling: Option<nat>) {
    rtt > if ceiling.Some? then ceiling.value else AVAILABILITY_RTT_DEFAULT_MS
  }

  /** The availability ceiling may come back as another value, but never as one that judges a round trip differently. */
  lemma AvailabilityCeilingKeepsMeaning(ceiling: Option<nat>, rtt: nat)
    requires ceiling.Some? ==> ceiling.value <= U64_MAX
    ensures
      var read := ReadCeiling(FormatCeiling(ceiling), 0);
      read.Ok? && (AvailabilityDegrades(rtt, read.value) <==> AvailabilityDegrades(rtt, ceiling))
    ensures AvailabilityDegrades(rtt, None) <==> rtt > 5000
    ensures rtt <= U64_MAX ==> !AvailabilityDegrades(rtt, Some(U64_MAX))
  {
    CeilingFieldRoundTrip(ceiling, 0);
  }

  /**
   * Showing and reading back all seventeen thresholds gives the same thresholds exactly when only the opt-in
   * counts are off, the availability ceiling is set, and neither optional ceiling holds the off value.
   */
  method RoundTripThresholds(t: Thresholds) returns (r: Result<Thresholds>)
    requires WellSized(t)
    ensures r == Ok(t) <==> Expressible(t)
    ensures r.Ok?
  {
    hide ReadCount, ReadCeiling, FormatCount, FormatCeiling;
    var texts := FormatThresholds(t);
    forall i | 0 <= i < |COUNT_FIELDS|
      ensures ReadCount(texts.counts[i], i).Ok?
      ensures ReadCount(texts.counts[i], i) == Ok(t.counts[i]) <==> (t.counts[i] == U64_MAX ==> i in {1, 5, 7})
    {
      CountFieldRoundTrip(t.counts[i], i);
    }
    forall i | 0 <= i < |CEILING_FIELDS|
      ensures ReadCeiling(texts.ceilings[i], i).Ok?
      ensures
        ReadCeiling(texts.ceilings[i], i) == Ok(t.ceilings[i])
        <==> if i == 0 then t.ceilings[0] != None else t.ceilings[i] != Some(U64_MAX)
    {
      CeilingFieldRoundTrip(t.ceilings[i], i);
    }
    r := ParseThresholds(texts);
    if Expressible(t) {
      assert r.value.counts == t.counts && r.value.ceilings == t.ceilings;
    }
  }

  lemma CeilingIsRead(v: Option<nat>, default: Option<nat>, off: Option<nat>)
    requires v.Some? ==> v.value <= U64_MAX
    ensures ParseCeiling(FormatCeiling(v), default, off).Ok?
  {
    if v.Some? && v.value != U64_MAX {
      DecimalIsPlain(v.value);
      ParseU64Decimal(v.value);
    } else if v.Some? {
      TrimUntouched("off");
    }
  }
}
