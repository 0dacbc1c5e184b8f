/** Replies of an LX200/OnStep mount: the records they carry, the `fmt`
    formatters that print those records, the regular-expression parsers that
    read them back, and the `&`-separated compound replies.

    Each formatter is a layout (a `Template` shape read as a format string) and
    each parser a pattern (the same kind of shape read as an anchored regular
    expression). A pattern that is its record's layout followed by '#' makes the
    parser the formatter's inverse; the latitude/longitude pair `sdd_mm` and
    `sddd_mm` is printed with ':' but parsed with '*', so it is not. */
module OnStepResponses {
  import opened Wrappers
  import opened Text
  import opened Template

  predicate IsSign(c: char) { c == '+' || c == '-' }

  // ---------------------------------------------------------------------------
  // Records

  datatype HhMmSs = HhMmSs(hh: int, mm: int, ss: int)
  datatype DdMmSs = DdMmSs(dd: int, mm: int, ss: int)
  datatype SddMmSs = SddMmSs(sign: char, dd: int, mm: int, ss: int)
  datatype SdddMmSs = SdddMmSs(sign: char, ddd: int, mm: int, ss: int)
  datatype MmDdYy = MmDdYy(mm: int, dd: int, yy: int)
  datatype ShhMm = ShhMm(sign: char, hh: int, mm: int)
  datatype SddMm = SddMm(sign: char, dd: int, mm: int)
  datatype SdddMm = SdddMm(sign: char, ddd: int, mm: int)
  datatype DddMmSs = DddMmSs(ddd: int, mm: int, ss: int)
  datatype SddMmSdddMm = SddMmSdddMm(lat: SddMm, long: SdddMm)

  /** Every field fits the digits its layout gives it and every sign is '+' or
      '-': the records a parser can return, and the ones a formatter prints in
      exactly its layout's width. */
  predicate ValidHhMmSs(x: HhMmSs) { 0 <= x.hh < 100 && 0 <= x.mm < 100 && 0 <= x.ss < 100 }
  predicate ValidDdMmSs(x: DdMmSs) { 0 <= x.dd < 100 && 0 <= x.mm < 100 && 0 <= x.ss < 100 }
  predicate ValidSddMmSs(x: SddMmSs)
  {
    IsSign(x.sign) && 0 <= x.dd < 100 && 0 <= x.mm < 100 && 0 <= x.ss < 100
  }
  predicate ValidSdddMmSs(x: SdddMmSs)
  {
    IsSign(x.sign) && 0 <= x.ddd < 1000 && 0 <= x.mm < 100 && 0 <= x.ss < 100
  }
  predicate ValidMmDdYy(x: MmDdYy) { 0 <= x.mm < 100 && 0 <= x.dd < 100 && 0 <= x.yy < 100 }
  predicate ValidShhMm(x: ShhMm) { IsSign(x.sign) && 0 <= x.hh < 100 && 0 <= x.mm < 100 }
  predicate ValidSddMm(x: SddMm) { IsSign(x.sign) && 0 <= x.dd < 100 && 0 <= x.mm < 100 }
  predicate ValidSdddMm(x: SdddMm) { IsSign(x.sign) && 0 <= x.ddd < 1000 && 0 <= x.mm < 100 }
  predicate ValidDddMmSs(x: DddMmSs) { 0 <= x.ddd < 1000 && 0 <= x.mm < 100 && 0 <= x.ss < 100 }

  // ---------------------------------------------------------------------------
  // Layouts of the `fmt::formatter` specialisations, and the argument lists

  const HhMmSsLayout: seq<Tok> := [Digits(2), Exactly(':'), Digits(2), Exactly(':'), Digits(2)]
  const DdMmSsLayout: seq<Tok> := [Digits(2), Exactly('*'), Digits(2), Exactly(':'), Digits(2)]
  const SddMmSsLayout: seq<Tok> :=
    [AnySign, Digits(2), Exactly('*'), Digits(2), Exactly(':'), Digits(2)]
  const MmDdYyLayout: seq<Tok> := [Digits(2), Exactly('/'), Digits(2), Exactly('/'), Digits(2)]
  const ShhMmLayout: seq<Tok> := [AnySign, Digits(2), Exactly(':'), Digits(2)]
  const SddMmLayout: seq<Tok> := [AnySign, Digits(2), Exactly(':'), Digits(2)]
  const SdddMmLayout: seq<Tok> := [AnySign, Digits(3), Exactly(':'), Digits(2)]
  const DddMmSsLayout: seq<Tok> := [Digits(3), Exactly('*'), Digits(2), Exactly(':'), Digits(2)]

  /** The layouts the replies without a formatter of their own have. */
  const SdddMmSsReplyLayout: seq<Tok> :=
    [AnySign, Digits(3), Exactly('*'), Digits(2), Exactly(':'), Digits(2)]
  const SddMmReplyLayout: seq<Tok> := [AnySign, Digits(2), Exactly('*'), Digits(2)]
  const SdddMmReplyLayout: seq<Tok> := [AnySign, Digits(3), Exactly('*'), Digits(2)]

  function HhMmSsArgs(x: HhMmSs): seq<Group> { [NumGroup(x.hh), NumGroup(x.mm), NumGroup(x.ss)] }
  function DdMmSsArgs(x: DdMmSs): seq<Group> { [NumGroup(x.dd), NumGroup(x.mm), NumGroup(x.ss)] }
  function SddMmSsArgs(x: SddMmSs): seq<Group>
  {
    [SignGroup(x.sign), NumGroup(x.dd), NumGroup(x.mm), NumGroup(x.ss)]
  }
  function SdddMmSsArgs(x: SdddMmSs): seq<Group>
  {
    [SignGroup(x.sign), NumGroup(x.ddd), NumGroup(x.mm), NumGroup(x.ss)]
  }
  function MmDdYyArgs(x: MmDdYy): seq<Group> { [NumGroup(x.mm), NumGroup(x.dd), NumGroup(x.yy)] }
  function ShhMmArgs(x: ShhMm): seq<Group> { [SignGroup(x.sign), NumGroup(x.hh), NumGroup(x.mm)] }
  function SddMmArgs(x: SddMm): seq<Group> { [SignGroup(x.sign), NumGroup(x.dd), NumGroup(x.mm)] }
  function SdddMmArgs(x: SdddMm): seq<Group> { [SignGroup(x.sign), NumGroup(x.ddd), NumGroup(x.mm)] }
  function DddMmSsArgs(x: DddMmSs): seq<Group> { [NumGroup(x.ddd), NumGroup(x.mm), NumGroup(x.ss)] }

  function FormatHhMmSs(x: HhMmSs): string { Format(HhMmSsLayout, HhMmSsArgs(x)) }
  function FormatDdMmSs(x: DdMmSs): string { Format(DdMmSsLayout, DdMmSsArgs(x)) }
  function FormatSddMmSs(x: SddMmSs): string { Format(SddMmSsLayout, SddMmSsArgs(x)) }
  function FormatMmDdYy(x: MmDdYy): string { Format(MmDdYyLayout, MmDdYyArgs(x)) }
  function FormatShhMm(x: ShhMm): string { Format(ShhMmLayout, ShhMmArgs(x)) }
  function FormatSddMm(x: SddMm): string { Format(SddMmLayout, SddMmArgs(x)) }
  function FormatSdddMm(x: SdddMm): string { Format(SdddMmLayout, SdddMmArgs(x)) }
  function FormatDddMmSs(x: DddMmSs): string { Format(DddMmSsLayout, DddMmSsArgs(x)) }

  // ---------------------------------------------------------------------------
  // The text each formatter prints

  /** `hh_mm_ss` prints as `HH:MM:SS`. */
  lemma HhMmSsText(x: HhMmSs)
    ensures FormatHhMmSs(x) == Pad(x.hh, 2) + ":" + Pad(x.mm, 2) + ":" + Pad(x.ss, 2)
  {
    var e: seq<Tok> := [];
    var t4 := [Digits(2)] + e;
    var t3 := [Exactly(':')] + t4;
    var t2 := [Digits(2)] + t3;
    var t1 := [Exactly(':')] + t2;
    var t0 := [Digits(2)] + t1;
    assert t0 == HhMmSsLayout;
    var g3: seq<Group> := [];
    var g2 := [NumGroup(x.ss)] + g3;
    var g1 := [NumGroup(x.mm)] + g2;
    var g0 := [NumGroup(x.hh)] + g1;
    assert g0 == HhMmSsArgs(x);
    FormatNum(x.ss, 2, e, g3);
    FormatLit(':', t4, g2);
    FormatNum(x.mm, 2, t3, g2);
    FormatLit(':', t2, g1);
    FormatNum(x.hh, 2, t1, g1);
    assert Format(e, g3) == [];
    Chain5(Format(t0, g0), Format(t1, g1), Format(t2, g1), Format(t3, g2), Format(t4, g2),
           Pad(x.hh, 2), ":", Pad(x.mm, 2), ":", Pad(x.ss, 2));
  }

  /** `dd_mm_ss` prints as `DD*MM:SS`. */
  lemma DdMmSsText(x: DdMmSs)
    ensures FormatDdMmSs(x) == Pad(x.dd, 2) + "*" + Pad(x.mm, 2) + ":" + Pad(x.ss, 2)
  {
    var e: seq<Tok> := [];
    var t4 := [Digits(2)] + e;
    var t3 := [Exactly(':')] + t4;
    var t2 := [Digits(2)] + t3;
    var t1 := [Exactly('*')] + t2;
    var t0 := [Digits(2)] + t1;
    assert t0 == DdMmSsLayout;
    var g3: seq<Group> := [];
    var g2 := [NumGroup(x.ss)] + g3;
    var g1 := [NumGroup(x.mm)] + g2;
    var g0 := [NumGroup(x.dd)] + g1;
    assert g0 == DdMmSsArgs(x);
    FormatNum(x.ss, 2, e, g3);
    FormatLit(':', t4, g2);
    FormatNum(x.mm, 2, t3, g2);
    FormatLit('*', t2, g1);
    FormatNum(x.dd, 2, t1, g1);
    assert Format(e, g3) == [];
    Chain5(Format(t0, g0), Format(t1, g1), Format(t2, g1), Format(t3, g2), Format(t4, g2),
           Pad(x.dd, 2), "*", Pad(x.mm, 2), ":", Pad(x.ss, 2));
  }

  /** `sdd_mm_ss` prints as `sDD*MM:SS`. */
  lemma SddMmSsText(x: SddMmSs)
    ensures FormatSddMmSs(x) == [x.sign] + Pad(x.dd, 2) + "*" + Pad(x.mm, 2) + ":" + Pad(x.ss, 2)
  {
    var e: seq<Tok> := [];
    var t5 := [Digits(2)] + e;
    var t4 := [Exactly(':')] + t5;
    var t3 := [Digits(2)] + t4;
    var t2 := [Exactly('*')] + t3;
    var t1 := [Digits(2)] + t2;
    var t0 := [AnySign] + t1;
    assert t0 == SddMmSsLayout;
    var g4: seq<Group> := [];
    var g3 := [NumGroup(x.ss)] + g4;
    var g2 := [NumGroup(x.mm)] + g3;
    var g1 := [NumGroup(x.dd)] + g2;
    var g0 := [SignGroup(x.sign)] + g1;
    assert g0 == SddMmSsArgs(x);
    FormatNum(x.ss, 2, e, g4);
    FormatLit(':', t5, g3);
    FormatNum(x.mm, 2, t4, g3);
    FormatLit('*', t3, g2);
    FormatNum(x.dd, 2, t2, g2);
    FormatSign(x.sign, t1, g1);
    assert Format(e, g4) == [];
    Chain6(Format(t0, g0), Format(t1, g1), Format(t2, g2), Format(t3, g2), Format(t4, g3), Format(t5, g3),
           [x.sign], Pad(x.dd, 2), "*", Pad(x.mm, 2), ":", Pad(x.ss, 2));
  }

  /** A `sddd_mm_ss` reply reads `sDDD*MM:SS`. */
  lemma SdddMmSsReplyText(x: SdddMmSs)
    ensures Format(SdddMmSsReplyLayout, SdddMmSsArgs(x)) == [x.sign] + Pad(x.ddd, 3) + "*" + Pad(x.mm, 2) + ":" + Pad(x.ss, 2)
  {
    var e: seq<Tok> := [];
    var t5 := [Digits(2)] + e;
    var t4 := [Exactly(':')] + t5;
    var t3 := [Digits(2)] + t4;
    var t2 := [Exactly('*')] + t3;
    var t1 := [Digits(3)] + t2;
    var t0 := [AnySign] + t1;
    assert t0 == SdddMmSsReplyLayout;
    var g4: seq<Group> := [];
    var g3 := [NumGroup(x.ss)] + g4;
    var g2 := [NumGroup(x.mm)] + g3;
    var g1 := [NumGroup(x.ddd)] + g2;
    var g0 := [SignGroup(x.sign)] + g1;
    assert g0 == SdddMmSsArgs(x);
    FormatNum(x.ss, 2, e, g4);
    FormatLit(':', t5, g3);
    FormatNum(x.mm, 2, t4, g3);
    FormatLit('*', t3, g2);
    FormatNum(x.ddd, 3, t2, g2);
    FormatSign(x.sign, t1, g1);
    assert Format(e, g4) == [];
    Chain6(Format(t0, g0), Format(t1, g1), Format(t2, g2), Format(t3, g2), Format(t4, g3), Format(t5, g3),
           [x.sign], Pad(x.ddd, 3), "*", Pad(x.mm, 2), ":", Pad(x.ss, 2));
  }

  /** `mm_dd_yy` prints as `MM/DD/YY`. */
  lemma MmDdYyText(x: MmDdYy)
    ensures FormatMmDdYy(x) == Pad(x.mm, 2) + "/" + Pad(x.dd, 2) + "/" + Pad(x.yy, 2)
  {
    var e: seq<Tok> := [];
    var t4 := [Digits(2)] + e;
    var t3 := [Exactly('/')] + t4;
    var t2 := [Digits(2)] + t3;
    var t1 := [Exactly('/')] + t2;
    var t0 := [Digits(2)] + t1;
    assert t0 == MmDdYyLayout;
    var g3: seq<Group> := [];
    var g2 := [NumGroup(x.yy)] + g3;
    var g1 := [NumGroup(x.dd)] + g2;
    var g0 := [NumGroup(x.mm)] + g1;
    assert g0 == MmDdYyArgs(x);
    FormatNum(x.yy, 2, e, g3);
    FormatLit('/', t4, g2);
    FormatNum(x.dd, 2, t3, g2);
    FormatLit('/', t2, g1);
    FormatNum(x.mm, 2, t1, g1);
    assert Format(e, g3) == [];
    Chain5(Format(t0, g0), Format(t1, g1), Format(t2, g1), Format(t3, g2), Format(t4, g2),
           Pad(x.mm, 2), "/", Pad(x.dd, 2), "/", Pad(x.yy, 2));
  }

  /** `shh_mm` prints as `sHH:MM`. */
  lemma ShhMmText(x: ShhMm)
    ensures FormatShhMm(x) == [x.sign] + Pad(x.hh, 2) + ":" + Pad(x.mm, 2)
  {
    var e: seq<Tok> := [];
    var t3 := [Digits(2)] + e;
    var t2 := [Exactly(':')] + t3;
    var t1 := [Digits(2)] + t2;
    var t0 := [AnySign] + t1;
    assert t0 == ShhMmLayout;
    var g3: seq<Group> := [];
    var g2 := [NumGroup(x.mm)] + g3;
    var g1 := [NumGroup(x.hh)] + g2;
    var g0 := [SignGroup(x.sign)] + g1;
    assert g0 == ShhMmArgs(x);
    FormatNum(x.mm, 2, e, g3);
    FormatLit(':', t3, g2);
    FormatNum(x.hh, 2, t2, g2);
    FormatSign(x.sign, t1, g1);
    assert Format(e, g3) == [];
    Chain4(Format(t0, g0), Format(t1, g1), Format(t2, g2), Format(t3, g2),
           [x.sign], Pad(x.hh, 2), ":", Pad(x.mm, 2));
  }

  /** `sdd_mm` prints as `sDD:MM`, with a colon. */
  lemma SddMmText(x: SddMm)
    ensures FormatSddMm(x) == [x.sign] + Pad(x.dd, 2) + ":" + Pad(x.mm, 2)
  {
    var e: seq<Tok> := [];
    var t3 := [Digits(2)] + e;
    var t2 := [Exactly(':')] + t3;
    var t1 := [Digits(2)] + t2;
    var t0 := [AnySign] + t1;
    assert t0 == SddMmLayout;
    var g3: seq<Group> := [];
    var g2 := [NumGroup(x.mm)] + g3;
    var g1 := [NumGroup(x.dd)] + g2;
    var g0 := [SignGroup(x.sign)] + g1;
    assert g0 == SddMmArgs(x);
    FormatNum(x.mm, 2, e, g3);
    FormatLit(':', t3, g2);
    FormatNum(x.dd, 2, t2, g2);
    FormatSign(x.sign, t1, g1);
    assert Format(e, g3) == [];
    Chain4(Format(t0, g0), Format(t1, g1), Format(t2, g2), Format(t3, g2),
           [x.sign], Pad(x.dd, 2), ":", Pad(x.mm, 2));
  }

  /** `sddd_mm` prints as `sDDD:MM`, with a colon. */
  lemma SdddMmText(x: SdddMm)
    ensures FormatSdddMm(x) == [x.sign] + Pad(x.ddd, 3) + ":" + Pad(x.mm, 2)
  {
    var e: seq<Tok> := [];
    var t3 := [Digits(2)] + e;
    var t2 := [Exactly(':')] + t3;
    var t1 := [Digits(3)] + t2;
    var t0 := [AnySign] + t1;
    assert t0 == SdddMmLayout;
    var g3: seq<Group> := [];
    var g2 := [NumGroup(x.mm)] + g3;
    var g1 := [NumGroup(x.ddd)] + g2;
    var g0 := [SignGroup(x.sign)] + g1;
    assert g0 == SdddMmArgs(x);
    FormatNum(x.mm, 2, e, g3);
    FormatLit(':', t3, g2);
    FormatNum(x.ddd, 3, t2, g2);
    FormatSign(x.sign, t1, g1);
    assert Format(e, g3) == [];
    Chain4(Format(t0, g0), Format(t1, g1), Format(t2, g2), Format(t3, g2),
           [x.sign], Pad(x.ddd, 3), ":", Pad(x.mm, 2));
  }

  /** `ddd_mm_ss` prints as `DDD*MM:SS`. */
  lemma DddMmSsText(x: DddMmSs)
    ensures FormatDddMmSs(x) == Pad(x.ddd, 3) + "*" + Pad(x.mm, 2) + ":" + Pad(x.ss, 2)
  {
    var e: seq<Tok> := [];
    var t4 := [Digits(2)] + e;
    var t3 := [Exactly(':')] + t4;
    var t2 := [Digits(2)] + t3;
    var t1 := [Exactly('*')] + t2;
    var t0 := [Digits(3)] + t1;
    assert t0 == DddMmSsLayout;
    var g3: seq<Group> := [];
    var g2 := [NumGroup(x.ss)] + g3;
    var g1 := [NumGroup(x.mm)] + g2;
    var g0 := [NumGroup(x.ddd)] + g1;
    assert g0 == DddMmSsArgs(x);
    FormatNum(x.ss, 2, e, g3);
    FormatLit(':', t4, g2);
    FormatNum(x.mm, 2, t3, g2);
    FormatLit('*', t2, g1);
    FormatNum(x.ddd, 3, t1, g1);
    assert Format(e, g3) == [];
    Chain5(Format(t0, g0), Format(t1, g1), Format(t2, g1), Format(t3, g2), Format(t4, g2),
           Pad(x.ddd, 3), "*", Pad(x.mm, 2), ":", Pad(x.ss, 2));
  }

  // ---------------------------------------------------------------------------
  // Patterns of the parsers' regular expressions

  const HhMmSsPattern: seq<Tok> :=
    [Digits(2), Exactly(':'), Digits(2), Exactly(':'), Digits(2), Exactly('#')]
  const DdMmSsPattern: seq<Tok> :=
    [Digits(2), Exactly('*'), Digits(2), Exactly(':'), Digits(2), Exactly('#')]
  const SddMmSsPattern: seq<Tok> :=
    [AnySign, Digits(2), Exactly('*'), Digits(2), Exactly(':'), Digits(2), Exactly('#')]
  const SdddMmSsPattern: seq<Tok> :=
    [AnySign, Digits(3), Exactly('*'), Digits(2), Exactly(':'), Digits(2), Exactly('#')]
  const MmDdYyPattern: seq<Tok> :=
    [Digits(2), Exactly('/'), Digits(2), Exactly('/'), Digits(2), Exactly('#')]
  const ShhMmPattern: seq<Tok> := [AnySign, Digits(2), Exactly(':'), Digits(2), Exactly('#')]
  const SddMmPattern: seq<Tok> := [AnySign, Digits(2), Exactly('*'), Digits(2), Exactly('#')]
  const SdddMmPattern: seq<Tok> := [AnySign, Digits(3), Exactly('*'), Digits(2), Exactly('#')]
  const DddMmSsPattern: seq<Tok> :=
    [Digits(3), Exactly('*'), Digits(2), Exactly(':'), Digits(2), Exactly('#')]

  /** Each pattern is a layout followed by the terminating '#'. */
  lemma PatternsAreTerminatedLayouts()
    ensures HhMmSsPattern == HhMmSsLayout + [Exactly('#')]
    ensures DdMmSsPattern == DdMmSsLayout + [Exactly('#')]
    ensures SddMmSsPattern == SddMmSsLayout + [Exactly('#')]
    ensures SdddMmSsPattern == SdddMmSsReplyLayout + [Exactly('#')]
    ensures MmDdYyPattern == MmDdYyLayout + [Exactly('#')]
    ensures ShhMmPattern == ShhMmLayout + [Exactly('#')]
    ensures SddMmPattern == SddMmReplyLayout + [Exactly('#')]
    ensures SdddMmPattern == SdddMmReplyLayout + [Exactly('#')]
    ensures DddMmSsPattern == DddMmSsLayout + [Exactly('#')]
  {
  }

  // ---------------------------------------------------------------------------
  // Parsers

  /** The value of the `i`-th capture group as a number or as a sign
      character; a group of the other kind reads as 0 or '+'. */
  function NumAt(g: seq<Group>, i: nat): int
  {
    if i < |g| && g[i].NumGroup? then g[i].n else 0
  }

  function SignAt(g: seq<Group>, i: nat): char
  {
    if i < |g| && g[i].SignGroup? then g[i].c else '+'
  }

  /** A reply a terminated pattern accepts begins with the formatting of its
      capture groups and '#', and the groups fit the layout. */
  lemma Parsed(pattern: seq<Tok>, layout: seq<Tok>, resp: string, g: seq<Group>)
    requires pattern == layout + [Exactly('#')]
    requires WellFormed(layout) && Match(pattern, resp) == Some(g)
    ensures Fits(layout, g) && Format(layout, g) + "#" <= resp
  {
    TerminatedSound(layout, resp, g, '#');
  }

  function HhMmSsOf(g: seq<Group>): HhMmSs { HhMmSs(NumAt(g, 0), NumAt(g, 1), NumAt(g, 2)) }

  /** Groups that fit the layout are the arguments of exactly one record. */
  lemma HhMmSsOfGroups(g: seq<Group>)
    requires Fits(HhMmSsLayout, g)
    ensures ValidHhMmSs(HhMmSsOf(g)) && HhMmSsArgs(HhMmSsOf(g)) == g
  {
    assert Captures(HhMmSsLayout) == [Digits(2), Digits(2), Digits(2)];
  }

  /** `parse_hh_mm_ss_response`: the reply must begin with `HH:MM:SS#`. */
  function ParseHhMmSs(resp: string): (r: Result<HhMmSs>)
    ensures r.Err? ==> r.error == InvalidValue
    ensures r.Ok? ==> ValidHhMmSs(r.value) && FormatHhMmSs(r.value) + "#" <= resp
  {
    match Match(HhMmSsPattern, resp)
    case None => Err(InvalidValue)
    case Some(g) =>
      var x := HhMmSsOf(g);
      assert ValidHhMmSs(x) && FormatHhMmSs(x) + "#" <= resp by {
        Parsed(HhMmSsPattern, HhMmSsLayout, resp, g);
        HhMmSsOfGroups(g);
      }
      Ok(x)
  }

  lemma HhMmSsArgsFit(x: HhMmSs)
    requires ValidHhMmSs(x)
    ensures Fits(HhMmSsLayout, HhMmSsArgs(x)) && HhMmSsOf(HhMmSsArgs(x)) == x
  {
    assert Captures(HhMmSsLayout) == [Digits(2), Digits(2), Digits(2)];
  }

  lemma HhMmSsRoundTrip(x: HhMmSs, rest: string)
    requires ValidHhMmSs(x)
    ensures ParseHhMmSs(FormatHhMmSs(x) + "#" + rest) == Ok(x)
  {
    PatternsAreTerminatedLayouts();
    HhMmSsArgsFit(x);
    TerminatedRoundTrip(HhMmSsLayout, HhMmSsArgs(x), '#', rest);
  }

  function DdMmSsOf(g: seq<Group>): DdMmSs { DdMmSs(NumAt(g, 0), NumAt(g, 1), NumAt(g, 2)) }

  /** Groups that fit the layout are the arguments of exactly one record. */
  lemma DdMmSsOfGroups(g: seq<Group>)
    requires Fits(DdMmSsLayout, g)
    ensures ValidDdMmSs(DdMmSsOf(g)) && DdMmSsArgs(DdMmSsOf(g)) == g
  {
    assert Captures(DdMmSsLayout) == [Digits(2), Digits(2), Digits(2)];
  }

  /** `parse_dd_mm_ss_response`: the reply must begin with `DD*MM:SS#`. */
  function ParseDdMmSs(resp: string): (r: Result<DdMmSs>)
    ensures r.Err? ==> r.error == InvalidValue
    ensures r.Ok? ==> ValidDdMmSs(r.value) && FormatDdMmSs(r.value) + "#" <= resp
  {
    match Match(DdMmSsPattern, resp)
    case None => Err(InvalidValue)
    case Some(g) =>
      var x := DdMmSsOf(g);
      assert ValidDdMmSs(x) && FormatDdMmSs(x) + "#" <= resp by {
        Parsed(DdMmSsPattern, DdMmSsLayout, resp, g);
        DdMmSsOfGroups(g);
      }
      Ok(x)
  }

  lemma DdMmSsArgsFit(x: DdMmSs)
    requires ValidDdMmSs(x)
    ensures Fits(DdMmSsLayout, DdMmSsArgs(x)) && DdMmSsOf(DdMmSsArgs(x)) == x
  {
    assert Captures(DdMmSsLayout) == [Digits(2), Digits(2), Digits(2)];
  }

  lemma DdMmSsRoundTrip(x: DdMmSs, rest: string)
    requires ValidDdMmSs(x)
    ensures ParseDdMmSs(FormatDdMmSs(x) + "#" + rest) == Ok(x)
  {
    PatternsAreTerminatedLayouts();
    DdMmSsArgsFit(x);
    TerminatedRoundTrip(DdMmSsLayout, DdMmSsArgs(x), '#', rest);
  }

  function SddMmSsOf(g: seq<Group>): SddMmSs { SddMmSs(SignAt(g, 0), NumAt(g, 1), NumAt(g, 2), NumAt(g, 3)) }

  /** Groups that fit the layout are the arguments of exactly one record. */
  lemma SddMmSsOfGroups(g: seq<Group>)
    requires Fits(SddMmSsLayout, g)
    ensures ValidSddMmSs(SddMmSsOf(g)) && SddMmSsArgs(SddMmSsOf(g)) == g
  {
    assert Captures(SddMmSsLayout) == [AnySign, Digits(2), Digits(2), Digits(2)];
  }

  /** `parse_sdd_mm_ss_response`: the reply must begin with `sDD*MM:SS#`. */
  function ParseSddMmSs(resp: string): (r: Result<SddMmSs>)
    ensures r.Err? ==> r.error == InvalidValue
    ensures r.Ok? ==> ValidSddMmSs(r.value) && FormatSddMmSs(r.value) + "#" <= resp
  {
    match Match(SddMmSsPattern, resp)
    case None => Err(InvalidValue)
    case Some(g) =>
      var x := SddMmSsOf(g);
      assert ValidSddMmSs(x) && FormatSddMmSs(x) + "#" <= resp by {
        Parsed(SddMmSsPattern, SddMmSsLayout, resp, g);
        SddMmSsOfGroups(g);
      }
      Ok(x)
  }

  lemma SddMmSsArgsFit(x: SddMmSs)
    requires ValidSddMmSs(x)
    ensures Fits(SddMmSsLayout, SddMmSsArgs(x)) && SddMmSsOf(SddMmSsArgs(x)) == x
  {
    assert Captures(SddMmSsLayout) == [AnySign, Digits(2), Digits(2), Digits(2)];
  }

  lemma SddMmSsRoundTrip(x: SddMmSs, rest: string)
    requires ValidSddMmSs(x)
    ensures ParseSddMmSs(FormatSddMmSs(x) + "#" + rest) == Ok(x)
  {
    PatternsAreTerminatedLayouts();
    SddMmSsArgsFit(x);
    TerminatedRoundTrip(SddMmSsLayout, SddMmSsArgs(x), '#', rest);
  }

  function SdddMmSsOf(g: seq<Group>): SdddMmSs { SdddMmSs(SignAt(g, 0), NumAt(g, 1), NumAt(g, 2), NumAt(g, 3)) }

  /** Groups that fit the layout are the arguments of exactly one record. */
  lemma SdddMmSsOfGroups(g: seq<Group>)
    requires Fits(SdddMmSsReplyLayout, g)
    ensures ValidSdddMmSs(SdddMmSsOf(g)) && SdddMmSsArgs(SdddMmSsOf(g)) == g
  {
    assert Captures(SdddMmSsReplyLayout) == [AnySign, Digits(3), Digits(2), Digits(2)];
  }

  /** `parse_sddd_mm_ss_response`: the reply must begin with `sDDD*MM:SS#`. */
  function ParseSdddMmSs(resp: string): (r: Result<SdddMmSs>)
    ensures r.Err? ==> r.error == InvalidValue
    ensures r.Ok? ==> ValidSdddMmSs(r.value) && Format(SdddMmSsReplyLayout, SdddMmSsArgs(r.value)) + "#" <= resp
  {
    match Match(SdddMmSsPattern, resp)
    case None => Err(InvalidValue)
    case Some(g) =>
      var x := SdddMmSsOf(g);
      assert ValidSdddMmSs(x) && Format(SdddMmSsReplyLayout, SdddMmSsArgs(x)) + "#" <= resp by {
        Parsed(SdddMmSsPattern, SdddMmSsReplyLayout, resp, g);
        SdddMmSsOfGroups(g);
      }
      Ok(x)
  }

  lemma SdddMmSsArgsFit(x: SdddMmSs)
    requires ValidSdddMmSs(x)
    ensures Fits(SdddMmSsReplyLayout, SdddMmSsArgs(x)) && SdddMmSsOf(SdddMmSsArgs(x)) == x
  {
    assert Captures(SdddMmSsReplyLayout) == [AnySign, Digits(3), Digits(2), Digits(2)];
  }

  lemma SdddMmSsRoundTrip(x: SdddMmSs, rest: string)
    requires ValidSdddMmSs(x)
    ensures ParseSdddMmSs(Format(SdddMmSsReplyLayout, SdddMmSsArgs(x)) + "#" + rest) == Ok(x)
  {
    PatternsAreTerminatedLayouts();
    SdddMmSsArgsFit(x);
    TerminatedRoundTrip(SdddMmSsReplyLayout, SdddMmSsArgs(x), '#', rest);
  }

  function MmDdYyOf(g: seq<Group>): MmDdYy { MmDdYy(NumAt(g, 0), NumAt(g, 1), NumAt(g, 2)) }

  /** Groups that fit the layout are the arguments of exactly one record. */
  lemma MmDdYyOfGroups(g: seq<Group>)
    requires Fits(MmDdYyLayout, g)
    ensures ValidMmDdYy(MmDdYyOf(g)) && MmDdYyArgs(MmDdYyOf(g)) == g
  {
    assert Captures(MmDdYyLayout) == [Digits(2), Digits(2), Digits(2)];
  }

  /** `parse_mm_dd_yy_response`: the reply must begin with `MM/DD/YY#`. */
  function ParseMmDdYy(resp: string): (r: Result<MmDdYy>)
    ensures r.Err? ==> r.error == InvalidValue
    ensures r.Ok? ==> ValidMmDdYy(r.value) && FormatMmDdYy(r.value) + "#" <= resp
  {
    match Match(MmDdYyPattern, resp)
    case None => Err(InvalidValue)
    case Some(g) =>
      var x := MmDdYyOf(g);
      assert ValidMmDdYy(x) && FormatMmDdYy(x) + "#" <= resp by {
        Parsed(MmDdYyPattern, MmDdYyLayout, resp, g);
        MmDdYyOfGroups(g);
      }
      Ok(x)
  }

  lemma MmDdYyArgsFit(x: MmDdYy)
    requires ValidMmDdYy(x)
    ensures Fits(MmDdYyLayout, MmDdYyArgs(x)) && MmDdYyOf(MmDdYyArgs(x)) == x
  {
    assert Captures(MmDdYyLayout) == [Digits(2), Digits(2), Digits(2)];
  }

  lemma MmDdYyRoundTrip(x: MmDdYy, rest: string)
    requires ValidMmDdYy(x)
    ensures ParseMmDdYy(FormatMmDdYy(x) + "#" + rest) == Ok(x)
  {
    PatternsAreTerminatedLayouts();
    MmDdYyArgsFit(x);
    TerminatedRoundTrip(MmDdYyLayout, MmDdYyArgs(x), '#', rest);
  }

  function ShhMmOf(g: seq<Group>): ShhMm { ShhMm(SignAt(g, 0), NumAt(g, 1), NumAt(g, 2)) }

  /** Groups that fit the layout are the arguments of exactly one record. */
  lemma ShhMmOfGroups(g: seq<Group>)
    requires Fits(ShhMmLayout, g)
    ensures ValidShhMm(ShhMmOf(g)) && ShhMmArgs(ShhMmOf(g)) == g
  {
    assert Captures(ShhMmLayout) == [AnySign, Digits(2), Digits(2)];
  }

  /** `parse_shh_mm_response`: the reply must begin with `sHH:MM#`. */
  function ParseShhMm(resp: string): (r: Result<ShhMm>)
    ensures r.Err? ==> r.error == InvalidValue
    ensures r.Ok? ==> ValidShhMm(r.value) && FormatShhMm(r.value) + "#" <= resp
  {
    match Match(ShhMmPattern, resp)
    case None => Err(InvalidValue)
    case Some(g) =>
      var x := ShhMmOf(g);
      assert ValidShhMm(x) && FormatShhMm(x) + "#" <= resp by {
        Parsed(ShhMmPattern, ShhMmLayout, resp, g);
        ShhMmOfGroups(g);
      }
      Ok(x)
  }

  lemma ShhMmArgsFit(x: ShhMm)
    requires ValidShhMm(x)
    ensures Fits(ShhMmLayout, ShhMmArgs(x)) && ShhMmOf(ShhMmArgs(x)) == x
  {
    assert Captures(ShhMmLayout) == [AnySign, Digits(2), Digits(2)];
  }

  lemma ShhMmRoundTrip(x: ShhMm, rest: string)
    requires ValidShhMm(x)
    ensures ParseShhMm(FormatShhMm(x) + "#" + rest) == Ok(x)
  {
    PatternsAreTerminatedLayouts();
    ShhMmArgsFit(x);
    TerminatedRoundTrip(ShhMmLayout, ShhMmArgs(x), '#', rest);
  }

  function SddMmOf(g: seq<Group>): SddMm { SddMm(SignAt(g, 0), NumAt(g, 1), NumAt(g, 2)) }

  /** Groups that fit the layout are the arguments of exactly one record. */
  lemma SddMmOfGroups(g: seq<Group>)
    requires Fits(SddMmReplyLayout, g)
    ensures ValidSddMm(SddMmOf(g)) && SddMmArgs(SddMmOf(g)) == g
  {
    assert Captures(SddMmReplyLayout) == [AnySign, Digits(2), Digits(2)];
  }

  /** `parse_sdd_mm_response`: the reply must begin with `sDD*MM#`. */
  function ParseSddMm(resp: string): (r: Result<SddMm>)
    ensures r.Err? ==> r.error == InvalidValue
    ensures r.Ok? ==> ValidSddMm(r.value) && Format(SddMmReplyLayout, SddMmArgs(r.value)) + "#" <= resp
  {
    match Match(SddMmPattern, resp)
    case None => Err(InvalidValue)
    case Some(g) =>
      var x := SddMmOf(g);
      assert ValidSddMm(x) && Format(SddMmReplyLayout, SddMmArgs(x)) + "#" <= resp by {
        Parsed(SddMmPattern, SddMmReplyLayout, resp, g);
        SddMmOfGroups(g);
      }
      Ok(x)
  }

  lemma SddMmArgsFit(x: SddMm)
    requires ValidSddMm(x)
    ensures Fits(SddMmReplyLayout, SddMmArgs(x)) && SddMmOf(SddMmArgs(x)) == x
  {
    assert Captures(SddMmReplyLayout) == [AnySign, Digits(2), Digits(2)];
  }

  lemma SddMmRoundTrip(x: SddMm, rest: string)
    requires ValidSddMm(x)
    ensures ParseSddMm(Format(SddMmReplyLayout, SddMmArgs(x)) + "#" + rest) == Ok(x)
  {
    PatternsAreTerminatedLayouts();
    SddMmArgsFit(x);
    TerminatedRoundTrip(SddMmReplyLayout, SddMmArgs(x), '#', rest);
  }

  function SdddMmOf(g: seq<Group>): SdddMm { SdddMm(SignAt(g, 0), NumAt(g, 1), NumAt(g, 2)) }

  /** Groups that fit the layout are the arguments of exactly one record. */
  lemma SdddMmOfGroups(g: seq<Group>)
    requires Fits(SdddMmReplyLayout, g)
    ensures ValidSdddMm(SdddMmOf(g)) && SdddMmArgs(SdddMmOf(g)) == g
  {
    assert Captures(SdddMmReplyLayout) == [AnySign, Digits(3), Digits(2)];
  }

  /** `parse_sddd_mm_response`: the reply must begin with `sDDD*MM#`. */
  function ParseSdddMm(resp: string): (r: Result<SdddMm>)
    ensures r.Err? ==> r.error == InvalidValue
    ensures r.Ok? ==> ValidSdddMm(r.value) && Format(SdddMmReplyLayout, SdddMmArgs(r.value)) + "#" <= resp
  {
    match Match(SdddMmPattern, resp)
    case None => Err(InvalidValue)
    case Some(g) =>
      var x := SdddMmOf(g);
      assert ValidSdddMm(x) && Format(SdddMmReplyLayout, SdddMmArgs(x)) + "#" <= resp by {
        Parsed(SdddMmPattern, SdddMmReplyLayout, resp, g);
        SdddMmOfGroups(g);
      }
      Ok(x)
  }

  lemma SdddMmArgsFit(x: SdddMm)
    requires ValidSdddMm(x)
    ensures Fits(SdddMmReplyLayout, SdddMmArgs(x)) && SdddMmOf(SdddMmArgs(x)) == x
  {
    assert Captures(SdddMmReplyLayout) == [AnySign, Digits(3), Digits(2)];
  }

  lemma SdddMmRoundTrip(x: SdddMm, rest: string)
    requires ValidSdddMm(x)
    ensures ParseSdddMm(Format(SdddMmReplyLayout, SdddMmArgs(x)) + "#" + rest) == Ok(x)
  {
    PatternsAreTerminatedLayouts();
    SdddMmArgsFit(x);
    TerminatedRoundTrip(SdddMmReplyLayout, SdddMmArgs(x), '#', rest);
  }

  function DddMmSsOf(g: seq<Group>): DddMmSs { DddMmSs(NumAt(g, 0), NumAt(g, 1), NumAt(g, 2)) }

  /** Groups that fit the layout are the arguments of exactly one record. */
  lemma DddMmSsOfGroups(g: seq<Group>)
    requires Fits(DddMmSsLayout, g)
    ensures ValidDddMmSs(DddMmSsOf(g)) && DddMmSsArgs(DddMmSsOf(g)) == g
  {
    assert Captures(DddMmSsLayout) == [Digits(3), Digits(2), Digits(2)];
  }

  /** `parse_ddd_mm_ss_response`: the reply must begin with `DDD*MM:SS#`. */
  function ParseDddMmSs(resp: string): (r: Result<DddMmSs>)
    ensures r.Err? ==> r.error == InvalidValue
    ensures r.Ok? ==> ValidDddMmSs(r.value) && FormatDddMmSs(r.value) + "#" <= resp
  {
    match Match(DddMmSsPattern, resp)
    case None => Err(InvalidValue)
    case Some(g) =>
      var x := DddMmSsOf(g);
      assert ValidDddMmSs(x) && FormatDddMmSs(x) + "#" <= resp by {
        Parsed(DddMmSsPattern, DddMmSsLayout, resp, g);
        DddMmSsOfGroups(g);
      }
      Ok(x)
  }

  lemma DddMmSsArgsFit(x: DddMmSs)
    requires ValidDddMmSs(x)
    ensures Fits(DddMmSsLayout, DddMmSsArgs(x)) && DddMmSsOf(DddMmSsArgs(x)) == x
  {
    assert Captures(DddMmSsLayout) == [Digits(3), Digits(2), Digits(2)];
  }

  lemma DddMmSsRoundTrip(x: DddMmSs, rest: string)
    requires ValidDddMmSs(x)
    ensures ParseDddMmSs(FormatDddMmSs(x) + "#" + rest) == Ok(x)
  {
    PatternsAreTerminatedLayouts();
    DddMmSsArgsFit(x);
    TerminatedRoundTrip(DddMmSsLayout, DddMmSsArgs(x), '#', rest);
  }

  /** The formatters of `sdd_mm` and `sddd_mm` separate degrees and minutes
      with ':' while their parsers demand '*': a record printed by either
      formatter is rejected by its own parser. */
  lemma SddMmFormatRejected(x: SddMm, rest: string)
    requires ValidSddMm(x)
    ensures ParseSddMm(FormatSddMm(x) + "#" + rest).Err?
  {
    var s := FormatSddMm(x) + "#" + rest;
    FormatLiteralAt(SddMmLayout, SddMmArgs(x), 2);
    assert SddMmLayout[..2] == SddMmPattern[..2] == [AnySign, Digits(2)];
    assert Width([AnySign, Digits(2)]) == 3;
    assert s[3] == FormatSddMm(x)[3] == ':';
    if Match(SddMmPattern, s).Some? {
      MatchLiteralAt(SddMmPattern, s, 2);
    }
  }

  lemma SdddMmFormatRejected(x: SdddMm, rest: string)
    requires ValidSdddMm(x)
    ensures ParseSdddMm(FormatSdddMm(x) + "#" + rest).Err?
  {
    var s := FormatSdddMm(x) + "#" + rest;
    FormatLiteralAt(SdddMmLayout, SdddMmArgs(x), 2);
    assert SdddMmLayout[..2] == SdddMmPattern[..2] == [AnySign, Digits(3)];
    assert Width([AnySign, Digits(3)]) == 4;
    assert s[4] == FormatSdddMm(x)[4] == ':';
    if Match(SdddMmPattern, s).Some? {
      MatchLiteralAt(SdddMmPattern, s, 2);
    }
  }

  // ---------------------------------------------------------------------------
  // The standard one-digit reply

  /** `parse_standard_response`: `^e?([0-9])#`, a digit and '#', optionally
      preceded by 'e'; the value is the digit. */
  function ParseStandard(resp: string): (r: Result<int>)
    ensures r.Err? ==> r.error == InvalidValue
    ensures r.Ok? ==> 0 <= r.value <= 9
    ensures r.Ok? ==> [DigitChar(r.value), '#'] <= resp || ['e', DigitChar(r.value), '#'] <= resp
  {
    var body := if |resp| > 0 && resp[0] == 'e' then resp[1..] else resp;
    if |body| >= 2 && IsDigit(body[0]) && body[1] == '#' then
      LeadingDigitOf(body);
      StandardDigit(resp, body);
      Ok(Atoi(body[..1]))
    else Err(InvalidValue)
  }

  /** Where the digit of an accepted standard reply sits. */
  lemma StandardDigit(resp: string, body: string)
    requires body == if |resp| > 0 && resp[0] == 'e' then resp[1..] else resp
    requires |body| >= 2 && IsDigit(body[0]) && body[1] == '#'
    ensures [body[0], '#'] <= resp || ['e', body[0], '#'] <= resp
  {
    assert body[..2] == [body[0], '#'];
    if |resp| > 0 && resp[0] == 'e' {
      assert resp == ['e'] + body;
      DigitAndHashPrefix(['e'], body, resp);
    } else {
      assert resp == [] + body;
      DigitAndHashPrefix([], body, resp);
    }
  }

  /** `atoi` of the first character of `body`, a digit, is that digit. */
  lemma LeadingDigitOf(body: string)
    requires |body| >= 1 && IsDigit(body[0])
    ensures Atoi(body[..1]) == DigitValue(body[0])
    ensures DigitChar(DigitValue(body[0])) == body[0]
  {
    var d := DigitValue(body[0]);
    assert body[..1] == [DigitChar(d)];
    AtoiOfDigit(d);
  }

  lemma DigitAndHashPrefix(prefix: string, body: string, resp: string)
    requires |body| >= 2 && resp == prefix + body
    ensures prefix + body[..2] <= resp
  {
    assert resp[..|prefix| + 2] == prefix + body[..2];
  }

  /** A digit and '#', with or without a leading 'e' and whatever follows,
      reads as that digit. */
  lemma StandardRoundTrip(d: nat, rest: string)
    requires d <= 9
    ensures ParseStandard([DigitChar(d), '#'] + rest) == Ok(d)
    ensures ParseStandard(['e', DigitChar(d), '#'] + rest) == Ok(d)
  {
    StandardPlain(d, rest);
    StandardPrefixed(d, rest);
  }

  lemma StandardPlain(d: nat, rest: string)
    requires d <= 9
    ensures ParseStandard([DigitChar(d), '#'] + rest) == Ok(d)
  {
    var s := [DigitChar(d), '#'] + rest;
    assert s[0] == DigitChar(d) && s[0] != 'e' && s[1] == '#';
    StandardAccepts(s, s, d);
  }

  lemma StandardPrefixed(d: nat, rest: string)
    requires d <= 9
    ensures ParseStandard(['e', DigitChar(d), '#'] + rest) == Ok(d)
  {
    var s := [DigitChar(d), '#'] + rest;
    var t := ['e', DigitChar(d), '#'] + rest;
    assert t[0] == 'e' && t[1..] == s;
    assert s[0] == DigitChar(d) && s[1] == '#';
    StandardAccepts(t, s, d);
  }

  /** A reply whose body starts with the digit `d` and '#' reads as `d`. */
  lemma StandardAccepts(resp: string, body: string, d: nat)
    requires body == if |resp| > 0 && resp[0] == 'e' then resp[1..] else resp
    requires d <= 9 && |body| >= 2 && body[0] == DigitChar(d) && body[1] == '#'
    ensures ParseStandard(resp) == Ok(d)
  {
    assert body[..1] == [DigitChar(d)];
    AtoiOfDigit(d);
    assert IsDigit(body[0]);
  }

  // ---------------------------------------------------------------------------
  // Compound replies

  /** `std::string::find` of one character: the first position, or `None` for
      `npos`. */
  function IndexOf(s: string, c: char): (r: Option<nat>)
    ensures r.None? <==> c !in s
    ensures r.Some? ==> r.value < |s| && s[r.value] == c && c !in s[..r.value]
  {
    if s == [] then None
    else if s[0] == c then Some(0)
    else match IndexOf(s[1..], c)
      case None => None
      case Some(i) =>
        assert s[..i + 1] == [s[0]] + s[1..][..i];
        Some(i + 1)
  }

  /** The chunks of `s` between occurrences of `sep`, in order. */
  function Split(s: string, sep: char): (r: seq<string>)
    ensures |r| >= 1
    decreases |s|
  {
    match IndexOf(s, sep)
    case None => [s]
    case Some(i) => [s[..i]] + Split(s[i + 1..], sep)
  }

  /** The chunks put back together with the separator between them. */
  function Join(parts: seq<string>, sep: char): string
    requires |parts| >= 1
  {
    if |parts| == 1 then parts[0] else parts[0] + [sep] + Join(parts[1..], sep)
  }

  /** Splitting text without the separator gives the text alone. */
  lemma SplitNone(s: string, sep: char)
    requires IndexOf(s, sep).None?
    ensures Split(s, sep) == [s]
  {
  }

  /** Splitting at the first separator: the chunk before it, then the
      chunks of what follows it. */
  lemma SplitStep(s: string, sep: char, i: nat)
    requires IndexOf(s, sep) == Some(i)
    ensures i < |s| && sep !in s[..i]
    ensures Split(s, sep) == [s[..i]] + Split(s[i + 1..], sep)
    ensures s == s[..i] + [sep] + s[i + 1..]
  {
    AroundSeparator(s, sep, i);
  }

  lemma AroundSeparator(s: string, sep: char, i: nat)
    requires i < |s| && s[i] == sep
    ensures s == s[..i] + [sep] + s[i + 1..]
  {
    assert s == s[..i] + s[i..] && s[i..] == [sep] + s[i + 1..];
  }

  /** `split_on` with a one-character separator, as every caller uses it. */
  method SplitOn(s: string, sep: char) returns (results: seq<string>)
    ensures results == Split(s, sep)
  {
    var copy := s;
    results := [];
    var pos: Option<nat> := Some(0);
    while pos.Some?
      invariant pos.Some? ==> results + Split(copy, sep) == Split(s, sep)
      invariant pos.None? ==> results == Split(s, sep)
      decreases if pos.Some? then |copy| + 1 else 0
    {
      pos := IndexOf(copy, sep);
      if pos.Some? {
        var i := pos.value;
        SplitStep(copy, sep, i);
        AppendAssoc(results, [copy[..i]], Split(copy[i + 1..], sep));
        results := results + [copy[..i]];
        copy := copy[i + 1..];
      } else {
        SplitNone(copy, sep);
        results := results + [copy];
      }
    }
  }

  /** Splitting yields one chunk more than there are separators. */
  lemma {:induction false} SplitCount(s: string, sep: char)
    ensures |Split(s, sep)| == multiset(s)[sep] + 1
    decreases |s|
  {
    var idx := IndexOf(s, sep);
    if idx.None? {
      SplitNone(s, sep);
    } else {
      var i := idx.value;
      var rest := s[i + 1..];
      SplitStep(s, sep, i);
      SplitCount(rest, sep);
      assert multiset(s) == multiset(s[..i]) + multiset{sep} + multiset(rest);
    }
  }

  /** No chunk holds the separator. */
  lemma {:induction false} SplitChunks(s: string, sep: char)
    ensures forall i :: 0 <= i < |Split(s, sep)| ==> sep !in Split(s, sep)[i]
    decreases |s|
  {
    var idx := IndexOf(s, sep);
    if idx.None? {
      SplitNone(s, sep);
    } else {
      var i := idx.value;
      var rest := s[i + 1..];
      SplitStep(s, sep, i);
      SplitChunks(rest, sep);
      var r, t := Split(s, sep), Split(rest, sep);
      forall j | 0 <= j < |r| ensures sep !in r[j] {
        if j > 0 { assert r[j] == t[j - 1]; }
      }
    }
  }

  /** Joining the chunks with the separator gives back the input. */
  lemma {:induction false} JoinSplit(s: string, sep: char)
    ensures Join(Split(s, sep), sep) == s
    decreases |s|
  {
    var idx := IndexOf(s, sep);
    if idx.None? {
      SplitNone(s, sep);
    } else {
      var i := idx.value;
      var a, rest := s[..i], s[i + 1..];
      SplitStep(s, sep, i);
      JoinSplit(rest, sep);
      JoinCons(a, Split(rest, sep), sep);
    }
  }

  lemma JoinCons(a: string, t: seq<string>, sep: char)
    requires |t| >= 1
    ensures Join([a] + t, sep) == a + [sep] + Join(t, sep)
  {
    assert ([a] + t)[0] == a && ([a] + t)[1..] == t;
  }

  /** The first chunk is a prefix of the input, and it runs at least as far as
      any leading text without the separator. */
  lemma SplitHead(a: string, sep: char, b: string)
    requires sep !in a
    ensures a <= Split(a + b, sep)[0] <= a + b
  {
    var s := a + b;
    var idx := IndexOf(s, sep);
    if idx.None? {
      SplitNone(s, sep);
    } else {
      var i := idx.value;
      SplitStep(s, sep, i);
      assert s[..i][..|a|] == a;
    }
  }

  /** Text without the separator is a single chunk; a separator after such a
      text ends the first chunk. */
  lemma SplitFirst(a: string, sep: char, b: string)
    requires sep !in a
    ensures Split(a, sep) == [a]
    ensures Split(a + [sep] + b, sep) == [a] + Split(b, sep)
  {
    SplitNone(a, sep);
    var s := a + [sep] + b;
    assert s[|a|] == sep && s[..|a|] == a && s[|a| + 1..] == b;
    assert IndexOf(s, sep) == Some(|a|);
    SplitStep(s, sep, |a|);
  }

  /** Joining separator-free chunks and splitting the result again gives the
      chunks back. */
  lemma {:induction false} SplitJoin(parts: seq<string>, sep: char)
    requires |parts| >= 1
    requires forall i :: 0 <= i < |parts| ==> sep !in parts[i]
    ensures Split(Join(parts, sep), sep) == parts
    decreases |parts|
  {
    if |parts| == 1 {
      SplitFirst(parts[0], sep, []);
    } else {
      var a, t := parts[0], parts[1..];
      forall i | 0 <= i < |t| ensures sep !in t[i] {
        assert t[i] == parts[i + 1];
      }
      SplitJoin(t, sep);
      var j := Join(t, sep);
      assert Join(parts, sep) == a + [sep] + j;
      SplitFirst(a, sep, j);
      assert parts == [a] + t;
    }
  }

  /** `parse_sdd_mm_and_sddd_mm_response`: the part before the first '&',
      with '#' appended, is a `sDD*MM#` reply and the part after it a
      `sDDD*MM#` reply. A reply without '&' has no second part, which the
      source indexes anyway; here it is rejected like any malformed reply. */
  function ParseSddMmAndSdddMm(resp: string): (r: Result<SddMmSdddMm>)
    ensures r.Err? ==> r.error == InvalidValue
    ensures '&' !in resp ==> r.Err?
    ensures r.Ok? ==> ValidSddMm(r.value.lat) && ValidSdddMm(r.value.long)
    ensures r.Ok? ==> |Split(resp, '&')| >= 2
    ensures r.Ok? ==> Format(SddMmReplyLayout, SddMmArgs(r.value.lat)) + "#" <= Split(resp, '&')[0] + "#"
    ensures r.Ok? ==> Format(SdddMmReplyLayout, SdddMmArgs(r.value.long)) + "#" <= Split(resp, '&')[1]
  {
    SplitCount(resp, '&');
    var parts := Split(resp, '&');
    if |parts| < 2 then Err(InvalidValue)
    else
      var lat :- ParseSddMm(parts[0] + "#");
      var long :- ParseSdddMm(parts[1]);
      Ok(SddMmSdddMm(lat, long))
  }

  /** A latitude and a longitude in their reply layouts, joined by '&' and
      terminated by '#', parse back to themselves. */
  lemma SddMmAndSdddMmRoundTrip(lat: SddMm, long: SdddMm, rest: string)
    requires ValidSddMm(lat) && ValidSdddMm(long)
    ensures ParseSddMmAndSdddMm(Format(SddMmReplyLayout, SddMmArgs(lat)) + "&" +
              Format(SdddMmReplyLayout, SdddMmArgs(long)) + "#" + rest)
            == Ok(SddMmSdddMm(lat, long))
  {
    var a := Format(SddMmReplyLayout, SddMmArgs(lat));
    var f := Format(SdddMmReplyLayout, SdddMmArgs(long));
    var b := f + "#" + rest;
    LatitudeChunk(lat, b);
    LongitudeChunk(long, rest);
    var x := a + ['&'];
    AppendAssoc(x + f, "#", rest);
    AppendAssoc(x, f, "#" + rest);
    AppendAssoc(f, "#", rest);
    assert a + "&" + f + "#" + rest == x + b;
    var parts := Split(a + ['&'] + b, '&');
    assert parts[0] == a && parts[1] == Split(b, '&')[0];
    CompoundParsed(a + ['&'] + b, lat, long);
  }

  /** A reply whose first two chunks parse is accepted with their values. */
  lemma CompoundParsed(resp: string, lat: SddMm, long: SdddMm)
    requires |Split(resp, '&')| >= 2
    requires ParseSddMm(Split(resp, '&')[0] + "#") == Ok(lat)
    requires ParseSdddMm(Split(resp, '&')[1]) == Ok(long)
    ensures ParseSddMmAndSdddMm(resp) == Ok(SddMmSdddMm(lat, long))
  {
  }

  /** Neither reply layout has a '&' of its own, and both are well formed. */
  lemma ReplyLayoutsAvoidAmpersand()
    ensures WellFormed(SddMmReplyLayout) && Exactly('&') !in SddMmReplyLayout
    ensures WellFormed(SdddMmReplyLayout) && Exactly('&') !in SdddMmReplyLayout
  {
  }

  lemma LatitudeChunk(lat: SddMm, b: string)
    requires ValidSddMm(lat)
    ensures var a := Format(SddMmReplyLayout, SddMmArgs(lat));
      Split(a + ['&'] + b, '&') == [a] + Split(b, '&') && ParseSddMm(a + "#") == Ok(lat)
  {
    var a := Format(SddMmReplyLayout, SddMmArgs(lat));
    SddMmArgsFit(lat);
    ReplyLayoutsAvoidAmpersand();
    FormatAvoids(SddMmReplyLayout, SddMmArgs(lat), '&');
    SplitFirst(a, '&', b);
    SddMmRoundTrip(lat, []);
    assert a + "#" + [] == a + "#";
  }

  lemma LongitudeChunk(long: SdddMm, rest: string)
    requires ValidSdddMm(long)
    ensures ParseSdddMm(Split(Format(SdddMmReplyLayout, SdddMmArgs(long)) + "#" + rest, '&')[0]) == Ok(long)
  {
    var f := Format(SdddMmReplyLayout, SdddMmArgs(long)) + "#";
    assert '&' !in f by {
      SdddMmArgsFit(long);
      ReplyLayoutsAvoidAmpersand();
      FormatAvoids(SdddMmReplyLayout, SdddMmArgs(long), '&');
    }
    var c := Split(f + rest, '&')[0];
    assert f <= c by {
      SplitHead(f, '&', rest);
    }
    var tail := c[|f|..];
    assert c == f + tail;
    SdddMmRoundTrip(long, tail);
  }
}
