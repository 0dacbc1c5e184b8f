/** The commands an LX200/OnStep mount is sent: fixed queries, and setters that
    check every argument against its range, throwing INVALID_VALUE for the
    first one out of range, and otherwise print the arguments zero-padded
    between a `:XX` prefix and a terminating '#'.

    A setter whose fields are those of a reply record prints them with that
    record's layout, so what it sends is exactly what the record's reply
    parser reads back. */
module OnStepCommands {
  import opened Wrappers
  import opened Text
  import opened Template
  import opened OnStepResponses

  predicate IsLetter(c: char) { 'a' <= c <= 'z' || 'A' <= c <= 'Z' }

  // ---------------------------------------------------------------------------
  // Queries without arguments

  datatype Query =
    | GetVersion
    | SwitchToEqMode
    | SwitchToAltAzMode
    | GetDate
    | GetTime
    | GetSiderealTime
    | GetDaylightSavings
    | GetTimezone
    | GetLatitude
    | GetLongitude
    | GetCurrentCardinalDirection
    | GetTargetRa
    | GetTargetDec
    | GetCurrentRa
    | GetCurrentDec
    | GetAzimuth
    | GetAltitude
    | Goto
    | StopMoving
    | Set05xSiderealRate
    | Set1xSiderealRate
    | Set720xSiderealRate
    | Set1440xSiderealRate
    | MoveTowardsEast
    | StopMovingTowardsEast
    | MoveTowardsWest
    | StopMovingTowardsWest
    | MoveTowardsNorth
    | StopMovingTowardsNorth
    | MoveTowardsSouth
    | StopMovingTowardsSouth
    | SetTrackingRateToSidereal
    | SetTrackingRateToSolar
    | SetTrackingRateToLunar
    | GetTrackingRate
    | StartTracking
    | StopTracking
    | GetTrackingStatus
    | GetGuideRate
    | GetActOfCrossingMeridian
    | Sync
    | HomePosition
    | GetStatus
    | Park
    | GetLatAndLong
    | GetDateAndTimeAndTz
    | GetTargetRaAndDec
    | GetCurrentRaAndDec
    | GetAzAndAlt

  /** Every query is a complete frame: ':', letters only, then '#'. */
  function QueryText(q: Query): (s: string)
    ensures 3 <= |s| && s[0] == ':' && s[|s| - 1] == '#'
    ensures forall i :: 1 <= i < |s| - 1 ==> IsLetter(s[i])
  {
    match q
    case GetVersion => ":GV#"
    case SwitchToEqMode => ":AP#"
    case SwitchToAltAzMode => ":AA#"
    case GetDate => ":GC#"
    case GetTime => ":GL#"
    case GetSiderealTime => ":GS#"
    case GetDaylightSavings => ":GH#"
    case GetTimezone => ":GG#"
    case GetLatitude => ":Gt#"
    case GetLongitude => ":Gg#"
    case GetCurrentCardinalDirection => ":Gm#"
    case GetTargetRa => ":Gr#"
    case GetTargetDec => ":Gd#"
    case GetCurrentRa => ":GR#"
    case GetCurrentDec => ":GD#"
    case GetAzimuth => ":GZ#"
    case GetAltitude => ":GA#"
    case Goto => ":MS#"
    case StopMoving => ":Q#"
    case Set05xSiderealRate => ":RG#"
    case Set1xSiderealRate => ":RC#"
    case Set720xSiderealRate => ":RM#"
    case Set1440xSiderealRate => ":RS#"
    case MoveTowardsEast => ":Me#"
    case StopMovingTowardsEast => ":Qe#"
    case MoveTowardsWest => ":Mw#"
    case StopMovingTowardsWest => ":Qw#"
    case MoveTowardsNorth => ":Mn#"
    case StopMovingTowardsNorth => ":Qn#"
    case MoveTowardsSouth => ":Ms#"
    case StopMovingTowardsSouth => ":Qs#"
    case SetTrackingRateToSidereal => ":TQ#"
    case SetTrackingRateToSolar => ":TS#"
    case SetTrackingRateToLunar => ":TL#"
    case GetTrackingRate => ":GT#"
    case StartTracking => ":Te#"
    case StopTracking => ":Td#"
    case GetTrackingStatus => ":GAT#"
    case GetGuideRate => ":Ggr#"
    case GetActOfCrossingMeridian => ":GTa#"
    case Sync => ":CM#"
    case HomePosition => ":hC#"
    case GetStatus => ":GU#"
    case Park => ":hP#"
    case GetLatAndLong => ":GMGE#"
    case GetDateAndTimeAndTz => ":GMTI#"
    case GetTargetRaAndDec => ":GMeq#"
    case GetCurrentRaAndDec => ":GMEQ#"
    case GetAzAndAlt => ":GMZA#"
  }

  /** What follows a command's prefix. */
  lemma Unframe(p: string, t: string)
    ensures (p + t)[|p|..] == t
  {
  }

  /** What lies between a command's prefix and its final '#'. */
  lemma Payload(p: string, x: string)
    ensures |p + (x + "#")| == |p| + |x| + 1
    ensures (p + (x + "#"))[|p|..|p| + |x|] == x
  {
    var v := p + (x + "#");
    assert v[|p|..] == x + "#";
    assert (x + "#")[..|x|] == x;
  }

  /** Text printed from a layout without '&' has no '&' in it. */
  lemma NoAmpersand(layout: seq<Tok>, g: seq<Group>)
    requires WellFormed(layout) && Fits(layout, g) && Exactly('&') !in layout
    ensures '&' !in Format(layout, g)
  {
    FormatAvoids(layout, g, '&');
  }

  // ---------------------------------------------------------------------------
  // Date, time and place

  /** `cmd_set_date`: the month must be 1-12, the day 1-31 whatever the month,
      the year 0-99. */
  function SetDate(mm: int, dd: int, yy: int): (r: Result<string>)
    ensures r.Ok? <==> 1 <= mm <= 12 && 1 <= dd <= 31 && 0 <= yy <= 99
    ensures r.Err? ==> r.error == InvalidValue
    ensures r.Ok? ==> r.value == ":SC" + (Pad(mm, 2) + "/" + Pad(dd, 2) + "/" + Pad(yy, 2) + "#")
    ensures r.Ok? ==> |r.value| == 12
  {
    if mm < 1 || mm > 12 then Err(InvalidValue)
    else if dd < 1 || dd > 31 then Err(InvalidValue)
    else if yy < 0 || yy > 99 then Err(InvalidValue)
    else
      var x := MmDdYy(mm, dd, yy);
      MmDdYyText(x);
      FieldDigits(mm, 2); FieldDigits(dd, 2); FieldDigits(yy, 2);
      Ok(":SC" + (FormatMmDdYy(x) + "#"))
  }

  /** The date a `:SC` command carries is what `parse_mm_dd_yy_response` reads
      back from it. */
  lemma SetDateReadBack(mm: int, dd: int, yy: int)
    requires SetDate(mm, dd, yy).Ok?
    ensures ParseMmDdYy(SetDate(mm, dd, yy).value[3..]) == Ok(MmDdYy(mm, dd, yy))
  {
    var x := MmDdYy(mm, dd, yy);
    var f := FormatMmDdYy(x);
    MmDdYyRoundTrip(x, "");
    assert f + "#" + "" == f + "#";
    Unframe(":SC", f + "#");
  }

  /** `cmd_set_time`: hours 0-23, minutes and seconds 0-59. */
  function SetTime(hh: int, mm: int, ss: int): (r: Result<string>)
    ensures r.Ok? <==> 0 <= hh <= 23 && 0 <= mm <= 59 && 0 <= ss <= 59
    ensures r.Err? ==> r.error == InvalidValue
    ensures r.Ok? ==> r.value == ":SL" + (Pad(hh, 2) + ":" + Pad(mm, 2) + ":" + Pad(ss, 2) + "#")
    ensures r.Ok? ==> |r.value| == 12
  {
    if hh < 0 || hh > 23 then Err(InvalidValue)
    else if mm < 0 || mm > 59 then Err(InvalidValue)
    else if ss < 0 || ss > 59 then Err(InvalidValue)
    else
      var x := HhMmSs(hh, mm, ss);
      HhMmSsText(x);
      FieldDigits(hh, 2); FieldDigits(mm, 2); FieldDigits(ss, 2);
      Ok(":SL" + (FormatHhMmSs(x) + "#"))
  }

  /** The time a `:SL` command carries is what `parse_hh_mm_ss_response` reads
      back from it. */
  lemma SetTimeReadBack(hh: int, mm: int, ss: int)
    requires SetTime(hh, mm, ss).Ok?
    ensures ParseHhMmSs(SetTime(hh, mm, ss).value[3..]) == Ok(HhMmSs(hh, mm, ss))
  {
    var x := HhMmSs(hh, mm, ss);
    var f := FormatHhMmSs(x);
    HhMmSsRoundTrip(x, "");
    assert f + "#" + "" == f + "#";
    Unframe(":SL", f + "#");
  }

  /** `cmd_set_timezone`: a '+' or '-', an hour offset 0-23 and a minute
      offset of 0 or 30. */
  function SetTimezone(sign: char, h: int, m: int): (r: Result<string>)
    ensures r.Ok? <==> IsSign(sign) && 0 <= h <= 23 && (m == 0 || m == 30)
    ensures r.Err? ==> r.error == InvalidValue
    ensures r.Ok? ==> r.value == ":SG" + ([sign] + Pad(h, 2) + ":" + Pad(m, 2) + "#")
    ensures r.Ok? ==> |r.value| == 10
  {
    if sign != '+' && sign != '-' then Err(InvalidValue)
    else if h < 0 || h > 23 then Err(InvalidValue)
    else if m != 0 && m != 30 then Err(InvalidValue)
    else
      var x := ShhMm(sign, h, m);
      ShhMmText(x);
      FieldDigits(h, 2); FieldDigits(m, 2);
      Ok(":SG" + (FormatShhMm(x) + "#"))
  }

  /** The offset a `:SG` command carries is what `parse_shh_mm_response` reads
      back from it. */
  lemma SetTimezoneReadBack(sign: char, h: int, m: int)
    requires SetTimezone(sign, h, m).Ok?
    ensures ParseShhMm(SetTimezone(sign, h, m).value[3..]) == Ok(ShhMm(sign, h, m))
  {
    var x := ShhMm(sign, h, m);
    var f := FormatShhMm(x);
    ShhMmRoundTrip(x, "");
    assert f + "#" + "" == f + "#";
    Unframe(":SG", f + "#");
  }

  /** `cmd_set_latitude`: a '+' or '-', degrees 0-90, minutes and seconds
      0-59. */
  function SetLatitude(sign: char, dd: int, mm: int, ss: int): (r: Result<string>)
    ensures r.Ok? <==> IsSign(sign) && 0 <= dd <= 90 && 0 <= mm <= 59 && 0 <= ss <= 59
    ensures r.Err? ==> r.error == InvalidValue
    ensures r.Ok? ==> r.value == ":St" + ([sign] + Pad(dd, 2) + "*" + Pad(mm, 2) + ":" + Pad(ss, 2) + "#")
    ensures r.Ok? ==> |r.value| == 13
  {
    if sign != '+' && sign != '-' then Err(InvalidValue)
    else if dd < 0 || dd > 90 then Err(InvalidValue)
    else if mm < 0 || mm > 59 then Err(InvalidValue)
    else if ss < 0 || ss > 59 then Err(InvalidValue)
    else
      var x := SddMmSs(sign, dd, mm, ss);
      SddMmSsText(x);
      FieldDigits(dd, 2); FieldDigits(mm, 2); FieldDigits(ss, 2);
      Ok(":St" + (FormatSddMmSs(x) + "#"))
  }

  /** The latitude a `:St` command carries is what `parse_sdd_mm_ss_response`
      reads back from it. */
  lemma SetLatitudeReadBack(sign: char, dd: int, mm: int, ss: int)
    requires SetLatitude(sign, dd, mm, ss).Ok?
    ensures ParseSddMmSs(SetLatitude(sign, dd, mm, ss).value[3..]) == Ok(SddMmSs(sign, dd, mm, ss))
  {
    var x := SddMmSs(sign, dd, mm, ss);
    var f := FormatSddMmSs(x);
    SddMmSsRoundTrip(x, "");
    assert f + "#" + "" == f + "#";
    Unframe(":St", f + "#");
  }

  /** `cmd_set_longitude`: a '+' or '-', degrees 0-180 printed with three
      digits, minutes and seconds 0-59. */
  function SetLongitude(sign: char, ddd: int, mm: int, ss: int): (r: Result<string>)
    ensures r.Ok? <==> IsSign(sign) && 0 <= ddd <= 180 && 0 <= mm <= 59 && 0 <= ss <= 59
    ensures r.Err? ==> r.error == InvalidValue
    ensures r.Ok? ==> r.value == ":Sg" + ([sign] + Pad(ddd, 3) + "*" + Pad(mm, 2) + ":" + Pad(ss, 2) + "#")
    ensures r.Ok? ==> |r.value| == 14
  {
    if sign != '+' && sign != '-' then Err(InvalidValue)
    else if ddd < 0 || ddd > 180 then Err(InvalidValue)
    else if mm < 0 || mm > 59 then Err(InvalidValue)
    else if ss < 0 || ss > 59 then Err(InvalidValue)
    else
      var x := SdddMmSs(sign, ddd, mm, ss);
      SdddMmSsReplyText(x);
      FieldDigits(ddd, 3); FieldDigits(mm, 2); FieldDigits(ss, 2);
      Ok(":Sg" + (Format(SdddMmSsReplyLayout, SdddMmSsArgs(x)) + "#"))
  }

  /** The longitude a `:Sg` command carries is what `parse_sddd_mm_ss_response`
      reads back from it. */
  lemma SetLongitudeReadBack(sign: char, ddd: int, mm: int, ss: int)
    requires SetLongitude(sign, ddd, mm, ss).Ok?
    ensures ParseSdddMmSs(SetLongitude(sign, ddd, mm, ss).value[3..]) == Ok(SdddMmSs(sign, ddd, mm, ss))
  {
    var x := SdddMmSs(sign, ddd, mm, ss);
    var f := Format(SdddMmSsReplyLayout, SdddMmSsArgs(x));
    SdddMmSsRoundTrip(x, "");
    assert f + "#" + "" == f + "#";
    Unframe(":Sg", f + "#");
  }

  /** `cmd_set_target_ra`: hours 0-23, minutes and seconds 0-59. */
  function SetTargetRa(hh: int, mm: int, ss: int): (r: Result<string>)
    ensures r.Ok? <==> 0 <= hh <= 23 && 0 <= mm <= 59 && 0 <= ss <= 59
    ensures r.Err? ==> r.error == InvalidValue
    ensures r.Ok? ==> r.value == ":Sr" + (Pad(hh, 2) + ":" + Pad(mm, 2) + ":" + Pad(ss, 2) + "#")
    ensures r.Ok? ==> |r.value| == 12
  {
    if hh < 0 || hh > 23 then Err(InvalidValue)
    else if mm < 0 || mm > 59 then Err(InvalidValue)
    else if ss < 0 || ss > 59 then Err(InvalidValue)
    else
      var x := HhMmSs(hh, mm, ss);
      HhMmSsText(x);
      FieldDigits(hh, 2); FieldDigits(mm, 2); FieldDigits(ss, 2);
      Ok(":Sr" + (FormatHhMmSs(x) + "#"))
  }

  /** The right ascension a `:Sr` command carries is what
      `parse_hh_mm_ss_response` reads back from it. */
  lemma SetTargetRaReadBack(hh: int, mm: int, ss: int)
    requires SetTargetRa(hh, mm, ss).Ok?
    ensures ParseHhMmSs(SetTargetRa(hh, mm, ss).value[3..]) == Ok(HhMmSs(hh, mm, ss))
  {
    var x := HhMmSs(hh, mm, ss);
    var f := FormatHhMmSs(x);
    HhMmSsRoundTrip(x, "");
    assert f + "#" + "" == f + "#";
    Unframe(":Sr", f + "#");
  }

  // ---------------------------------------------------------------------------
  // Target declination: degrees, minutes and seconds all separated by ':'

  const DecLayout: seq<Tok> :=
    [AnySign, Digits(2), Exactly(':'), Digits(2), Exactly(':'), Digits(2)]

  function DecArgs(sign: char, dd: int, mm: int, ss: int): seq<Group>
  {
    [SignGroup(sign), NumGroup(dd), NumGroup(mm), NumGroup(ss)]
  }

  /** The declination layout prints as `sDD:MM:SS`. */
  lemma DecText(sign: char, dd: int, mm: int, ss: int)
    ensures Format(DecLayout, DecArgs(sign, dd, mm, ss))
         == [sign] + Pad(dd, 2) + ":" + Pad(mm, 2) + ":" + Pad(ss, 2)
  {
    var e: seq<Tok> := [];
    var t5 := [Digits(2)] + e;
    var t4 := [Exactly(':')] + t5;
    var t3 := [Digits(2)] + t4;
    var t2 := [Exactly(':')] + t3;
    var t1 := [Digits(2)] + t2;
    var t0 := [AnySign] + t1;
    assert t0 == DecLayout;
    var g4: seq<Group> := [];
    var g3 := [NumGroup(ss)] + g4;
    var g2 := [NumGroup(mm)] + g3;
    var g1 := [NumGroup(dd)] + g2;
    var g0 := [SignGroup(sign)] + g1;
    assert g0 == DecArgs(sign, dd, mm, ss);
    FormatNum(ss, 2, e, g4);
    FormatLit(':', t5, g3);
    FormatNum(mm, 2, t4, g3);
    FormatLit(':', t3, g2);
    FormatNum(dd, 2, t2, g2);
    FormatSign(sign, t1, g1);
    assert Format(e, g4) == [];
    Chain6(Format(t0, g0), Format(t1, g1), Format(t2, g2), Format(t3, g2), Format(t4, g3), Format(t5, g3),
           [sign], Pad(dd, 2), ":", Pad(mm, 2), ":", Pad(ss, 2));
  }

  /** `cmd_set_target_dec`: a '+' or '-', degrees 0-90, minutes and seconds
      0-59. */
  function SetTargetDec(sign: char, dd: int, mm: int, ss: int): (r: Result<string>)
    ensures r.Ok? <==> IsSign(sign) && 0 <= dd <= 90 && 0 <= mm <= 59 && 0 <= ss <= 59
    ensures r.Err? ==> r.error == InvalidValue
    ensures r.Ok? ==> r.value == ":Sd" + ([sign] + Pad(dd, 2) + ":" + Pad(mm, 2) + ":" + Pad(ss, 2) + "#")
    ensures r.Ok? ==> |r.value| == 13
  {
    if sign != '+' && sign != '-' then Err(InvalidValue)
    else if dd < 0 || dd > 90 then Err(InvalidValue)
    else if mm < 0 || mm > 59 then Err(InvalidValue)
    else if ss < 0 || ss > 59 then Err(InvalidValue)
    else
      DecText(sign, dd, mm, ss);
      FieldDigits(dd, 2); FieldDigits(mm, 2); FieldDigits(ss, 2);
      Ok(":Sd" + (Format(DecLayout, DecArgs(sign, dd, mm, ss)) + "#"))
  }

  lemma DecArgsFit(sign: char, dd: int, mm: int, ss: int)
    requires IsSign(sign) && 0 <= dd < 100 && 0 <= mm < 100 && 0 <= ss < 100
    ensures WellFormed(DecLayout) && Fits(DecLayout, DecArgs(sign, dd, mm, ss))
  {
    assert Captures(DecLayout) == [AnySign, Digits(2), Digits(2), Digits(2)];
  }

  /** The regular expression of the declination layout and '#' reads the
      arguments of an accepted `:Sd` command back. */
  lemma SetTargetDecReadBack(sign: char, dd: int, mm: int, ss: int)
    requires SetTargetDec(sign, dd, mm, ss).Ok?
    ensures Match(DecLayout + [Exactly('#')], SetTargetDec(sign, dd, mm, ss).value[3..])
         == Some(DecArgs(sign, dd, mm, ss))
  {
    var g := DecArgs(sign, dd, mm, ss);
    var f := Format(DecLayout, g);
    DecArgsFit(sign, dd, mm, ss);
    TerminatedRoundTrip(DecLayout, g, '#', "");
    assert f + "#" + "" == f + "#";
    Unframe(":Sd", f + "#");
  }

  // ---------------------------------------------------------------------------
  // Daylight saving, slewing speed, guiding, meridian behaviour

  /** `cmd_set_daylight_savings`: only 0 (off) and 1 (on). */
  function SetDaylightSavings(onOrOff: int): (r: Result<string>)
    ensures r.Ok? <==> onOrOff == 0 || onOrOff == 1
    ensures r.Err? ==> r.error == InvalidValue
    ensures r.Ok? ==> r.value == if onOrOff == 1 then ":SH1#" else ":SH0#"
  {
    if onOrOff < 0 || onOrOff > 1 then Err(InvalidValue)
    else
      assert Signed(onOrOff) == [DigitChar(onOrOff)];
      Ok(":SH" + (Signed(onOrOff) + "#"))
  }

  /** `move_speed_enum`: ten slewing speeds, from a quarter of sidereal rate to
      1440 times it. */
  datatype MoveSpeed =
    | Speed0_25x | Speed0_5x | Speed1x | Speed2x | Speed4x
    | Speed8x | Speed20x | Speed60x | Speed720x | Speed1440x

  /** The enumerator's underlying value. */
  function SpeedCode(s: MoveSpeed): (n: int)
    ensures 0 <= n <= 9
  {
    match s
    case Speed0_25x => 0
    case Speed0_5x => 1
    case Speed1x => 2
    case Speed2x => 3
    case Speed4x => 4
    case Speed8x => 5
    case Speed20x => 6
    case Speed60x => 7
    case Speed720x => 8
    case Speed1440x => 9
  }

  /** The enumerator with a given underlying value, if there is one. */
  function SpeedOf(n: int): (r: Option<MoveSpeed>)
    ensures r.Some? <==> 0 <= n <= 9
    ensures r.Some? ==> SpeedCode(r.value) == n
  {
    if n == 0 then Some(Speed0_25x)
    else if n == 1 then Some(Speed0_5x)
    else if n == 2 then Some(Speed1x)
    else if n == 3 then Some(Speed2x)
    else if n == 4 then Some(Speed4x)
    else if n == 5 then Some(Speed8x)
    else if n == 6 then Some(Speed20x)
    else if n == 7 then Some(Speed60x)
    else if n == 8 then Some(Speed720x)
    else if n == 9 then Some(Speed1440x)
    else None
  }

  /** The enumerators are exactly the values 0-9, one each. */
  lemma SpeedOfCode(s: MoveSpeed)
    ensures SpeedOf(SpeedCode(s)) == Some(s)
  {
  }

  /** `cmd_set_moving_speed`: the underlying value must be 0-9 and is sent as
      its single digit. */
  function SetMovingSpeed(speed: int): (r: Result<string>)
    ensures r.Ok? <==> SpeedOf(speed).Some?
    ensures r.Err? ==> r.error == InvalidValue
    ensures r.Ok? ==> r.value == ":R" + [DigitChar(speed), '#']
  {
    if speed < 0 || speed > 9 then Err(InvalidValue)
    else
      assert Signed(speed) == [DigitChar(speed)];
      Ok(":R" + (Signed(speed) + "#"))
  }

  /** Every enumerator gets a command. */
  lemma EverySpeedAccepted(s: MoveSpeed)
    ensures SetMovingSpeed(SpeedCode(s)).Ok?
  {
  }

  /** The direction letter, then the rate in four digits. */
  function GuideLayout(direction: char): seq<Tok> { [Exactly(direction), Digits(4)] }

  lemma GuideText(direction: char, rate: int)
    ensures Format(GuideLayout(direction), [NumGroup(rate)]) == [direction] + Pad(rate, 4)
  {
    var e: seq<Tok> := [];
    var t1 := [Digits(4)] + e;
    var g: seq<Group> := [];
    assert [NumGroup(rate)] == [NumGroup(rate)] + g;
    FormatNum(rate, 4, e, g);
    FormatLit(direction, t1, [NumGroup(rate)]);
    assert GuideLayout(direction) == [Exactly(direction)] + t1;
    assert Format(e, g) == [];
    assert Pad(rate, 4) + [] == Pad(rate, 4);
  }

  /** `cmd_guide`: the direction must be 'e', 'w', 'n' or 's', the rate 0-3000
      milliseconds. */
  function Guide(direction: char, rate: int): (r: Result<string>)
    ensures r.Ok? <==> (direction == 'e' || direction == 'w' || direction == 'n' || direction == 's') &&
                       0 <= rate <= 3000
    ensures r.Err? ==> r.error == InvalidValue
    ensures r.Ok? ==> r.value == ":Mg" + ([direction] + Pad(rate, 4) + "#")
    ensures r.Ok? ==> |r.value| == 9
  {
    if direction != 'e' && direction != 'w' && direction != 'n' && direction != 's' then
      Err(InvalidValue)
    else if rate < 0 || rate > 3000 then Err(InvalidValue)
    else
      GuideText(direction, rate);
      FieldDigits(rate, 4);
      Ok(":Mg" + (Format(GuideLayout(direction), [NumGroup(rate)]) + "#"))
  }

  /** The four characters after the direction are the digits of the rate. */
  lemma GuideReadBack(direction: char, rate: int)
    requires Guide(direction, rate).Ok?
    ensures Match(GuideLayout(direction) + [Exactly('#')], Guide(direction, rate).value[3..])
         == Some([NumGroup(rate)])
  {
    var g := [NumGroup(rate)];
    var f := Format(GuideLayout(direction), g);
    assert Captures(GuideLayout(direction)) == [Digits(4)];
    TerminatedRoundTrip(GuideLayout(direction), g, '#', "");
    assert f + "#" + "" == f + "#";
    Unframe(":Mg", f + "#");
  }

  /** Whether to flip at the meridian (one digit), whether to keep tracking
      after it (one digit), and the signed limit angle (two digits). */
  const MeridianLayout: seq<Tok> := [Digits(1), Digits(1), AnySign, Digits(2)]

  function MeridianArgs(flip: int, track: int, sign: char, limit: int): seq<Group>
  {
    [NumGroup(flip), NumGroup(track), SignGroup(sign), NumGroup(limit)]
  }

  /** Flags of one digit, a sign and a two-digit limit fit the layout. */
  lemma MeridianArgsFit(flip: int, track: int, sign: char, limit: int)
    requires 0 <= flip <= 1 && 0 <= track <= 1 && IsSign(sign) && 0 <= limit <= 15
    ensures WellFormed(MeridianLayout) && Fits(MeridianLayout, MeridianArgs(flip, track, sign, limit))
  {
    assert Captures(MeridianLayout) == [Digits(1), Digits(1), AnySign, Digits(2)];
    assert Pow10(1) == 10 && Pow10(2) == 100;
  }

  lemma MeridianText(flip: int, track: int, sign: char, limit: int)
    ensures Format(MeridianLayout, MeridianArgs(flip, track, sign, limit))
         == Pad(flip, 1) + Pad(track, 1) + [sign] + Pad(limit, 2)
  {
    var e: seq<Tok> := [];
    var t3 := [Digits(2)] + e;
    var t2 := [AnySign] + t3;
    var t1 := [Digits(1)] + t2;
    var t0 := [Digits(1)] + t1;
    assert t0 == MeridianLayout;
    var g4: seq<Group> := [];
    var g3 := [NumGroup(limit)] + g4;
    var g2 := [SignGroup(sign)] + g3;
    var g1 := [NumGroup(track)] + g2;
    var g0 := [NumGroup(flip)] + g1;
    assert g0 == MeridianArgs(flip, track, sign, limit);
    FormatNum(limit, 2, e, g4);
    FormatSign(sign, t3, g3);
    FormatNum(track, 1, t2, g2);
    FormatNum(flip, 1, t1, g1);
    assert Format(e, g4) == [];
    Chain4(Format(t0, g0), Format(t1, g1), Format(t2, g2), Format(t3, g3),
           Pad(flip, 1), Pad(track, 1), [sign], Pad(limit, 2));
  }

  /** `cmd_set_act_of_crossing_meridian`: both flags 0 or 1, a '+' or '-', and
      a limit angle 0-15. */
  function SetActOfCrossingMeridian(flip: int, track: int, sign: char, limit: int): (r: Result<string>)
    ensures r.Ok? <==> (flip == 0 || flip == 1) && (track == 0 || track == 1) && IsSign(sign) &&
                       0 <= limit <= 15
    ensures r.Err? ==> r.error == InvalidValue
    ensures r.Ok? ==> r.value == ":STa" + ([DigitChar(flip)] + [DigitChar(track)] + [sign] + Pad(limit, 2) + "#")
    ensures r.Ok? ==> |r.value| == 10
  {
    if flip != 0 && flip != 1 then Err(InvalidValue)
    else if track != 0 && track != 1 then Err(InvalidValue)
    else if sign != '+' && sign != '-' then Err(InvalidValue)
    else if limit < 0 || limit > 15 then Err(InvalidValue)
    else
      MeridianText(flip, track, sign, limit);
      assert Pad(flip, 1) == [DigitChar(flip)] && Pad(track, 1) == [DigitChar(track)];
      FieldDigits(limit, 2);
      Ok(":STa" + (Format(MeridianLayout, MeridianArgs(flip, track, sign, limit)) + "#"))
  }

  /** The regular expression of the meridian layout and '#' reads the
      arguments of an accepted `:STa` command back. */
  lemma SetActOfCrossingMeridianReadBack(flip: int, track: int, sign: char, limit: int)
    requires SetActOfCrossingMeridian(flip, track, sign, limit).Ok?
    ensures Match(MeridianLayout + [Exactly('#')], SetActOfCrossingMeridian(flip, track, sign, limit).value[4..])
         == Some(MeridianArgs(flip, track, sign, limit))
  {
    var g := MeridianArgs(flip, track, sign, limit);
    var f := Format(MeridianLayout, g);
    MeridianArgsFit(flip, track, sign, limit);
    TerminatedRoundTrip(MeridianLayout, g, '#', "");
    assert f + "#" + "" == f + "#";
    assert SetActOfCrossingMeridian(flip, track, sign, limit).value == ":STa" + (f + "#");
    Unframe(":STa", f + "#");
  }

  // ---------------------------------------------------------------------------
  // Compound setters: several records joined by '&'

  /** Two '&'-free pieces joined by '&' split back into the two. */
  lemma SplitPair(a: string, b: string)
    requires '&' !in a && '&' !in b
    ensures Split(a + "&" + b, '&') == [a, b]
  {
    SplitFirst(a, '&', b);
    SplitFirst(b, '&', []);
  }

  lemma SddMmSsNoAmpersand(x: SddMmSs)
    requires ValidSddMmSs(x)
    ensures '&' !in FormatSddMmSs(x)
  {
    SddMmSsArgsFit(x);
    NoAmpersand(SddMmSsLayout, SddMmSsArgs(x));
  }

  lemma SdddMmSsNoAmpersand(x: SdddMmSs)
    requires ValidSdddMmSs(x)
    ensures '&' !in Format(SdddMmSsReplyLayout, SdddMmSsArgs(x))
  {
    PatternsAreTerminatedLayouts();
    SdddMmSsArgsFit(x);
    NoAmpersand(SdddMmSsReplyLayout, SdddMmSsArgs(x));
  }

  lemma SddMmSsWidth(x: SddMmSs)
    requires ValidSddMmSs(x)
    ensures |FormatSddMmSs(x)| == 9
  {
    SddMmSsArgsFit(x);
    FormatMatches(SddMmSsLayout, SddMmSsArgs(x));
  }

  lemma SdddMmSsWidth(x: SdddMmSs)
    requires ValidSdddMmSs(x)
    ensures |Format(SdddMmSsReplyLayout, SdddMmSsArgs(x))| == 10
  {
    PatternsAreTerminatedLayouts();
    SdddMmSsArgsFit(x);
    FormatMatches(SdddMmSsReplyLayout, SdddMmSsArgs(x));
  }

  /** `cmd_set_lat_and_long`: the latitude as `cmd_set_latitude` checks it, then
      the longitude as `cmd_set_longitude` does. */
  function SetLatAndLong(latSign: char, latDd: int, latMm: int, latSs: int,
                         longSign: char, longDdd: int, longMm: int, longSs: int): (r: Result<string>)
    ensures r.Ok? <==> SetLatitude(latSign, latDd, latMm, latSs).Ok? &&
                       SetLongitude(longSign, longDdd, longMm, longSs).Ok?
    ensures r.Err? ==> r.error == InvalidValue
    ensures r.Ok? ==> |r.value| == 26
  {
    if latSign != '+' && latSign != '-' then Err(InvalidValue)
    else if latDd < 0 || latDd > 90 then Err(InvalidValue)
    else if latMm < 0 || latMm > 59 then Err(InvalidValue)
    else if latSs < 0 || latSs > 59 then Err(InvalidValue)
    else if longSign != '+' && longSign != '-' then Err(InvalidValue)
    else if longDdd < 0 || longDdd > 180 then Err(InvalidValue)
    else if longMm < 0 || longMm > 59 then Err(InvalidValue)
    else if longSs < 0 || longSs > 59 then Err(InvalidValue)
    else
      var lat, long := SddMmSs(latSign, latDd, latMm, latSs), SdddMmSs(longSign, longDdd, longMm, longSs);
      var a, b := FormatSddMmSs(lat), Format(SdddMmSsReplyLayout, SdddMmSsArgs(long));
      SddMmSsWidth(lat);
      SdddMmSsWidth(long);
      Ok(":SMGE" + (a + "&" + b + "#"))
  }

  /** An accepted `:SMGE` command is the latitude and the longitude, each as its
      own setter prints it, joined by '&'. */
  lemma SetLatAndLongText(latSign: char, latDd: int, latMm: int, latSs: int,
                          longSign: char, longDdd: int, longMm: int, longSs: int)
    requires SetLatAndLong(latSign, latDd, latMm, latSs, longSign, longDdd, longMm, longSs).Ok?
    ensures SetLatAndLong(latSign, latDd, latMm, latSs, longSign, longDdd, longMm, longSs).value ==
      ":SMGE" + (([latSign] + Pad(latDd, 2) + "*" + Pad(latMm, 2) + ":" + Pad(latSs, 2)) + "&" +
                 ([longSign] + Pad(longDdd, 3) + "*" + Pad(longMm, 2) + ":" + Pad(longSs, 2)) + "#")
  {
    SddMmSsText(SddMmSs(latSign, latDd, latMm, latSs));
    SdddMmSsReplyText(SdddMmSs(longSign, longDdd, longMm, longSs));
  }

  /** Split on '&', the payload of an accepted `:SMGE` command is the latitude
      and the longitude, which the reply parsers read back. */
  lemma SetLatAndLongReadBack(latSign: char, latDd: int, latMm: int, latSs: int,
                              longSign: char, longDdd: int, longMm: int, longSs: int)
    requires SetLatAndLong(latSign, latDd, latMm, latSs, longSign, longDdd, longMm, longSs).Ok?
    ensures var v := SetLatAndLong(latSign, latDd, latMm, latSs, longSign, longDdd, longMm, longSs).value;
            var parts := Split(v[5..|v| - 1], '&');
            |parts| == 2 &&
            ParseSddMmSs(parts[0] + "#") == Ok(SddMmSs(latSign, latDd, latMm, latSs)) &&
            ParseSdddMmSs(parts[1] + "#") == Ok(SdddMmSs(longSign, longDdd, longMm, longSs))
  {
    var lat, long := SddMmSs(latSign, latDd, latMm, latSs), SdddMmSs(longSign, longDdd, longMm, longSs);
    var a, b := FormatSddMmSs(lat), Format(SdddMmSsReplyLayout, SdddMmSsArgs(long));
    Payload(":SMGE", a + "&" + b);
    SddMmSsNoAmpersand(lat);
    SdddMmSsNoAmpersand(long);
    SplitPair(a, b);
    SddMmSsRoundTrip(lat, "");
    SdddMmSsRoundTrip(long, "");
    assert a + "#" + "" == a + "#" && b + "#" + "" == b + "#";
  }

  lemma MmDdYyWidth(x: MmDdYy)
    requires ValidMmDdYy(x)
    ensures |FormatMmDdYy(x)| == 8
  {
    MmDdYyArgsFit(x);
    FormatMatches(MmDdYyLayout, MmDdYyArgs(x));
  }

  lemma HhMmSsWidth(x: HhMmSs)
    requires ValidHhMmSs(x)
    ensures |FormatHhMmSs(x)| == 8
  {
    HhMmSsArgsFit(x);
    FormatMatches(HhMmSsLayout, HhMmSsArgs(x));
  }

  lemma ShhMmWidth(x: ShhMm)
    requires ValidShhMm(x)
    ensures |FormatShhMm(x)| == 6
  {
    ShhMmArgsFit(x);
    FormatMatches(ShhMmLayout, ShhMmArgs(x));
  }

  lemma MmDdYyNoAmpersand(x: MmDdYy)
    requires ValidMmDdYy(x)
    ensures '&' !in FormatMmDdYy(x)
  {
    MmDdYyArgsFit(x);
    NoAmpersand(MmDdYyLayout, MmDdYyArgs(x));
  }

  lemma HhMmSsNoAmpersand(x: HhMmSs)
    requires ValidHhMmSs(x)
    ensures '&' !in FormatHhMmSs(x)
  {
    HhMmSsArgsFit(x);
    NoAmpersand(HhMmSsLayout, HhMmSsArgs(x));
  }

  lemma ShhMmNoAmpersand(x: ShhMm)
    requires ValidShhMm(x)
    ensures '&' !in FormatShhMm(x)
  {
    ShhMmArgsFit(x);
    NoAmpersand(ShhMmLayout, ShhMmArgs(x));
  }

  /** Three '&'-free pieces joined by '&' split back into the three. */
  lemma SplitTriple(a: string, b: string, c: string)
    requires '&' !in a && '&' !in b && '&' !in c
    ensures Split(a + "&" + b + "&" + c, '&') == [a, b, c]
  {
    assert a + "&" + b + "&" + c == a + "&" + (b + "&" + c);
    SplitFirst(a, '&', b + "&" + c);
    SplitPair(b, c);
  }

  /** `cmd_set_date_time_and_tz`: the date as `cmd_set_date` checks it, the time
      as `cmd_set_time` does and the offset as `cmd_set_timezone` does. */
  function SetDateTimeAndTz(dateMm: int, dateDd: int, dateYy: int,
                            timeHh: int, timeMm: int, timeSs: int,
                            tzSign: char, tzHh: int, tzMm: int): (r: Result<string>)
    ensures r.Ok? <==> SetDate(dateMm, dateDd, dateYy).Ok? && SetTime(timeHh, timeMm, timeSs).Ok? &&
                       SetTimezone(tzSign, tzHh, tzMm).Ok?
    ensures r.Err? ==> r.error == InvalidValue
    ensures r.Ok? ==> |r.value| == 30
  {
    if dateMm < 1 || dateMm > 12 then Err(InvalidValue)
    else if dateDd < 1 || dateDd > 31 then Err(InvalidValue)
    else if dateYy < 0 || dateYy > 99 then Err(InvalidValue)
    else if timeHh < 0 || timeHh > 23 then Err(InvalidValue)
    else if timeMm < 0 || timeMm > 59 then Err(InvalidValue)
    else if timeSs < 0 || timeSs > 59 then Err(InvalidValue)
    else if tzSign != '+' && tzSign != '-' then Err(InvalidValue)
    else if tzHh < 0 || tzHh > 23 then Err(InvalidValue)
    else if tzMm != 0 && tzMm != 30 then Err(InvalidValue)
    else
      var d, t, z := MmDdYy(dateMm, dateDd, dateYy), HhMmSs(timeHh, timeMm, timeSs), ShhMm(tzSign, tzHh, tzMm);
      MmDdYyWidth(d);
      HhMmSsWidth(t);
      ShhMmWidth(z);
      Ok(":SMTI" + (FormatMmDdYy(d) + "&" + FormatHhMmSs(t) + "&" + FormatShhMm(z) + "#"))
  }

  /** An accepted `:SMTI` command is the date, the time and the offset, each as
      its own setter prints it, joined by '&'. */
  lemma SetDateTimeAndTzText(dateMm: int, dateDd: int, dateYy: int,
                             timeHh: int, timeMm: int, timeSs: int,
                             tzSign: char, tzHh: int, tzMm: int)
    requires SetDateTimeAndTz(dateMm, dateDd, dateYy, timeHh, timeMm, timeSs, tzSign, tzHh, tzMm).Ok?
    ensures SetDateTimeAndTz(dateMm, dateDd, dateYy, timeHh, timeMm, timeSs, tzSign, tzHh, tzMm).value ==
      ":SMTI" + ((Pad(dateMm, 2) + "/" + Pad(dateDd, 2) + "/" + Pad(dateYy, 2)) + "&" +
                 (Pad(timeHh, 2) + ":" + Pad(timeMm, 2) + ":" + Pad(timeSs, 2)) + "&" +
                 ([tzSign] + Pad(tzHh, 2) + ":" + Pad(tzMm, 2)) + "#")
  {
    MmDdYyText(MmDdYy(dateMm, dateDd, dateYy));
    HhMmSsText(HhMmSs(timeHh, timeMm, timeSs));
    ShhMmText(ShhMm(tzSign, tzHh, tzMm));
  }

  /** Split on '&', the payload of an accepted `:SMTI` command is the date, the
      time and the offset, which the reply parsers read back. */
  lemma SetDateTimeAndTzReadBack(dateMm: int, dateDd: int, dateYy: int,
                                 timeHh: int, timeMm: int, timeSs: int,
                                 tzSign: char, tzHh: int, tzMm: int)
    requires SetDateTimeAndTz(dateMm, dateDd, dateYy, timeHh, timeMm, timeSs, tzSign, tzHh, tzMm).Ok?
    ensures var v := SetDateTimeAndTz(dateMm, dateDd, dateYy, timeHh, timeMm, timeSs, tzSign, tzHh, tzMm).value;
            var parts := Split(v[5..|v| - 1], '&');
            |parts| == 3 &&
            ParseMmDdYy(parts[0] + "#") == Ok(MmDdYy(dateMm, dateDd, dateYy)) &&
            ParseHhMmSs(parts[1] + "#") == Ok(HhMmSs(timeHh, timeMm, timeSs)) &&
            ParseShhMm(parts[2] + "#") == Ok(ShhMm(tzSign, tzHh, tzMm))
  {
    var d, t, z := MmDdYy(dateMm, dateDd, dateYy), HhMmSs(timeHh, timeMm, timeSs), ShhMm(tzSign, tzHh, tzMm);
    var a, b, c := FormatMmDdYy(d), FormatHhMmSs(t), FormatShhMm(z);
    assert SetDateTimeAndTz(dateMm, dateDd, dateYy, timeHh, timeMm, timeSs, tzSign, tzHh, tzMm).value ==
      ":SMTI" + (a + "&" + b + "&" + c + "#");
    Payload(":SMTI", a + "&" + b + "&" + c);
    MmDdYyNoAmpersand(d);
    HhMmSsNoAmpersand(t);
    ShhMmNoAmpersand(z);
    SplitTriple(a, b, c);
    MmDdYyRoundTrip(d, "");
    HhMmSsRoundTrip(t, "");
    ShhMmRoundTrip(z, "");
    assert a + "#" + "" == a + "#" && b + "#" + "" == b + "#" && c + "#" + "" == c + "#";
  }

  /** The '&'-joined right ascension and declination split back into the two
      records. */
  lemma RaAndDecPayload(ra: HhMmSs, dec: SddMmSs)
    requires ValidHhMmSs(ra) && ValidSddMmSs(dec)
    ensures var parts := Split(FormatHhMmSs(ra) + "&" + FormatSddMmSs(dec), '&');
            |parts| == 2 && ParseHhMmSs(parts[0] + "#") == Ok(ra) && ParseSddMmSs(parts[1] + "#") == Ok(dec)
  {
    var a, b := FormatHhMmSs(ra), FormatSddMmSs(dec);
    HhMmSsNoAmpersand(ra);
    SddMmSsNoAmpersand(dec);
    SplitPair(a, b);
    HhMmSsRoundTrip(ra, "");
    SddMmSsRoundTrip(dec, "");
    assert a + "#" + "" == a + "#" && b + "#" + "" == b + "#";
  }

  /** `cmd_set_target_ra_and_dec_and_goto`: the right ascension as `cmd_set_target_ra` checks it and the
      declination as `cmd_set_target_dec` does, though the declination is
      printed with '*' after the degrees. */
  function SetTargetRaAndDecAndGoto(raHh: int, raMm: int, raSs: int, decSign: char, decDd: int, decMm: int, decSs: int): (r: Result<string>)
    ensures r.Ok? <==> SetTargetRa(raHh, raMm, raSs).Ok? && SetTargetDec(decSign, decDd, decMm, decSs).Ok?
    ensures r.Err? ==> r.error == InvalidValue
    ensures r.Ok? ==> |r.value| == 24
  {
    if raHh < 0 || raHh > 23 then Err(InvalidValue)
    else if raMm < 0 || raMm > 59 then Err(InvalidValue)
    else if raSs < 0 || raSs > 59 then Err(InvalidValue)
    else if decSign != '+' && decSign != '-' then Err(InvalidValue)
    else if decDd < 0 || decDd > 90 then Err(InvalidValue)
    else if decMm < 0 || decMm > 59 then Err(InvalidValue)
    else if decSs < 0 || decSs > 59 then Err(InvalidValue)
    else
      var ra, dec := HhMmSs(raHh, raMm, raSs), SddMmSs(decSign, decDd, decMm, decSs);
      HhMmSsWidth(ra);
      SddMmSsWidth(dec);
      Ok(":SMeq" + (FormatHhMmSs(ra) + "&" + FormatSddMmSs(dec) + "#"))
  }

  lemma SetTargetRaAndDecAndGotoText(raHh: int, raMm: int, raSs: int, decSign: char, decDd: int, decMm: int, decSs: int)
    requires SetTargetRaAndDecAndGoto(raHh, raMm, raSs, decSign, decDd, decMm, decSs).Ok?
    ensures SetTargetRaAndDecAndGoto(raHh, raMm, raSs, decSign, decDd, decMm, decSs).value ==
      ":SMeq" + ((Pad(raHh, 2) + ":" + Pad(raMm, 2) + ":" + Pad(raSs, 2)) + "&" +
                 ([decSign] + Pad(decDd, 2) + "*" + Pad(decMm, 2) + ":" + Pad(decSs, 2)) + "#")
  {
    HhMmSsText(HhMmSs(raHh, raMm, raSs));
    SddMmSsText(SddMmSs(decSign, decDd, decMm, decSs));
  }

  /** Split on '&', the payload is the right ascension and the declination,
      which the reply parsers read back. */
  lemma SetTargetRaAndDecAndGotoReadBack(raHh: int, raMm: int, raSs: int, decSign: char, decDd: int, decMm: int, decSs: int)
    requires SetTargetRaAndDecAndGoto(raHh, raMm, raSs, decSign, decDd, decMm, decSs).Ok?
    ensures var v := SetTargetRaAndDecAndGoto(raHh, raMm, raSs, decSign, decDd, decMm, decSs).value;
            var parts := Split(v[5..|v| - 1], '&');
            |parts| == 2 &&
            ParseHhMmSs(parts[0] + "#") == Ok(HhMmSs(raHh, raMm, raSs)) &&
            ParseSddMmSs(parts[1] + "#") == Ok(SddMmSs(decSign, decDd, decMm, decSs))
  {
    var ra, dec := HhMmSs(raHh, raMm, raSs), SddMmSs(decSign, decDd, decMm, decSs);
    var x := FormatHhMmSs(ra) + "&" + FormatSddMmSs(dec);
    assert SetTargetRaAndDecAndGoto(raHh, raMm, raSs, decSign, decDd, decMm, decSs).value == ":SMeq" + (x + "#");
    Payload(":SMeq", x);
    RaAndDecPayload(ra, dec);
  }

  /** `cmd_set_target_ra_and_dec_and_sync`: the right ascension as `cmd_set_target_ra` checks it and the
      declination as `cmd_set_target_dec` does, though the declination is
      printed with '*' after the degrees. */
  function SetTargetRaAndDecAndSync(raHh: int, raMm: int, raSs: int, decSign: char, decDd: int, decMm: int, decSs: int): (r: Result<string>)
    ensures r.Ok? <==> SetTargetRa(raHh, raMm, raSs).Ok? && SetTargetDec(decSign, decDd, decMm, decSs).Ok?
    ensures r.Err? ==> r.error == InvalidValue
    ensures r.Ok? ==> |r.value| == 24
  {
    if raHh < 0 || raHh > 23 then Err(InvalidValue)
    else if raMm < 0 || raMm > 59 then Err(InvalidValue)
    else if raSs < 0 || raSs > 59 then Err(InvalidValue)
    else if decSign != '+' && decSign != '-' then Err(InvalidValue)
    else if decDd < 0 || decDd > 90 then Err(InvalidValue)
    else if decMm < 0 || decMm > 59 then Err(InvalidValue)
    else if decSs < 0 || decSs > 59 then Err(InvalidValue)
    else
      var ra, dec := HhMmSs(raHh, raMm, raSs), SddMmSs(decSign, decDd, decMm, decSs);
      HhMmSsWidth(ra);
      SddMmSsWidth(dec);
      Ok(":SMMC" + (FormatHhMmSs(ra) + "&" + FormatSddMmSs(dec) + "#"))
  }

  lemma SetTargetRaAndDecAndSyncText(raHh: int, raMm: int, raSs: int, decSign: char, decDd: int, decMm: int, decSs: int)
    requires SetTargetRaAndDecAndSync(raHh, raMm, raSs, decSign, decDd, decMm, decSs).Ok?
    ensures SetTargetRaAndDecAndSync(raHh, raMm, raSs, decSign, decDd, decMm, decSs).value ==
      ":SMMC" + ((Pad(raHh, 2) + ":" + Pad(raMm, 2) + ":" + Pad(raSs, 2)) + "&" +
                 ([decSign] + Pad(decDd, 2) + "*" + Pad(decMm, 2) + ":" + Pad(decSs, 2)) + "#")
  {
    HhMmSsText(HhMmSs(raHh, raMm, raSs));
    SddMmSsText(SddMmSs(decSign, decDd, decMm, decSs));
  }

  /** Split on '&', the payload is the right ascension and the declination,
      which the reply parsers read back. */
  lemma SetTargetRaAndDecAndSyncReadBack(raHh: int, raMm: int, raSs: int, decSign: char, decDd: int, decMm: int, decSs: int)
    requires SetTargetRaAndDecAndSync(raHh, raMm, raSs, decSign, decDd, decMm, decSs).Ok?
    ensures var v := SetTargetRaAndDecAndSync(raHh, raMm, raSs, decSign, decDd, decMm, decSs).value;
            var parts := Split(v[5..|v| - 1], '&');
            |parts| == 2 &&
            ParseHhMmSs(parts[0] + "#") == Ok(HhMmSs(raHh, raMm, raSs)) &&
            ParseSddMmSs(parts[1] + "#") == Ok(SddMmSs(decSign, decDd, decMm, decSs))
  {
    var ra, dec := HhMmSs(raHh, raMm, raSs), SddMmSs(decSign, decDd, decMm, decSs);
    var x := FormatHhMmSs(ra) + "&" + FormatSddMmSs(dec);
    assert SetTargetRaAndDecAndSync(raHh, raMm, raSs, decSign, decDd, decMm, decSs).value == ":SMMC" + (x + "#");
    Payload(":SMMC", x);
    RaAndDecPayload(ra, dec);
  }
}
