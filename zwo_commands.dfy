/** The commands of the `zwo_commands` namespace for the ZWO AM5 mount. Its
    queries are OnStep's, character for character, and so are its date and
    time setters, which check their ranges exactly as `OnStepCommands.SetDate`
    and `OnStepCommands.SetTime` do. The other setters print their arguments
    without any range check: the daylight-saving flag with `{}`, and the
    offset, latitude, longitude and right ascension zero-padded. */
module ZwoCommands {
  import opened Wrappers
  import opened Text
  import opened OnStepResponses
  import OnStepCommands
  import opened Template

  // ---------------------------------------------------------------------------
  // Queries

  datatype ZwoQuery =
    | GetDate
    | SwitchToEqMode
    | SwitchToAltAzMode
    | GetTime
    | GetSiderealTime
    | GetDaylightSavings
    | GetTimezone
    | GetLatitude
    | GetLongitude
    | GetCurrentCardinalDirection

  /** The OnStep query of the same name. */
  function AsOnStep(q: ZwoQuery): OnStepCommands.Query
  {
    match q
    case GetDate => OnStepCommands.GetDate
    case SwitchToEqMode => OnStepCommands.SwitchToEqMode
    case SwitchToAltAzMode => OnStepCommands.SwitchToAltAzMode
    case GetTime => OnStepCommands.GetTime
    case GetSiderealTime => OnStepCommands.GetSiderealTime
    case GetDaylightSavings => OnStepCommands.GetDaylightSavings
    case GetTimezone => OnStepCommands.GetTimezone
    case GetLatitude => OnStepCommands.GetLatitude
    case GetLongitude => OnStepCommands.GetLongitude
    case GetCurrentCardinalDirection => OnStepCommands.GetCurrentCardinalDirection
  }

  /** Each query is ':', two letters and '#'. */
  function QueryText(q: ZwoQuery): (s: string)
    ensures |s| == 4 && s[0] == ':' && s[3] == '#'
    ensures OnStepCommands.IsLetter(s[1]) && OnStepCommands.IsLetter(s[2])
  {
    match q
    case GetDate => ":GC#"
    case SwitchToEqMode => ":AP#"
    case SwitchToAltAzMode => ":AA#"
    case GetTime => ":GL#"
    case GetSiderealTime => ":GS#"
    case GetDaylightSavings => ":GH#"
    case GetTimezone => ":GG#"
    case GetLatitude => ":Gt#"
    case GetLongitude => ":Gg#"
    case GetCurrentCardinalDirection => ":Gm#"
  }

  /** The ZWO queries send what the OnStep queries of the same name send. */
  lemma SameQueriesAsOnStep(q: ZwoQuery)
    ensures QueryText(q) == OnStepCommands.QueryText(AsOnStep(q))
  {
  }

  // ---------------------------------------------------------------------------
  // The in-file tests of the checked setters

  /** 1 February 2024. */
  lemma SetDateExample()
    ensures OnStepCommands.SetDate(1, 2, 24) == Ok(":SC01/02/24#")
  {
    assert Pad(1, 2) == "01" && Pad(2, 2) == "02" && Pad(24, 2) == "24";
    var v := "01" + "/" + "02" + "/" + "24" + "#";
    assert v == "01/02/24#";
    assert ":SC" + v == ":SC01/02/24#";
  }

  /** Month 14, day 40 and year 100 are each rejected. */
  lemma SetDateRejects()
    ensures OnStepCommands.SetDate(14, 2, 24) == Err(InvalidValue)
    ensures OnStepCommands.SetDate(11, 40, 24) == Err(InvalidValue)
    ensures OnStepCommands.SetDate(11, 10, 100) == Err(InvalidValue)
  {
  }

  /** 13:54:59. */
  lemma SetTimeExample()
    ensures OnStepCommands.SetTime(13, 54, 59) == Ok(":SL13:54:59#")
  {
    assert Pad(13, 2) == "13" && Pad(54, 2) == "54" && Pad(59, 2) == "59";
    var v := "13" + ":" + "54" + ":" + "59" + "#";
    assert v == "13:54:59#";
    assert ":SL" + v == ":SL13:54:59#";
  }

  /** Hour 25, minute 61 and second 61 are each rejected. */
  lemma SetTimeRejects()
    ensures OnStepCommands.SetTime(25, 54, 59) == Err(InvalidValue)
    ensures OnStepCommands.SetTime(23, 61, 59) == Err(InvalidValue)
    ensures OnStepCommands.SetTime(23, 54, 61) == Err(InvalidValue)
  {
  }

  // ---------------------------------------------------------------------------
  // Setters without range checks

  /** Zero-padded numbers are digits with at most a leading '-'. */
  lemma PadHasNoHash(n: int, w: nat)
    ensures '#' !in Pad(n, w)
  {
    var p := Pad(n, w);
    if n < 0 {
      var q := PadNat(-n, if w > 0 then w - 1 else 0);
      assert p == "-" + q;
      assert forall i :: 1 <= i < |p| ==> p[i] == q[i - 1];
    }
  }

  /** `cmd_set_daylight_savings`: any integer at all, printed with `{}`; the
      text between `:SH` and '#' reads back, with `atoi`, as the argument. */
  function SetDaylightSavings(onOrOff: int): (s: string)
    ensures |s| >= 5 && s[..3] == ":SH" && s[|s| - 1] == '#'
    ensures s[3..|s| - 1] == Signed(onOrOff)
  {
    OnStepCommands.Payload(":SH", Signed(onOrOff));
    ":SH" + (Signed(onOrOff) + "#")
  }

  /** `atoi` of the text between `:SH` and '#' is the argument. */
  lemma DaylightSavingsReadBack(onOrOff: int)
    ensures var s := SetDaylightSavings(onOrOff); Atoi(s[3..|s| - 1]) == onOrOff
  {
    AtoiOfSigned(onOrOff);
  }

  /** For the two values OnStep accepts, the ZWO flag command is OnStep's. */
  lemma DaylightSavingsAsOnStep(onOrOff: int)
    requires onOrOff == 0 || onOrOff == 1
    ensures SetDaylightSavings(onOrOff) == OnStepCommands.SetDaylightSavings(onOrOff).value
  {
    assert Signed(onOrOff) == [DigitChar(onOrOff)];
  }

  /** `cmd_set_timezone`: any offset, printed as a sign and two zero-padded
      fields, with no terminating '#'. */
  function SetTimezone(sign: char, h: int, m: int): (s: string)
    ensures |s| >= 9 && s[..3] == ":SG" && s[3] == sign
    ensures sign != '#' ==> '#' !in s
  {
    var f := [sign] + Pad(h, 2) + ":" + Pad(m, 2);
    PadHasNoHash(h, 2);
    PadHasNoHash(m, 2);
    assert (":SG" + f)[3] == sign;
    ":SG" + f
  }

  /** The offset OnStep accepts is sent by ZWO as the same text without the
      '#' that ends every other command. */
  lemma TimezoneUnterminated(sign: char, h: int, m: int)
    requires OnStepCommands.SetTimezone(sign, h, m).Ok?
    ensures '#' !in SetTimezone(sign, h, m)
    ensures SetTimezone(sign, h, m) + "#" == OnStepCommands.SetTimezone(sign, h, m).value
  {
    var f := [sign] + Pad(h, 2) + ":" + Pad(m, 2);
    assert ":SG" + f + "#" == ":SG" + (f + "#");
  }

  /** As written, the offset command is not even read back by the reply
      parser for the same format: with no '#' after the minutes, the text
      after `:SG` is rejected. */
  lemma TimezoneAsWrittenRejected(sign: char, h: int, m: int)
    requires ValidShhMm(ShhMm(sign, h, m))
    ensures ParseShhMm(SetTimezone(sign, h, m)[3..]).Err?
  {
    var t := SetTimezone(sign, h, m)[3..];
    assert Match(ShhMmPattern, t).None? by {
      TimezoneText(sign, h, m);
      ShhMmPatternWidth();
      ShortRejected(ShhMmPattern, t);
    }
  }

  /** A reply of the offset format takes seven characters with its '#'. */
  lemma ShhMmPatternWidth()
    ensures Width(ShhMmPattern) == 7
  {
    var e: seq<Tok> := [];
    var t4 := [Exactly('#')] + e;
    var t3 := [Digits(2)] + t4;
    var t2 := [Exactly(':')] + t3;
    var t1 := [Digits(2)] + t2;
    var t0 := [AnySign] + t1;
    assert t0 == ShhMmPattern;
    assert t0[1..] == t1 && t1[1..] == t2 && t2[1..] == t3 && t3[1..] == t4 && t4[1..] == e;
  }

  /** What follows `:SG` is the six characters of the offset. */
  lemma TimezoneText(sign: char, h: int, m: int)
    requires ValidShhMm(ShhMm(sign, h, m))
    ensures SetTimezone(sign, h, m)[3..] == FormatShhMm(ShhMm(sign, h, m))
    ensures |SetTimezone(sign, h, m)[3..]| == 6
  {
    ShhMmText(ShhMm(sign, h, m));
    FieldDigits(h, 2);
    FieldDigits(m, 2);
  }

  /** The offset command as evidently intended: the same text closed by '#',
      like every other setter. */
  function SetTimezoneTerminated(sign: char, h: int, m: int): (s: string)
    ensures |s| >= 10 && s[..3] == ":SG" && s[3] == sign && s[|s| - 1] == '#'
  {
    SetTimezone(sign, h, m) + "#"
  }

  /** Offsets that fit the layout are read back by `parse_shh_mm_response`
      from what follows `:SG`, and for the offsets OnStep accepts the command
      is OnStep's. */
  lemma TimezoneTerminatedReadBack(sign: char, h: int, m: int)
    requires ValidShhMm(ShhMm(sign, h, m))
    ensures ParseShhMm(SetTimezoneTerminated(sign, h, m)[3..]) == Ok(ShhMm(sign, h, m))
    ensures OnStepCommands.SetTimezone(sign, h, m).Ok? ==>
              SetTimezoneTerminated(sign, h, m) == OnStepCommands.SetTimezone(sign, h, m).value
  {
    var x := ShhMm(sign, h, m);
    var f := FormatShhMm(x);
    ShhMmText(x);
    ShhMmRoundTrip(x, "");
    assert f + "#" + "" == f + "#";
    assert SetTimezoneTerminated(sign, h, m) == ":SG" + (f + "#");
    OnStepCommands.Unframe(":SG", f + "#");
    if OnStepCommands.SetTimezone(sign, h, m).Ok? {
      TimezoneUnterminated(sign, h, m);
    }
  }

  /** `cmd_set_latitude`: any sign and fields, printed like OnStep's. */
  function SetLatitude(sign: char, dd: int, mm: int, ss: int): (s: string)
    ensures |s| >= 13 && s[..3] == ":St" && s[3] == sign && s[|s| - 1] == '#'
  {
    var f := [sign] + Pad(dd, 2) + "*" + Pad(mm, 2) + ":" + Pad(ss, 2) + "#";
    assert (":St" + f)[3] == sign;
    ":St" + f
  }

  /** For the arguments OnStep accepts, the ZWO latitude command is OnStep's. */
  lemma LatitudeAsOnStep(sign: char, dd: int, mm: int, ss: int)
    requires OnStepCommands.SetLatitude(sign, dd, mm, ss).Ok?
    ensures SetLatitude(sign, dd, mm, ss) == OnStepCommands.SetLatitude(sign, dd, mm, ss).value
  {
  }

  /** Though nothing is checked, fields that fit in two digits are read back
      by `parse_sdd_mm_ss_response`. */
  lemma LatitudeReadBack(sign: char, dd: int, mm: int, ss: int)
    requires ValidSddMmSs(SddMmSs(sign, dd, mm, ss))
    ensures ParseSddMmSs(SetLatitude(sign, dd, mm, ss)[3..]) == Ok(SddMmSs(sign, dd, mm, ss))
  {
    var x := SddMmSs(sign, dd, mm, ss);
    var f := FormatSddMmSs(x);
    SddMmSsText(x);
    SddMmSsRoundTrip(x, "");
    assert f + "#" + "" == f + "#";
    assert SetLatitude(sign, dd, mm, ss) == ":St" + (f + "#");
    OnStepCommands.Unframe(":St", f + "#");
  }

  /** `cmd_set_longitude`: no sign argument, the letter 's' where OnStep puts
      the sign, then three-digit degrees, minutes and seconds. */
  function SetLongitude(ddd: int, mm: int, ss: int): (s: string)
    ensures |s| >= 13 && s[..4] == ":Sgs" && s[|s| - 1] == '#'
  {
    var f := Pad(ddd, 3) + "*" + Pad(mm, 2) + ":" + Pad(ss, 2) + "#";
    ":Sgs" + f
  }

  /** For fields in range, the ZWO longitude command is OnStep's east
      longitude with 's' in place of the '+'. */
  lemma LongitudeAsOnStep(ddd: int, mm: int, ss: int)
    requires OnStepCommands.SetLongitude('+', ddd, mm, ss).Ok?
    ensures var o := OnStepCommands.SetLongitude('+', ddd, mm, ss).value;
            SetLongitude(ddd, mm, ss) == o[..3] + "s" + o[4..]
  {
    SignReplaced(Pad(ddd, 3), Pad(mm, 2), Pad(ss, 2));
  }

  lemma SignReplaced(p: string, m: string, q: string)
    ensures var o := ":Sg" + ("+" + p + "*" + m + ":" + q + "#");
            ":Sgs" + (p + "*" + m + ":" + q + "#") == o[..3] + "s" + o[4..]
  {
    var f := p + "*" + m + ":" + q + "#";
    var o := ":Sg" + ("+" + p + "*" + m + ":" + q + "#");
    assert "+" + p + "*" + m + ":" + q + "#" == "+" + f;
    assert o[..3] == ":Sg" && o[4..] == f;
  }

  /** Fields that fit the layout are read back by `parse_ddd_mm_ss_response`
      from what follows `:Sgs`. */
  lemma LongitudeReadBack(ddd: int, mm: int, ss: int)
    requires ValidDddMmSs(DddMmSs(ddd, mm, ss))
    ensures ParseDddMmSs(SetLongitude(ddd, mm, ss)[4..]) == Ok(DddMmSs(ddd, mm, ss))
  {
    var x := DddMmSs(ddd, mm, ss);
    var f := FormatDddMmSs(x);
    DddMmSsText(x);
    DddMmSsRoundTrip(x, "");
    assert f + "#" + "" == f + "#";
    assert SetLongitude(ddd, mm, ss) == ":Sgs" + (f + "#");
    OnStepCommands.Unframe(":Sgs", f + "#");
  }

  /** `cmd_set_target_ra`: any fields, printed like OnStep's. */
  function SetTargetRa(hh: int, mm: int, ss: int): (s: string)
    ensures |s| >= 12 && s[..3] == ":Sr" && s[|s| - 1] == '#'
  {
    ":Sr" + (Pad(hh, 2) + ":" + Pad(mm, 2) + ":" + Pad(ss, 2) + "#")
  }

  /** For the arguments OnStep accepts, the ZWO right ascension command is
      OnStep's. */
  lemma TargetRaAsOnStep(hh: int, mm: int, ss: int)
    requires OnStepCommands.SetTargetRa(hh, mm, ss).Ok?
    ensures SetTargetRa(hh, mm, ss) == OnStepCommands.SetTargetRa(hh, mm, ss).value
  {
  }

  /** Fields that fit in two digits are read back by
      `parse_hh_mm_ss_response`. */
  lemma TargetRaReadBack(hh: int, mm: int, ss: int)
    requires ValidHhMmSs(HhMmSs(hh, mm, ss))
    ensures ParseHhMmSs(SetTargetRa(hh, mm, ss)[3..]) == Ok(HhMmSs(hh, mm, ss))
  {
    var x := HhMmSs(hh, mm, ss);
    var f := FormatHhMmSs(x);
    HhMmSsText(x);
    HhMmSsRoundTrip(x, "");
    assert f + "#" + "" == f + "#";
    assert SetTargetRa(hh, mm, ss) == ":Sr" + (f + "#");
    OnStepCommands.Unframe(":Sr", f + "#");
  }
}
