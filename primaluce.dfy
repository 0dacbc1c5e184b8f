/** The PrimaLuce Lab drivers: the Esatto focuser (`esatto_focuser`) and the
    ARCO rotator (`arco_rotator`) that is attached to it and talks through
    its serial link. Requests are JSON objects built with the request tree;
    each reply is a parameter, already parsed (`None` when it is not JSON),
    and a request the driver writes is returned to the caller. */
module PrimaLuce {
  import opened Wrappers
  import opened PrimaLuceTree
  import Devices
  import Text

  // ---------------------------------------------------------------------------
  // Requests

  /** `valid_rotator_unit`: the units the rotator takes positions in. */
  predicate ValidRotatorUnit(unit: string)
  {
    unit == "DEG" || unit == "ARCSEC" || unit == "STEP"
  }

  /** The unit the rotator's motion requests are made in when none is
      given. */
  const DefaultUnit: string := "DEG"

  /** The MOT2 motions that take a position in a unit. */
  datatype Motion = SyncPos | MoveAbs | VerboseMoveAbs | MoveRel | VerboseMoveRel

  function MotionKey(m: Motion): string
  {
    match m
    case SyncPos => "SYNC_POS"
    case MoveAbs => "MOVE_ABS"
    case VerboseMoveAbs => "VERBOSE_MOVE_ABS"
    case MoveRel => "MOVE"
    case VerboseMoveRel => "VERBOSE_MOVE"
  }

  /** `cmd_sync_pos_mot2_cmd`, `cmd_move_abs_mot2_cmd`,
      `cmd_verbose_move_abs_mot2_cmd`, `cmd_move_mot2_cmd` and
      `cmd_verbose_move_mot2_cmd`: the request
      `{"req":{"cmd":{"MOT2":{<motion>:{<unit>:pos}}}}}`; for a unit the
      rotator does not know, the empty command (`None`). */
  function MotionCommand(m: Motion, pos: real, unit: string): (c: Option<Json>)
    ensures c.Some? <==> ValidRotatorUnit(unit)
    ensures c.Some? ==> At(c.value, ["req", "cmd", "MOT2", MotionKey(m), unit]) == Some(Number(pos))
  {
    if !ValidRotatorUnit(unit) then None
    else
      var path := ["req", "cmd", "MOT2", MotionKey(m)];
      PathJsonAt(path, unit, Double(pos));
      assert path + [unit] == ["req", "cmd", "MOT2", MotionKey(m), unit];
      Some(PathJson(path, unit, Double(pos)))
  }

  /** The MOT2 positions that are read in a unit. */
  datatype Reading = CompensationPos | CurrentPos | AbsPos

  function ReadingPrefix(q: Reading): string
  {
    match q
    case CompensationPos => "COMPENSATION_POS_"
    case CurrentPos => "POSITION_"
    case AbsPos => "ABS_POS_"
  }

  /** `get_mot2_compensation_pos_cmd`, `get_mot2_pos_cmd` and
      `get_mot2_abs_pos_deg_cmd`: the request
      `{"req":{"get":{"MOT2":{<reading>_<unit>:""}}}}`; for a unit the
      rotator does not know, the empty command (`None`). */
  function ReadingQuery(q: Reading, unit: string): (c: Option<Json>)
    ensures c.Some? <==> ValidRotatorUnit(unit)
    ensures c.Some? ==> At(c.value, ["req", "get", "MOT2", ReadingPrefix(q) + unit]) == Some(JString(""))
  {
    if !ValidRotatorUnit(unit) then None
    else
      var path := ["req", "get", "MOT2"];
      PathJsonAt(path, ReadingPrefix(q) + unit, Str(""));
      assert path + [ReadingPrefix(q) + unit] == ["req", "get", "MOT2", ReadingPrefix(q) + unit];
      Some(PathJson(path, ReadingPrefix(q) + unit, Str("")))
  }

  /** A MOT2 request without a unit: `{"req":{<verb>:{"MOT2":{k:v}}}}`. */
  function Mot2Request(verb: string, k: string, v: Value): (c: Json)
    ensures At(c, ["req", verb, "MOT2", k]) == Some(ValueJson(v))
  {
    var path := ["req", verb, "MOT2"];
    PathJsonAt(path, k, v);
    assert path + [k] == ["req", verb, "MOT2", k];
    PathJson(path, k, v)
  }

  /** `cmd_abort_mot2_cmd`: stop the rotator without deceleration. */
  const AbortMot2: Json := Mot2Request("cmd", "MOT_ABORT", Str(""))

  /** `cmd_stop_mot2_cmd` as written: documented as the stop with the
      configured deceleration, it asks for `MOT_ABORT`. */
  const StopMot2AsWritten: Json := Mot2Request("cmd", "MOT_ABORT", Str(""))

  /** The stop as written is the abort: the two requests are the same. */
  lemma StopMot2AsWrittenAborts()
    ensures StopMot2AsWritten == AbortMot2
    ensures At(StopMot2AsWritten, ["req", "cmd", "MOT2"]) == Some(Object(map["MOT_ABORT" := JString("")]))
  {
    PathJsonAt(["req", "cmd", "MOT2"], "MOT_ABORT", Str(""));
  }

  /** The stop with deceleration, as the focuser's own `cmd_stop_mot1_cmd`
      asks for it: `MOT_STOP`. */
  const StopMot2: Json := Mot2Request("cmd", "MOT_STOP", Str(""))

  /** The corrected stop asks for `MOT_STOP` and nothing else, so it is not
      the abort. */
  lemma StopMot2Decelerates()
    ensures At(StopMot2, ["req", "cmd", "MOT2"]) == Some(Object(map["MOT_STOP" := JString("")]))
    ensures StopMot2 != AbortMot2
  {
    var path := ["req", "cmd", "MOT2"];
    PathJsonAt(path, "MOT_STOP", Str(""));
    PathJsonAt(path, "MOT_ABORT", Str(""));
    assert "MOT_ABORT" !in map["MOT_STOP" := JString("")];
  }

  /** `get_reverse_mot2_cmd`. */
  const GetReverseMot2: Json := Mot2Request("get", "REVERSE", Str(""))

  /** `get_hemisphere_mot2_cmd`. */
  const GetHemisphereMot2: Json := Mot2Request("get", "HEMISPHERE", Str(""))

  /** `set_hemisphere_mot2_cmd`: the hemisphere is sent as given. */
  function SetHemisphereMot2(hemisphere: string): (c: Json)
    ensures At(c, ["req", "set", "MOT2", "HEMISPHERE"]) == Some(JString(hemisphere))
  {
    Mot2Request("set", "HEMISPHERE", Str(hemisphere))
  }

  /** `set_arco_enabled_cmd`: `{"req":{"set":{"ARCO":1 or 0}}}`. */
  function SetArcoEnabled(enabled: bool): (c: Json)
    ensures At(c, ["req", "set", "ARCO"]) == Some(Integer(if enabled then 1 else 0))
  {
    PathJsonAt(["req", "set"], "ARCO", Int(if enabled then 1 else 0));
    assert ["req", "set"] + ["ARCO"] == ["req", "set", "ARCO"];
    PathJson(["req", "set"], "ARCO", Int(if enabled then 1 else 0))
  }

  /** `get_mot2_status_cmd`. */
  const Mot2Status: Json := Mot2Request("get", "STATUS", Str(""))

  /** `set_reverse_mot2_cmd`. */
  function SetReverseMot2(reverse: int): (c: Json)
    ensures At(c, ["req", "set", "MOT2", "REVERSE"]) == Some(Integer(reverse))
  {
    Mot2Request("set", "REVERSE", Int(reverse))
  }

  /** `get_common_cmd(name)`: `{"req":{"get":{name:""}}}`. */
  function CommonQuery(name: string): (c: Json)
    ensures At(c, ["req", "get", name]) == Some(JString(""))
  {
    PathJsonAt(["req", "get"], name, Str(""));
    assert ["req", "get"] + [name] == ["req", "get", name];
    PathJson(["req", "get"], name, Str(""))
  }

  /** `get_all_system_data_cmd`: `{"req":{"get":""}}`. */
  const AllSystemData: Json := PathJson(["req"], "get", Str(""))

  /** The LED brightness names `cmd_dimleds_cmd` accepts. */
  predicate LedBrightness(b: string)
  {
    b == "on" || b == "low" || b == "middle" || b == "off"
  }

  /** `cmd_dimleds_cmd`: INVALID_VALUE unless the brightness is one of on,
      low, middle and off; otherwise the query for DIMLEDS, which does not
      carry the brightness. */
  function DimLeds(b: string): (r: Result<Json>)
    ensures r.Ok? <==> LedBrightness(b)
    ensures r.Err? ==> r.error == InvalidValue
    ensures r.Ok? ==> At(r.value, ["req", "get", "DIMLEDS"]) == Some(JString(""))
  {
    if !LedBrightness(b) then Err(InvalidValue) else Ok(CommonQuery("DIMLEDS"))
  }

  /** `get_mot1_status_cmd`. */
  const Mot1Status: Json := PathJson(["req", "get", "MOT1"], "STATUS", Str(""))

  /** `cmd_common_mot1_cmd(name)`, and `get_common_mot1_cmd(name)`, which
      makes the same "cmd" request: `{"req":{"cmd":{"MOT1":{name:""}}}}`. */
  function Mot1Command(name: string): (c: Json)
    ensures At(c, ["req", "cmd", "MOT1", name]) == Some(JString(""))
  {
    var path := ["req", "cmd", "MOT1"];
    PathJsonAt(path, name, Str(""));
    assert path + [name] == ["req", "cmd", "MOT1", name];
    PathJson(path, name, Str(""))
  }

  /** `set_backlash_cmd`: `{"req":{"set":{"MOT1":{"BKLASH":steps}}}}`. */
  function SetBacklash(steps: Devices.uint32): (c: Json)
    ensures At(c, ["req", "set", "MOT1", "BKLASH"]) == Some(Integer(steps as int))
  {
    var path := ["req", "set", "MOT1"];
    PathJsonAt(path, "BKLASH", Unsigned(steps));
    assert path + ["BKLASH"] == ["req", "set", "MOT1", "BKLASH"];
    PathJson(path, "BKLASH", Unsigned(steps))
  }

  /** `cmd_move_abs_mot1_cmd` and the other MOT1 step requests:
      `{"req":{"cmd":{"MOT1":{<motion>:{"STEP":pos}}}}}`. */
  function Mot1Step(motion: string, pos: Devices.uint32): (c: Json)
    ensures At(c, ["req", "cmd", "MOT1", motion, "STEP"]) == Some(Integer(pos as int))
  {
    var path := ["req", "cmd", "MOT1", motion];
    PathJsonAt(path, "STEP", Unsigned(pos));
    assert path + ["STEP"] == ["req", "cmd", "MOT1", motion, "STEP"];
    PathJson(path, "STEP", Unsigned(pos))
  }

  // ---------------------------------------------------------------------------
  // Reading replies

  /** `j[k]` on a JSON value the driver holds: a null or an object gives the
      member under `k`, or null when there is none; any other value throws a
      JSON type error (here UNSPECIFIED_ERROR). */
  function Index(j: Json, k: string): (r: Result<Json>)
    ensures r.Ok? <==> j.Null? || j.Object?
    ensures r.Err? ==> r.error == UnspecifiedError
  {
    if j.Object? then Ok(if k in j.members then j.members[k] else Null)
    else if j.Null? then Ok(Null)
    else Err(UnspecifiedError)
  }

  /** `j[keys[0]][keys[1]]…`. */
  function Path(j: Json, keys: seq<string>): (r: Result<Json>)
    ensures r.Err? ==> r.error == UnspecifiedError
    decreases |keys|
  {
    if keys == [] then Ok(j)
    else
      var m := Index(j, keys[0]);
      if m.Err? then Err(m.error) else Path(m.value, keys[1..])
  }

  /** Where a value is present, indexing reaches it. */
  lemma {:induction false} PathOfAt(j: Json, keys: seq<string>)
    requires At(j, keys).Some?
    ensures Path(j, keys) == Ok(At(j, keys).value)
    decreases |keys|
  {
    if keys != [] {
      PathOfAt(j.members[keys[0]], keys[1..]);
    }
  }

  /** Truncation toward zero, as a conversion from double does it. */
  function Truncate(x: real): (n: int)
    ensures x >= 0.0 ==> n as real <= x < n as real + 1.0
    ensures x < 0.0 ==> n as real - 1.0 < x <= n as real
  {
    if x >= 0.0 then x.Floor else -((-x).Floor)
  }

  /** `get<uint32_t>()`: a number, stored into a uint32_t; anything else
      throws. */
  function AsUint32(j: Json): (r: Result<Devices.uint32>)
    ensures r.Ok? <==> j.Integer? || j.Number?
    ensures j.Integer? && 0 <= j.i < 0x1_0000_0000 ==> r == Ok(j.i as Devices.uint32)
  {
    match j
    case Integer(i) => Ok(Devices.Wrap32(i))
    case Number(x) => Ok(Devices.Wrap32(Truncate(x)))
    case _ => Err(UnspecifiedError)
  }

  /** `get<int>()`: a number, truncated; anything else throws. */
  function AsInt(j: Json): (r: Result<int>)
    ensures r.Ok? <==> j.Integer? || j.Number?
    ensures j.Integer? ==> r == Ok(j.i)
  {
    match j
    case Integer(i) => Ok(i)
    case Number(x) => Ok(Truncate(x))
    case _ => Err(UnspecifiedError)
  }

  /** `get<double>()`: a number; anything else throws. */
  function AsReal(j: Json): (r: Result<real>)
    ensures r.Ok? <==> j.Integer? || j.Number?
    ensures j.Number? ==> r == Ok(j.n)
  {
    match j
    case Integer(i) => Ok(i as real)
    case Number(x) => Ok(x)
    case _ => Err(UnspecifiedError)
  }

  /** `get<std::string>()`: a string; anything else throws. */
  function AsString(j: Json): (r: Result<string>)
    ensures r.Ok? <==> j.JString?
    ensures j.JString? ==> r == Ok(j.s)
  {
    if j.JString? then Ok(j.s) else Err(UnspecifiedError)
  }

  /** `j == 1`: JSON compares numbers by value. */
  predicate IsOne(j: Json)
  {
    j == Integer(1) || j == Number(1.0)
  }

  /** The motor state a status reply reports: moving unless `MST` is
      exactly the string "stop". */
  function Moving(status: Json): (r: Result<bool>)
    ensures r.Ok? <==> Path(status, ["STATUS", "MST"]).Ok?
    ensures r.Ok? ==> (r.value <==> Path(status, ["STATUS", "MST"]).value != JString("stop"))
  {
    var mst := Path(status, ["STATUS", "MST"]);
    if mst.Err? then Err(mst.error) else Ok(mst.value != JString("stop"))
  }

  /** A reply's `["res"]["get"]` part, or the error reading it raises. */
  function Got(reply: Option<Json>): (r: Result<Json>)
    ensures reply.None? ==> r == Err(UnspecifiedError)
    ensures reply.Some? ==> r == Path(reply.value, ["res", "get"])
  {
    if reply.None? then Err(UnspecifiedError) else Path(reply.value, ["res", "get"])
  }

  // ---------------------------------------------------------------------------
  // What update_properties reads

  /** The focuser readings `update_properties` refreshes. */
  datatype FocuserReadings = FocuserReadings(position: Devices.uint32, isMoving: bool, temperature: real, backlash: int)

  /** The focuser part of `update_properties`: the system data and the MOT1
      status are read, then the position, the moving flag, the temperature
      and the backlash are set in turn. A failure at any step keeps the
      readings set so far and ends the refresh (`None`); otherwise the
      system data is handed on. */
  function RefreshFocuser(f: FocuserReadings, system: Option<Json>, mot1: Option<Json>): (r: (FocuserReadings, Option<Json>))
    ensures r.1.Some? ==> Got(system) == Ok(r.1.value)
  {
    var all := Got(system);
    if all.Err? then (f, None) else
    var status := Got(mot1);
    if status.Err? then (f, None) else
    var m1 := Index(status.value, "MOT1");
    if m1.Err? then (f, None) else
    var p := Path(all.value, ["MOT1", "POSITION"]);
    var pos := if p.Err? then Err(p.error) else AsUint32(p.value);
    if pos.Err? then (f, None) else
    var f1 := f.(position := pos.value);
    var moving := Moving(m1.value);
    if moving.Err? then (f1, None) else
    var f2 := f1.(isMoving := moving.value);
    var t := Path(all.value, ["EXT_T"]);
    var text := if t.Err? then Err(t.error) else AsString(t.value);
    if text.Err? then (f2, None) else
    var f3 := f2.(temperature := Text.Atof(text.value));
    var b := Path(all.value, ["MOT1", "BKLASH"]);
    var backlash := if b.Err? then Err(b.error) else AsInt(b.value);
    if backlash.Err? then (f3, None) else
    (f3.(backlash := backlash.value), Some(all.value))
  }

  /** The refresh completes for a well-formed reply: every reading is set
      from it, the moving flag from `MST`. */
  lemma RefreshFocuserOfWellFormed(f: FocuserReadings, pos: Devices.uint32, mst: string, temp: string, backlash: int)
    ensures
      var all := Object(map["MOT1" := Object(map["POSITION" := Integer(pos as int), "BKLASH" := Integer(backlash)]),
                            "EXT_T" := JString(temp)]);
      var status := Object(map["MOT1" := Object(map["STATUS" := Object(map["MST" := JString(mst)])])]);
      RefreshFocuser(f, Some(Object(map["res" := Object(map["get" := all])])),
                     Some(Object(map["res" := Object(map["get" := status])])))
        == (FocuserReadings(pos, mst != "stop", Text.Atof(temp), backlash), Some(all))
  {
    var mot1 := Object(map["POSITION" := Integer(pos as int), "BKLASH" := Integer(backlash)]);
    var all := Object(map["MOT1" := mot1, "EXT_T" := JString(temp)]);
    var st := Object(map["MST" := JString(mst)]);
    var m1 := Object(map["STATUS" := st]);
    var status := Object(map["MOT1" := m1]);
    var sys := Object(map["get" := all]);
    var got := Object(map["get" := status]);
    PathTwo(Object(map["res" := sys]), "res", sys, "get", all);
    PathTwo(Object(map["res" := got]), "res", got, "get", status);
    assert Index(status, "MOT1") == Ok(m1);
    PathTwo(all, "MOT1", mot1, "POSITION", Integer(pos as int));
    PathTwo(all, "MOT1", mot1, "BKLASH", Integer(backlash));
    PathOne(all, "EXT_T", JString(temp));
    PathTwo(m1, "STATUS", st, "MST", JString(mst));
    RefreshFocuserCompletes(f, Some(Object(map["res" := sys])), Some(Object(map["res" := got])), all, m1,
                            pos, mst, temp, backlash);
  }

  /** The refresh completes once every step reads what it asks for. */
  lemma RefreshFocuserCompletes(f: FocuserReadings, system: Option<Json>, mot1: Option<Json>, all: Json, m1: Json,
                                pos: Devices.uint32, mst: string, temp: string, backlash: int)
    requires Got(system) == Ok(all)
    requires Got(mot1).Ok? && Index(Got(mot1).value, "MOT1") == Ok(m1)
    requires Path(all, ["MOT1", "POSITION"]) == Ok(Integer(pos as int))
    requires Path(m1, ["STATUS", "MST"]) == Ok(JString(mst))
    requires Path(all, ["EXT_T"]) == Ok(JString(temp))
    requires Path(all, ["MOT1", "BKLASH"]) == Ok(Integer(backlash))
    ensures RefreshFocuser(f, system, mot1) == (FocuserReadings(pos, mst != "stop", Text.Atof(temp), backlash), Some(all))
  {
    assert AsUint32(Integer(pos as int)) == Ok(pos);
    assert Moving(m1) == Ok(mst != "stop");
    assert AsString(JString(temp)) == Ok(temp);
    assert AsInt(Integer(backlash)) == Ok(backlash);
  }

  /** Indexing an object by one of its keys. */
  lemma PathOne(j: Json, k: string, v: Json)
    requires j.Object? && k in j.members && j.members[k] == v
    ensures Path(j, [k]) == Ok(v)
  {
    assert [k][1..] == [];
  }

  /** Indexing an object by one of its keys, then the member by one of
      its own. */
  lemma PathTwo(j: Json, k: string, v: Json, k2: string, w: Json)
    requires j.Object? && k in j.members && j.members[k] == v
    requires v.Object? && k2 in v.members && v.members[k2] == w
    ensures Path(j, [k, k2]) == Ok(w)
  {
    assert [k, k2][1..] == [k2];
    PathOne(v, k2, w);
  }

  /** The rotator readings `update_properties` refreshes. */
  datatype RotatorReadings = RotatorReadings(
    reversed: bool,
    positionStep: real, positionDeg: real, positionArcsec: real,
    offsetDeg: real, offsetArcsec: real, offsetStep: real,
    mechanicalDeg: real, mechanicalArcsec: real, mechanicalStep: real)

  /** `all["MOT2"][key]` as a double. */
  function Mot2Value(all: Json, key: string): Result<real>
  {
    var v := Path(all, ["MOT2", key]);
    if v.Err? then Err(v.error) else AsReal(v.value)
  }

  /** The first part of the rotator refresh: the reverse flag, then the
      position in steps, degrees and arcseconds; a failure keeps what was
      set so far and ends the refresh (`false`). */
  function RefreshPositions(r: RotatorReadings, all: Json): (RotatorReadings, bool)
  {
    var rev := Path(all, ["MOT2", "REVERSE"]);
    if rev.Err? then (r, false) else
    var r0 := r.(reversed := IsOne(rev.value));
    var a := Mot2Value(all, "POSITION_STEP");
    if a.Err? then (r0, false) else
    var r1 := r0.(positionStep := a.value);
    var b := Mot2Value(all, "POSITION_DEG");
    if b.Err? then (r1, false) else
    var r2 := r1.(positionDeg := b.value);
    var c := Mot2Value(all, "POSITION_ARCSEC");
    if c.Err? then (r2, false) else
    (r2.(positionArcsec := c.value), true)
  }

  /** The second part: the offsets of the position from the mechanical one,
      in degrees, arcseconds and steps. */
  function RefreshOffsets(r: RotatorReadings, all: Json): (RotatorReadings, bool)
  {
    var d := Mot2Value(all, "COMPENSATION_POS_DEG");
    if d.Err? then (r, false) else
    var r0 := r.(offsetDeg := d.value);
    var e := Mot2Value(all, "COMPENSATION_POS_ARCSEC");
    if e.Err? then (r0, false) else
    var r1 := r0.(offsetArcsec := e.value);
    var g := Mot2Value(all, "COMPENSATION_POS_STEP");
    if g.Err? then (r1, false) else
    (r1.(offsetStep := g.value), true)
  }

  /** The third part: the mechanical position in degrees, arcseconds and
      steps. */
  function RefreshMechanical(r: RotatorReadings, all: Json): (RotatorReadings, bool)
  {
    var h := Mot2Value(all, "ABS_POS_DEG");
    if h.Err? then (r, false) else
    var r0 := r.(mechanicalDeg := h.value);
    var k := Mot2Value(all, "ABS_POS_ARCSEC");
    if k.Err? then (r0, false) else
    var r1 := r0.(mechanicalArcsec := k.value);
    var m := Mot2Value(all, "ABS_POS_STEP");
    if m.Err? then (r1, false) else
    (r1.(mechanicalStep := m.value), true)
  }

  /** The rotator part of `update_properties`: the three parts in turn, each
      run only when the one before it completed. */
  function RefreshRotator(r: RotatorReadings, all: Json): (RotatorReadings, bool)
  {
    var p := RefreshPositions(r, all);
    if !p.1 then p else
    var o := RefreshOffsets(p.0, all);
    if !o.1 then o else
    RefreshMechanical(o.0, all)
  }

  /** The requests the driver writes when a refresh fails: both motors are
      stopped without deceleration. */
  const Aborts: seq<Json> := [Mot1Command("MOT_ABORT"), AbortMot2]

  /** The whole of `update_properties`: the focuser readings it leaves,
      the rotator readings it leaves when it refreshes them (`rotator` holds
      them while the ARCO is present and its rotator connected), and the
      requests it writes. Once the rotator is refreshed, the focuser's
      moving flag is taken from the MOT2 status. */
  function Refresh(f: FocuserReadings, rotator: Option<RotatorReadings>,
                   system: Option<Json>, mot1: Option<Json>, mot2: Option<Json>): (r: (FocuserReadings, Option<RotatorReadings>, seq<Json>))
    ensures r.1.Some? <==> rotator.Some? && RefreshFocuser(f, system, mot1).1.Some?
    ensures r.2 == [] || r.2 == Aborts
    ensures RefreshFocuser(f, system, mot1).1.None? ==> r.2 == Aborts && r.0 == RefreshFocuser(f, system, mot1).0
    ensures rotator.None? ==> r.0 == RefreshFocuser(f, system, mot1).0
  {
    var step := RefreshFocuser(f, system, mot1);
    if step.1.None? then (step.0, None, Aborts)
    else if rotator.None? then (step.0, None, [])
    else
      var follow := Follow(step.0, rotator.value, step.1.value, mot2);
      (follow.0, Some(follow.1), follow.2)
  }

  /** The rotator's share of the refresh, once the focuser's completed. */
  function Follow(f: FocuserReadings, r: RotatorReadings, all: Json, mot2: Option<Json>): (FocuserReadings, RotatorReadings, seq<Json>)
  {
    var turn := RefreshRotator(r, all);
    if !turn.1 then (f, turn.0, Aborts)
    else
      var status := Got(mot2);
      var m2 := if status.Err? then Err(status.error) else Index(status.value, "MOT2");
      var moving := if m2.Err? then Err(m2.error) else Moving(m2.value);
      if moving.Err? then (f, turn.0, Aborts)
      else (f.(isMoving := moving.value), turn.0, [])
  }

  /** The keys `details` adds to "Connected" and "Serial Device" while the
      focuser is connected. */
  const FocuserKeys: set<string> := {"Temperature", "Position", "Moving", "Backlash"}

  /** The keys the rotator's `details` adds to "Connected" while the rotator
      is connected. */
  const RotatorKeys: set<string> := {
    "Position (deg)", "Position (steps)", "Position (arcsec)",
    "Mechanical Position (deg)", "Mechanical Position (steps)", "Mechanical Position (arcsec)",
    "Position Offset from Mechanical (deg)", "Position Offset from Mechanical (steps)",
    "Position Offset from Mechanical (arcsec)",
    "Target Position (deg)", "Moving", "Reversed"}

  // ---------------------------------------------------------------------------
  // The rotator

  /** `arco_rotator`. Every query and command of the rotator is refused with
      INVALID_OPERATION while it is not connected. */
  class ArcoRotator {
    const focuser: EsattoFocuser
    var connected: bool
    var isMoving: bool
    var reversed: bool
    var positionStep: real
    var positionDeg: real
    var positionArcsec: real
    var offsetDeg: real
    var offsetArcsec: real
    var offsetStep: real
    var mechanicalDeg: real
    var mechanicalArcsec: real
    var mechanicalStep: real
    var targetDeg: real

    /** The constructor leaves the offsets from the mechanical position
        uninitialised: any values. */
    constructor (f: EsattoFocuser)
      ensures focuser == f && !connected && !isMoving && !reversed
      ensures positionStep == 0.0 && positionDeg == 0.0 && positionArcsec == 0.0
      ensures mechanicalDeg == 0.0 && mechanicalArcsec == 0.0 && mechanicalStep == 0.0
      ensures targetDeg == 0.0
    {
      focuser := f;
      connected := false;
      isMoving := false;
      reversed := false;
      positionStep, positionDeg, positionArcsec := 0.0, 0.0, 0.0;
      mechanicalDeg, mechanicalArcsec, mechanicalStep := 0.0, 0.0, 0.0;
      var a: real, b: real, c: real :| true;
      offsetDeg, offsetArcsec, offsetStep := a, b, c;
      targetDeg := 0.0;
    }

    function Readings(): RotatorReadings
      reads this
    {
      RotatorReadings(reversed, positionStep, positionDeg, positionArcsec,
                      offsetDeg, offsetArcsec, offsetStep,
                      mechanicalDeg, mechanicalArcsec, mechanicalStep)
    }

    /** `set_connected`: refused with INVALID_OPERATION, and nothing
        changes, unless the focuser is connected; otherwise the rotator
        takes the state asked for. */
    method SetConnected(connect: bool) returns (r: Result<int>)
      modifies this`connected
      ensures focuser.connected ==> r == Ok(0) && connected == connect
      ensures !focuser.connected ==> r == Err(InvalidOperation) && connected == old(connected)
    {
      if !focuser.connected {
        return Err(InvalidOperation);
      }
      connected := connect;
      r := Ok(0);
    }

    /** `can_reverse`. */
    function CanReverse(): (r: Result<bool>)
      reads this
      ensures r.Ok? <==> connected
      ensures r.Err? ==> r.error == InvalidOperation
      ensures r.Ok? ==> r.value
    {
      if !connected then Err(InvalidOperation) else Ok(true)
    }

    /** `is_moving`: the rotator's own flag, which the refresh never sets. */
    function IsMoving(): (r: Result<bool>)
      reads this
      ensures r.Ok? <==> connected
      ensures r.Err? ==> r.error == InvalidOperation
      ensures r.Ok? ==> r.value == isMoving
    {
      if !connected then Err(InvalidOperation) else Ok(isMoving)
    }

    /** `position`, in degrees. */
    function Position(): (r: Result<real>)
      reads this
      ensures r.Ok? <==> connected
      ensures r.Err? ==> r.error == InvalidOperation
      ensures r.Ok? ==> r.value == positionDeg
    {
      if !connected then Err(InvalidOperation) else Ok(positionDeg)
    }

    /** `mechanical_position`, in degrees. */
    function MechanicalPosition(): (r: Result<real>)
      reads this
      ensures r.Ok? <==> connected
      ensures r.Err? ==> r.error == InvalidOperation
      ensures r.Ok? ==> r.value == mechanicalDeg
    {
      if !connected then Err(InvalidOperation) else Ok(mechanicalDeg)
    }

    /** `reverse`. */
    function Reverse(): (r: Result<bool>)
      reads this
      ensures r.Ok? <==> connected
      ensures r.Err? ==> r.error == InvalidOperation
      ensures r.Ok? ==> r.value == reversed
    {
      if !connected then Err(InvalidOperation) else Ok(reversed)
    }

    /** `step_size`: a tenth of a degree. */
    function StepSize(): (r: Result<real>)
      reads this
      ensures r.Ok? <==> connected
      ensures r.Err? ==> r.error == InvalidOperation
      ensures r.Ok? ==> r.value == 0.1
    {
      if !connected then Err(InvalidOperation) else Ok(0.1)
    }

    /** `target_position`, in degrees. */
    function TargetPosition(): (r: Result<real>)
      reads this
      ensures r.Ok? <==> connected
      ensures r.Err? ==> r.error == InvalidOperation
      ensures r.Ok? ==> r.value == targetDeg
    {
      if !connected then Err(InvalidOperation) else Ok(targetDeg)
    }

    /** `set_reverse`: sends the reverse setting as 1 or 0; the rotator's
        own flag is left to the refresh. */
    method SetReverse(reverse: bool) returns (r: Result<int>, sent: Option<Json>)
      ensures connected ==> r == Ok(0) && sent == Some(SetReverseMot2(if reverse then 1 else 0))
      ensures !connected ==> r == Err(InvalidOperation) && sent == None
    {
      if !connected {
        return Err(InvalidOperation), None;
      }
      return Ok(0), Some(SetReverseMot2(if reverse then 1 else 0));
    }

    /** `halt`: stops the rotator without deceleration. */
    method Halt() returns (r: Result<int>, sent: Option<Json>)
      ensures connected ==> r == Ok(0) && sent == Some(AbortMot2)
      ensures !connected ==> r == Err(InvalidOperation) && sent == None
    {
      if !connected {
        return Err(InvalidOperation), None;
      }
      return Ok(0), Some(AbortMot2);
    }

    /** `move`: the target becomes the current position plus the offset
        asked for, and the relative move is sent. */
    method Move(offset: real) returns (r: Result<int>, sent: Option<Json>)
      modifies this`targetDeg
      ensures old(connected) ==> (r == Ok(0) && targetDeg == positionDeg + offset
        && sent == MotionCommand(MoveRel, offset, DefaultUnit))
      ensures !old(connected) ==> r == Err(InvalidOperation) && sent == None && targetDeg == old(targetDeg)
    {
      if !connected {
        return Err(InvalidOperation), None;
      }
      targetDeg := positionDeg + offset;
      return Ok(0), MotionCommand(MoveRel, offset, DefaultUnit);
    }

    /** `moveabsolute`: the target becomes the position asked for, and the
        absolute move is sent. */
    method MoveAbsolute(position: real) returns (r: Result<int>, sent: Option<Json>)
      modifies this`targetDeg
      ensures old(connected) ==> (r == Ok(0) && targetDeg == position
        && sent == MotionCommand(MoveAbs, position, DefaultUnit))
      ensures !old(connected) ==> r == Err(InvalidOperation) && sent == None && targetDeg == old(targetDeg)
    {
      if !connected {
        return Err(InvalidOperation), None;
      }
      targetDeg := position;
      return Ok(0), MotionCommand(MoveAbs, position, DefaultUnit);
    }

    /** `movemechanical`: the target becomes the mechanical position asked
        for plus the offset of the position from the mechanical one, and
        the absolute move to that target is sent. */
    method MoveMechanical(mechanical: real) returns (r: Result<int>, sent: Option<Json>)
      modifies this`targetDeg
      ensures old(connected) ==> (r == Ok(0) && targetDeg == mechanical + offsetDeg
        && sent == MotionCommand(MoveAbs, targetDeg, DefaultUnit))
      ensures !old(connected) ==> r == Err(InvalidOperation) && sent == None && targetDeg == old(targetDeg)
    {
      if !connected {
        return Err(InvalidOperation), None;
      }
      var absolute := mechanical + offsetDeg;
      targetDeg := absolute;
      return Ok(0), MotionCommand(MoveAbs, absolute, DefaultUnit);
    }

    /** `sync`: sends the position to sync to; nothing changes here. */
    method Sync(position: real) returns (r: Result<int>, sent: Option<Json>)
      ensures connected ==> r == Ok(0) && sent == MotionCommand(SyncPos, position, DefaultUnit)
      ensures !connected ==> r == Err(InvalidOperation) && sent == None
    {
      if !connected {
        return Err(InvalidOperation), None;
      }
      return Ok(0), MotionCommand(SyncPos, position, DefaultUnit);
    }

    /** The rotator part of `update_properties`, in its three parts. */
    method Refresh(all: Json) returns (ok: bool)
      modifies this
      ensures (Readings(), ok) == RefreshRotator(old(Readings()), all)
      ensures unchanged(this`connected, this`isMoving, this`targetDeg)
    {
      ok := ReadPositions(all);
      if !ok { return; }
      ok := ReadOffsets(all);
      if !ok { return; }
      ok := ReadMechanical(all);
    }

    method ReadPositions(all: Json) returns (ok: bool)
      modifies this`reversed, this`positionStep, this`positionDeg, this`positionArcsec
      ensures (Readings(), ok) == RefreshPositions(old(Readings()), all)
    {
      var rev := Path(all, ["MOT2", "REVERSE"]);
      if rev.Err? { return false; }
      reversed := IsOne(rev.value);
      var a := Mot2Value(all, "POSITION_STEP");
      if a.Err? { return false; }
      positionStep := a.value;
      var b := Mot2Value(all, "POSITION_DEG");
      if b.Err? { return false; }
      positionDeg := b.value;
      var c := Mot2Value(all, "POSITION_ARCSEC");
      if c.Err? { return false; }
      positionArcsec := c.value;
      ok := true;
    }

    method ReadOffsets(all: Json) returns (ok: bool)
      modifies this`offsetDeg, this`offsetArcsec, this`offsetStep
      ensures (Readings(), ok) == RefreshOffsets(old(Readings()), all)
    {
      var d := Mot2Value(all, "COMPENSATION_POS_DEG");
      if d.Err? { return false; }
      offsetDeg := d.value;
      var e := Mot2Value(all, "COMPENSATION_POS_ARCSEC");
      if e.Err? { return false; }
      offsetArcsec := e.value;
      var g := Mot2Value(all, "COMPENSATION_POS_STEP");
      if g.Err? { return false; }
      offsetStep := g.value;
      ok := true;
    }

    method ReadMechanical(all: Json) returns (ok: bool)
      modifies this`mechanicalDeg, this`mechanicalArcsec, this`mechanicalStep
      ensures (Readings(), ok) == RefreshMechanical(old(Readings()), all)
    {
      var h := Mot2Value(all, "ABS_POS_DEG");
      if h.Err? { return false; }
      mechanicalDeg := h.value;
      var k := Mot2Value(all, "ABS_POS_ARCSEC");
      if k.Err? { return false; }
      mechanicalArcsec := k.value;
      var m := Mot2Value(all, "ABS_POS_STEP");
      if m.Err? { return false; }
      mechanicalStep := m.value;
      ok := true;
    }

    /** `unique_id`: a fixed name. */
    function UniqueId(): (id: string)
      ensures id == "unique_id_for_rotator123131"
    {
      "unique_id_for_rotator123131"
    }

    /** `details`: the connection always; the positions, the target, the
        moving flag and the reverse flag only while connected. The three
        "Position Offset from Mechanical" entries hold the mechanical
        positions, not the offsets. */
    function Details(): (d: map<string, Devices.Variant>)
      reads this
      ensures "Connected" in d && d["Connected"] == Devices.Flag(connected)
      ensures !connected ==> d.Keys == {"Connected"}
      ensures connected ==> d.Keys == {"Connected"} + RotatorKeys
      ensures connected ==> (d["Position (deg)"] == Devices.Number(positionDeg)
        && d["Position (steps)"] == Devices.Number(positionStep)
        && d["Position (arcsec)"] == Devices.Number(positionArcsec))
      ensures connected ==> (d["Mechanical Position (deg)"] == Devices.Number(mechanicalDeg)
        && d["Mechanical Position (steps)"] == Devices.Number(mechanicalStep)
        && d["Mechanical Position (arcsec)"] == Devices.Number(mechanicalArcsec))
      ensures connected ==> (d["Position Offset from Mechanical (deg)"] == d["Mechanical Position (deg)"]
        && d["Position Offset from Mechanical (steps)"] == d["Mechanical Position (steps)"]
        && d["Position Offset from Mechanical (arcsec)"] == d["Mechanical Position (arcsec)"])
      ensures connected ==> (d["Target Position (deg)"] == Devices.Number(targetDeg)
        && d["Moving"] == Devices.Flag(isMoving) && d["Reversed"] == Devices.Flag(reversed))
    {
      if !connected then map["Connected" := Devices.Flag(connected)]
      else
        var m := mechanicalDeg;
        map[
          "Connected" := Devices.Flag(connected),
          "Position (deg)" := Devices.Number(positionDeg),
          "Position (steps)" := Devices.Number(positionStep),
          "Position (arcsec)" := Devices.Number(positionArcsec),
          "Mechanical Position (deg)" := Devices.Number(m),
          "Mechanical Position (steps)" := Devices.Number(mechanicalStep),
          "Mechanical Position (arcsec)" := Devices.Number(mechanicalArcsec),
          "Position Offset from Mechanical (deg)" := Devices.Number(m),
          "Position Offset from Mechanical (steps)" := Devices.Number(mechanicalStep),
          "Position Offset from Mechanical (arcsec)" := Devices.Number(mechanicalArcsec),
          "Target Position (deg)" := Devices.Number(targetDeg),
          "Moving" := Devices.Flag(isMoving),
          "Reversed" := Devices.Flag(reversed)]
    }
  }

  // ---------------------------------------------------------------------------
  // The focuser

  /** `esatto_focuser`. Its queries are refused with INVALID_OPERATION while
      it is not connected; `halt` is not. */
  class EsattoFocuser {
    var serialDevicePath: string
    var connected: bool
    var isMoving: bool
    var position: Devices.uint32
    var temperature: real
    var backlash: int
    var arcoPresent: bool
    var stepSize: Devices.uint32
    var tempCompEnabled: bool
    var rotator: ArcoRotator?

    /** The constructor leaves the temperature compensation flag
        uninitialised: any value. */
    constructor (devicePath: string)
      ensures serialDevicePath == devicePath && !connected && !isMoving
      ensures position == 0 && temperature == 0.0 && backlash == 0
      ensures !arcoPresent && stepSize == 1 && rotator == null
    {
      serialDevicePath := devicePath;
      connected := false;
      isMoving := false;
      position := 0;
      temperature := 0.0;
      backlash := 0;
      arcoPresent := false;
      stepSize := 1;
      var t: bool :| true;
      tempCompEnabled := t;
      rotator := null;
    }

    function Readings(): FocuserReadings
      reads this
    {
      FocuserReadings(position, isMoving, temperature, backlash)
    }

    /** `init_rotator`, given the reply to the system data request: the ARCO
        is present when `ARCO` is 1, and then a rotator is made whose
        target is the reported MOT2 position in degrees. */
    method InitRotator(reply: Option<Json>) returns (r: Result<()>)
      modifies this
      ensures var all := Got(reply);
        var arco := if all.Err? then Err(all.error) else Index(all.value, "ARCO");
        var target := if all.Err? then Err(all.error) else Mot2Value(all.value, "POSITION_DEG");
        && (arco.Err? ==> r.Err? && unchanged(this))
        && (arco.Ok? ==> arcoPresent == (old(arcoPresent) || IsOne(arco.value)))
        && (arco.Ok? && arcoPresent ==> (r.Ok? <==> target.Ok?))
        && (r.Ok? && arcoPresent ==> (fresh(rotator) && rotator.focuser == this && !rotator.connected
              && rotator.targetDeg == target.value))
        && (arco.Ok? && !arcoPresent ==> r.Ok? && rotator == old(rotator))
      ensures unchanged(this`serialDevicePath, this`connected, this`isMoving, this`position,
                        this`temperature, this`backlash, this`stepSize, this`tempCompEnabled)
    {
      var all := Got(reply);
      if all.Err? {
        return Err(all.error);
      }
      var arco := Index(all.value, "ARCO");
      if arco.Err? {
        return Err(arco.error);
      }
      if IsOne(arco.value) {
        arcoPresent := true;
      }
      if arcoPresent {
        var target := Mot2Value(all.value, "POSITION_DEG");
        var made := new ArcoRotator(this);
        rotator := made;
        if target.Err? {
          return Err(target.error);
        }
        made.targetDeg := target.value;
      }
      r := Ok(());
    }

    /** `set_connected`. Connecting while connected returns 0 and changes
        nothing. Connecting otherwise asks for the system data: a reply that
        does not name the model "ESATTO3" is DRIVER_ERROR, one that cannot
        be read is the JSON error, and either leaves the focuser
        disconnected. Disconnecting disconnects the rotator first. */
    method SetConnected(connect: bool, reply: Option<Json>) returns (r: Result<int>)
      modifies this, rotator
      ensures old(connected) && connect ==> r == Ok(0) && connected
      ensures !old(connected) && connect ==>
        var model := if Got(reply).Err? then Err(UnspecifiedError) else Path(Got(reply).value, ["MODNAME"]);
        && (r.Ok? <==> model == Ok(JString("ESATTO3")))
        && (model.Ok? && r.Err? ==> r.error == DriverError)
        && (connected <==> r.Ok?)
      ensures r.Ok? ==> r.value == 0
      ensures !connect ==> r == Ok(0) && !connected
      ensures rotator == old(rotator)
      ensures !connect && old(connected) && rotator != null ==> !rotator.connected
      ensures !(!connect && old(connected)) && rotator != null ==> rotator.connected == old(rotator.connected)
      ensures unchanged(this`serialDevicePath, this`isMoving, this`position, this`temperature,
                        this`backlash, this`arcoPresent, this`stepSize, this`tempCompEnabled)
    {
      if connected && connect {
        return Ok(0);
      }
      if connect {
        var all := Got(reply);
        if all.Err? {
          return Err(all.error);
        }
        var model := Path(all.value, ["MODNAME"]);
        if model.Err? {
          return Err(model.error);
        }
        if model.value != JString("ESATTO3") {
          return Err(DriverError);
        }
        connected := true;
        return Ok(0);
      } else {
        if connected && rotator != null {
          rotator.connected := false;
        }
        connected := false;
        return Ok(0);
      }
    }

    /** `update_properties`, given the replies to the system data, MOT1
        status and MOT2 status requests: the focuser readings are refreshed;
        when the ARCO is present and its rotator connected, so are the
        rotator's, and the focuser's moving flag is then taken from the MOT2
        status. Any failure ends the refresh where it happened and sends the
        requests that abort both motors. */
    method UpdateProperties(system: Option<Json>, mot1: Option<Json>, mot2: Option<Json>) returns (sent: seq<Json>)
      modifies this`position, this`isMoving, this`temperature, this`backlash, rotator
      ensures var active := arcoPresent && rotator != null && old(rotator.connected);
        var out := Refresh(old(Readings()), if active then Some(old(rotator.Readings())) else None, system, mot1, mot2);
        && Readings() == out.0 && sent == out.2
        && (out.1.Some? ==> rotator != null && rotator.Readings() == out.1.value)
        && (out.1.None? && rotator != null ==> unchanged(rotator))
      ensures rotator != null ==> (rotator.connected == old(rotator.connected) && rotator.isMoving == old(rotator.isMoving)
        && rotator.targetDeg == old(rotator.targetDeg))
    {
      var step := RefreshFocuser(Readings(), system, mot1);
      StoreReadings(step.0);
      if step.1.None? {
        return Aborts;
      }
      if !(arcoPresent && rotator != null && rotator.connected) {
        return [];
      }
      sent := FollowRotator(step.1.value, mot2);
    }

    /** The rotator's share of `update_properties`. */
    method FollowRotator(all: Json, mot2: Option<Json>) returns (sent: seq<Json>)
      requires rotator != null
      modifies this`isMoving, rotator
      ensures (Readings(), rotator.Readings(), sent) == Follow(old(Readings()), old(rotator.Readings()), all, mot2)
      ensures rotator.connected == old(rotator.connected) && rotator.isMoving == old(rotator.isMoving)
        && rotator.targetDeg == old(rotator.targetDeg)
    {
      var ok := rotator.Refresh(all);
      if !ok {
        return Aborts;
      }
      var reply := Got(mot2);
      if reply.Err? {
        return Aborts;
      }
      var m2 := Index(reply.value, "MOT2");
      if m2.Err? {
        return Aborts;
      }
      var moving := Moving(m2.value);
      if moving.Err? {
        return Aborts;
      }
      isMoving := moving.value;
      sent := [];
    }

    /** Takes the focuser readings the refresh arrived at. */
    method StoreReadings(f: FocuserReadings)
      modifies this`position, this`isMoving, this`temperature, this`backlash
      ensures Readings() == f
    {
      position := f.position;
      isMoving := f.isMoving;
      temperature := f.temperature;
      backlash := f.backlash;
    }

    /** `absolute`. */
    function Absolute(): (r: Result<bool>)
      reads this
      ensures r.Ok? <==> connected
      ensures r.Err? ==> r.error == InvalidOperation
      ensures r.Ok? ==> r.value
    {
      if !connected then Err(InvalidOperation) else Ok(true)
    }

    /** `is_moving`. */
    function IsMoving(): (r: Result<bool>)
      reads this
      ensures r.Ok? <==> connected
      ensures r.Err? ==> r.error == InvalidOperation
      ensures r.Ok? ==> r.value == isMoving
    {
      if !connected then Err(InvalidOperation) else Ok(isMoving)
    }

    /** `max_increment`. */
    function MaxIncrement(): (r: Result<Devices.uint32>)
      reads this
      ensures r.Ok? <==> connected
      ensures r.Err? ==> r.error == InvalidOperation
      ensures r.Ok? ==> r.value == 731000
    {
      if !connected then Err(InvalidOperation) else Ok(731000)
    }

    /** `max_step`. */
    function MaxStep(): (r: Result<Devices.uint32>)
      reads this
      ensures r.Ok? <==> connected
      ensures r.Err? ==> r.error == InvalidOperation
      ensures r.Ok? ==> r.value == 731000
    {
      if !connected then Err(InvalidOperation) else Ok(731000)
    }

    /** `position`. */
    function Position(): (r: Result<Devices.uint32>)
      reads this
      ensures r.Ok? <==> connected
      ensures r.Err? ==> r.error == InvalidOperation
      ensures r.Ok? ==> r.value == position
    {
      if !connected then Err(InvalidOperation) else Ok(position)
    }

    /** `step_size`. */
    function StepSize(): (r: Result<Devices.uint32>)
      reads this
      ensures r.Ok? <==> connected
      ensures r.Err? ==> r.error == InvalidOperation
      ensures r.Ok? ==> r.value == stepSize
    {
      if !connected then Err(InvalidOperation) else Ok(stepSize)
    }

    /** `temp_comp`. */
    function TempComp(): (r: Result<bool>)
      reads this
      ensures r.Ok? <==> connected
      ensures r.Err? ==> r.error == InvalidOperation
      ensures r.Ok? ==> r.value == tempCompEnabled
    {
      if !connected then Err(InvalidOperation) else Ok(tempCompEnabled)
    }

    /** `set_temp_comp`: turns compensation on whatever is asked. */
    method SetTempComp(enable: bool) returns (r: Result<int>)
      modifies this`tempCompEnabled
      ensures old(connected) ==> r == Ok(0) && tempCompEnabled
      ensures !old(connected) ==> r == Err(InvalidOperation) && tempCompEnabled == old(tempCompEnabled)
    {
      if !connected {
        return Err(InvalidOperation);
      }
      tempCompEnabled := true;
      r := Ok(0);
    }

    /** `temp_comp_available`. */
    function TempCompAvailable(): (r: Result<bool>)
      reads this
      ensures r.Ok? <==> connected
      ensures r.Err? ==> r.error == InvalidOperation
      ensures r.Ok? ==> r.value
    {
      if !connected then Err(InvalidOperation) else Ok(true)
    }

    /** `temperature`. */
    function Temperature(): (r: Result<real>)
      reads this
      ensures r.Ok? <==> connected
      ensures r.Err? ==> r.error == InvalidOperation
      ensures r.Ok? ==> r.value == temperature
    {
      if !connected then Err(InvalidOperation) else Ok(temperature)
    }

    /** `halt`: stops the focuser with deceleration, connected or not. */
    method Halt() returns (r: Result<int>, sent: Json)
      ensures r == Ok(0) && sent == Mot1Command("MOT_STOP")
    {
      return Ok(0), Mot1Command("MOT_STOP");
    }

    /** `move`: sends the absolute move to the position asked for, which the
        request carries as a uint32_t. */
    method Move(pos: int) returns (r: Result<int>, sent: Option<Json>)
      ensures connected ==> r == Ok(0) && sent == Some(Mot1Step("MOVE_ABS", Devices.Wrap32(pos)))
      ensures !connected ==> r == Err(InvalidOperation) && sent == None
    {
      if !connected {
        return Err(InvalidOperation), None;
      }
      return Ok(0), Some(Mot1Step("MOVE_ABS", Devices.Wrap32(pos)));
    }

    /** `unique_id`: the serial device path. */
    function UniqueId(): (id: string)
      reads this
      ensures id == serialDevicePath
    {
      serialDevicePath
    }

    /** `details`: the connection and the serial device always, the
        readings only while connected. */
    function Details(): (d: map<string, Devices.Variant>)
      reads this
      ensures d.Keys == {"Connected", "Serial Device"} + (if connected then FocuserKeys else {})
      ensures d["Connected"] == Devices.Flag(connected) && d["Serial Device"] == Devices.Text(serialDevicePath)
      ensures connected ==> (d["Temperature"] == Devices.Number(temperature) && d["Position"] == Devices.Whole(position as int)
        && d["Moving"] == Devices.Flag(isMoving) && d["Backlash"] == Devices.Whole(backlash))
    {
      var base := map["Connected" := Devices.Flag(connected), "Serial Device" := Devices.Text(serialDevicePath)];
      if !connected then base
      else
        base + map[
          "Temperature" := Devices.Number(temperature),
          "Position" := Devices.Whole(position as int),
          "Moving" := Devices.Flag(isMoving),
          "Backlash" := Devices.Whole(backlash)]
    }
  }
}
