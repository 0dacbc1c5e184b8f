/** The Pegasus FocusCube3 focuser driver (`pegasus_alpaca_focuscube3`): a
    connection guard in front of every query and command, the `FA` status
    reply that refreshes the readings, and the `FM` move command. The serial
    link is not modelled: the status reply is a parameter, and a command the
    driver writes is returned to the caller. */
module FocusCube3 {
  import opened Wrappers
  import opened Text
  import opened Devices
  import OnStepResponses

  /** The readings an `FA` reply refreshes. */
  datatype FocuserStatus = FocuserStatus(position: uint32, moving: bool, temperature: real, backlash: int)

  /** The reply to `FA`: "FC3", then the position, the moving flag ("1"
      while moving), the temperature, a field the driver does not read and
      the backlash. A reply with another first field, or too few fields, is
      a driver error. */
  function ParseStatus(reply: string): (r: Result<FocuserStatus>)
    ensures r.Ok? <==> Fields(reply, ':')[0] == "FC3" && |Fields(reply, ':')| >= 6
    ensures r.Err? ==> r.error == DriverError
  {
    var f := Fields(reply, ':');
    if f[0] != "FC3" || |f| < 6 then Err(DriverError)
    else Ok(FocuserStatus(Wrap32(Atoi(f[1])), f[2] == "1", Atof(f[3]), Atoi(f[5])))
  }

  /** What the focuser reports to `FA`, as it writes it; the driver keeps
      the line feed that ends the reply. */
  datatype StatusReport = StatusReport(position: uint32, moving: bool, temperature: Fixed, other: string, backlash: int)

  function StatusFields(s: StatusReport): seq<string>
  {
    ["FC3", Decimal(s.position as nat), if s.moving then "1" else "0",
     DoubleText(s.temperature), s.other, Signed(s.backlash) + "\n"]
  }

  lemma StatusFieldsSplit(s: StatusReport)
    requires ':' !in s.other
    ensures Fields(OnStepResponses.Join(StatusFields(s), ':'), ':') == StatusFields(s)
  {
    var f := StatusFields(s);
    DoubleTextChars(s.temperature);
    assert AllDigits(Decimal(s.position as nat));
    assert f[5] == (if s.backlash < 0 then "-" + Decimal(-s.backlash) else Decimal(s.backlash)) + "\n";
    forall i | 0 <= i < |f| ensures ':' !in f[i] {
      if i == 1 {
        assert forall k :: 0 <= k < |f[1]| ==> IsDigit(f[1][k]);
      } else if i == 5 {
        assert forall k :: 0 <= k < |f[5]| ==> IsDigit(f[5][k]) || f[5][k] == '-' || f[5][k] == '\n';
      }
    }
    FieldsOfJoin(f, ':');
  }

  /** Every reading of an `FA` reply the focuser writes is read back as
      written. */
  lemma StatusRoundTrip(s: StatusReport)
    requires ':' !in s.other
    ensures ParseStatus(OnStepResponses.Join(StatusFields(s), ':'))
      == Ok(FocuserStatus(s.position, s.moving, RealOf(s.temperature), s.backlash))
  {
    var f := StatusFields(s);
    var j := OnStepResponses.Join(f, ':');
    StatusFieldsSplit(s);
    assert Fields(j, ':') == f;
    assert ParseStatus(j) == Ok(FocuserStatus(Wrap32(Atoi(f[1])), f[2] == "1", Atof(f[3]), Atoi(f[5])));
    AtoiOfDigits(Decimal(s.position as nat));
    ValueOfDecimal(s.position as nat);
    AtofOfDoubleText(s.temperature);
    AtoiOfSignedThen(s.backlash, "\n");
  }

  /** `fmt::format("FM:{:#d}\n", pos)`: the target position in decimal
      (the alternate form changes nothing for a decimal), which `atoi`
      reads back. */
  function MoveCommand(pos: int): (c: string)
    ensures |c| >= 5 && c[..3] == "FM:" && c[|c| - 1] == '\n'
    ensures Atoi(c[3..]) == pos
  {
    var c := "FM:" + (Signed(pos) + "\n");
    assert c[3..] == Signed(pos) + "\n";
    AtoiOfSignedThen(pos, "\n");
    c
  }

  /** The halt command. */
  const HaltCommand: string := "FH\n"

  /** The keys `details` adds to "Connected" and "Serial Device" while the
      focuser is connected. */
  const ReadingKeys: set<string> := {"Temperature", "Position", "Moving", "Backlash"}

  /** `pegasus_alpaca_focuscube3`. */
  class FocusCube {
    var connected: bool
    var serialDevicePath: string
    var moving: bool
    var position: uint32
    var temperature: real
    var backlash: int

    constructor ()
      ensures !connected && serialDevicePath == "" && !moving
      ensures position == 0 && temperature == 0.0 && backlash == 0
    {
      connected := false;
      serialDevicePath := "";
      moving := false;
      position := 0;
      temperature := 0.0;
      backlash := 0;
    }

    /** `set_connected`. Connecting while connected returns 0 and changes
        nothing; otherwise connecting succeeds when the port opens
        (`portOpened`) and fails with DRIVER_ERROR, still disconnected, when
        it does not. Disconnecting always ends disconnected, with
        DRIVER_ERROR if an open port fails to close (`portClosed`). */
    method SetConnected(connect: bool, portOpened: bool, portClosed: bool) returns (r: Result<int>)
      modifies this
      ensures old(connected) && connect ==> r == Ok(0) && connected
      ensures !old(connected) && connect ==> (r.Ok? <==> portOpened) && (connected <==> portOpened)
      ensures !connect ==> !connected && (r.Ok? <==> !old(connected) || portClosed)
      ensures r.Ok? ==> r.value == 0
      ensures r.Err? ==> r.error == DriverError
      ensures unchanged(this`serialDevicePath, this`moving, this`position, this`temperature, this`backlash)
    {
      if connected && connect {
        return Ok(0);
      }
      if connect {
        if !portOpened {
          return Err(DriverError);
        }
        connected := true;
        return Ok(0);
      } else {
        var wasConnected := connected;
        if connected {
          connected := false;
        }
        connected := false;
        if wasConnected && !portClosed {
          return Err(DriverError);
        }
        return Ok(0);
      }
    }

    /** `update_properties`, given the reply to `FA`: an accepted reply sets
        every reading from it; a rejected one is DRIVER_ERROR and changes
        nothing. */
    method UpdateProperties(reply: string) returns (r: Result<()>)
      modifies this
      ensures r.Ok? <==> ParseStatus(reply).Ok?
      ensures r.Err? ==> r.error == DriverError && unchanged(this)
      ensures r.Ok? ==> FocuserStatus(position, moving, temperature, backlash) == ParseStatus(reply).value
      ensures unchanged(this`connected, this`serialDevicePath)
    {
      r := Store(ParseStatus(reply));
    }

    /** Takes the readings of an accepted status reply. */
    method Store(status: Result<FocuserStatus>) returns (r: Result<()>)
      modifies this
      ensures r == (if status.Ok? then Ok(()) else Err(status.error))
      ensures status.Err? ==> unchanged(this)
      ensures status.Ok? ==> FocuserStatus(position, moving, temperature, backlash) == status.value
      ensures unchanged(this`connected, this`serialDevicePath)
    {
      if status.Err? {
        return Err(status.error);
      }
      position := status.value.position;
      moving := status.value.moving;
      temperature := status.value.temperature;
      backlash := status.value.backlash;
      r := Ok(());
    }

    /** `absolute`: the focuser moves to absolute positions. */
    function Absolute(): (r: Result<bool>)
      reads this
      ensures r.Ok? <==> connected
      ensures r.Err? ==> r.error == NotConnected
      ensures r.Ok? ==> r.value
    {
      if !connected then Err(NotConnected) else Ok(true)
    }

    /** `is_moving`. */
    function IsMoving(): (r: Result<bool>)
      reads this
      ensures r.Ok? <==> connected
      ensures r.Err? ==> r.error == NotConnected
      ensures r.Ok? ==> r.value == moving
    {
      if !connected then Err(NotConnected) else Ok(moving)
    }

    /** `max_increment`. */
    function MaxIncrement(): (r: Result<uint32>)
      reads this
      ensures r.Ok? <==> connected
      ensures r.Err? ==> r.error == NotConnected
      ensures r.Ok? ==> r.value == 500
    {
      if !connected then Err(NotConnected) else Ok(500)
    }

    /** `max_step`. */
    function MaxStep(): (r: Result<uint32>)
      reads this
      ensures r.Ok? <==> connected
      ensures r.Err? ==> r.error == NotConnected
      ensures r.Ok? ==> r.value == 1000000
    {
      if !connected then Err(NotConnected) else Ok(1000000)
    }

    /** `position`. */
    function Position(): (r: Result<uint32>)
      reads this
      ensures r.Ok? <==> connected
      ensures r.Err? ==> r.error == NotConnected
      ensures r.Ok? ==> r.value == position
    {
      if !connected then Err(NotConnected) else Ok(position)
    }

    /** `step_size`: never known; NOT_CONNECTED takes precedence over
        NOT_IMPLEMENTED. */
    function StepSize(): (r: Result<uint32>)
      reads this
      ensures r.Err?
      ensures r.error == (if connected then NotImplemented else NotConnected)
    {
      if !connected then Err(NotConnected) else Err(NotImplemented)
    }

    /** `temp_comp`: temperature compensation is never on. */
    function TempComp(): (r: Result<bool>)
      reads this
      ensures r.Ok? <==> connected
      ensures r.Err? ==> r.error == NotConnected
      ensures r.Ok? ==> !r.value
    {
      if !connected then Err(NotConnected) else Ok(false)
    }

    /** `temp_comp_available`: nor is it available. */
    function TempCompAvailable(): (r: Result<bool>)
      reads this
      ensures r.Ok? <==> connected
      ensures r.Err? ==> r.error == NotConnected
      ensures r.Ok? ==> !r.value
    {
      if !connected then Err(NotConnected) else Ok(false)
    }

    /** `set_temp_comp`: refused whatever is asked, and nothing changes. */
    function SetTempComp(enable: bool): (r: Result<int>)
      reads this
      ensures r.Err?
      ensures r.error == (if connected then NotImplemented else NotConnected)
    {
      if !connected then Err(NotConnected) else Err(NotImplemented)
    }

    /** `temperature`. */
    function Temperature(): (r: Result<real>)
      reads this
      ensures r.Ok? <==> connected
      ensures r.Err? ==> r.error == NotConnected
      ensures r.Ok? ==> r.value == temperature
    {
      if !connected then Err(NotConnected) else Ok(temperature)
    }

    /** `halt`: sends the halt command, without waiting for a reply. */
    method Halt() returns (r: Result<int>, sent: Option<string>)
      ensures connected ==> r == Ok(0) && sent == Some(HaltCommand)
      ensures !connected ==> r == Err(NotConnected) && sent == None
    {
      if !connected {
        return Err(NotConnected), None;
      }
      return Ok(0), Some(HaltCommand);
    }

    /** `move`: sends the move command for `pos` and marks the focuser as
        moving; when disconnected nothing is sent and nothing changes. */
    method Move(pos: int) returns (r: Result<int>, sent: Option<string>)
      modifies this
      ensures old(connected) ==> r == Ok(0) && sent == Some(MoveCommand(pos)) && moving
      ensures !old(connected) ==> r == Err(NotConnected) && sent == None && moving == old(moving)
      ensures unchanged(this`connected, this`serialDevicePath, this`position, this`temperature, this`backlash)
    {
      if !connected {
        return Err(NotConnected), None;
      }
      var command := MoveCommand(pos);
      moving := true;
      return Ok(0), Some(command);
    }

    /** `details`: the connection and the serial device always, the
        readings only while connected. */
    function Details(): (d: map<string, Variant>)
      reads this
      ensures d.Keys == {"Connected", "Serial Device"} + (if connected then ReadingKeys else {})
      ensures d["Connected"] == Flag(connected) && d["Serial Device"] == Text(serialDevicePath)
      ensures connected ==> (d["Temperature"] == Number(temperature) && d["Position"] == Whole(position as int)
        && d["Moving"] == Flag(moving) && d["Backlash"] == Whole(backlash))
    {
      var base := map["Connected" := Flag(connected), "Serial Device" := Text(serialDevicePath)];
      if !connected then base
      else
        base + map[
          "Temperature" := Number(temperature),
          "Position" := Whole(position as int),
          "Moving" := Flag(moving),
          "Backlash" := Whole(backlash)]
    }
  }
}
