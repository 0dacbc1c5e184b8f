/** The standalone QHY filter wheel driver
    (`qhy_alpaca_filterwheel_standalone`): the filter table built from the
    wheel's filter count, the position command and its busy flag, and the
    polling step that clears the flag. The serial link is not modelled: each
    reply the driver reads is a parameter, at most as long as the driver
    reads, and a command the driver writes is returned to the caller. */
module FilterWheel {
  import opened Wrappers
  import opened Text
  import opened Devices

  /** The default filter names for `n` filters: the one-character names
      "1", "2", … "n". The count is one digit read from the wheel, so at
      most nine names are made. */
  function DefaultNames(n: nat): (names: seq<string>)
    requires n <= 9
    ensures |names| == n
  {
    seq(n, i requires 0 <= i < n => [DigitChar(i + 1)])
  }

  /** The default names are the positions, counted from 1, as `atoi`
      reads them, so no two are the same. */
  lemma DefaultNamesNumbered(n: nat)
    requires n <= 9
    ensures forall i :: 0 <= i < n ==> Atoi(DefaultNames(n)[i]) == i + 1
    ensures forall i, j :: 0 <= i < j < n ==> DefaultNames(n)[i] != DefaultNames(n)[j]
  {
    var names := DefaultNames(n);
    forall i | 0 <= i < n
      ensures Atoi(names[i]) == i + 1
    {
      assert AllDigits(names[i]);
      AtoiOfDigits(names[i]);
      assert ValueOf(names[i]) == i + 1 by {
        assert names[i][..0] == [];
      }
    }
  }

  /** The command `set_position` writes for a position: the one
      character `'0' + position`, truncated to a byte. */
  function PositionCommand(p: uint32): (c: string)
    ensures |c| == 1
    ensures p < 10 ==> IsDigit(c[0]) && Atoi(c) == p as int
  {
    var c := [(('0' as int + p as int) % 256) as char];
    if p < 10 then
      assert c == [DigitChar(p as nat)];
      AtoiOfDigits(c);
      assert ValueOf(c) == p as int by { assert c[..0] == []; }
      c
    else
      c
  }

  /** The range check of `set_position` as written: `position > (_names.size()
      - 1)` rejects, with the subtraction done in the 64-bit `size_t`. */
  predicate AcceptedAsWritten(p: uint32, count: nat)
  {
    p as int <= (count - 1) % 0x1_0000_0000_0000_0000
  }

  /** For a non-empty table the check as written accepts exactly the
      indices of the table. */
  lemma AcceptedAsWrittenOfNonEmpty(p: uint32, count: nat)
    requires 0 < count < 0x1_0000_0000_0000_0000
    ensures AcceptedAsWritten(p, count) <==> p as int < count
  {
  }

  /** With no names the subtraction wraps to 2^64 - 1 and the check as
      written accepts every position, though no filter exists. */
  lemma AcceptedAsWrittenOfEmpty(p: uint32)
    ensures AcceptedAsWritten(p, 0)
    ensures !ValidPosition(p, [])
  {
    assert (0 - 1) % 0x1_0000_0000_0000_0000 == 0xFFFF_FFFF_FFFF_FFFF;
  }

  /** The range check `set_position` is evidently meant to make: the
      position names a filter. */
  predicate ValidPosition(p: uint32, names: seq<string>)
  {
    (p as int) < |names|
  }

  /** The intended check agrees with the check as written wherever the
      table is not empty, and rejects everything when it is. */
  lemma ValidPositionAgrees(p: uint32, names: seq<string>)
    requires |names| < 0x1_0000_0000_0000_0000
    ensures |names| > 0 ==> (ValidPosition(p, names) <==> AcceptedAsWritten(p, |names|))
    ensures |names| == 0 ==> !ValidPosition(p, names)
  {
    if |names| > 0 {
      AcceptedAsWrittenOfNonEmpty(p, |names|);
    }
  }

  /** The loop of `initialize` that fills the filter table for `n`
      filters: the default names and a zero focus offset each. */
  method DefaultTable(n: nat) returns (table: seq<string>, offsets: seq<int>)
    requires n <= 9
    ensures table == DefaultNames(n) && |offsets| == n
    ensures forall i :: 0 <= i < n ==> offsets[i] == 0
  {
    table, offsets := [], [];
    var i := 0;
    while i < n
      invariant 0 <= i <= n
      invariant |table| == i && |offsets| == i
      invariant forall k :: 0 <= k < i ==> table[k] == [DigitChar(k + 1)] && offsets[k] == 0
    {
      table := table + [[DigitChar(i + 1)]];
      offsets := offsets + [0];
      i := i + 1;
    }
  }

  /** The keys `details` adds to "Connected" while the wheel is connected. */
  const ReadingKeys: set<string> := {"Position", "Names", "FocusOffsets"}

  /** `qhy_alpaca_filterwheel_standalone`. */
  class StandaloneWheel {
    var connected: bool
    var serialDevicePath: string
    var firmwareVersion: string
    var names: seq<string>
    var focusOffsets: seq<int>
    var position: int
    var busy: bool

    /** The constructor leaves `_position` uninitialised: any value. */
    constructor (devicePath: string)
      ensures serialDevicePath == devicePath && !connected && !busy
      ensures names == [] && focusOffsets == [] && firmwareVersion == ""
    {
      serialDevicePath := devicePath;
      connected := false;
      firmwareVersion := "";
      names := [];
      focusOffsets := [];
      busy := false;
      var p: int :| true;
      position := p;
    }

    /** `set_connected`. Connecting while connected returns 0 and changes
        nothing; otherwise connecting succeeds when the port opens
        (`portOpened`) and fails with DRIVER_ERROR, still disconnected, when
        it does not. Disconnecting always ends disconnected, with
        DRIVER_ERROR if an open port fails to close (`portClosed`). */
    method SetConnected(connect: bool, portOpened: bool, portClosed: bool) returns (r: Result<int>)
      modifies this
      ensures old(connected) && connect ==> r == Ok(0) && connected
      ensures !old(connected) && connect ==> (r.Ok? <==> portOpened) && (connected <==> portOpened)
      ensures !connect ==> !connected && (r.Ok? <==> !old(connected) || portClosed)
      ensures r.Ok? ==> r.value == 0
      ensures r.Err? ==> r.error == DriverError
      ensures unchanged(this`serialDevicePath, this`firmwareVersion, this`names, this`focusOffsets, this`position, this`busy)
    {
      if connected && connect {
        return Ok(0);
      }
      if connect {
        if !portOpened {
          return Err(DriverError);
        }
        connected := true;
        return Ok(0);
      } else {
        var wasConnected := connected;
        connected := false;
        if wasConnected && !portClosed {
          return Err(DriverError);
        }
        return Ok(0);
      }
    }

    /** `initialize`, given the replies to `VRS` (up to eight characters)
        and `MXP` (one character): the firmware version is the first reply;
        the filter table is rebuilt with the default names for the count
        `atoi` reads from the second, and a zero focus offset each. */
    method Initialize(versionReply: string, countReply: string)
      requires |versionReply| <= 8 && |countReply| <= 1
      modifies this
      ensures firmwareVersion == versionReply
      ensures Atoi(countReply) <= 0 ==> names == [] && focusOffsets == []
      ensures Atoi(countReply) > 0 ==> 0 < Atoi(countReply) <= 9 && names == DefaultNames(Atoi(countReply))
      ensures |focusOffsets| == |names|
      ensures forall i :: 0 <= i < |focusOffsets| ==> focusOffsets[i] == 0
      ensures unchanged(this`connected, this`serialDevicePath, this`position, this`busy)
    {
      var count := Atoi(countReply);
      CountOfOneCharacter(countReply);
      var table, offsets := DefaultTable(if count > 0 then count else 0);
      firmwareVersion := versionReply;
      names := table;
      focusOffsets := offsets;
    }

    /** `set_position`: marks the wheel busy before anything else; a
        position that names no filter is INVALID_VALUE and leaves the wheel
        busy. Otherwise the position command is sent, and a reply of one
        character sets the position `atoi` reads from it and clears the
        busy flag. Nothing but `position` and `busy` changes. */
    method SetPosition(p: uint32, reply: string) returns (r: Result<int>, sent: Option<string>)
      requires |reply| <= 1
      modifies this
      ensures !ValidPosition(p, names) ==> r == Err(InvalidValue) && sent == None && busy && position == old(position)
      ensures ValidPosition(p, names) ==> r == Ok(0) && sent == Some(PositionCommand(p))
      ensures ValidPosition(p, names) && reply != [] ==> !busy && position == Atoi(reply)
      ensures ValidPosition(p, names) && reply == [] ==> busy && position == old(position)
      ensures unchanged(this`connected, this`serialDevicePath, this`firmwareVersion, this`names, this`focusOffsets)
    {
      var command := PositionCommand(p);
      busy := true;
      if !ValidPosition(p, names) {
        return Err(InvalidValue), None;
      }
      if |reply| > 0 {
        position := Atoi(reply);
        busy := false;
      }
      return Ok(0), Some(command);
    }

    /** One pass of the polling loop: while the wheel is idle it is asked
        for its position (`NOW`), which is taken from the reply even when
        the reply is empty; while it is busy the flag is cleared as soon as
        any character arrives. */
    method Poll(reply: string)
      requires |reply| <= 1
      modifies this
      ensures !old(busy) ==> !busy && position == Atoi(reply)
      ensures old(busy) ==> position == old(position) && (busy <==> reply == [])
      ensures unchanged(this`connected, this`serialDevicePath, this`firmwareVersion, this`names, this`focusOffsets)
    {
      if !busy {
        position := Atoi(reply);
      } else if |reply| > 0 {
        busy := false;
      }
    }

    /** `set_names`: the table of names is replaced, with no check. */
    method SetNames(newNames: seq<string>) returns (r: int)
      modifies this
      ensures names == newNames && r == 0
      ensures unchanged(this`connected, this`serialDevicePath, this`firmwareVersion, this`focusOffsets, this`position, this`busy)
    {
      names := newNames;
      r := 0;
    }

    /** `unique_id`: the serial device path with "FW" appended. */
    function UniqueId(): (id: string)
      reads this
      ensures |id| == |serialDevicePath| + 2
      ensures id[..|serialDevicePath|] == serialDevicePath && id[|serialDevicePath|..] == "FW"
    {
      serialDevicePath + "FW"
    }

    /** `details`: the connection always, the position and the filter
        table only while connected. */
    function Details(): (d: map<string, Variant>)
      reads this
      ensures d.Keys == {"Connected"} + (if connected then ReadingKeys else {})
      ensures d["Connected"] == Flag(connected)
      ensures connected ==> (d["Position"] == Whole(position) && d["Names"] == Texts(names)
        && d["FocusOffsets"] == Wholes(focusOffsets))
    {
      var base := map["Connected" := Flag(connected)];
      if !connected then base
      else
        base + map[
          "Position" := Whole(position),
          "Names" := Texts(names),
          "FocusOffsets" := Wholes(focusOffsets)]
    }
  }

  /** A reply of at most one character holds at most one digit, so `atoi`
      reads a count of at most nine from it. */
  lemma CountOfOneCharacter(reply: string)
    requires |reply| <= 1
    ensures Atoi(reply) <= 9
  {
    var t := SkipSpace(reply);
    var d := LeadingDigits(t);
    if |t| > 0 && (t[0] == '-' || t[0] == '+') {
      assert LeadingDigits(t[1..]) == [];
    } else {
      assert ValueOf(d) < Pow10(|d|) <= Pow10(1);
    }
  }
}
