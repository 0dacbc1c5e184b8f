/** The Alpaca REST front end of the hub (`api_v1_handler`): the checks and
    the common reply fields every device request goes through, the generic
    GET and PUT handlers, the management list of configured devices and the
    `imagearray` endpoint with its JSON and ImageBytes replies. */
module HubServer {
  import opened Wrappers
  import opened Devices
  import opened Bytes
  import Digits = Text
  import QhyCamera
  import ImageBytes

  // ---------------------------------------------------------------------
  // Query strings

  /** `std::tolower` of one character in the "C" locale. */
  function LowerChar(c: char): (d: char)
  {
    if 'A' <= c <= 'Z' then (c as int + 32) as char else c
  }

  /** `lowercase`: every upper-case letter replaced by its lower-case one,
      every other character kept. */
  function Lowercase(s: string): (r: string)
    ensures |r| == |s|
    ensures forall i :: 0 <= i < |r| ==> !('A' <= r[i] <= 'Z')
    ensures forall i :: 0 <= i < |s| && !('A' <= s[i] <= 'Z') ==> r[i] == s[i]
  {
    seq(|s|, i requires 0 <= i < |s| => LowerChar(s[i]))
  }

  /** Lowering twice is lowering once. */
  lemma LowercaseIdempotent(s: string)
    ensures Lowercase(Lowercase(s)) == Lowercase(s)
  {
  }

  /** The decoded name/value pairs of a query string or a form body, in the
      order they appear. */
  type Params = seq<(string, string)>

  /** The `std::map` the GET handlers copy the query into: keys lowered, and
      a later pair overwriting an earlier one with the same lowered key. */
  function QueryMap(params: Params): (qp: map<string, string>)
    decreases |params|
  {
    if params == [] then map[]
    else QueryMap(params[..|params| - 1])[Lowercase(params[|params| - 1].0) := params[|params| - 1].1]
  }

  /** The copying loop of the GET handlers. */
  method LowerKeys(params: Params) returns (qp: map<string, string>)
    ensures qp == QueryMap(params)
  {
    qp := map[];
    var i := 0;
    while i < |params|
      invariant 0 <= i <= |params|
      invariant qp == QueryMap(params[..i])
    {
      assert params[..i + 1][..i] == params[..i];
      qp := qp[Lowercase(params[i].0) := params[i].1];
      i := i + 1;
    }
    assert params[..|params|] == params;
  }

  /** A name is in the map exactly when some pair's name lowers to it. */
  lemma {:induction false} QueryMapKeys(params: Params, k: string)
    ensures k in QueryMap(params) <==> exists i :: 0 <= i < |params| && Lowercase(params[i].0) == k
    decreases |params|
  {
    if params != [] {
      var init := params[..|params| - 1];
      QueryMapKeys(init, k);
      if k in QueryMap(init) {
        var i :| 0 <= i < |init| && Lowercase(init[i].0) == k;
        assert Lowercase(params[i].0) == k;
      }
      if exists i :: 0 <= i < |params| && Lowercase(params[i].0) == k {
        var i :| 0 <= i < |params| && Lowercase(params[i].0) == k;
        if i < |init| {
          assert Lowercase(init[i].0) == k;
        }
      }
    }
  }

  /** The value kept for a name is that of the last pair whose name lowers
      to it, whatever the case it was written in. */
  lemma {:induction false} QueryMapLastWins(params: Params, i: nat)
    requires i < |params|
    requires forall j :: i < j < |params| ==> Lowercase(params[j].0) != Lowercase(params[i].0)
    ensures Lowercase(params[i].0) in QueryMap(params)
    ensures QueryMap(params)[Lowercase(params[i].0)] == params[i].1
    decreases |params|
  {
    if i < |params| - 1 {
      var init := params[..|params| - 1];
      assert init[i] == params[i];
      QueryMapLastWins(init, i);
    }
  }

  /** `qp[key]` on that `std::map`: the empty string for a missing name. */
  function Get(qp: map<string, string>, key: string): string
  {
    if key in qp then qp[key] else ""
  }

  /** `qp[key]` on restinio's parsed parameters, as the PUT handlers use it:
      the first pair with exactly that name, or none (restinio throws). */
  function FirstValue(params: Params, key: string): (v: Option<string>)
    ensures v.Some? <==> exists i :: 0 <= i < |params| && params[i].0 == key
    ensures v.Some? ==> exists i :: 0 <= i < |params| && params[i].0 == key && params[i].1 == v.value
                                    && forall j :: 0 <= j < i ==> params[j].0 != key
    decreases |params|
  {
    if params == [] then None
    else if params[0].0 == key then Some(params[0].1)
    else
      var v := FirstValue(params[1..], key);
      assert forall i :: 1 <= i < |params| ==> params[i] == params[1..][i - 1];
      v
  }

  /** `restinio::cast_to<uint32_t>`: a non-empty run of decimal digits whose
      value fits in 32 bits. */
  function ParseUint32(s: string): (r: Option<uint32>)
  {
    if s != [] && Digits.AllDigits(s) && Digits.ValueOf(s) < 0x1_0000_0000 then
      Some(Digits.ValueOf(s) as uint32)
    else
      None
  }

  /** A 32-bit number written in decimal is read back. */
  lemma ParseUint32OfDecimal(n: uint32)
    ensures ParseUint32(Digits.Decimal(n as nat)) == Some(n)
  {
    Digits.ValueOfDecimal(n as nat);
  }

  /** `restinio::cast_to<int>`: an optional minus sign and a non-empty run
      of decimal digits whose value fits in a C `int`. */
  function ParseInt(s: string): (r: Option<int>)
  {
    var negative := s != [] && s[0] == '-';
    var digits := if negative then s[1..] else s;
    if digits == [] || !Digits.AllDigits(digits) then None
    else
      var v := if negative then -(Digits.ValueOf(digits) as int) else Digits.ValueOf(digits);
      if -0x8000_0000 <= v < 0x8000_0000 then Some(v) else None
  }

  /** A C `int` written in decimal is read back. */
  lemma ParseIntOfSigned(n: int)
    requires -0x8000_0000 <= n < 0x8000_0000
    ensures ParseInt(Digits.Signed(n)) == Some(n)
  {
    var s := Digits.Signed(n);
    if n < 0 {
      assert s[0] == '-' && s[1..] == Digits.Decimal(-n);
      Digits.ValueOfDecimal(-n);
    } else {
      assert s == Digits.Decimal(n);
      assert s[0] != '-' by { assert Digits.IsDigit(s[0]); }
      Digits.ValueOfDecimal(n);
    }
  }

  // ---------------------------------------------------------------------
  // Replies

  /** The reply map (`device_param_t`). */
  type Response = map<string, Variant>

  /** What the server sends: a plain-text body, a JSON object, or the
      octet stream of an ImageBytes reply. */
  datatype Reply =
    | Rejected(status: int, body: string)
    | Json(status: int, response: Response)
    | ImageJson(response: Response, frame: QhyCamera.Frame)
    | Binary(payload: seq<uint8>)
    | Fault

  /** The request fields a handler must hand back as the pre-handler set
      them. */
  const TransactionKeys: set<string> := {"ServerTransactionID", "ClientID", "ClientTransactionID"}

  /** `response[name] = cast_to<uint32_t>(raw)` inside a `try`: set when the
      text parses, left alone when it does not. */
  function EchoId(response: Response, name: string, raw: string): Response
  {
    match ParseUint32(raw)
    case Some(n) => response[name := Whole(n as int)]
    case None => response
  }

  /** The error number reported for an `alpaca_exception`. */
  function Code(e: ErrorCode): int
  {
    Wrappers.Number(e)
  }

  // ---------------------------------------------------------------------
  // Devices

  /** The path segments the device routes accept. */
  const DeviceTypes: set<string> := {"camera", "telescope", "focuser", "filterwheel"}

  /** A registered device, as far as the server reads it. */
  datatype DeviceEntry = DeviceEntry(name: string, uniqueId: string)

  /** One entry of the `configureddevices` list. */
  datatype Listed = Listed(deviceType: string, deviceName: string, deviceNumber: nat, uniqueId: string)

  function Entries(devices: map<string, seq<DeviceEntry>>, t: string): seq<DeviceEntry>
  {
    if t in devices then devices[t] else []
  }

  /** The entries of one device type, numbered from 0 in registration order. */
  function Numbered(t: string, entries: seq<DeviceEntry>): seq<Listed>
  {
    seq(|entries|, i requires 0 <= i < |entries| => Listed(t, entries[i].name, i, entries[i].uniqueId))
  }

  /** The list over the device types in the order given. */
  function Listing(devices: map<string, seq<DeviceEntry>>, order: seq<string>): seq<Listed>
    decreases |order|
  {
    if order == [] then []
    else Listing(devices, order[..|order| - 1]) + Numbered(order[|order| - 1], Entries(devices, order[|order| - 1]))
  }

  /** The lexicographic order of `std::string::compare`, as -1, 0 or 1. */
  function Compare(a: string, b: string): (c: int)
    ensures -1 <= c <= 1
    ensures c == 0 <==> a == b
    decreases |a|
  {
    if a == [] then (if b == [] then 0 else -1)
    else if b == [] then 1
    else if a[0] < b[0] then -1
    else if a[0] > b[0] then 1
    else
      var c := Compare(a[1..], b[1..]);
      assert a == [a[0]] + a[1..] && b == [b[0]] + b[1..];
      c
  }

  /** Swapping the operands flips the sign. */
  lemma {:induction false} CompareAntisymmetric(a: string, b: string)
    ensures Compare(b, a) == -Compare(a, b)
    decreases |a|
  {
    if a != [] && b != [] && a[0] == b[0] {
      CompareAntisymmetric(a[1..], b[1..]);
    }
  }

  /** `order` lists the keys of `device_map` in the order a `std::map`
      iterates them: each key once, ascending. */
  ghost predicate KeyOrder(devices: map<string, seq<DeviceEntry>>, order: seq<string>)
  {
    (forall t :: t in devices <==> t in order)
    && (forall i, j :: 0 <= i < j < |order| ==> Compare(order[i], order[j]) < 0)
  }

  /** Every device of type `order[g]` appears in the list at the position
      after the devices of the types before it, with its index in its
      type as its device number: the number the device routes address it
      by. */
  lemma {:induction false} ListedAt(devices: map<string, seq<DeviceEntry>>, order: seq<string>, g: nat, i: nat)
    requires g < |order| && i < |Entries(devices, order[g])|
    ensures |Listing(devices, order[..g])| + i < |Listing(devices, order)|
    ensures Listing(devices, order)[|Listing(devices, order[..g])| + i]
         == Listed(order[g], Entries(devices, order[g])[i].name, i, Entries(devices, order[g])[i].uniqueId)
    decreases |order|
  {
    var init := order[..|order| - 1];
    if g == |order| - 1 {
      assert init == order[..g];
    } else {
      ListedAt(devices, init, g, i);
      assert init[..g] == order[..g];
    }
  }

  // ---------------------------------------------------------------------
  // The handler object

  /** The plain-text body of a request for a device type the hub does not
      serve. */
  function UnsupportedMessage(t: string): string
  {
    "Unsupported device_type: " + t
    + "\nDetails: [device parameter in path must be one of camera, telescope, filterwheel, or focuser.]"
  }

  /** The plain-text body of a request for a device number with no device;
      `what` is the message of the `std::out_of_range` thrown by `at`. */
  function NoDeviceMessage(t: string, n: nat, what: string): string
  {
    "There is no " + t + " at " + Digits.Decimal(n) + "\nDetails: [" + what + "]"
  }

  /** The common fields the GET pre-handler puts in every reply. */
  function GetResponse(qp: map<string, string>, server: uint32): Response
  {
    var base := map["ErrorNumber" := Whole(0), "ErrorMessage" := Text("")];
    EchoId(EchoId(base, "ClientID", Get(qp, "clientid")), "ClientTransactionID", Get(qp, "clienttransactionid"))
      ["ServerTransactionID" := Whole(server as int)]
  }

  /** The common fields the PUT pre-handler puts in every reply. */
  function PutResponse(body: Params, server: uint32): Response
  {
    var base := map["ServerTransactionID" := Whole(server as int), "ErrorNumber" := Whole(0), "ErrorMessage" := Text("")];
    var client := FirstValue(body, "ClientID");
    var transaction := FirstValue(body, "ClientTransactionID");
    var r := if client.Some? then EchoId(base, "ClientID", client.value) else base;
    if transaction.Some? then EchoId(r, "ClientTransactionID", transaction.value) else r
  }

  /** The fields of the `configureddevices` reply besides its list: both
      identifiers are parsed inside one `try`, so the transaction number is
      echoed only when the client number parsed too. */
  function ManagementResponse(qp: map<string, string>, server: uint32): Response
  {
    var base := map["ServerTransactionID" := Whole(server as int)];
    match ParseUint32(Get(qp, "clientid"))
    case None => base
    case Some(c) => EchoId(base["ClientID" := Whole(c as int)], "ClientTransactionID", Get(qp, "clienttransactionid"))
  }

  /** A GET reply echoes the client number exactly when the `clientid`
      entry of the lowered query parses. */
  lemma GetClientId(qp: map<string, string>, server: uint32)
    ensures "ClientID" in GetResponse(qp, server) <==> ParseUint32(Get(qp, "clientid")).Some?
    ensures ParseUint32(Get(qp, "clientid")).Some?
        ==> GetResponse(qp, server)["ClientID"] == Whole(ParseUint32(Get(qp, "clientid")).value as int)
  {
    var base := map["ErrorNumber" := Whole(0), "ErrorMessage" := Text("")];
    assert "ClientID" !in base;
    var r1 := EchoId(base, "ClientID", Get(qp, "clientid"));
    var r2 := EchoId(r1, "ClientTransactionID", Get(qp, "clienttransactionid"));
    assert "ClientID" in r2 <==> "ClientID" in r1;
    assert "ClientID" in r1 ==> r2["ClientID"] == r1["ClientID"];
  }

  /** A GET query echoes the client's numbers whatever the case of their
      names: the last name that lowers to `clientid` decides. */
  lemma GetEchoesAnyCase(query: Params, i: nat, n: uint32, server: uint32)
    requires i < |query| && Lowercase(query[i].0) == "clientid"
    requires forall j :: i < j < |query| ==> Lowercase(query[j].0) != "clientid"
    requires ParseUint32(query[i].1) == Some(n)
    ensures "ClientID" in GetResponse(QueryMap(query), server)
    ensures GetResponse(QueryMap(query), server)["ClientID"] == Whole(n as int)
  {
    QueryMapLastWins(query, i);
    assert Get(QueryMap(query), "clientid") == query[i].1;
    GetClientId(QueryMap(query), server);
  }

  /** Without any name lowering to `clientid` nothing is echoed. */
  lemma GetWithoutClientId(query: Params, server: uint32)
    requires forall j :: 0 <= j < |query| ==> Lowercase(query[j].0) != "clientid"
    ensures "ClientID" !in GetResponse(QueryMap(query), server)
  {
    QueryMapKeys(query, "clientid");
    assert Get(QueryMap(query), "clientid") == "";
    GetClientId(QueryMap(query), server);
  }

  /** A PUT body is matched case-sensitively: only a pair named exactly
      `ClientID` is echoed, and the first such pair decides. */
  lemma PutEchoesExactName(body: Params, server: uint32)
    ensures "ClientID" in PutResponse(body, server)
        <==> exists i :: 0 <= i < |body| && body[i].0 == "ClientID" && ParseUint32(FirstValue(body, "ClientID").value).Some?
  {
  }

  /** Unlike a device GET, `configureddevices` drops a valid client
      transaction number when the client number does not parse. */
  lemma ManagementNeedsClientId(qp: map<string, string>, server: uint32)
    requires ParseUint32(Get(qp, "clientid")).None?
    requires ParseUint32(Get(qp, "clienttransactionid")).Some?
    ensures "ClientTransactionID" !in ManagementResponse(qp, server)
    ensures "ClientTransactionID" in GetResponse(qp, server)
  {
  }

  /** The loops of the `configureddevices` handler: each type in turn, each
      device of it numbered by a counter that starts at 0. */
  method ListDevices(devices: map<string, seq<DeviceEntry>>, order: seq<string>) returns (list: seq<Listed>)
    ensures list == Listing(devices, order)
  {
    list := [];
    var g := 0;
    while g < |order|
      invariant 0 <= g <= |order|
      invariant list == Listing(devices, order[..g])
    {
      var t := order[g];
      var entries := Entries(devices, t);
      list := AppendNumbered(list, t, entries);
      assert order[..g + 1][..g] == order[..g];
      g := g + 1;
    }
    assert order[..g] == order;
  }

  /** The inner loop: the devices of one type appended with their numbers. */
  method AppendNumbered(before: seq<Listed>, t: string, entries: seq<DeviceEntry>) returns (list: seq<Listed>)
    ensures list == before + Numbered(t, entries)
  {
    list := before;
    var idx := 0;
    while idx < |entries|
      invariant 0 <= idx <= |entries|
      invariant list == before + Numbered(t, entries)[..idx]
    {
      assert Numbered(t, entries)[..idx + 1] == Numbered(t, entries)[..idx] + [Numbered(t, entries)[idx]];
      list := list + [Listed(t, entries[idx].name, idx, entries[idx].uniqueId)];
      idx := idx + 1;
    }
    assert Numbered(t, entries)[..idx] == Numbered(t, entries);
  }

  /** `api_v1_handler` with the hub's `device_map` and the global server
      transaction counter. */
  class Hub {
    var devices: map<string, seq<DeviceEntry>>
    var nextTransaction: uint32
    /** The transaction numbers handed out so far. */
    ghost var issued: seq<uint32>

    /** Until the counter wraps, the numbers handed out are 1, 2, 3, … and
        the counter holds the next one. */
    ghost predicate Valid()
      reads this
    {
      |issued| < 0xFFFF_FFFF ==>
        (nextTransaction as int == |issued| + 1
         && forall k :: 0 <= k < |issued| ==> issued[k] as int == k + 1)
    }

    constructor (devices: map<string, seq<DeviceEntry>>)
      ensures this.devices == devices && nextTransaction == 1 && issued == []
      ensures Valid()
    {
      this.devices := devices;
      nextTransaction := 1;
      issued := [];
    }

    /** Before the counter wraps every number handed out is larger than the
        ones before it. */
    lemma IssuedIncreasing()
      requires Valid() && |issued| < 0xFFFF_FFFF
      ensures forall j, k :: 0 <= j < k < |issued| ==> issued[j] < issued[k]
    {
    }

    /** `get_next_transaction_number`: the counter's value, then the
        counter incremented with `uint32_t` wrap-around. */
    method NextTransaction() returns (id: uint32)
      requires Valid()
      modifies this`nextTransaction, this`issued
      ensures Valid()
      ensures id == old(nextTransaction) && nextTransaction == Wrap32(id as int + 1)
      ensures issued == old(issued) + [id]
    {
      id := nextTransaction;
      nextTransaction := Wrap32(id as int + 1);
      issued := issued + [id];
    }

    /** Whether `at(n)` finds a device of type `t`. */
    predicate Present(t: string, n: nat)
      reads this
    {
      t in devices && n < |devices[t]|
    }

    /** `on_get_device_common`: an unknown device type or a missing device
        is refused with 400 and a plain-text reason and draws no number;
        otherwise the device is attached and the reply starts with no
        error, the client's numbers that parse and a fresh server number. */
    method GetCommon(deviceType: string, deviceNumber: nat, query: Params, what: string) returns (d: Reply, device: Option<DeviceEntry>)
      requires Valid()
      modifies this`nextTransaction, this`issued
      ensures Valid()
      ensures deviceType !in DeviceTypes ==> d == Rejected(400, UnsupportedMessage(deviceType))
      ensures deviceType in DeviceTypes && !Present(deviceType, deviceNumber)
          ==> d == Rejected(400, NoDeviceMessage(deviceType, deviceNumber, what))
      ensures d.Rejected? ==> device == None && issued == old(issued) && nextTransaction == old(nextTransaction)
      ensures deviceType in DeviceTypes && Present(deviceType, deviceNumber)
          ==> d == Json(200, GetResponse(QueryMap(query), old(nextTransaction)))
              && device == Some(devices[deviceType][deviceNumber])
              && issued == old(issued) + [old(nextTransaction)]
    {
      if deviceType !in DeviceTypes {
        return Rejected(400, UnsupportedMessage(deviceType)), None;
      }
      if !Present(deviceType, deviceNumber) {
        return Rejected(400, NoDeviceMessage(deviceType, deviceNumber, what)), None;
      }
      var qp := LowerKeys(query);
      var server := NextTransaction();
      d := Json(200, GetResponse(qp, server));
      device := Some(devices[deviceType][deviceNumber]);
    }

    /** `on_put_device_common`: the same refusals; otherwise a fresh server
        number, no error, and the client's numbers taken from the first
        body pairs with exactly those names. */
    method PutCommon(deviceType: string, deviceNumber: nat, body: Params, what: string) returns (d: Reply, device: Option<DeviceEntry>)
      requires Valid()
      modifies this`nextTransaction, this`issued
      ensures Valid()
      ensures deviceType !in DeviceTypes ==> d == Rejected(400, UnsupportedMessage(deviceType))
      ensures deviceType in DeviceTypes && !Present(deviceType, deviceNumber)
          ==> d == Rejected(400, NoDeviceMessage(deviceType, deviceNumber, what))
      ensures d.Rejected? ==> device == None && issued == old(issued) && nextTransaction == old(nextTransaction)
      ensures deviceType in DeviceTypes && Present(deviceType, deviceNumber)
          ==> d == Json(200, PutResponse(body, old(nextTransaction)))
              && device == Some(devices[deviceType][deviceNumber])
              && issued == old(issued) + [old(nextTransaction)]
    {
      if deviceType !in DeviceTypes {
        return Rejected(400, UnsupportedMessage(deviceType)), None;
      }
      if !Present(deviceType, deviceNumber) {
        return Rejected(400, NoDeviceMessage(deviceType, deviceNumber, what)), None;
      }
      var server := NextTransaction();
      d := Json(200, PutResponse(body, server));
      device := Some(devices[deviceType][deviceNumber]);
    }

    /** The `configureddevices` handler: a fresh server number, the client's
        numbers, and every registered device, type by type in key order,
        numbered from 0 within its type. */
    method ConfiguredDevices(query: Params, order: seq<string>) returns (response: Response, list: seq<Listed>)
      requires Valid()
      requires KeyOrder(devices, order)
      modifies this`nextTransaction, this`issued
      ensures Valid()
      ensures issued == old(issued) + [old(nextTransaction)]
      ensures response == ManagementResponse(QueryMap(query), old(nextTransaction))
      ensures list == Listing(devices, order)
    {
      var qp := LowerKeys(query);
      var server := NextTransaction();
      response := ManagementResponse(qp, server);
      list := ListDevices(devices, order);
    }
  }

  // ---------------------------------------------------------------------
  // Generic handlers

  /** `device_handler`: a device of the wrong interface is a fault; a
      value read from the device goes under `Value`; an `alpaca_exception`
      sets the error number and message. The reply is a 200 either way and
      keeps the transaction fields. */
  function DeviceGet(attached: bool, response: Response, value: Result<Variant>, message: string): (r: Reply)
    ensures !attached ==> r == Rejected(400, "major fault occurred.")
    ensures attached ==> r.Json? && r.status == 200
    ensures attached && value.Ok? ==> "Value" in r.response && r.response["Value"] == value.value
    ensures attached ==> forall k :: k in TransactionKeys && k in response ==> k in r.response && r.response[k] == response[k]
    ensures attached && "ErrorNumber" in response && response["ErrorNumber"] == Whole(0)
        ==> "ErrorNumber" in r.response && (r.response["ErrorNumber"] == Whole(0) <==> value.Ok?)
  {
    if !attached then Rejected(400, "major fault occurred.")
    else match value
      case Ok(v) => Json(200, response["Value" := v])
      case Err(e) => Json(200, response["ErrorNumber" := Whole(Code(e))]["ErrorMessage" := Text(message)])
  }

  /** The input type of a PUT handler, with `TrueFalse` for the handlers
      created with `validate_True_False`. */
  datatype InputKind = TrueFalse | TextInput | IntInput | UnsignedInput | EnumInput | NoInput

  /** The value handed to the device. */
  datatype Input = BoolIn(b: bool) | TextIn(s: string) | IntIn(i: int) | NoIn

  /** The value read from the body, or the message of the 400 reply. */
  datatype Parsed = Parsed(input: Input) | Refused(message: string)

  /** The parameter reading of `create_put_handler`. `missing` is the
      message of the exception restinio throws for an absent name. */
  function ReadInput(body: Params, key: string, kind: InputKind, missing: string): (p: Parsed)
  {
    var raw := FirstValue(body, key);
    match kind
    case TrueFalse =>
      if raw.None? then Refused("Problem with parameters: " + missing)
      else if raw.value == "True" then Parsed(BoolIn(true))
      else if raw.value == "False" then Parsed(BoolIn(false))
      else Refused("Invalid Value for " + key + " of " + raw.value + " passed")
    case NoInput => Parsed(NoIn)
    case TextInput =>
      if raw.None? then Refused("Invalid Value for " + key + " passed") else Parsed(TextIn(raw.value))
    case IntInput =>
      if raw.None? || ParseInt(raw.value).None? then Refused("Invalid Value for " + key + " passed")
      else Parsed(IntIn(ParseInt(raw.value).value))
    case UnsignedInput =>
      if raw.None? || ParseUint32(raw.value).None? then Refused("Invalid Value for " + key + " passed")
      else Parsed(IntIn(ParseUint32(raw.value).value as int))
    case EnumInput =>
      if raw.None? then Refused("Invalid Value for " + key + " passed")
      else Parsed(IntIn(Digits.Atoi(raw.value)))
  }

  /** A boolean is accepted only as exactly `True` or `False`. */
  lemma ReadBoolean(key: string, raw: string, b: bool, missing: string)
    ensures ReadInput([(key, if b then "True" else "False")], key, TrueFalse, missing) == Parsed(BoolIn(b))
    ensures ReadInput([(key, raw)], key, TrueFalse, missing).Parsed? <==> raw == "True" || raw == "False"
  {
    FirstOfSingle(key, raw);
    FirstOfSingle(key, if b then "True" else "False");
  }

  /** A body holding one pair: its value is the one read. */
  lemma FirstOfSingle(key: string, raw: string)
    ensures FirstValue([(key, raw)], key) == Some(raw)
  {
  }

  /** A C `int` written in decimal reaches the device unchanged. */
  lemma ReadInt(key: string, n: int, missing: string)
    requires -0x8000_0000 <= n < 0x8000_0000
    ensures ReadInput([(key, Digits.Signed(n))], key, IntInput, missing) == Parsed(IntIn(n))
  {
    FirstOfSingle(key, Digits.Signed(n));
    ParseIntOfSigned(n);
  }

  /** A `uint32_t` written in decimal reaches the device unchanged. */
  lemma ReadUnsigned(key: string, u: uint32, missing: string)
    ensures ReadInput([(key, Digits.Decimal(u as nat))], key, UnsignedInput, missing) == Parsed(IntIn(u as int))
  {
    FirstOfSingle(key, Digits.Decimal(u as nat));
    ParseUint32OfDecimal(u);
  }

  /** An enumeration value written in decimal reaches the device unchanged. */
  lemma ReadEnum(key: string, n: int, missing: string)
    ensures ReadInput([(key, Digits.Signed(n))], key, EnumInput, missing) == Parsed(IntIn(n))
  {
    FirstOfSingle(key, Digits.Signed(n));
    Digits.AtoiOfSigned(n);
  }

  /** `create_put_handler`: a value that cannot be read is refused with 400
      and INVALID_VALUE; otherwise the device is called with it, and a
      result of 0 leaves the reply as the pre-handler made it, any other
      result is reported as error -1 and an `alpaca_exception` as its code.
      `thrown` is the exception's message. */
  function PutHandler(body: Params, key: string, kind: InputKind, call: Input -> Result<int>,
                      response: Response, missing: string, thrown: string): (r: Reply)
    ensures r.Json?
    ensures r.status == 400 <==> ReadInput(body, key, kind, missing).Refused?
    ensures r.status == 400 ==> "ErrorNumber" in r.response && r.response["ErrorNumber"] == Whole(Code(InvalidValue))
    ensures r.status != 400 ==> r.status == 200
    ensures ReadInput(body, key, kind, missing).Parsed? && call(ReadInput(body, key, kind, missing).input) == Ok(0)
        ==> r.response == response
    ensures ReadInput(body, key, kind, missing).Parsed? && call(ReadInput(body, key, kind, missing).input) != Ok(0)
        ==> "ErrorNumber" in r.response && r.response["ErrorNumber"] != Whole(0)
    ensures forall k :: k in TransactionKeys && k in response ==> k in r.response && r.response[k] == response[k]
  {
    match ReadInput(body, key, kind, missing)
    case Refused(message) =>
      Json(400, response["ErrorNumber" := Whole(Code(InvalidValue))]["ErrorMessage" := Text(message)])
    case Parsed(input) =>
      match call(input)
      case Ok(0) => Json(200, response)
      case Ok(_) => Json(200, response["ErrorNumber" := Whole(-1)]["ErrorMessage" := Text("Failed to set device parameter " + key)])
      case Err(e) => Json(200, response["ErrorNumber" := Whole(Code(e))]["ErrorMessage" := Text(thrown)])
  }

  // ---------------------------------------------------------------------
  // imagearray

  const ImageBytesType: string := "application/imagebytes"

  /** The Accept header, `application/imagebytes` when there is none. */
  function AcceptHeader(accept: Option<string>): string
  {
    if accept.Some? then accept.value else ImageBytesType
  }

  /** The test as written: `accept.compare("application/imagebytes") > -1`. */
  predicate ServesBytesAsWritten(header: string)
  {
    Compare(header, ImageBytesType) > -1
  }

  predicate StartsWith(s: string, p: string)
  {
    |p| <= |s| && s[..|p|] == p
  }

  /** Whether `p` occurs in `s`. */
  predicate Contains(s: string, p: string)
    decreases |s|
  {
    StartsWith(s, p) || (s != [] && Contains(s[1..], p))
  }

  /** The intended test: the client lists `application/imagebytes`. */
  predicate RequestsBytes(header: string)
  {
    Contains(header, ImageBytesType)
  }

  /** Nothing occurs in a string shorter than itself. */
  lemma {:induction false} ContainsNotShorter(s: string, p: string)
    requires |s| < |p|
    ensures !Contains(s, p)
    decreases |s|
  {
    if s != [] {
      ContainsNotShorter(s[1..], p);
    }
  }

  /** As written, a client that accepts only JSON is sent ImageBytes. */
  lemma JsonClientSentBytes()
    ensures ServesBytesAsWritten("application/json") && !RequestsBytes("application/json")
  {
    assert "application/json" == "application/" + "json";
    assert ImageBytesType == "application/" + "imagebytes";
    CompareAfterPrefix("application/", "json", "imagebytes");
    ContainsNotShorter("application/json", ImageBytesType);
  }

  /** As written, a client that lists ImageBytes after a wildcard is sent
      JSON. */
  lemma WildcardClientSentJson()
    ensures !ServesBytesAsWritten("*/*, application/imagebytes") && RequestsBytes("*/*, application/imagebytes")
  {
    var listed := "*/*, application/imagebytes";
    assert listed[0] == '*' && ImageBytesType[0] == 'a';
    assert listed == "*/*, " + ImageBytesType;
    assert listed[5..5 + |ImageBytesType|] == ImageBytesType;
    ContainsAt(listed, ImageBytesType, 5);
  }

  /** A string occurs in any string that has it at some position. */
  lemma {:induction false} ContainsAt(s: string, p: string, k: nat)
    requires k + |p| <= |s| && s[k..k + |p|] == p
    ensures Contains(s, p)
    decreases k
  {
    if k == 0 {
      assert s[..|p|] == p;
    } else {
      assert s[1..][k - 1..k - 1 + |p|] == s[k..k + |p|];
      ContainsAt(s[1..], p, k - 1);
    }
  }

  /** Under the intended test a client that lists `application/imagebytes`
      anywhere in its Accept header, before or after other types, is sent
      ImageBytes. */
  lemma RequestsBytesWhenListed(before: string, after: string)
    ensures RequestsBytes(before + ImageBytesType + after)
  {
    var h := before + ImageBytesType + after;
    assert h[|before|..|before| + |ImageBytesType|] == ImageBytesType;
    ContainsAt(h, ImageBytesType, |before|);
  }

  /** Strings with a common prefix compare as their rests do. */
  lemma {:induction false} CompareAfterPrefix(p: string, a: string, b: string)
    ensures Compare(p + a, p + b) == Compare(a, b)
    decreases |p|
  {
    if p != [] {
      assert (p + a)[0] == p[0] && (p + b)[0] == p[0];
      assert (p + a)[1..] == p[1..] + a && (p + b)[1..] == p[1..] + b;
      assert Compare(p + a, p + b) == Compare(p[1..] + a, p[1..] + b);
      CompareAfterPrefix(p[1..], a, b);
    } else {
      assert p + a == a && p + b == b;
    }
  }

  /** A client that sends no Accept header, or asks for ImageBytes alone,
      gets ImageBytes under both tests. */
  lemma AcceptDefault()
    ensures RequestsBytes(AcceptHeader(None)) && ServesBytesAsWritten(AcceptHeader(None))
    ensures RequestsBytes(ImageBytesType)
  {
    assert ImageBytesType[..|ImageBytesType|] == ImageBytesType;
  }

  /** The rows of a frame laid end to end. */
  function Concat<T>(rows: seq<seq<T>>): seq<T>
    decreases |rows|
  {
    if rows == [] then [] else Concat(rows[..|rows| - 1]) + rows[|rows| - 1]
  }

  /** Rows of `h` elements each give `n·h` elements, row `r` at `r·h`. */
  lemma {:induction false} ConcatAt<T>(rows: seq<seq<T>>, h: nat, r: nat, c: nat)
    requires forall k :: 0 <= k < |rows| ==> |rows[k]| == h
    requires r < |rows| && c < h
    ensures |Concat(rows)| == |rows| * h
    ensures r * h + c < |Concat(rows)| && Concat(rows)[r * h + c] == rows[r][c]
    decreases |rows|
  {
    var n := |rows|;
    var init := rows[..n - 1];
    ConcatLength(init, h);
    assert (n - 1) * h + h == n * h;
    if r < n - 1 {
      ConcatAt(init, h, r, c);
    } else {
      assert r * h == (n - 1) * h;
    }
  }

  lemma {:induction false} ConcatLength<T>(rows: seq<seq<T>>, h: nat)
    requires forall k :: 0 <= k < |rows| ==> |rows[k]| == h
    ensures |Concat(rows)| == |rows| * h
    decreases |rows|
  {
    if rows != [] {
      ConcatLength(rows[..|rows| - 1], h);
      assert (|rows| - 1) * h + h == |rows| * h;
    }
  }

  /** The copy of the frame row by row into one buffer. */
  method FlattenRows<T>(rows: seq<seq<T>>) returns (flat: seq<T>)
    ensures flat == Concat(rows)
  {
    flat := [];
    var r := 0;
    while r < |rows|
      invariant 0 <= r <= |rows|
      invariant flat == Concat(rows[..r])
    {
      ghost var before := flat;
      var row := rows[r];
      var c := 0;
      while c < |row|
        invariant 0 <= c <= |row|
        invariant flat == before + row[..c]
      {
        assert row[..c + 1] == row[..c] + [row[c]];
        flat := flat + [row[c]];
        c := c + 1;
      }
      assert row[..c] == row;
      assert rows[..r + 1][..r] == rows[..r];
      r := r + 1;
    }
    assert rows[..r] == rows;
  }

  /** The ImageBytes reply for a frame, or none for an empty frame (whose
      first row the server would read out of bounds). */
  function FrameImage(f: QhyCamera.Frame, client: uint32, server: uint32): (r: Option<ImageBytes.Image>)
    ensures r.Some? <==> (if f.Frame8? then f.rows8 != [] else f.rows16 != [])
    ensures r.Some? ==> r.value.clientTransaction == client && r.value.serverTransaction == server
                        && r.value.errorNumber == 0 && r.value.rank == 2
    ensures r.Some? && f.Frame8? ==>
              r.value.imageElementType == ImageBytes.ByteElement
              && r.value.dimension1 == |f.rows8| && r.value.dimension2 == |f.rows8[0]|
              && r.value.pixels == ImageBytes.Pixels8(Concat(f.rows8))
    ensures r.Some? && f.Frame16? ==>
              r.value.imageElementType == ImageBytes.UInt16Element
              && r.value.dimension1 == |f.rows16| && r.value.dimension2 == |f.rows16[0]|
              && r.value.pixels == ImageBytes.Pixels16(Concat(f.rows16))
  {
    match f
    case Frame8(rows) =>
      if rows == [] then None
      else Some(ImageBytes.WithDefaults(client, server, ImageBytes.ByteElement, |rows|, |rows[0]|,
                                         ImageBytes.Pixels8(Concat(rows))))
    case Frame16(rows) =>
      if rows == [] then None
      else Some(ImageBytes.WithDefaults(client, server, ImageBytes.UInt16Element, |rows|, |rows[0]|,
                                         ImageBytes.Pixels16(Concat(rows))))
  }

  /** The frame `image_2d` returns for a camera's buffer. */
  function CameraFrame(bpp: uint32, data: seq<uint8>, w: nat, h: nat): QhyCamera.Frame
    requires bpp == 8 ==> w * h <= |data|
    requires bpp != 8 ==> |data| == 0 || w * h <= |data| / 2
  {
    if bpp == 8 then QhyCamera.Frame8(QhyCamera.Reshape(data, w, h))
    else if |data| == 0 then QhyCamera.Frame16([])
    else QhyCamera.Frame16(QhyCamera.Reshape(Words16(data), w, h))
  }

  /** The bytes of the ImageBytes reply for a frame; none for an empty one. */
  function Payload(f: QhyCamera.Frame, client: uint32, server: uint32): seq<uint8>
  {
    match FrameImage(f, client, server)
    case Some(ib) => ImageBytes.Encoding(ib)
    case None => []
  }

  /** The reply for a camera's frame names its w rows of h pixels and the
      element type of its bit depth. */
  lemma FrameSize(bpp: uint32, data: seq<uint8>, w: nat, h: nat, client: uint32, server: uint32)
    requires bpp == 8 ==> w * h <= |data|
    requires bpp != 8 ==> 0 < |data| && w * h <= |data| / 2
    requires 0 < w
    ensures FrameImage(CameraFrame(bpp, data, w, h), client, server).Some?
    ensures var ib := FrameImage(CameraFrame(bpp, data, w, h), client, server).value;
      ib.dimension1 == w && ib.dimension2 == h
      && ib.imageElementType == ib.transmissionElementType
      && ib.imageElementType == (if bpp == 8 then ImageBytes.ByteElement else ImageBytes.UInt16Element)
  {
  }

  /** The pixels of an 8-bit reply start after the header: the frame's
      rows, one after the other. */
  lemma PayloadPixels8(data: seq<uint8>, w: nat, h: nat, client: uint32, server: uint32)
    requires w * h <= |data| && 0 < w
    ensures ImageBytes.HeaderLength <= |Payload(CameraFrame(8, data, w, h), client, server)|
    ensures Payload(CameraFrame(8, data, w, h), client, server)[ImageBytes.HeaderLength..]
         == Concat(QhyCamera.Reshape(data, w, h))
  {
    var rows := QhyCamera.Reshape(data, w, h);
    var pixels := ImageBytes.Pixels8(Concat(rows));
    assert FrameImage(CameraFrame(8, data, w, h), client, server)
        == Some(ImageBytes.WithDefaults(client, server, ImageBytes.ByteElement, w, |rows[0]|, pixels));
    ImageBytes.DefaultDataStart(client, server, ImageBytes.ByteElement, w, |rows[0]|, pixels);
  }

  /** The words of a 16-bit reply read back after the header: the frame's
      rows, one after the other. */
  lemma PayloadPixels16(data: seq<uint8>, w: nat, h: nat, client: uint32, server: uint32)
    requires 0 < |data| && w * h <= |data| / 2 && 0 < w
    ensures ImageBytes.HeaderLength <= |Payload(CameraFrame(16, data, w, h), client, server)|
    ensures Words16(Payload(CameraFrame(16, data, w, h), client, server)[ImageBytes.HeaderLength..])
         == Concat(QhyCamera.Reshape(Words16(data), w, h))
  {
    var rows := QhyCamera.Reshape(Words16(data), w, h);
    var pixels := ImageBytes.Pixels16(Concat(rows));
    assert FrameImage(CameraFrame(16, data, w, h), client, server)
        == Some(ImageBytes.WithDefaults(client, server, ImageBytes.UInt16Element, w, |rows[0]|, pixels));
    ImageBytes.DefaultDataStart(client, server, ImageBytes.UInt16Element, w, |rows[0]|, pixels);
  }

  /** In the flattened frame pixel (r, c) sits at r·h + c, and it is
      element r + c·w of the camera's buffer: with the two lemmas above, an
      8-bit reply has it at byte 44 + r·h + c and a 16-bit one at word
      r·h + c of its payload. */
  lemma FlatPixel<T>(data: seq<T>, w: nat, h: nat, r: nat, c: nat)
    requires w * h <= |data| && r < w && c < h
    ensures r + c * w < |data| && r * h + c < |Concat(QhyCamera.Reshape(data, w, h))|
    ensures Concat(QhyCamera.Reshape(data, w, h))[r * h + c] == data[r + c * w]
  {
    QhyCamera.ReshapeAt(data, w, h, r, c);
    ConcatAt(QhyCamera.Reshape(data, w, h), h, r, c);
  }

  /** The number a reply field holds, if it holds a `uint32_t`. */
  function FieldNumber(response: Response, key: string): Option<uint32>
  {
    if key in response && response[key].Whole? && 0 <= response[key].whole < 0x1_0000_0000 then
      Some(response[key].whole as uint32)
    else
      None
  }

  /** The `imagearray` handler, with the intended Accept test. Without a
      ready image the reply is INVALID_OPERATION. Otherwise the frame goes
      out as ImageBytes when the client asks for them and as JSON with
      `Type` and `Rank` 2 when not. An ImageBytes reply needs the client's
      transaction number and a non-empty frame; without either the
      handler faults. */
  method ImageArray(cam: QhyCamera.Camera, accept: Option<string>, response: Response) returns (reply: Reply)
    requires cam.bpp == 8 ==> cam.imageW as int * cam.imageH as int <= |cam.imgData|
    requires cam.bpp != 8 ==> |cam.imgData| == 0 || cam.imageW as int * cam.imageH as int <= |cam.imgData| / 2
    ensures !cam.ImageReady()
        ==> reply == Json(200, response["ErrorNumber" := Whole(Code(InvalidOperation))]["ErrorMessage" := Text("Image is not ready")])
    ensures cam.ImageReady() && !RequestsBytes(AcceptHeader(accept))
        ==> reply == ImageJson(response["Type" := Whole(2)]["Rank" := Whole(2)],
                               CameraFrame(cam.bpp, cam.imgData, cam.imageW as nat, cam.imageH as nat))
    ensures cam.ImageReady() && RequestsBytes(AcceptHeader(accept))
        ==> var f := CameraFrame(cam.bpp, cam.imgData, cam.imageW as nat, cam.imageH as nat);
            var client := FieldNumber(response, "ClientTransactionID");
            var server := FieldNumber(response, "ServerTransactionID");
            if client.Some? && server.Some? && FrameImage(f, client.value, server.value).Some?
            then reply == Binary(Payload(f, client.value, server.value))
            else reply == Fault
  {
    if !cam.ImageReady() {
      return Json(200, response["ErrorNumber" := Whole(Code(InvalidOperation))]["ErrorMessage" := Text("Image is not ready")]);
    }
    var frame := cam.Image2d();
    assert frame == CameraFrame(cam.bpp, cam.imgData, cam.imageW as nat, cam.imageH as nat);
    var json := response["Type" := Whole(2)]["Rank" := Whole(2)];
    if !RequestsBytes(AcceptHeader(accept)) {
      return ImageJson(json, frame);
    }
    var client := FieldNumber(response, "ClientTransactionID");
    var server := FieldNumber(response, "ServerTransactionID");
    if client.None? || server.None? {
      return Fault;
    }
    if FrameImage(frame, client.value, server.value).None? {
      return Fault;
    }
    var payload := EncodeFrame(frame, client.value, server.value);
    reply := Binary(payload);
  }

  /** The ImageBytes branch: the rows copied into one buffer, the header
      filled in for the frame's bit depth, and the whole written out. */
  method EncodeFrame(frame: QhyCamera.Frame, client: uint32, server: uint32) returns (payload: seq<uint8>)
    requires FrameImage(frame, client, server).Some?
    ensures payload == Payload(frame, client, server)
  {
    var ib: ImageBytes.Image;
    match frame {
      case Frame8(rows) =>
        var flat := FlattenRows(rows);
        ib := ImageBytes.WithDefaults(client, server, ImageBytes.ByteElement, |rows|, |rows[0]|,
                                      ImageBytes.Pixels8(flat));
      case Frame16(rows) =>
        var flat := FlattenRows(rows);
        ib := ImageBytes.WithDefaults(client, server, ImageBytes.UInt16Element, |rows|, |rows[0]|,
                                      ImageBytes.Pixels16(flat));
    }
    var stream := new ImageBytes.OutStream();
    ImageBytes.Serialize(ib, stream);
    payload := stream.written;
  }
}
