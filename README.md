# AlpacaHub core in Dafny

AlpacaHub serves astronomy devices over the ASCOM Alpaca REST API. This project models its core and proves properties of that model:

- **Mount command builders and reply parsers** (`OnStepCommands`, `OnStepResponses`, `ZwoCommands`).
  - The LX200/OnStep `cmd_set_*` builders check their fields against fixed ranges, then format a zero-padded `:XX…#` command.
  - The `parse_*_response` parsers accept one fixed layout (`sDD*MM:SS#` and the like) and return its fields.
  - The `fmt` formatters render the records.
  - The ZWO AM5 builders reuse the same layouts without validation.
  - `Template` is the small layout language shared by builders and parsers (zero-padded fields, signs, literals, with rendering and matching). `Text` holds the decimal rendering, `atoi`/`atof` prefix parsing and `fmt` padding they rest on.
- **Serial-device drivers**, as classes whose fields the methods update. Serial and SDK replies are parameters.
  - `Ppba`: the Pegasus Pocket Powerbox switch table, value checks, command choice and echo check.
  - `FocusCube3`: connection guard, `FA` status parsing and moves.
  - `FilterWheel`: the QHY standalone filter-wheel table, positions and busy flag.
  - `PrimaLuce`: the Esatto focuser and Arco rotator. `PrimaLuceTree` holds the `primaluce_kv_node` request tree they build their JSON commands with.
  - `QhyCamera`: binning and subframe setters, gain and offset checks, camera states, and the column-major to 2-D image reshape.
  - `Devices` holds what the drivers share: `split` on ':', `uint32_t` fields and the `details()` values.
- **The ImageBytes encoder** (`ImageBytes`, with `Bytes` for little-endian fields): the 44-byte header of the Alpaca ImageBytes format, version 1, followed by the pixels.
- **The Alpaca request layer** (`HubServer`).
  - The GET and PUT pre-handlers: device-type whitelist, device lookup, client-number echo, the server transaction counter.
  - The generic GET and PUT handlers, with their `True`/`False` parsing and error numbers.
  - The `configureddevices` numbering and the `imagearray` handler.
- **The command line** of `main` (`Cli`): the two passes over `argv` and the start-up settings they select.

Each builder or parser is paired with its inverse: commands are read back by the parser of the same layout, and replies are rendered and parsed back. Each stateful operation is a method whose `ensures` gives the new state in terms of the old one and of the device's reply. Where the code and its documentation disagree, the model follows the code, with three exceptions. Each is a row under Findings. There the as-written behaviour is a separate member with a lemma that exhibits the discrepancy, and the operation itself follows the corrected behaviour: `FilterWheel.StandaloneWheel.SetPosition`, `HubServer.ImageArray` and `Cli.StartupOf`. Each has its own line under Left out. One place where the code is followed: the `sdd_mm` and `sddd_mm` formatters write ':' between degrees and minutes, but their parsers require '*'. That mismatch is stated as lemmas (`OnStepResponses.SddMmFormatRejected`, `OnStepResponses.SdddMmFormatRejected`). Places where the code evidently departs from its intent are listed under Findings.

## Model

| member | source | states |
|---|---|---|
| Wrappers.Number | src/common/alpaca_exception.hpp:17-22 | each error code maps to its Alpaca error number, all between 0x400 and 0x500 |
| Wrappers.NumberInjective | src/common/alpaca_exception.hpp:17-22 | no two error codes share an error number |
| Bytes.Word | src/drivers/qhy_alpaca_camera.cpp:713-714 | a `uint16_t` read from memory is its low byte plus 256 times its high byte |
| Bytes.Le16 | src/common/image_bytes.hpp:53-54 | a `uint16_t` is stored as two bytes, low byte first, and reading them back gives the value |
| Bytes.Le32 | src/common/image_bytes.hpp:38-51 | a 32-bit header field is stored as four bytes |
| Bytes.U32AtLe32 | src/common/image_bytes.hpp:38-51 | four bytes written from a `uint32_t` read back as that value |
| Bytes.LeInt | src/common/image_bytes.hpp:38-51 | an `int` field is stored as four bytes that read back as the same `int` in two's complement |
| Bytes.LeWords | src/common/image_bytes.hpp:53-54 | a `uint16_t` buffer takes two bytes per element |
| Bytes.LeWordsAt | src/common/image_bytes.hpp:53-54 | word k of the buffer sits at bytes 2k and 2k+1, low byte first |
| Bytes.Words16 | src/drivers/qhy_alpaca_camera.cpp:713-714 | a byte buffer seen as `uint16_t` has one word per whole pair of bytes, word k made of bytes 2k and 2k+1 |
| Bytes.WordsOfLeWords | src/drivers/qhy_alpaca_camera.cpp:713-714 | words written out as bytes and read back as `uint16_t` are the same words |
| ImageBytes.PixelBytes | src/common/image_bytes.hpp:53-54 | the pixel buffer takes `size() * sizeof(T)` bytes |
| ImageBytes.WithDefaults | src/common/image_bytes.hpp:23-33 | a fresh `image_bytes_t` has metadata version 1, error number 0, rank 2, third dimension 0 and pixels starting at byte 44 |
| ImageBytes.FieldBytes | src/common/image_bytes.hpp:38-51 | each of the eleven header fields is written as four bytes |
| ImageBytes.HeaderUpTo | src/common/image_bytes.hpp:38-51 | the first k header fields take 4k bytes |
| ImageBytes.Header | src/common/image_bytes.hpp:38-51 | the whole header takes 44 bytes, the default `data_start` |
| ImageBytes.HeaderUpToAt | src/common/image_bytes.hpp:38-51 | field j sits at bytes 4j to 4j+4 of every longer header prefix |
| ImageBytes.EncodingLength | src/common/image_bytes.hpp:36-57 | `serialize` writes 44 header bytes plus `size() * sizeof(T)` pixel bytes |
| ImageBytes.HeaderReadBack | src/common/image_bytes.hpp:36-57 | a reader finds every header field at offset 4k with the value written, and the pixel bytes right after the header |
| ImageBytes.FieldRead | src/common/image_bytes.hpp:38-51 | the value read at offset 4j is the one written as field j |
| ImageBytes.DefaultDataStart | src/common/image_bytes.hpp:27-54 | with the default header the pixels start at the offset the header announces, and for 16-bit pixels they read back as the same words |
| ImageBytes.OutStream.constructor | src/common/image_bytes.hpp:36 | an output stream starts empty |
| ImageBytes.OutStream.Write | src/common/image_bytes.hpp:38 | `os.write` appends the bytes and nothing else |
| ImageBytes.Serialize | src/common/image_bytes.hpp:36-57 | after `serialize` the stream holds what it held before followed by exactly the encoding of the reply |
| Text.Decimal | src/drivers/pegasus_alpaca_ppba.cpp:810 | `{}` of a non-negative integer is a non-empty run of digits |
| Text.ValueOfDecimal | src/drivers/pegasus_alpaca_ppba.cpp:810 | the digits `{}` writes for n denote n |
| Text.DecimalLength | src/drivers/onstep_commands.cpp:44 | the decimal text of n fits in w characters exactly when n < 10^w |
| Text.Pad | src/drivers/onstep_commands.cpp:44 | `{:#0wd}` of a non-negative value is all digits; of a negative value it starts with '-' |
| Text.PadNatFacts | src/drivers/onstep_commands.cpp:44 | zero padding a value below 10^w gives exactly w digits that denote the value |
| Text.SkipSpace | src/drivers/qhy_alpaca_filterwheel_standalone.cpp:155 | `atoi` skips a suffix-preserving run of leading white space and stops at the first other character |
| Text.LeadingDigits | src/drivers/qhy_alpaca_filterwheel_standalone.cpp:155 | the longest run of digits at the start of the text, followed by a non-digit or the end |
| Text.LeadingDigitsOfDigits | src/drivers/onstep_commands.cpp:527 | digits followed by a non-digit: `atoi` reads exactly those digits |
| Text.AtoiOfDigits | src/drivers/onstep_commands.cpp:527 | `atoi` of a run of digits is the number they denote |
| Text.AtoiOfSignedThen | src/drivers/pegasus_alpaca_ppba.cpp:118 | `atoi` reads an integer written by `{}` back, whatever non-digit follows it |
| Text.AtoiOfSigned | src/drivers/pegasus_alpaca_ppba.cpp:118 | `atoi` of the decimal text of n is n |
| Text.AtofOfDigits | src/drivers/pegasus_alpaca_ppba.cpp:115 | `atof` of a run of digits is the number they denote |
| Text.Normalize | src/drivers/pegasus_alpaca_ppba.cpp:810 | dropping trailing fraction zeros keeps the value and the sign |
| Text.SplitFraction | src/drivers/pegasus_alpaca_ppba.cpp:810 | a fixed-point value is its whole part plus its shifted remainder |
| Text.UnsignedAtofOfPoint | src/drivers/pegasus_alpaca_ppba.cpp:115 | `atof` of digits, a point and digits is the whole part plus the fraction |
| Text.UnsignedAtofOfUnsignedText | src/drivers/pegasus_alpaca_ppba.cpp:115 | `atof` reads the printed unsigned text of a value back as that value |
| Text.AtofOfUnsigned | src/drivers/pegasus_alpaca_ppba.cpp:115 | `atof` reads text that starts with a digit without a sign, and negates it after a '-' |
| Text.AtofOfDoubleText | src/drivers/pegasus_alpaca_ppba.cpp:810-811 | `atof` of what `{}` prints for a double gives that double back |
| Text.DoubleTextChars | src/drivers/pegasus_alpaca_ppba.cpp:810 | the fixed-point text of a double, the form fmt's `{}` uses for zero and magnitudes from 1e-4, holds only digits, the point and '-' |
| Template.ShapeOf | src/drivers/onstep_commands.cpp:556 | the pattern that recognises a format string has one token per piece |
| Template.ShapeOfFill | src/drivers/onstep_commands.cpp:556 | a format string filled from a pattern has that pattern as its shape |
| Template.RenderAppend | src/drivers/onstep_commands.cpp:44 | formatting two format strings one after the other concatenates their texts |
| Template.DigitsDetermined | src/drivers/onstep_commands.cpp:565-569 | two runs of digits with the same length and value are the same text |
| Template.FieldDigits | src/drivers/onstep_commands.cpp:44 | a field printed in range is w digits that `atoi` reads back as the value |
| Template.DigitsRerender | src/drivers/onstep_commands.cpp:565-569 | w captured digits are the zero-padded printing of the value `atoi` reads from them |
| Template.PieceMatch | src/drivers/onstep_commands.cpp:556-559 | one printed piece is matched by its own token, which consumes exactly its width |
| Template.RenderWidth | src/drivers/onstep_commands.cpp:44 | a format string in range prints as many characters as its pattern matches |
| Template.MatchRender | src/drivers/onstep_commands.cpp:556-569 | printing a format string and matching its pattern against the text, whatever follows, gives back its capture groups |
| Template.MatchedPrefix | src/drivers/onstep_commands.cpp:556-569 | whatever a match consumed is the in-range printing of the format string filled from its groups |
| Template.Captures | src/drivers/onstep_commands.cpp:556 | the capturing tokens of a pattern, in order, one per capture group |
| Template.FillFits | src/drivers/onstep_commands.cpp:44 | arguments that fit a pattern fill it in range and are its capture groups |
| Template.FitsOfInRange | src/drivers/onstep_commands.cpp:44 | a format string in range has groups that fit its pattern |
| Template.FormatThenMatch | src/drivers/onstep_commands.cpp:44 | formatting fitting arguments and matching the text against the same pattern returns the arguments |
| Template.MatchThenFormat | src/drivers/onstep_commands.cpp:556-569 | a successful match consumed exactly the formatting of its capture groups, which fit |
| Template.CapturesAppend | src/drivers/onstep_commands.cpp:505 | the captures and width of two joined patterns are those of each half |
| Template.FillAppend | src/drivers/onstep_commands.cpp:505 | filling two joined patterns fills each half from its own arguments |
| Template.FormatAppend | src/drivers/onstep_commands.cpp:505 | formatting two joined patterns is formatting each half |
| Template.FormatTerminated | src/drivers/onstep_commands.cpp:44 | a literal terminator adds no capture and prints itself after the rest |
| Template.TerminatedRoundTrip | src/drivers/onstep_commands.cpp:556-569 | a formatted reply followed by its terminator and any text matches the terminated pattern with the same groups |
| Template.TerminatedSound | src/drivers/onstep_commands.cpp:556-569 | a terminated match accepts only text that starts with the formatting of its groups and the terminator |
| Template.MatchLiteralAt | src/drivers/onstep_commands.cpp:556 | a match puts each literal of the pattern at its fixed offset |
| Template.FormatLiteralAt | src/drivers/onstep_commands.cpp:44 | formatting puts each literal of the pattern at the same fixed offset |
| Template.FormatAvoids | src/drivers/onstep_commands.cpp:505 | formatting writes no character the pattern's literals do not contain, other than digits and signs |
| Template.FormatMatches | src/drivers/onstep_commands.cpp:44 | a formatted text on its own matches its pattern with the same groups |
| Template.FormatLit | src/drivers/onstep_commands.cpp:44 | a literal in the format string prints itself and takes no argument |
| Template.FormatSign | src/drivers/onstep_commands.cpp:76 | a sign placeholder prints its argument character |
| Template.FormatNum | src/drivers/onstep_commands.cpp:44 | a `{:#0wd}` placeholder prints its argument zero-padded to w |
| FilterWheel.DefaultNames | src/drivers/qhy_alpaca_filterwheel_standalone.cpp:161-166 | `initialize` makes one name per filter |
| FilterWheel.DefaultNamesNumbered | src/drivers/qhy_alpaca_filterwheel_standalone.cpp:161-166 | the default name of filter i reads back through `atoi` as i + 1, so no two names are equal |
| FilterWheel.PositionCommand | src/drivers/qhy_alpaca_filterwheel_standalone.cpp:246 | the position command is one character, and for positions below 10 it is the digit that `atoi` reads as the position |
| FilterWheel.AcceptedAsWrittenOfNonEmpty | src/drivers/qhy_alpaca_filterwheel_standalone.cpp:251 | with a non-empty table the range check as written accepts exactly the table's indices |
| FilterWheel.AcceptedAsWrittenOfEmpty | src/drivers/qhy_alpaca_filterwheel_standalone.cpp:251 | with an empty table `size() - 1` wraps and the check accepts every position, although no filter exists |
| FilterWheel.ValidPositionAgrees | src/drivers/qhy_alpaca_filterwheel_standalone.cpp:251 | the intended check agrees with the written one on non-empty tables and rejects everything on an empty table |
| FilterWheel.DefaultTable | src/drivers/qhy_alpaca_filterwheel_standalone.cpp:158-166 | the loop builds the default names and a zero offset per filter |
| FilterWheel.StandaloneWheel.constructor | src/drivers/qhy_alpaca_filterwheel_standalone.cpp:208-218 | a new wheel keeps the device path, is disconnected and not busy, with empty tables |
| FilterWheel.StandaloneWheel.SetConnected | src/drivers/qhy_alpaca_filterwheel_standalone.cpp:7-65 | connecting twice is a no-op; connecting succeeds exactly when the port opens; disconnecting always ends disconnected and fails only when an open port fails to close; nothing else changes |
| FilterWheel.StandaloneWheel.Initialize | src/drivers/qhy_alpaca_filterwheel_standalone.cpp:134-167 | the firmware version is the first reply; the table has the default names for the count `atoi` reads, none when that is not positive, and a zero offset each |
| FilterWheel.StandaloneWheel.SetPosition | src/drivers/qhy_alpaca_filterwheel_standalone.cpp:245-261 | an invalid position is INVALID_VALUE and leaves the wheel busy; a valid one sends its command, and a reply sets the position `atoi` reads and clears busy |
| FilterWheel.StandaloneWheel.Poll | src/drivers/qhy_alpaca_filterwheel_standalone.cpp:174-204 | idle: the position is read from the reply; busy: the flag clears exactly when a character arrives and the position is kept |
| FilterWheel.StandaloneWheel.SetNames | src/drivers/qhy_alpaca_filterwheel_standalone.cpp:239-243 | the names are replaced with no check and 0 is returned |
| FilterWheel.StandaloneWheel.UniqueId | src/drivers/qhy_alpaca_filterwheel_standalone.cpp:268-270 | the id is the device path followed by "FW" |
| FilterWheel.StandaloneWheel.Details | src/drivers/qhy_alpaca_filterwheel_standalone.cpp:272-282 | the map always holds "Connected", and holds the position, names and offsets exactly while connected |
| FilterWheel.CountOfOneCharacter | src/drivers/qhy_alpaca_filterwheel_standalone.cpp:154-155 | a one-character reply gives a filter count of at most nine |
| Devices.Wrap32 | src/drivers/pegasus_alpaca_ppba.cpp:118 | storing an `int` into a `uint32_t` field keeps values in range and is otherwise the value modulo 2^32 |
| Devices.Fields | src/drivers/pegasus_alpaca_focuser.cpp:111-118 | `split` returns at least one token, none holding the separator, and the tokens joined with the separator give back the input, or the input without a final separator |
| Devices.FieldsOfJoin | src/drivers/pegasus_alpaca_focuser.cpp:111-118 | fields joined with the separator are split back into the same fields when none holds the separator and the last is not empty |
| Devices.FieldsOfTerminated | src/drivers/pegasus_alpaca_focuser.cpp:111-118 | a trailing separator does not add a field |
| ZwoCommands.QueryText | src/drivers/zwo_am5_telescope.cpp:9-70 | every ZWO query is ':', two letters and '#' |
| ZwoCommands.SameQueriesAsOnStep | src/drivers/zwo_am5_telescope.cpp:9-70 | each ZWO query sends the same text as the OnStep query of the same name |
| ZwoCommands.SetDateExample | src/drivers/zwo_am5_telescope.cpp:84-85 | 1 February 2024 is sent as ":SC01/02/24#" |
| ZwoCommands.SetDateRejects | src/drivers/zwo_am5_telescope.cpp:96-98 | month 14, day 40 and year 100 are each INVALID_VALUE |
| ZwoCommands.SetTimeExample | src/drivers/zwo_am5_telescope.cpp:89 | 13:54:59 is sent as ":SL13:54:59#" |
| ZwoCommands.SetTimeRejects | src/drivers/zwo_am5_telescope.cpp:100-102 | hour 25, minute 61 and second 61 are each INVALID_VALUE |
| ZwoCommands.PadHasNoHash | src/drivers/zwo_am5_telescope.cpp:49 | a zero-padded number never holds '#' |
| ZwoCommands.SetDaylightSavings | src/drivers/zwo_am5_telescope.cpp:43-45 | any integer is accepted and printed between ":SH" and '#' |
| ZwoCommands.DaylightSavingsReadBack | src/drivers/zwo_am5_telescope.cpp:43-45 | `atoi` of the text between ":SH" and '#' is the argument |
| ZwoCommands.DaylightSavingsAsOnStep | src/drivers/zwo_am5_telescope.cpp:43-45 | for 0 and 1 the ZWO command is OnStep's |
| ZwoCommands.SetTimezone | src/drivers/zwo_am5_telescope.cpp:47-51 | any offset is printed after ":SG" and the sign, and with a sign other than '#' the command holds no '#' at all |
| ZwoCommands.TimezoneUnterminated | src/drivers/zwo_am5_telescope.cpp:47-51 | for offsets OnStep accepts, the ZWO command is OnStep's without the final '#' |
| ZwoCommands.TimezoneAsWrittenRejected | src/drivers/zwo_am5_telescope.cpp:47-51 | the offset text as written is rejected by the reply parser of the same format |
| ZwoCommands.TimezoneText | src/drivers/zwo_am5_telescope.cpp:49-50 | what follows ":SG" is the six characters of the formatted offset |
| ZwoCommands.SetTimezoneTerminated | src/drivers/zwo_am5_telescope.cpp:47-51 | the corrected command starts with ":SG" and the sign and ends with '#' |
| ZwoCommands.TimezoneTerminatedReadBack | src/drivers/zwo_am5_telescope.cpp:47-51 | the corrected command is read back by `parse_shh_mm_response` as the offset, and equals OnStep's command where OnStep accepts the offset |
| ZwoCommands.SetLatitude | src/drivers/zwo_am5_telescope.cpp:55-59 | any sign and fields, printed after ":St" and ended by '#' |
| ZwoCommands.LatitudeAsOnStep | src/drivers/zwo_am5_telescope.cpp:55-59 | for arguments OnStep accepts, the ZWO command is OnStep's |
| ZwoCommands.LatitudeReadBack | src/drivers/zwo_am5_telescope.cpp:55-59 | fields that fit two digits are read back by `parse_sdd_mm_ss_response` |
| ZwoCommands.SetLongitude | src/drivers/zwo_am5_telescope.cpp:63-66 | the command starts with ":Sgs" and ends with '#' |
| ZwoCommands.LongitudeAsOnStep | src/drivers/zwo_am5_telescope.cpp:63-66 | for fields in range the ZWO command is OnStep's east longitude with 's' in place of '+' |
| ZwoCommands.LongitudeReadBack | src/drivers/zwo_am5_telescope.cpp:63-66 | fields that fit the layout are read back by `parse_ddd_mm_ss_response` from what follows ":Sgs" |
| ZwoCommands.SetTargetRa | src/drivers/zwo_am5_telescope.cpp:74-77 | the command starts with ":Sr" and ends with '#' |
| ZwoCommands.TargetRaAsOnStep | src/drivers/zwo_am5_telescope.cpp:74-77 | for arguments OnStep accepts, the ZWO command is OnStep's |
| ZwoCommands.TargetRaReadBack | src/drivers/zwo_am5_telescope.cpp:74-77 | fields that fit two digits are read back by `parse_hh_mm_ss_response` |
| OnStepCommands.QueryText | src/drivers/onstep_commands.cpp:5-439 | every fixed query is a complete frame: ':', letters only, and a final '#' |
| OnStepCommands.SetDate | src/drivers/onstep_commands.cpp:18-30 | `cmd_set_date` accepts exactly months 1-12, days 1-31 and years 0-99, rejects everything else with INVALID_VALUE, and prints `:SCMM/DD/YY#` with two-digit fields |
| OnStepCommands.SetDateReadBack | src/drivers/onstep_commands.cpp:18-30 | the date an accepted `:SC` command carries is what `parse_mm_dd_yy_response` reads back |
| OnStepCommands.SetTime | src/drivers/onstep_commands.cpp:33-45 | `cmd_set_time` accepts exactly hours 0-23 and minutes and seconds 0-59, otherwise INVALID_VALUE, and prints `:SLHH:MM:SS#` |
| OnStepCommands.SetTimeReadBack | src/drivers/onstep_commands.cpp:33-45 | the time an accepted `:SL` command carries is what `parse_hh_mm_ss_response` reads back |
| OnStepCommands.SetDaylightSavings | src/drivers/onstep_commands.cpp:57-61 | `cmd_set_daylight_savings` accepts only 0 and 1 and prints `:SH0#` or `:SH1#` |
| OnStepCommands.SetTimezone | src/drivers/onstep_commands.cpp:64-78 | `cmd_set_timezone` accepts exactly a '+' or '-', an hour offset 0-23 and a minute offset 0 or 30, and prints `:SGsHH:MM#` |
| OnStepCommands.SetTimezoneReadBack | src/drivers/onstep_commands.cpp:64-78 | the offset an accepted `:SG` command carries is what `parse_shh_mm_response` reads back |
| OnStepCommands.SetLatitude | src/drivers/onstep_commands.cpp:84-100 | `cmd_set_latitude` accepts exactly a sign, degrees 0-90 and minutes and seconds 0-59, and prints `:StsDD*MM:SS#` |
| OnStepCommands.SetLatitudeReadBack | src/drivers/onstep_commands.cpp:84-100 | the latitude an accepted `:St` command carries is what `parse_sdd_mm_ss_response` reads back |
| OnStepCommands.SetLongitude | src/drivers/onstep_commands.cpp:106-122 | `cmd_set_longitude` accepts exactly a sign, degrees 0-180 and minutes and seconds 0-59, and prints `:SgsDDD*MM:SS#` with three degree digits |
| OnStepCommands.SetLongitudeReadBack | src/drivers/onstep_commands.cpp:106-122 | the longitude an accepted `:Sg` command carries is what `parse_sddd_mm_ss_response` reads back |
| OnStepCommands.SetTargetRa | src/drivers/onstep_commands.cpp:134-147 | `cmd_set_target_ra` accepts exactly hours 0-23 and minutes and seconds 0-59 and prints `:SrHH:MM:SS#` |
| OnStepCommands.SetTargetRaReadBack | src/drivers/onstep_commands.cpp:134-147 | the right ascension an accepted `:Sr` command carries is what `parse_hh_mm_ss_response` reads back |
| OnStepCommands.SetTargetDec | src/drivers/onstep_commands.cpp:154-171 | `cmd_set_target_dec` accepts exactly a sign, degrees 0-90 and minutes and seconds 0-59 and prints `:SdsDD:MM:SS#`, with ':' after the degrees |
| OnStepCommands.SetTargetDecReadBack | src/drivers/onstep_commands.cpp:154-171 | the declination layout followed by '#' matches the payload of an accepted `:Sd` command and recovers its arguments |
| OnStepCommands.SpeedOf | src/drivers/onstep_commands.cpp:191-202 | `move_speed_enum` has exactly the underlying values 0-9 |
| OnStepCommands.SpeedOfCode | src/drivers/onstep_commands.cpp:191-202 | each enumerator is the only one with its underlying value |
| OnStepCommands.SetMovingSpeed | src/drivers/onstep_commands.cpp:196-202 | `cmd_set_moving_speed` accepts exactly the values of the enumeration and sends `:R` with the single digit and '#' |
| OnStepCommands.EverySpeedAccepted | src/drivers/onstep_commands.cpp:196-202 | every enumerator yields a command |
| OnStepCommands.Guide | src/drivers/onstep_commands.cpp:270-279 | `cmd_guide` accepts exactly the directions 'e', 'w', 'n', 's' and rates 0-3000 and prints `:Mg` with the direction and the rate in four digits |
| OnStepCommands.GuideReadBack | src/drivers/onstep_commands.cpp:270-279 | the direction and four-digit layout followed by '#' matches the payload of an accepted `:Mg` command and recovers the rate |
| OnStepCommands.SetActOfCrossingMeridian | src/drivers/onstep_commands.cpp:293-317 | `cmd_set_act_of_crossing_meridian` accepts exactly flags 0 or 1, a sign and a limit 0-15 and prints `:STa` with the two flags, the sign, two limit digits and '#' |
| OnStepCommands.SetActOfCrossingMeridianReadBack | src/drivers/onstep_commands.cpp:293-317 | the meridian layout followed by '#' matches the payload of an accepted `:STa` command and recovers its arguments |
| OnStepCommands.SetLatAndLong | src/drivers/onstep_commands.cpp:347-382 | `cmd_set_lat_and_long` is accepted exactly when both the latitude and the longitude setters accept their halves; an accepted command is 26 characters |
| OnStepCommands.SetLatAndLongText | src/drivers/onstep_commands.cpp:347-382 | an accepted `:SMGE` command is the latitude and the longitude, each printed as its own setter prints it, joined by '&' |
| OnStepCommands.SetLatAndLongReadBack | src/drivers/onstep_commands.cpp:347-382 | split on '&', the payload of an accepted `:SMGE` command gives back the latitude and the longitude through the reply parsers |
| OnStepCommands.SetDateTimeAndTz | src/drivers/onstep_commands.cpp:389-427 | `cmd_set_date_time_and_tz` is accepted exactly when the date, time and timezone setters accept their parts; an accepted command is 30 characters |
| OnStepCommands.SetDateTimeAndTzText | src/drivers/onstep_commands.cpp:389-427 | an accepted `:SMTI` command is the date, the time and the offset, each printed as its own setter prints it, joined by '&' |
| OnStepCommands.SetDateTimeAndTzReadBack | src/drivers/onstep_commands.cpp:389-427 | split on '&', the payload of an accepted `:SMTI` command gives back the date, the time and the offset through the reply parsers |
| OnStepCommands.SetTargetRaAndDecAndGoto | src/drivers/onstep_commands.cpp:443-473 | `cmd_set_target_ra_and_dec_and_goto` is accepted exactly when the right ascension and declination setters accept their parts; an accepted command is 24 characters |
| OnStepCommands.SetTargetRaAndDecAndGotoText | src/drivers/onstep_commands.cpp:443-473 | an accepted `:SMeq` command is the right ascension and the declination, with '*' after the degrees, joined by '&' |
| OnStepCommands.SetTargetRaAndDecAndGotoReadBack | src/drivers/onstep_commands.cpp:443-473 | split on '&', the payload of an accepted `:SMeq` command gives back the right ascension and the declination through the reply parsers |
| OnStepCommands.SetTargetRaAndDecAndSync | src/drivers/onstep_commands.cpp:477-506 | `cmd_set_target_ra_and_dec_and_sync` is accepted exactly when the right ascension and declination setters accept their parts; an accepted command is 24 characters |
| OnStepCommands.SetTargetRaAndDecAndSyncText | src/drivers/onstep_commands.cpp:477-506 | an accepted sync command is the right ascension and the declination, with '*' after the degrees, joined by '&' |
| OnStepCommands.SetTargetRaAndDecAndSyncReadBack | src/drivers/onstep_commands.cpp:477-506 | split on '&', the payload of an accepted sync command gives back the right ascension and the declination through the reply parsers |
| OnStepResponses.HhMmSsText | src/drivers/onstep_commands.hpp:342-346 | the `hh_mm_ss` formatter prints `HH:MM:SS` with two-digit fields |
| OnStepResponses.DdMmSsText | src/drivers/onstep_commands.hpp:348-352 | the `dd_mm_ss` formatter prints `DD*MM:SS` |
| OnStepResponses.SddMmSsText | src/drivers/onstep_commands.hpp:354-359 | the `sdd_mm_ss` formatter prints the sign, then `DD*MM:SS` |
| OnStepResponses.SdddMmSsReplyText | src/drivers/onstep_commands.cpp:685-705 | a `sDDD*MM:SS` reply, the layout `parse_sddd_mm_ss_response` reads, prints the sign, three degree digits, '*', then `MM:SS` |
| OnStepResponses.MmDdYyText | src/drivers/onstep_commands.hpp:361-365 | the `mm_dd_yy` formatter prints `MM/DD/YY` |
| OnStepResponses.ShhMmText | src/drivers/onstep_commands.hpp:367-372 | the `shh_mm` formatter prints the sign, then `HH:MM` |
| OnStepResponses.SddMmText | src/drivers/onstep_commands.hpp:374-379 | the `sdd_mm` formatter prints the sign, then `DD:MM` with a colon |
| OnStepResponses.SdddMmText | src/drivers/onstep_commands.hpp:381-386 | the `sddd_mm` formatter prints the sign, then `DDD:MM` with a colon |
| OnStepResponses.DddMmSsText | src/drivers/onstep_commands.hpp:388-392 | the `ddd_mm_ss` formatter prints `DDD*MM:SS` |
| OnStepResponses.ParseStandard | src/drivers/onstep_commands.cpp:517-528 | `parse_standard_response` yields a value 0-9 only when the reply begins with that digit and '#', optionally after an 'e'; otherwise INVALID_VALUE |
| OnStepResponses.StandardRoundTrip | src/drivers/onstep_commands.cpp:517-528 | a digit and '#', with or without a leading 'e' and whatever follows, reads back as that digit |
| OnStepResponses.ParseHhMmSs | src/drivers/onstep_commands.cpp:552-571 | `parse_hh_mm_ss_response` yields a time only when the reply begins with that time printed as `HH:MM:SS#`; otherwise INVALID_VALUE |
| OnStepResponses.HhMmSsRoundTrip | src/drivers/onstep_commands.cpp:552-571 | every time printed as `HH:MM:SS#`, whatever follows, reads back as itself |
| OnStepResponses.ParseDdMmSs | src/drivers/onstep_commands.cpp:575-593 | `parse_dd_mm_ss_response` yields an angle only when the reply begins with it printed as `DD*MM:SS#`; otherwise INVALID_VALUE |
| OnStepResponses.DdMmSsRoundTrip | src/drivers/onstep_commands.cpp:575-593 | every angle printed as `DD*MM:SS#` reads back as itself |
| OnStepResponses.ParseSddMmSs | src/drivers/onstep_commands.cpp:630-650 | `parse_sdd_mm_ss_response` yields a signed angle only when the reply begins with it printed as `sDD*MM:SS#`; otherwise INVALID_VALUE |
| OnStepResponses.SddMmSsRoundTrip | src/drivers/onstep_commands.cpp:630-650 | every signed angle printed as `sDD*MM:SS#` reads back as itself |
| OnStepResponses.ParseSdddMmSs | src/drivers/onstep_commands.cpp:685-705 | `parse_sddd_mm_ss_response` yields a signed angle only when the reply begins with it printed as `sDDD*MM:SS#`; otherwise INVALID_VALUE |
| OnStepResponses.SdddMmSsRoundTrip | src/drivers/onstep_commands.cpp:685-705 | every signed angle printed as `sDDD*MM:SS#` reads back as itself |
| OnStepResponses.ParseMmDdYy | src/drivers/onstep_commands.cpp:707-725 | `parse_mm_dd_yy_response` yields a date only when the reply begins with it printed as `MM/DD/YY#`; otherwise INVALID_VALUE |
| OnStepResponses.MmDdYyRoundTrip | src/drivers/onstep_commands.cpp:707-725 | every date printed as `MM/DD/YY#` reads back as itself |
| OnStepResponses.ParseShhMm | src/drivers/onstep_commands.cpp:727-745 | `parse_shh_mm_response` yields an offset only when the reply begins with it printed as `sHH:MM#`; otherwise INVALID_VALUE |
| OnStepResponses.ShhMmRoundTrip | src/drivers/onstep_commands.cpp:727-745 | every offset printed as `sHH:MM#` reads back as itself |
| OnStepResponses.ParseSddMm | src/drivers/onstep_commands.cpp:774-792 | `parse_sdd_mm_response` yields a signed angle only when the reply begins with it printed as `sDD*MM#`; otherwise INVALID_VALUE |
| OnStepResponses.SddMmRoundTrip | src/drivers/onstep_commands.cpp:774-792 | every signed angle printed as `sDD*MM#` reads back as itself |
| OnStepResponses.ParseSdddMm | src/drivers/onstep_commands.cpp:821-839 | `parse_sddd_mm_response` yields a signed angle only when the reply begins with it printed as `sDDD*MM#`; otherwise INVALID_VALUE |
| OnStepResponses.SdddMmRoundTrip | src/drivers/onstep_commands.cpp:821-839 | every signed angle printed as `sDDD*MM#` reads back as itself |
| OnStepResponses.SddMmFormatRejected | src/drivers/onstep_commands.hpp:374-379 | the `sdd_mm` formatter's text, with '#', is rejected by `parse_sdd_mm_response`, which wants '*' after the degrees |
| OnStepResponses.SdddMmFormatRejected | src/drivers/onstep_commands.hpp:381-386 | the `sddd_mm` formatter's text, with '#', is rejected by `parse_sddd_mm_response` |
| OnStepResponses.ParseDddMmSs | src/drivers/onstep_commands.cpp:894-913 | `parse_ddd_mm_ss_response` yields an angle only when the reply begins with it printed as `DDD*MM:SS#`; otherwise INVALID_VALUE |
| OnStepResponses.DddMmSsRoundTrip | src/drivers/onstep_commands.cpp:894-913 | every angle printed as `DDD*MM:SS#` reads back as itself |
| OnStepResponses.SplitOn | src/drivers/onstep_commands.cpp:841-859 | the loop of `split_on` collects exactly the chunks between the separators, in order |
| OnStepResponses.SplitCount | src/drivers/onstep_commands.cpp:841-859 | there is one chunk more than there are separators |
| OnStepResponses.SplitChunks | src/drivers/onstep_commands.cpp:841-859 | no chunk holds the separator |
| OnStepResponses.JoinSplit | src/drivers/onstep_commands.cpp:841-859 | the chunks joined with the separator give back the input |
| OnStepResponses.SplitJoin | src/drivers/onstep_commands.cpp:841-859 | separator-free chunks joined with the separator split back into the same chunks |
| OnStepResponses.ParseSddMmAndSdddMm | src/drivers/onstep_commands.cpp:861-869 | `parse_sdd_mm_and_sddd_mm_response` needs an '&'; on success the part before it is a `sDD*MM` latitude and the part after it a `sDDD*MM#` longitude; otherwise INVALID_VALUE |
| OnStepResponses.SddMmAndSdddMmRoundTrip | src/drivers/onstep_commands.cpp:861-869 | a latitude and a longitude in their reply layouts, joined by '&' and terminated by '#', read back as themselves |
| Ppba.SwitchTable | src/drivers/pegasus_alpaca_ppba.hpp:5-44 | no switch is both a reading and a control; the value setters refuse every reading except the two dew heater currents, and the uptime is never settable |
| Ppba.CanWrite | src/drivers/pegasus_alpaca_ppba.cpp:292-319 | `can_write` is true exactly for the on/off and level controls, false for the readings, and INVALID_VALUE for an index of 19 or more |
| Ppba.SwitchName | src/drivers/pegasus_alpaca_ppba.cpp:416-460 | `get_switch_name` gives, for each of the 19 indices, the non-empty name at that index of the source's table, and INVALID_VALUE otherwise |
| Ppba.SwitchNamesDistinct | src/drivers/pegasus_alpaca_ppba.cpp:416-460 | no two switches have the same name |
| Ppba.SwitchDescription | src/drivers/pegasus_alpaca_ppba.cpp:366-414 | `get_switch_description` gives, for each of the 19 indices, the non-empty description at that index of the source's table, and INVALID_VALUE otherwise |
| Ppba.SwitchDescriptionsDistinct | src/drivers/pegasus_alpaca_ppba.cpp:366-414 | no two switches have the same description |
| Ppba.MinSwitchValue | src/drivers/pegasus_alpaca_ppba.cpp:508-537 | `min_switch_value` is defined exactly for the 19 indices, INVALID_VALUE otherwise |
| Ppba.MaxSwitchValue | src/drivers/pegasus_alpaca_ppba.cpp:539-579 | `max_switch_value` is defined exactly for the 19 indices and is never below the minimum |
| Ppba.SwitchStep | src/drivers/pegasus_alpaca_ppba.cpp:909-936 | `switch_step` is 1 exactly for the settable switches, INVALID_OPERATION exactly for the read-only ones, INVALID_VALUE for the rest |
| Ppba.Channel | src/drivers/pegasus_alpaca_ppba.cpp:581-703 | every settable switch is driven through a two-letter `P` command |
| Ppba.SwitchCommand | src/drivers/pegasus_alpaca_ppba.cpp:581-703 | `set_switch` refuses readings with INVALID_OPERATION and unknown indices with INVALID_VALUE; for a control it sends the switch's channel, ':' and the on or off level |
| Ppba.AdjVoltageCommand | src/drivers/pegasus_alpaca_ppba.cpp:762-803 | the adjustable output's chain of range tests picks `P2:3`, `P2:5`, `P2:7`, `P2:8`, `P2:9` or `P2:12` for exactly the stated voltage ranges and refuses anything outside 3-12 |
| Ppba.ValueCommand | src/drivers/pegasus_alpaca_ppba.cpp:713-907 | `set_switch_value` refuses read-only switches with INVALID_OPERATION and other failures with INVALID_VALUE; it accepts exactly on/off levels 0-1, PWM 0-255, aggressiveness 1-254 and voltage 3-12 |
| Ppba.ValueCommandShape | src/drivers/pegasus_alpaca_ppba.cpp:713-907 | every accepted value command goes to the switch's channel, and its value lies between the switch's advertised minimum and maximum |
| Ppba.ValueCommandLevel | src/drivers/pegasus_alpaca_ppba.cpp:804-900 | a level command's number reads back with `atof` as the value sent; on/off switches send 1 for a positive value and 0 for zero |
| Ppba.ParseStatus | src/drivers/pegasus_alpaca_ppba.cpp:105-139 | a `PA` reply is accepted exactly when its first field is `PPBA` and it has the 13 fields read; otherwise DRIVER_ERROR |
| Ppba.UptimeMinutes | src/drivers/pegasus_alpaca_ppba.cpp:154 | the uptime stored in a `uint32_t` is the whole number of minutes in the milliseconds reported |
| Ppba.ParseMetrics | src/drivers/pegasus_alpaca_ppba.cpp:141-154 | a `PC` reply is accepted exactly when its first field is `PC` and it has the 6 fields read; otherwise DRIVER_ERROR |
| Ppba.ParsePower | src/drivers/pegasus_alpaca_ppba.cpp:156-165 | a `PS` reply is accepted exactly when its first field is `PS` and it has the 4 fields read; otherwise DRIVER_ERROR |
| Ppba.ParseAggressiveness | src/drivers/pegasus_alpaca_ppba.cpp:166-173 | a `DA` reply is accepted exactly when its first field is `DA` and it has the 2 fields read; otherwise DRIVER_ERROR |
| Ppba.ReadUint32 | src/drivers/pegasus_alpaca_ppba.cpp:118 | an unsigned reading written in decimal reads back with `atoi` into a `uint32_t` unchanged |
| Ppba.StatusRoundTrip | src/drivers/pegasus_alpaca_ppba.cpp:105-139 | every reading of a `PA` reply the box writes is read back as written |
| Ppba.MetricsRoundTrip | src/drivers/pegasus_alpaca_ppba.cpp:141-154 | the currents of a `PC` reply read back as written, and the uptime as the whole minutes in it |
| Ppba.AggressivenessRoundTrip | src/drivers/pegasus_alpaca_ppba.cpp:166-173 | a `DA` reply the box writes reads back as written |
| Ppba.Refreshed | src/drivers/pegasus_alpaca_ppba.cpp:81-174 | one `update_properties` pass stores each reply group in order and stops at the first rejected reply, leaving that group and every later one unchanged |
| Ppba.PowerBox.constructor | src/drivers/pegasus_alpaca_ppba.cpp:24-30 | a new driver is disconnected, with zero readings and the USB2 hub on |
| Ppba.PowerBox.SetConnected | src/drivers/pegasus_alpaca_ppba.cpp:191-256 | connecting while connected is a no-op; otherwise the connection follows whether the port opens, and disconnecting always ends disconnected, with DRIVER_ERROR if the port fails to close; readings are untouched |
| Ppba.PowerBox.UpdateProperties | src/drivers/pegasus_alpaca_ppba.cpp:81-174 | the readings become `Refreshed` of the old readings and the four replies; the pass fails with DRIVER_ERROR exactly when a reply is rejected |
| Ppba.PowerBox.SetSwitch | src/drivers/pegasus_alpaca_ppba.cpp:581-703 | sends exactly `SwitchCommand`'s command or returns its error; succeeds only when the echo equals the command, and then only the USB2 hub state can change |
| Ppba.PowerBox.SetSwitchValue | src/drivers/pegasus_alpaca_ppba.cpp:713-907 | sends exactly `ValueCommand`'s command or returns its error; succeeds only on a matching echo, and then only the USB2 hub state can change |
| Ppba.PowerBox.GetSwitchValue | src/drivers/pegasus_alpaca_ppba.cpp:462-506 | `get_switch_value` is defined exactly for the 19 indices, INVALID_VALUE otherwise |
| Ppba.PowerBox.GetSwitch | src/drivers/pegasus_alpaca_ppba.cpp:321-363 | `get_switch` is defined for every index below 19 except the uptime; readings other than the power warning are true, and controls report their state |
| Ppba.PowerBox.ReadingsMap | src/drivers/pegasus_alpaca_ppba.cpp:944-962 | the readings hold exactly the 19 reading keys, each with the box's last value: voltage, power, currents, temperature, humidity, dew point, uptime, dew heater levels and currents, autodew and its aggressiveness, the power warning, the output states and the USB2 hub state |
| Ppba.PowerBox.Details | src/drivers/pegasus_alpaca_ppba.cpp:938-966 | `details` has exactly the connection and the serial device while disconnected, with their values; while connected it adds exactly the 19 reading keys, each with the box's last value and the USB2 hub state |
| FocusCube3.ParseStatus | src/drivers/pegasus_alpaca_focuscube3.cpp:132-145 | an `FA` reply is accepted exactly when its first field is `FC3` and it has the six fields read; otherwise DRIVER_ERROR |
| FocusCube3.StatusRoundTrip | src/drivers/pegasus_alpaca_focuscube3.cpp:132-145 | every reading of an `FA` reply the focuser writes is read back as written: the position, moving exactly when the flag is "1", the temperature and the backlash |
| FocusCube3.MoveCommand | src/drivers/pegasus_alpaca_focuscube3.cpp:270-277 | the move command is `FM:`, the target position that `atoi` reads back, and a newline |
| FocusCube3.FocusCube.constructor | src/drivers/pegasus_alpaca_focuscube3.cpp:30-32 | a new driver is disconnected and not moving, with zero position, temperature and backlash |
| FocusCube3.FocusCube.SetConnected | src/drivers/pegasus_alpaca_focuscube3.cpp:59-123 | connecting while connected is a no-op; otherwise the connection follows whether the port opens, and disconnecting always ends disconnected, with DRIVER_ERROR if the port fails to close; readings are untouched |
| FocusCube3.FocusCube.UpdateProperties | src/drivers/pegasus_alpaca_focuscube3.cpp:132-145 | an accepted `FA` reply becomes the readings; a rejected one is DRIVER_ERROR and changes nothing |
| FocusCube3.FocusCube.Absolute | src/drivers/pegasus_alpaca_focuscube3.cpp:207-210 | `absolute` is true while connected and NOT_CONNECTED otherwise |
| FocusCube3.FocusCube.IsMoving | src/drivers/pegasus_alpaca_focuscube3.cpp:212-215 | `is_moving` reports the moving flag while connected, NOT_CONNECTED otherwise |
| FocusCube3.FocusCube.MaxIncrement | src/drivers/pegasus_alpaca_focuscube3.cpp:218-221 | `max_increment` is 500 while connected, NOT_CONNECTED otherwise |
| FocusCube3.FocusCube.MaxStep | src/drivers/pegasus_alpaca_focuscube3.cpp:224-227 | `max_step` is 1000000 while connected, NOT_CONNECTED otherwise |
| FocusCube3.FocusCube.Position | src/drivers/pegasus_alpaca_focuscube3.cpp:229-232 | `position` reports the last position read while connected, NOT_CONNECTED otherwise |
| FocusCube3.FocusCube.StepSize | src/drivers/pegasus_alpaca_focuscube3.cpp:234-239 | `step_size` always fails: NOT_IMPLEMENTED while connected, NOT_CONNECTED otherwise |
| FocusCube3.FocusCube.TempComp | src/drivers/pegasus_alpaca_focuscube3.cpp:242-245 | temperature compensation is never on; NOT_CONNECTED while disconnected |
| FocusCube3.FocusCube.TempCompAvailable | src/drivers/pegasus_alpaca_focuscube3.cpp:247-250 | temperature compensation is never available; NOT_CONNECTED while disconnected |
| FocusCube3.FocusCube.SetTempComp | src/drivers/pegasus_alpaca_focuscube3.cpp:252-257 | `set_temp_comp` always fails, NOT_IMPLEMENTED while connected and NOT_CONNECTED otherwise, and changes nothing |
| FocusCube3.FocusCube.Temperature | src/drivers/pegasus_alpaca_focuscube3.cpp:259-262 | `temperature` reports the last temperature read while connected, NOT_CONNECTED otherwise |
| FocusCube3.FocusCube.Halt | src/drivers/pegasus_alpaca_focuscube3.cpp:264-268 | `halt` sends the halt command while connected, NOT_CONNECTED otherwise |
| FocusCube3.FocusCube.Move | src/drivers/pegasus_alpaca_focuscube3.cpp:270-277 | `move` sends the move command for the target and marks the focuser moving while connected; otherwise NOT_CONNECTED and nothing sent |
| FocusCube3.FocusCube.Details | src/drivers/pegasus_alpaca_focuscube3.cpp:279-293 | `details` always has the connection and the serial device, and the position, moving flag, temperature and backlash only while connected |
| PrimaLuceTree.ValueJson | src/drivers/primaluce_focuser_rotator.hpp:11-17 | a `primaluce_value_t` parameter becomes a JSON string exactly when it holds a string and a JSON number exactly when it holds a double |
| PrimaLuceTree.Set | src/drivers/primaluce_focuser_rotator.hpp:77 | `j[k] = v` makes `j` an object whose keys are the old ones and `k`, holding `v` under `k` and everything else unchanged |
| PrimaLuceTree.JsonOfLookup | src/drivers/primaluce_focuser_rotator.hpp:75-84 | after `to_json`, a key holds the JSON of the last child with that key, else the last parameter with that key, else what `j` held |
| PrimaLuceTree.WithParamsLookup | src/drivers/primaluce_focuser_rotator.hpp:76-78 | after the parameter loop a key holds the last parameter written under it, or what it held before |
| PrimaLuceTree.WithChildrenLookup | src/drivers/primaluce_focuser_rotator.hpp:80-82 | after the child loop a key holds the JSON of the last child written under it, or what it held before |
| PrimaLuceTree.JsonOfLeaf | src/drivers/primaluce_focuser_rotator.hpp:75-84 | a node with no parameters and no children gives back the JSON it is handed |
| PrimaLuceTree.ChainJson | src/drivers/primaluce_focuser_rotator.cpp:184-192 | the JSON of a `create_object` chain ending in one `push_param` is one nested object per key of the path, with the parameter innermost |
| PrimaLuceTree.PathJsonAt | src/drivers/primaluce_focuser_rotator.cpp:184-192 | following the path of such a request reaches the object holding only the parameter, and its key reaches the parameter's value |
| PrimaLuceTree.KvNode.constructor | src/drivers/primaluce_focuser_rotator.hpp:48-51 | a new node has an empty key, no parameters and no children |
| PrimaLuceTree.KvNode.PushParam | src/drivers/primaluce_focuser_rotator.hpp:57-62 | `push_param` appends exactly one parameter, leaves the children and key alone, and returns the same node |
| PrimaLuceTree.KvNode.CreateObject | src/drivers/primaluce_focuser_rotator.hpp:64-69 | `create_object` appends exactly one new, empty child with the given key and returns it, leaving the parameters alone |
| PrimaLuceTree.KvNode.ToJson | src/drivers/primaluce_focuser_rotator.hpp:75-84 | `to_json` computes `JsonOf` of the tree the node holds |
| PrimaLuceTree.KvNode.WriteParams | src/drivers/primaluce_focuser_rotator.hpp:76-78 | the parameter loop of `to_json` computes `WithParams` |
| PrimaLuceTree.KvNode.WriteChildren | src/drivers/primaluce_focuser_rotator.hpp:80-82 | the child loop of `to_json` computes `WithChildren` over every child |
| PrimaLuceTree.BuildRequest | src/drivers/primaluce_focuser_rotator.cpp:184-192 | building `root.create_object(…)->…->push_param(k, v)` and serialising it gives exactly the nested request object `PathJson` |
| PrimaLuce.MotionCommand | src/drivers/primaluce_focuser_rotator.cpp:197-321 | each unit-taking MOT2 motion request is made exactly for the units `valid_rotator_unit` accepts, and then carries the position under `req.cmd.MOT2.<motion>.<unit>`; any other unit gives the empty command |
| PrimaLuce.ReadingQuery | src/drivers/primaluce_focuser_rotator.cpp:220-259 | each unit-taking MOT2 query is made exactly for the accepted units and asks for `req.get.MOT2.<reading>_<unit>`; any other unit gives the empty command |
| PrimaLuce.SetHemisphereMot2 | src/drivers/primaluce_focuser_rotator.cpp:334-342 | `set_hemisphere_mot2_cmd` carries the hemisphere text under `req.set.MOT2.HEMISPHERE` |
| PrimaLuce.SetReverseMot2 | src/drivers/primaluce_focuser_rotator.cpp:377-384 | `set_reverse_mot2_cmd` carries the reverse flag as an integer under `req.set.MOT2.REVERSE` |
| PrimaLuce.Mot2Request | src/drivers/primaluce_focuser_rotator.cpp:325-384 | a MOT2 request without a unit carries its value under `req.<verb>.MOT2.<key>` |
| PrimaLuce.StopMot2AsWrittenAborts | src/drivers/primaluce_focuser_rotator.cpp:355-362 | `cmd_stop_mot2_cmd` as written is the very same request as `cmd_abort_mot2_cmd`: `MOT_ABORT` |
| PrimaLuce.StopMot2Decelerates | src/drivers/primaluce_focuser_rotator.cpp:355-362 | the corrected stop asks for `MOT_STOP` only, so it differs from the abort |
| PrimaLuce.SetArcoEnabled | src/drivers/primaluce_focuser_rotator.cpp:181-186 | `set_arco_enabled_cmd` sends 1 or 0 under `req.set.ARCO` |
| PrimaLuce.CommonQuery | src/drivers/primaluce_focuser_rotator.cpp:740-744 | `get_common_cmd(name)` asks for `req.get.<name>` |
| PrimaLuce.DimLeds | src/drivers/primaluce_focuser_rotator.cpp:795-803 | `cmd_dimleds_cmd` is INVALID_VALUE unless the brightness is on, low, middle or off, and otherwise is the DIMLEDS query |
| PrimaLuce.Mot1Command | src/drivers/primaluce_focuser_rotator.cpp:840-847 | a common MOT1 command asks for `req.cmd.MOT1.<name>` |
| PrimaLuce.SetBacklash | src/drivers/primaluce_focuser_rotator.cpp:952-959 | `set_backlash_cmd` carries the steps under `req.set.MOT1.BKLASH` |
| PrimaLuce.Mot1Step | src/drivers/primaluce_focuser_rotator.cpp:910-941 | the MOT1 step moves carry the position under `req.cmd.MOT1.<motion>.STEP` |
| PrimaLuce.Index | src/drivers/primaluce_focuser_rotator.cpp:449 | indexing a JSON null or object succeeds, anything else is a JSON type error |
| PrimaLuce.PathOfAt | src/drivers/primaluce_focuser_rotator.cpp:449-503 | where a nested value is present, indexing by its path reaches it |
| PrimaLuce.Truncate | src/drivers/primaluce_focuser_rotator.cpp:457 | a double converted to an integer is truncated toward zero |
| PrimaLuce.AsUint32 | src/drivers/primaluce_focuser_rotator.cpp:457 | a JSON number converts to `uint32_t`, an integer in range unchanged; anything else is an error |
| PrimaLuce.AsInt | src/drivers/primaluce_focuser_rotator.cpp:462 | a JSON number converts to `int`, an integer unchanged; anything else is an error |
| PrimaLuce.AsReal | src/drivers/primaluce_focuser_rotator.cpp:470-500 | a JSON number converts to `double`; anything else is an error |
| PrimaLuce.AsString | src/drivers/primaluce_focuser_rotator.cpp:461 | only a JSON string converts to a string |
| PrimaLuce.Moving | src/drivers/primaluce_focuser_rotator.cpp:459 | the motor is moving exactly when `STATUS.MST` is present and is not the string "stop" |
| PrimaLuce.Got | src/drivers/primaluce_focuser_rotator.cpp:449 | a reply's `res.get` part, or an error when the reply cannot be read |
| PrimaLuce.RefreshFocuser | src/drivers/primaluce_focuser_rotator.cpp:446-462 | the focuser refresh hands on the system data only when that data was read |
| PrimaLuce.RefreshFocuserOfWellFormed | src/drivers/primaluce_focuser_rotator.cpp:446-462 | for well-formed replies the refresh completes and sets the position, moving unless MST is "stop", the temperature from `atof`, and the backlash |
| PrimaLuce.RefreshFocuserCompletes | src/drivers/primaluce_focuser_rotator.cpp:446-462 | once every step reads what it asks for, the refresh completes with exactly those readings |
| PrimaLuce.Refresh | src/drivers/primaluce_focuser_rotator.cpp:442-513 | `update_properties` refreshes the rotator only when the ARCO's rotator is connected and the focuser part completed; it sends nothing or exactly the two aborts; a failed focuser part sends the aborts and keeps what it read |
| PrimaLuce.ArcoRotator.constructor | src/drivers/primaluce_focuser_rotator.cpp:14-18 | a new rotator is bound to its focuser, disconnected, not moving, not reversed, with zero positions and target |
| PrimaLuce.ArcoRotator.SetConnected | src/drivers/primaluce_focuser_rotator.cpp:66-74 | refused with INVALID_OPERATION and no change unless the focuser is connected; otherwise the rotator takes the state asked for |
| PrimaLuce.ArcoRotator.CanReverse | src/drivers/primaluce_focuser_rotator.cpp:88-91 | true while connected, INVALID_OPERATION otherwise |
| PrimaLuce.ArcoRotator.IsMoving | src/drivers/primaluce_focuser_rotator.cpp:93-96 | the rotator's own moving flag while connected, INVALID_OPERATION otherwise |
| PrimaLuce.ArcoRotator.Position | src/drivers/primaluce_focuser_rotator.cpp:98-101 | the position in degrees while connected, INVALID_OPERATION otherwise |
| PrimaLuce.ArcoRotator.MechanicalPosition | src/drivers/primaluce_focuser_rotator.cpp:103-106 | the mechanical position in degrees while connected, INVALID_OPERATION otherwise |
| PrimaLuce.ArcoRotator.Reverse | src/drivers/primaluce_focuser_rotator.cpp:108-111 | the reverse flag while connected, INVALID_OPERATION otherwise |
| PrimaLuce.ArcoRotator.StepSize | src/drivers/primaluce_focuser_rotator.cpp:122-125 | 0.1 while connected, INVALID_OPERATION otherwise |
| PrimaLuce.ArcoRotator.TargetPosition | src/drivers/primaluce_focuser_rotator.cpp:127-130 | the target in degrees while connected, INVALID_OPERATION otherwise |
| PrimaLuce.ArcoRotator.SetReverse | src/drivers/primaluce_focuser_rotator.cpp:113-120 | while connected sends the reverse setting as 1 or 0; otherwise INVALID_OPERATION and nothing sent |
| PrimaLuce.ArcoRotator.Halt | src/drivers/primaluce_focuser_rotator.cpp:132-137 | while connected sends the MOT2 abort; otherwise INVALID_OPERATION |
| PrimaLuce.ArcoRotator.Move | src/drivers/primaluce_focuser_rotator.cpp:139-146 | while connected the target becomes the position plus the offset and the relative move is sent; otherwise INVALID_OPERATION and the target is kept |
| PrimaLuce.ArcoRotator.MoveAbsolute | src/drivers/primaluce_focuser_rotator.cpp:148-154 | while connected the target becomes the position asked for and the absolute move is sent; otherwise INVALID_OPERATION |
| PrimaLuce.ArcoRotator.MoveMechanical | src/drivers/primaluce_focuser_rotator.cpp:156-168 | while connected the target becomes the mechanical position plus the offset from mechanical, and the absolute move to it is sent; otherwise INVALID_OPERATION |
| PrimaLuce.ArcoRotator.Sync | src/drivers/primaluce_focuser_rotator.cpp:170-176 | while connected sends the sync request for the position in degrees; otherwise INVALID_OPERATION |
| PrimaLuce.ArcoRotator.Refresh | src/drivers/primaluce_focuser_rotator.cpp:465-500 | the rotator readings become `RefreshRotator` of the old readings and the system data; the connection, moving flag and target are untouched |
| PrimaLuce.ArcoRotator.ReadPositions | src/drivers/primaluce_focuser_rotator.cpp:467-476 | the reverse flag and the three positions are read as `RefreshPositions` says |
| PrimaLuce.ArcoRotator.ReadOffsets | src/drivers/primaluce_focuser_rotator.cpp:478-488 | the three offsets from mechanical are read as `RefreshOffsets` says |
| PrimaLuce.ArcoRotator.ReadMechanical | src/drivers/primaluce_focuser_rotator.cpp:490-500 | the three mechanical positions are read as `RefreshMechanical` says |
| PrimaLuce.ArcoRotator.UniqueId | src/drivers/primaluce_focuser_rotator.cpp:64 | the rotator's id is the fixed name `unique_id_for_rotator123131`, whatever the state |
| PrimaLuce.ArcoRotator.Details | src/drivers/primaluce_focuser_rotator.cpp:22-48 | `details` holds only the connection flag while disconnected; while connected it holds exactly that and the rotator keys, with the position and mechanical position in degrees, steps and arcsec, the offsets equal to the mechanical values, the target, and the moving and reverse flags |
| PrimaLuce.EsattoFocuser.constructor | src/drivers/primaluce_focuser_rotator.cpp:394-409 | a new focuser is disconnected, not moving, with zero readings, step size 1, no ARCO and no rotator |
| PrimaLuce.EsattoFocuser.InitRotator | src/drivers/primaluce_focuser_rotator.cpp:419-436 | the ARCO is present exactly when the system data reports `ARCO` as 1, and then a rotator is made whose target is the reported MOT2 position in degrees |
| PrimaLuce.EsattoFocuser.SetConnected | src/drivers/primaluce_focuser_rotator.cpp:530-589 | connecting while connected is a no-op; a reply not naming ESATTO3 is DRIVER_ERROR and an unreadable one a JSON error, both leaving it disconnected; disconnecting also disconnects the rotator |
| PrimaLuce.EsattoFocuser.UpdateProperties | src/drivers/primaluce_focuser_rotator.cpp:442-513 | the focuser and rotator readings and the requests sent are exactly those `Refresh` gives for the three replies |
| PrimaLuce.EsattoFocuser.FollowRotator | src/drivers/primaluce_focuser_rotator.cpp:465-504 | the rotator's share of the refresh is exactly `Follow` |
| PrimaLuce.EsattoFocuser.Absolute | src/drivers/primaluce_focuser_rotator.cpp:620-623 | true while connected, INVALID_OPERATION otherwise |
| PrimaLuce.EsattoFocuser.IsMoving | src/drivers/primaluce_focuser_rotator.cpp:625-628 | the moving flag while connected, INVALID_OPERATION otherwise |
| PrimaLuce.EsattoFocuser.MaxIncrement | src/drivers/primaluce_focuser_rotator.cpp:630-633 | 731000 while connected |
| PrimaLuce.EsattoFocuser.MaxStep | src/drivers/primaluce_focuser_rotator.cpp:635-638 | 731000 while connected |
| PrimaLuce.EsattoFocuser.Position | src/drivers/primaluce_focuser_rotator.cpp:640-643 | the last position read while connected |
| PrimaLuce.EsattoFocuser.StepSize | src/drivers/primaluce_focuser_rotator.cpp:645-648 | the step size while connected |
| PrimaLuce.EsattoFocuser.TempComp | src/drivers/primaluce_focuser_rotator.cpp:650-653 | the compensation flag while connected |
| PrimaLuce.EsattoFocuser.SetTempComp | src/drivers/primaluce_focuser_rotator.cpp:655-659 | while connected turns compensation on whatever is asked; otherwise INVALID_OPERATION and no change |
| PrimaLuce.EsattoFocuser.TempCompAvailable | src/drivers/primaluce_focuser_rotator.cpp:661-664 | true while connected |
| PrimaLuce.EsattoFocuser.Temperature | src/drivers/primaluce_focuser_rotator.cpp:668-671 | the last temperature read while connected |
| PrimaLuce.EsattoFocuser.Halt | src/drivers/primaluce_focuser_rotator.cpp:673-677 | sends the MOT1 stop whether connected or not |
| PrimaLuce.EsattoFocuser.Move | src/drivers/primaluce_focuser_rotator.cpp:679-686 | while connected sends the absolute MOT1 move with the position stored as a `uint32_t`; otherwise INVALID_OPERATION |
| PrimaLuce.EsattoFocuser.UniqueId | src/drivers/primaluce_focuser_rotator.cpp:591 | the id is the serial device path |
| PrimaLuce.EsattoFocuser.Details | src/drivers/primaluce_focuser_rotator.cpp:688-702 | `details` has exactly the connection and the serial device while disconnected, and adds exactly the temperature, position, moving flag and backlash, each with the focuser's value, while connected |
| QhyCamera.TruncDiv | src/drivers/qhy_alpaca_camera.cpp:910 | C++ integer division truncates toward zero: for a non-negative dividend the quotient is the floor, for a negative one the ceiling |
| QhyCamera.StoredStart | src/drivers/qhy_alpaca_camera.cpp:903-913 | a start that fits a `uint32_t`, divided by the binning, is stored unchanged and names the binned pixel the start falls in |
| QhyCamera.Binned | src/drivers/qhy_alpaca_camera.cpp:486-512 | an unbinned coordinate divided by the binning is the binned coordinate it falls in |
| QhyCamera.BinnedFrameFits | src/drivers/qhy_alpaca_camera.cpp:486-512 | after binning, the binned start plus the binned width never passes the binned end of the effective area |
| QhyCamera.SmallestBin | src/drivers/qhy_alpaca_camera.cpp:418-427 | the maximum binning the driver finds is 1 exactly when no mode is available, and otherwise the smallest available mode, because each available mode from 8 down to 2 overwrites the last |
| QhyCamera.Reshape | src/drivers/qhy_alpaca_camera.cpp:688-727 | the image built from a buffer has `w` rows of `h` pixels each |
| QhyCamera.ReshapeCovers | src/drivers/qhy_alpaca_camera.cpp:688-727 | every element of the first w·h of the buffer is a pixel of the image, at row k mod w and column k div w |
| QhyCamera.ReshapeAt | src/drivers/qhy_alpaca_camera.cpp:688-727 | pixel (r, c) of the image is element r + c·w of the buffer |
| QhyCamera.ReshapeRows | src/drivers/qhy_alpaca_camera.cpp:688-727 | the nested loops of `image_2d_8bpp` and `image_2d_16bpp` build exactly `Reshape` of the buffer |
| QhyCamera.Camera.constructor | src/drivers/qhy_alpaca_camera.cpp:441-456 | a new camera is idle and disconnected, with binning 1, maximum binning 1, empty geometry, no gain, no exposure yet and no cooler control |
| QhyCamera.Camera.UseEffectiveArea | src/drivers/qhy_alpaca_camera.cpp:199-243 | with overscan excluded, a reported effective width of 0 uses the whole chip from (0, 0); otherwise the effective area becomes the image size and the sub-frame; either way the width and maximum width are the effective ones |
| QhyCamera.Camera.DetermineMaxBin | src/drivers/qhy_alpaca_camera.cpp:418-427 | the maximum binning becomes `SmallestBin` of the available modes, and the binning invariant is kept |
| QhyCamera.Camera.SetConnected | src/drivers/qhy_alpaca_camera.cpp:476-480 | `set_connected` sets the flag and returns 0 |
| QhyCamera.Camera.SetBinX | src/drivers/qhy_alpaca_camera.cpp:486-514 | the current binning succeeds with no change; a binning outside 1 … max or refused by the SDK returns -1 with no change; otherwise both axes take it and the sub-frame becomes the effective area divided by it |
| QhyCamera.Camera.SetNumX | src/drivers/qhy_alpaca_camera.cpp:842-858 | a width above the maximum is INVALID_VALUE, one the SDK refuses is DRIVER_ERROR, both leaving the width; otherwise it is stored as a `uint32_t` and, when not negative, stays within the maximum |
| QhyCamera.Camera.SetNumY | src/drivers/qhy_alpaca_camera.cpp:860-875 | the same over the height |
| QhyCamera.Camera.SetStartX | src/drivers/qhy_alpaca_camera.cpp:903-913 | a start beyond the effective width is INVALID_VALUE with no change; otherwise the start shifted by the effective origin and divided by the binning is stored, naming the binned pixel the shifted start falls in |
| QhyCamera.Camera.SetStartY | src/drivers/qhy_alpaca_camera.cpp:918-929 | the same over the height |
| QhyCamera.Camera.SetGain | src/drivers/qhy_alpaca_camera.cpp:1148-1162 | a gain outside the SDK's range is INVALID_VALUE with no change; inside it the gain changes exactly when the SDK accepts it (0), otherwise -1; a stored gain is always in range |
| QhyCamera.Camera.SetOffset | src/drivers/qhy_alpaca_camera.cpp:1164-1176 | the same pattern over the offset range |
| QhyCamera.Camera.ImageReady | src/drivers/qhy_alpaca_camera.cpp:779-788 | an image is ready exactly when the camera is idle and an exposure has been started |
| QhyCamera.Camera.LastExposureDuration | src/drivers/qhy_alpaca_camera.cpp:798-803 | INVALID_OPERATION until an exposure has been started, then the recorded duration |
| QhyCamera.Camera.StartExposure | src/drivers/qhy_alpaca_camera.cpp:990-1028 | the camera is exposing and the duration recorded whatever the SDK says, so no image is ready; the result is 0 exactly when the SDK accepts the exposure time |
| QhyCamera.Camera.ReadImage | src/drivers/qhy_alpaca_camera.cpp:742-776 | the buffer and size are those the SDK wrote; the camera ends idle on success and in error otherwise, with an image ready exactly on success after a started exposure |
| QhyCamera.Camera.AbortExposure | src/drivers/qhy_alpaca_camera.cpp:931-945 | idle and 0 on success, error and -1 otherwise; after a successful abort the previous image counts as ready whenever an exposure was started |
| QhyCamera.Camera.StopExposure | src/drivers/qhy_alpaca_camera.cpp:1031-1040 | 0 exactly when the SDK cancels the exposure, -1 otherwise |
| QhyCamera.Camera.CoolerOn | src/drivers/qhy_alpaca_camera.cpp:567-577 | NOT_IMPLEMENTED without cooler control; otherwise whether the cooler is meant to run |
| QhyCamera.Camera.SetCoolerOn | src/drivers/qhy_alpaca_camera.cpp:604-634 | NOT_IMPLEMENTED with no change without cooler control; otherwise the cooler is switched as asked; switching on returns 0 and switching off returns 0 only when the SDK accepts zero power |
| QhyCamera.Camera.Image2d8 | src/drivers/qhy_alpaca_camera.cpp:688-705 | `image_2d_8bpp` is the buffer reshaped into `imageW` rows of `imageH` bytes |
| QhyCamera.Camera.Image2d16 | src/drivers/qhy_alpaca_camera.cpp:707-727 | `image_2d_16bpp` is empty for an empty buffer and otherwise the little-endian 16-bit pixels reshaped the same way |
| QhyCamera.Camera.Image2d | src/drivers/qhy_alpaca_camera.cpp:729-735 | `image_2d` uses 8-bit pixels exactly when the bit depth is 8, and 16-bit pixels otherwise |
| HubServer.Lowercase | src/server/alpaca_hub_server.cpp:40-46 | every upper-case ASCII letter is lowered and every other character kept, length unchanged |
| HubServer.LowercaseIdempotent | src/server/alpaca_hub_server.cpp:40-46 | lowering a lowered name changes nothing |
| HubServer.LowerKeys | src/server/alpaca_hub_server.cpp:109-115 | the loop copying the query into a `std::map` under lowered names yields exactly `QueryMap` |
| HubServer.QueryMapKeys | src/server/alpaca_hub_server.cpp:109-115 | a name is in the copied map if and only if some query pair's name lowers to it |
| HubServer.QueryMapLastWins | src/server/alpaca_hub_server.cpp:109-115 | the value kept for a name is that of the last pair whose name lowers to it |
| HubServer.FirstValue | src/server/alpaca_hub_server.cpp:200-211 | a PUT body lookup finds a value exactly when some pair has exactly that name, and the value is one of that name's |
| HubServer.ParseUint32OfDecimal | src/server/alpaca_hub_server.cpp:123 | a 32-bit number written in decimal is read back by the `uint32_t` cast |
| HubServer.ParseIntOfSigned | src/server/alpaca_hub_server.cpp:303 | a C `int` written in decimal is read back by the `int` cast |
| HubServer.Compare | src/server/alpaca_hub_server.cpp:878 | the string comparison yields -1, 0 or 1, and 0 exactly for equal strings |
| HubServer.CompareAntisymmetric | src/server/alpaca_hub_server.cpp:878 | swapping the operands of the comparison flips its sign |
| HubServer.ListedAt | src/server/alpaca_hub_server.cpp:572-586 | the i-th device of a type is listed after all devices of the earlier types, with device number i, its type, name and unique id |
| HubServer.GetClientId | src/server/alpaca_hub_server.cpp:121-127 | a GET reply carries `ClientID` exactly when the lowered `clientid` entry parses as a `uint32_t`, and then holds its value |
| HubServer.GetEchoesAnyCase | src/server/alpaca_hub_server.cpp:109-127 | a client number sent under any spelling of `clientid` is echoed, the last such pair deciding |
| HubServer.GetWithoutClientId | src/server/alpaca_hub_server.cpp:109-127 | with no name lowering to `clientid` the reply has no `ClientID` |
| HubServer.PutEchoesExactName | src/server/alpaca_hub_server.cpp:200-205 | a PUT reply carries `ClientID` exactly when a body pair named exactly `ClientID` exists and its first value parses |
| HubServer.ManagementNeedsClientId | src/server/alpaca_hub_server.cpp:562-570 | `configureddevices` drops a valid client transaction number when the client number does not parse, where a device GET keeps it |
| HubServer.ListDevices | src/server/alpaca_hub_server.cpp:572-586 | the nested loops build the device list type by type, each type's devices numbered from 0 |
| HubServer.AppendNumbered | src/server/alpaca_hub_server.cpp:574-585 | the inner loop appends one type's devices with numbers 0, 1, 2, … in registration order |
| HubServer.Hub.constructor | src/server/alpaca_hub_server.hpp:68-72 | the hub starts with its device map and the server transaction counter at 1, nothing issued |
| HubServer.Hub.IssuedIncreasing | src/server/alpaca_hub_server.hpp:72-79 | before the counter wraps, every server transaction number handed out is larger than all earlier ones |
| HubServer.Hub.NextTransaction | src/server/alpaca_hub_server.hpp:76-79 | returns the counter and advances it by one with `uint32_t` wrap-around |
| HubServer.Hub.GetCommon | src/server/alpaca_hub_server.cpp:48-146 | unknown device type or missing device: 400 with its message and no number drawn; otherwise the device is attached and the reply holds error 0, the parsed client numbers and a fresh server number |
| HubServer.Hub.PutCommon | src/server/alpaca_hub_server.cpp:148-215 | the same refusals; otherwise a fresh server number, error 0, and the client numbers from the first exactly-named body pairs |
| HubServer.Hub.ConfiguredDevices | src/server/alpaca_hub_server.cpp:549-594 | draws one server number, echoes the client numbers as the management route does, and lists every device type by type in key order |
| HubServer.DeviceGet | src/server/alpaca_hub_server.cpp:226-257 | wrong interface: 400 "major fault occurred."; else a 200 JSON reply keeping the transaction fields, with `Value` on success and error 0 exactly when the device call succeeded |
| HubServer.ReadBoolean | src/server/alpaca_hub_server.cpp:270-293 | a boolean parameter is accepted only as exactly `True` or `False`, and each reads as its value |
| HubServer.ReadInt | src/server/alpaca_hub_server.cpp:302-304 | a C `int` written in decimal reaches the device unchanged |
| HubServer.ReadUnsigned | src/server/alpaca_hub_server.cpp:306-308 | a `uint32_t` written in decimal reaches the device unchanged |
| HubServer.ReadEnum | src/server/alpaca_hub_server.cpp:314-323 | an enumeration value written in decimal is read by `atoi` unchanged |
| HubServer.PutHandler | src/server/alpaca_hub_server.cpp:259-387 | 400 with INVALID_VALUE exactly when the parameter cannot be read; otherwise 200, the reply unchanged when the device returns 0 and a non-zero error otherwise, transaction fields kept |
| HubServer.JsonClientSentBytes | src/server/alpaca_hub_server.cpp:878-898 | as written, a client accepting only `application/json` is sent ImageBytes |
| HubServer.WildcardClientSentJson | src/server/alpaca_hub_server.cpp:878-898 | as written, a client listing ImageBytes after `*/*` is sent JSON |
| HubServer.AcceptDefault | src/server/alpaca_hub_server.cpp:873-878 | with no Accept header, or one naming ImageBytes alone, both tests choose ImageBytes |
| HubServer.ConcatAt | src/server/alpaca_hub_server.cpp:915-922 | rows of h pixels give a buffer of rows·h pixels with pixel (r, c) at r·h + c |
| HubServer.FlattenRows | src/server/alpaca_hub_server.cpp:915-922 | the row-by-row copy yields the rows laid end to end |
| HubServer.FrameSize | src/server/alpaca_hub_server.cpp:902-913 | the ImageBytes header names w rows of h pixels and element type 6 for 8 bits, 8 otherwise |
| HubServer.PayloadPixels8 | src/server/alpaca_hub_server.cpp:902-925 | an 8-bit reply's bytes after the header are the frame's rows end to end |
| HubServer.PayloadPixels16 | src/server/alpaca_hub_server.cpp:929-954 | a 16-bit reply's words after the header are the frame's rows end to end |
| HubServer.FlatPixel | src/server/alpaca_hub_server.cpp:915-922 | pixel (r, c) of the flattened frame is element r + c·w of the camera's buffer |
| HubServer.ImageArray | src/server/alpaca_hub_server.cpp:871-966 | no image: INVALID_OPERATION; otherwise JSON with `Type` and `Rank` 2, or the ImageBytes payload when the client asks for it and its numbers and a non-empty frame exist |
| HubServer.FrameImage | src/server/alpaca_hub_server.cpp:898-955 | a frame has an ImageBytes reply exactly when it has a row; the reply carries both transaction numbers, error 0 and rank 2, element type 6 with 8-bit and 8 with 16-bit pixels, the row count and first row's length as dimensions, and the rows end to end as pixels |
| HubServer.EncodeFrame | src/server/alpaca_hub_server.cpp:898-955 | the ImageBytes branch produces exactly the encoded reply for the frame |
| HubServer.RequestsBytesWhenListed | src/server/alpaca_hub_server.cpp:873-898 | under the intended test, a header that lists `application/imagebytes` anywhere, before or after other types, gets ImageBytes |
| Cli.HelpIndex | src/main.cpp:87-91 | the first pass stops at the first `-h`: every argument before that position differs from `-h` |
| Cli.ParseArguments | src/main.cpp:84-125 | the two loops yield the option map of both passes, help exactly when `-h` is given, and the switches `-cw`, `-ac`, `-ov`, `-gv` exactly when present |
| Cli.FirstPassKeys | src/main.cpp:87-97 | the first pass stores only names that have an argument after them |
| Cli.SecondPassKeys | src/main.cpp:103-125 | for every name but `-gv` the second pass stores it exactly where an argument follows it |
| Cli.SecondPassLast | src/main.cpp:103-125 | the value the second pass leaves for a name is the argument after its last such occurrence |
| Cli.CliLookup | src/main.cpp:86-125 | an option other than `-gv` is in the map if and only if some occurrence of it has an argument after it |
| Cli.CliLookupValue | src/main.cpp:86-125 | such an option maps to the argument after its last occurrence |
| Cli.DiscoveryFlagIgnored | src/main.cpp:205-211 | as written, `-d` as the last argument leaves discovery running although it is documented to disable it |
| Cli.DiscoveryAgrees | src/main.cpp:205-211 | the code and the documented `-d` agree whenever `-d` is absent or followed by another argument |
| Cli.StartupOf | src/main.cpp:127-211 | help exactly when `-h` is given; a bad thread count exactly when there is no `-h` and the map's `-t` value is not a decimal `int`; otherwise the switches as present, the levels of `-l`, four threads without `-t`, and discovery as documented for `-d` |
| Cli.DefaultStartup | src/main.cpp:170-211 | with no arguments the hub runs discovery with four threads, the info level and no switch |
| Cli.HelpWins | src/main.cpp:127-168 | `-h` anywhere shows the help and starts nothing |
| Cli.ThreadCount | src/main.cpp:195-203 | the last `-t` followed by a decimal `int` sets the thread pool size to it |
| Cli.ThreadCountDefault | src/main.cpp:195-203 | without a `-t` that has an argument after it, the pool has 4 threads |
| Cli.LogLevel | src/main.cpp:170-193 | `-l 2` sets debug, `-l 3` trace with the HTTP logger at debug, `-l 4` the HTTP logger at trace |

## Left out

- Serial ports, the QHY SDK and the HTTP transport are not modelled. Every reply from a device or the SDK is a parameter of the method that receives it. The same goes for every success flag. Port scans (`serial_devices`) and `send_command` framing are outside the model.
- Threads, mutexes, timers and the polling loops are left out. One pass of a polling loop is a method (`FilterWheel.StandaloneWheel.Poll`, `Ppba.PowerBox.UpdateProperties`, `FocusCube3.FocusCube.UpdateProperties`, `PrimaLuce.EsattoFocuser.UpdateProperties`). The loop around it, the exposure and cooler threads, and the UDP discovery thread are not modelled.
- Logging (spdlog, the HTTP logger) is left out. The log levels chosen on the command line are modelled as values.
- Floating-point code is left out: the `double` constructors of the OnStep records and `as_decimal`. `cmd_set_moving_speed_precise` and `cmd_set_guide_rate` (src/drivers/onstep_commands.cpp:217-222, 282-287) format doubles, so they are left out as well. So are exposure-time conversions and cooler power scaling. PPBA and PrimaLuce readings are exact decimals or reals, not IEEE doubles.
- JSON arrays, restinio routing, `parse_query` and URL decoding are left out. A query or body is a sequence of name/value pairs. `cast_to<double>` for PUT parameters is not modelled, and no PUT kind reads a double.
- Exception messages are modelled only where a reply carries them as fixed text. Elsewhere a message is a parameter.
- `device_map[type]` creating an empty entry for an unknown type is not modelled: the whitelist refuses such types first.
- The PUT pre-handler's `device_num < 0` test is not modelled: the device number is unsigned, so the test never holds.
- `-p` is not modelled: `main` prints it in the help but never reads it.
- `std::tolower` is modelled on ASCII letters only. Other characters are kept as they are.
- QhyCamera.Camera.Image2d8: requires the buffer to hold w·h pixels. With fewer, the source reads past the buffer (undefined behaviour).
- QhyCamera.Camera.Image2d16: requires the same of its 16-bit words, except for the empty buffer the source returns as is.
- HubServer.ImageArray: an ImageBytes reply whose `ClientTransactionID` is missing, or whose frame is empty, is modelled as `Fault`. The source calls `std::get` on a missing variant there, or reads row 0 of an empty frame.
- HubServer.FrameImage: an empty frame has no ImageBytes encoding, for the same reason.
- FilterWheel.StandaloneWheel.SetPosition: uses the corrected range check (`ValidPosition`) of the filter-wheel Findings row. With an empty name table the source accepts every position and sends it to the wheel; the model refuses it with INVALID_VALUE. The as-written check is `FilterWheel.AcceptedAsWritten`.
- HubServer.ImageArray: chooses ImageBytes with the corrected test (`RequestsBytes`) of the Accept Findings row, not the source's `compare(...) > -1`. The as-written test is modelled separately, with the clients it misroutes.
- Cli.StartupOf: decides discovery with the corrected `-d` test (`RunDiscovery`) of the command-line Findings row, not the source's lookup of `-d` in the option map. A trailing `-d` therefore stops discovery in the model but not in the source.
- Ppba.ValueCommand: the value is written in fixed-point form only. For a nonzero magnitude below 1e-4, such as a PWM level of 0.00001, fmt's `{}` writes exponent form, so the source sends and expects `P3:1e-05` where the model has `P3:0.00001`. The same holds for dew currents, the autodew level and `DewB`. `atof` of exponent form is not modelled either.
- PrimaLuce.EsattoFocuser.SetConnected: without an ARCO the source never creates `_rotator`, and disconnecting a connected focuser still calls `_rotator->set_connected(false)` on an empty `shared_ptr` (src/drivers/primaluce_focuser_rotator.cpp:431-434, 571-572). The model skips the rotator when it is null and returns 0.
- QhyCamera.Camera.Image2d8: with `imageW == 0` the source still evaluates `image_2d_data[0].size()` for its trace line, which is undefined behaviour; the model returns no rows. The same holds for QhyCamera.Camera.Image2d16 with a non-empty buffer.
- PrimaLuce.ArcoRotator.Move, PrimaLuce.ArcoRotator.MoveAbsolute and PrimaLuce.ArcoRotator.MoveMechanical: the MOT2 move builders are called without a unit (src/drivers/primaluce_focuser_rotator.cpp:143, 151, 165), and no header among the source files declares the default. The model assumes the default unit is "DEG" (`PrimaLuce.DefaultUnit`).
- JSON booleans and arrays are not modelled: a JSON value is null, a number, a string or an object, and no request the drivers build carries a boolean.
- OnStepResponses.ParseSddMmAndSdddMm: a reply without '&' is modelled as INVALID_VALUE. The source indexes a piece that does not exist.
- Ppba.ParseStatus, Ppba.ParseMetrics, Ppba.ParsePower and Ppba.ParseAggressiveness: replies with too few fields are DRIVER_ERROR. The source reads fields past the end. The same holds for FocusCube3.ParseStatus.
- The `primaluce_kv_node` tree is modelled on values. Shared `shared_ptr` children are not modelled, nor are edits made through an alias after a child is attached.
- The Esatto constructor's port opening and the rotator's discovery over serial are left out. Only the resulting state is modelled.
- For the camera, SDK initialisation beyond the effective area, the maximum bin and the gain, offset and bit-depth limits is left out. So are `has_shutter` and `last_exposure_start_time`. The constructor leaves those limits arbitrary.
- OnStepCommands.QueryText: distinct queries send distinct texts, but this is not proved.
- The browser focuser widget and the older duplicate server and focuser sources are not part of this model.

## Findings

| source | as written | input that shows it | evidently intended | confidence | as-written member | corrected member |
|---|---|---|---|---|---|---|
| src/drivers/zwo_am5_telescope.cpp:47-51 | `cmd_set_timezone` formats `:SG` with the sign, hours and minutes, and ends without '#' | sign '+', 5 h, 30 min gives `:SG+05:30`, with no terminator; the `shh_mm` parser rejects its offset text | the command ends with '#', like every other setter and like OnStep's `:SG+05:30#` | not executed | ZwoCommands.TimezoneAsWrittenRejected | ZwoCommands.TimezoneTerminatedReadBack |
| src/drivers/qhy_alpaca_filterwheel_standalone.cpp:251 | `position > (_names.size() - 1)` subtracts in `size_t` | with no names, `size() - 1` wraps to 2^64 - 1, so position 3 passes the check and is sent to the wheel | a position is valid only when it names a filter | not executed | FilterWheel.AcceptedAsWrittenOfEmpty | FilterWheel.ValidPositionAgrees |
| src/drivers/primaluce_focuser_rotator.cpp:355-362 | `cmd_stop_mot2_cmd`, commented as a stop with deceleration, sends `MOT_ABORT` | the stop request equals the abort request from `cmd_abort_mot2_cmd` | send `MOT_STOP`, as the focuser's `cmd_stop_mot1_cmd` does | not executed | PrimaLuce.StopMot2AsWrittenAborts | PrimaLuce.StopMot2Decelerates |
| src/server/alpaca_hub_server.cpp:878-898 | ImageBytes is chosen when `accept.compare("application/imagebytes") > -1`, a lexicographic order test | `Accept: application/json` sorts after it and gets ImageBytes; `Accept: */*, application/imagebytes` sorts before it and gets JSON | send ImageBytes when the client lists `application/imagebytes` | not executed | HubServer.JsonClientSentBytes | HubServer.RequestsBytesWhenListed |
| src/main.cpp:205-211 | `-d` disables discovery only when it is a key of the option map, that is, when another argument follows it | `AlpacaHub -d` or `AlpacaHub -ac -d` keeps discovery running | `-d` anywhere disables discovery, as the help text says | not executed | Cli.DiscoveryFlagIgnored | Cli.DiscoveryAgrees |
