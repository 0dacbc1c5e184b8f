/** What the serial device drivers share: the `split` helper that cuts a
    status reply into ':'-separated fields, the `uint32_t` fields those
    replies are read into, and the values of a driver's `details()` map. */
module Devices {
  import opened Text
  import OnStepResponses

  /** A driver field declared `uint32_t`. */
  newtype uint32 = n: int | 0 <= n < 0x1_0000_0000

  /** Storing an `int` into a `uint32_t`: the value modulo 2^32. */
  function Wrap32(n: int): (r: uint32)
    ensures 0 <= n < 0x1_0000_0000 ==> r as int == n
    ensures (n - r as int) % 0x1_0000_0000 == 0
  {
    (n % 0x1_0000_0000) as uint32
  }

  /** A value of a `details()` map (the hub's `device_variant_t`), as the
      drivers here fill it. */
  datatype Variant =
    | Flag(flag: bool)
    | Whole(whole: int)
    | Number(number: real)
    | Text(text: string)
    | Texts(texts: seq<string>)
    | Numbers(numbers: seq<real>)
    | Wholes(wholes: seq<int>)

  /** `split(input, sep)` over a one-character pattern: the tokens of a
      `std::sregex_token_iterator` with submatch -1. Every piece before a
      separator is a token; the text after the last separator is a token
      only when it is not empty; without any separator the whole input,
      even an empty one, is the single token. */
  function Fields(s: string, sep: char): (r: seq<string>)
    ensures |r| >= 1
    ensures forall i :: 0 <= i < |r| ==> sep !in r[i]
    ensures OnStepResponses.Join(r, sep) == s || OnStepResponses.Join(r, sep) + [sep] == s
  {
    var p := OnStepResponses.Split(s, sep);
    OnStepResponses.SplitChunks(s, sep);
    OnStepResponses.JoinSplit(s, sep);
    if |p| >= 2 && p[|p| - 1] == [] then
      JoinDropEmpty(p, sep);
      p[..|p| - 1]
    else
      p
  }

  /** A final empty chunk contributes only its separator to the joined text. */
  lemma {:induction false} JoinDropEmpty(p: seq<string>, sep: char)
    requires |p| >= 2 && p[|p| - 1] == []
    ensures OnStepResponses.Join(p[..|p| - 1], sep) + [sep] == OnStepResponses.Join(p, sep)
    decreases |p|
  {
    if |p| > 2 {
      var t := p[1..];
      JoinDropEmpty(t, sep);
      assert p[..|p| - 1][1..] == t[..|t| - 1];
    }
  }

  /** Fields joined with the separator are split back into the same fields,
      provided none holds the separator and the last is not empty (or is
      the only one). */
  lemma FieldsOfJoin(parts: seq<string>, sep: char)
    requires |parts| >= 1
    requires forall i :: 0 <= i < |parts| ==> sep !in parts[i]
    requires |parts| >= 2 ==> parts[|parts| - 1] != []
    ensures Fields(OnStepResponses.Join(parts, sep), sep) == parts
  {
    var s := OnStepResponses.Join(parts, sep);
    OnStepResponses.SplitJoin(parts, sep);
    assert OnStepResponses.Split(s, sep) == parts;
    assert !(|parts| >= 2 && parts[|parts| - 1] == []);
  }

  /** A trailing separator does not add a field. */
  lemma FieldsOfTerminated(parts: seq<string>, sep: char)
    requires |parts| >= 1
    requires forall i :: 0 <= i < |parts| ==> sep !in parts[i]
    ensures Fields(OnStepResponses.Join(parts, sep) + [sep], sep) == parts
  {
    var withEmpty := parts + [[]];
    assert withEmpty[..|parts|] == parts;
    JoinDropEmpty(withEmpty, sep);
    OnStepResponses.SplitJoin(withEmpty, sep);
  }
}
