/** The two text notations the LX200/OnStep code is written in, given one
    meaning each.

    A `fmt` format string with its arguments bound is a sequence of `Piece`s:
    literal characters, a sign character (`{}` of a `char`) and zero-padded
    integer fields (`{:#0Nd}`).

    An anchored regular expression such as `^([+-])([0-9]{2})\*([0-9]{2})#` is a
    sequence of `Tok`s: a literal character, a sign class `[+-]` and a run of
    exactly N digits `[0-9]{N}`; each sign class and each digit run is a capture
    group. `std::regex_search` with a leading `^` matches a PREFIX of its input,
    so text after the final token is ignored. A digit group's value is `atoi`
    of its digits. */
module Template {
  import opened Text
  import opened Wrappers

  datatype Piece = Lit(c: char) | Sign(c: char) | Field(n: int, w: nat)

  datatype Tok = Exactly(c: char) | AnySign | Digits(w: nat)

  datatype Group = SignGroup(c: char) | NumGroup(n: int)

  function RenderPiece(p: Piece): string
  {
    match p
    case Lit(c) => [c]
    case Sign(c) => [c]
    case Field(n, w) => Pad(n, w)
  }

  /** The text `fmt::format` produces for the bound format string. */
  function Render(t: seq<Piece>): string
  {
    if t == [] then [] else RenderPiece(t[0]) + Render(t[1..])
  }

  function ShapeOfPiece(p: Piece): Tok
  {
    match p
    case Lit(c) => Exactly(c)
    case Sign(_) => AnySign
    case Field(_, w) => Digits(w)
  }

  /** The regular expression that recognises the rendering of `t`. */
  function ShapeOf(t: seq<Piece>): (s: seq<Tok>)
    ensures |s| == |t|
  {
    if t == [] then [] else [ShapeOfPiece(t[0])] + ShapeOf(t[1..])
  }

  function GroupOf(p: Piece): seq<Group>
  {
    match p
    case Lit(_) => []
    case Sign(c) => [SignGroup(c)]
    case Field(n, _) => [NumGroup(n)]
  }

  /** The capture groups a match of `ShapeOf(t)` against `Render(t)` yields. */
  function GroupsOf(t: seq<Piece>): seq<Group>
  {
    if t == [] then [] else GroupOf(t[0]) + GroupsOf(t[1..])
  }

  function TokWidth(k: Tok): nat
  {
    match k
    case Exactly(_) => 1
    case AnySign => 1
    case Digits(w) => w
  }

  /** Number of characters a match of `shape` consumes. */
  function Width(shape: seq<Tok>): nat
  {
    if shape == [] then 0 else TokWidth(shape[0]) + Width(shape[1..])
  }

  predicate WellFormed(shape: seq<Tok>)
  {
    forall i :: 0 <= i < |shape| ==> (shape[i].Digits? ==> shape[i].w >= 1)
  }

  predicate PieceInRange(p: Piece)
  {
    match p
    case Lit(_) => true
    case Sign(c) => c == '+' || c == '-'
    case Field(n, w) => 1 <= w && 0 <= n < Pow10(w)
  }

  /** Every sign is '+' or '-' and every field fits its width without a sign. */
  predicate InRange(t: seq<Piece>)
  {
    forall i :: 0 <= i < |t| ==> PieceInRange(t[i])
  }

  /** The groups one token captures at the start of `s`, if it matches there. */
  function MatchHead(k: Tok, s: string): (r: Option<seq<Group>>)
    ensures r.Some? ==> |s| >= TokWidth(k)
  {
    match k
    case Exactly(c) =>
      if |s| > 0 && s[0] == c then Some([]) else None
    case AnySign =>
      if |s| > 0 && (s[0] == '+' || s[0] == '-') then Some([SignGroup(s[0])]) else None
    case Digits(w) =>
      if |s| >= w && AllDigits(s[..w]) then Some([NumGroup(Atoi(s[..w]))]) else None
  }

  /** Anchored prefix match of `shape` against `s`, with the capture groups. */
  function Match(shape: seq<Tok>, s: string): Option<seq<Group>>
  {
    if shape == [] then Some([])
    else
      var h :- MatchHead(shape[0], s);
      var m :- Match(shape[1..], s[TokWidth(shape[0])..]);
      Some(h + m)
  }

  /** The piece a token becomes when the next arguments are `g`; a missing or
      mistyped argument is read as '+' or 0. */
  function Head(k: Tok, g: seq<Group>): (p: Piece)
    ensures ShapeOfPiece(p) == k
  {
    match k
    case Exactly(c) => Lit(c)
    case AnySign => Sign(if g != [] && g[0].SignGroup? then g[0].c else '+')
    case Digits(w) => Field(if g != [] && g[0].NumGroup? then g[0].n else 0, w)
  }

  /** The arguments left once a token has taken its own. */
  function Consume(k: Tok, g: seq<Group>): seq<Group>
  {
    if k.Exactly? || g == [] then g else g[1..]
  }

  /** The bound format string whose rendering a successful match consumed. */
  function Fill(shape: seq<Tok>, g: seq<Group>): seq<Piece>
  {
    if shape == [] then []
    else [Head(shape[0], g)] + Fill(shape[1..], Consume(shape[0], g))
  }

  /** Filling a shape and reading the shape back off gives the shape. */
  lemma {:induction false} ShapeOfFill(shape: seq<Tok>, g: seq<Group>)
    ensures ShapeOf(Fill(shape, g)) == shape
  {
    if shape != [] {
      ShapeOfFill(shape[1..], Consume(shape[0], g));
      var t := Fill(shape, g);
      assert t[0] == Head(shape[0], g) && t[1..] == Fill(shape[1..], Consume(shape[0], g));
    }
  }

  lemma ConsPiece(p: Piece, u: seq<Piece>)
    ensures ([p] + u)[0] == p && ([p] + u)[1..] == u
    ensures Render([p] + u) == RenderPiece(p) + Render(u)
    ensures GroupsOf([p] + u) == GroupOf(p) + GroupsOf(u)
  {
    assert ([p] + u)[1..] == u;
  }

  lemma {:induction false} RenderAppend(a: seq<Piece>, b: seq<Piece>)
    ensures Render(a + b) == Render(a) + Render(b)
  {
    if a == [] {
      assert a + b == b;
    } else {
      assert (a + b)[0] == a[0] && (a + b)[1..] == a[1..] + b;
      RenderAppend(a[1..], b);
    }
  }

  lemma {:induction false} GroupsAppend(a: seq<Piece>, b: seq<Piece>)
    ensures GroupsOf(a + b) == GroupsOf(a) + GroupsOf(b)
  {
    if a == [] {
      assert a + b == b;
    } else {
      assert (a + b)[0] == a[0] && (a + b)[1..] == a[1..] + b;
      GroupsAppend(a[1..], b);
    }
  }

  /** Two runs of digits of the same length and value are the same text. */
  lemma {:induction false} DigitsDetermined(a: string, b: string)
    requires AllDigits(a) && AllDigits(b) && |a| == |b|
    requires ValueOf(a) == ValueOf(b)
    ensures a == b
  {
    if a != [] {
      var k := |a| - 1;
      var x, y := ValueOf(a[..k]), ValueOf(b[..k]);
      var dx, dy := DigitValue(a[k]), DigitValue(b[k]);
      assert x * 10 + dx == y * 10 + dy;
      assert dx == dy && x == y;
      DigitsDetermined(a[..k], b[..k]);
      assert a[k] == b[k];
      assert a == a[..k] + [a[k]] && b == b[..k] + [b[k]];
    }
  }

  /** A field rendered in range is `w` digits whose `atoi` is the value, and a
      run of `w` digits re-renders to itself. */
  lemma FieldDigits(n: int, w: nat)
    requires 1 <= w && 0 <= n < Pow10(w)
    ensures |Pad(n, w)| == w && AllDigits(Pad(n, w)) && Atoi(Pad(n, w)) == n
  {
    PadNatFacts(n, w);
    AtoiOfDigits(Pad(n, w));
  }

  lemma DigitsRerender(d: string)
    requires |d| >= 1 && AllDigits(d)
    ensures 0 <= Atoi(d) < Pow10(|d|) && Pad(Atoi(d), |d|) == d
  {
    AtoiOfDigits(d);
    var n := ValueOf(d);
    PadNatFacts(n, |d|);
    DigitsDetermined(Pad(n, |d|), d);
  }

  /** One piece in range, rendered ahead of any text, is matched by its own
      token with its own group. */
  lemma PieceMatch(p: Piece, tail: string)
    requires PieceInRange(p)
    ensures |RenderPiece(p)| == TokWidth(ShapeOfPiece(p))
    ensures MatchHead(ShapeOfPiece(p), RenderPiece(p) + tail) == Some(GroupOf(p))
    ensures (RenderPiece(p) + tail)[TokWidth(ShapeOfPiece(p))..] == tail
  {
    var s := RenderPiece(p) + tail;
    match p
    case Lit(c) => {
      assert s[1..] == tail;
    }
    case Sign(c) => {
      assert s[1..] == tail;
    }
    case Field(n, w) => {
      FieldDigits(n, w);
      assert s[..w] == Pad(n, w) && s[w..] == tail;
    }
  }

  /** A format string in range renders to as many characters as its shape
      matches. */
  lemma {:induction false} RenderWidth(t: seq<Piece>)
    requires InRange(t)
    ensures |Render(t)| == Width(ShapeOf(t))
  {
    if t != [] {
      TailInRange(t);
      RenderWidth(t[1..]);
      PieceMatch(t[0], []);
      RenderCons(t);
    }
  }

  /** The first piece of a format string, and the rest. */
  lemma RenderCons(t: seq<Piece>)
    requires t != []
    ensures Render(t) == RenderPiece(t[0]) + Render(t[1..])
    ensures ShapeOf(t)[0] == ShapeOfPiece(t[0]) && ShapeOf(t)[1..] == ShapeOf(t[1..])
    ensures Width(ShapeOf(t)) == TokWidth(ShapeOfPiece(t[0])) + Width(ShapeOf(t[1..]))
    ensures GroupsOf(t) == GroupOf(t[0]) + GroupsOf(t[1..])
  {
  }

  lemma AppendAssoc<T>(a: seq<T>, b: seq<T>, c: seq<T>)
    ensures (a + b) + c == a + (b + c)
  {
  }

  /** One step of an anchored match: the head token, then the rest. */
  lemma MatchStep(shape: seq<Tok>, s: string, h: seq<Group>, m: seq<Group>)
    requires shape != [] && MatchHead(shape[0], s) == Some(h)
    requires Match(shape[1..], s[TokWidth(shape[0])..]) == Some(m)
    ensures Match(shape, s) == Some(h + m)
  {
  }

  /** Rendering a format string in range and matching it against its own
      shape gives back the bound values, whatever text follows. */
  lemma {:induction false} MatchRender(t: seq<Piece>, rest: string)
    requires InRange(t)
    ensures Match(ShapeOf(t), Render(t) + rest) == Some(GroupsOf(t))
  {
    if t != [] {
      var p, u := t[0], t[1..];
      var tail := Render(u) + rest;
      TailInRange(t);
      MatchRender(u, rest);
      PieceMatch(p, tail);
      RenderCons(t);
      AppendAssoc(RenderPiece(p), Render(u), rest);
      MatchStep(ShapeOf(t), Render(t) + rest, GroupOf(p), GroupsOf(u));
    }
  }

  lemma PrefixSplit(s: string, w: nat, k: nat)
    requires w + k <= |s|
    ensures s[..w + k] == s[..w] + s[w..][..k]
  {
    assert forall i :: 0 <= i < w + k ==> s[..w + k][i] == (s[..w] + s[w..][..k])[i];
  }

  lemma ConsInRange(p: Piece, t: seq<Piece>)
    requires PieceInRange(p) && InRange(t)
    ensures InRange([p] + t)
  {
    forall i | 0 <= i < |[p] + t| ensures PieceInRange(([p] + t)[i]) {
      if i > 0 { assert ([p] + t)[i] == t[i - 1]; }
    }
  }

  lemma TailInRange(t: seq<Piece>)
    requires t != [] && InRange(t)
    ensures PieceInRange(t[0]) && InRange(t[1..])
  {
    forall i | 0 <= i < |t[1..]| ensures PieceInRange(t[1..][i]) {
      assert t[1..][i] == t[i + 1];
    }
  }

  lemma TailWellFormed(shape: seq<Tok>)
    requires shape != [] && WellFormed(shape)
    ensures WellFormed(shape[1..]) && (shape[0].Digits? ==> shape[0].w >= 1)
  {
    forall i | 0 <= i < |shape[1..]| ensures shape[1..][i].Digits? ==> shape[1..][i].w >= 1 {
      assert shape[1..][i] == shape[i + 1];
    }
  }

  /** What one token matched is the rendering, in range, of the piece its
      groups fill in, and the token takes exactly those groups. */
  lemma HeadPrefix(k: Tok, s: string, h: seq<Group>, m: seq<Group>)
    requires k.Digits? ==> k.w >= 1
    requires MatchHead(k, s) == Some(h)
    ensures PieceInRange(Head(k, h + m)) && GroupOf(Head(k, h + m)) == h
    ensures RenderPiece(Head(k, h + m)) == s[..TokWidth(k)]
    ensures Consume(k, h + m) == m
  {
    match k
    case Exactly(c) => {
      assert h + m == m;
    }
    case AnySign => {
      assert (h + m)[0] == h[0] && (h + m)[1..] == m;
    }
    case Digits(w) => {
      assert (h + m)[0] == h[0] && (h + m)[1..] == m;
      DigitsRerender(s[..w]);
    }
  }

  /** Whatever a match consumed is the rendering, in range, of the format
      string its capture groups fill in. */
  lemma {:induction false} MatchedPrefix(shape: seq<Tok>, s: string, g: seq<Group>)
    requires WellFormed(shape) && Match(shape, s) == Some(g)
    ensures |s| >= Width(shape)
    ensures InRange(Fill(shape, g)) && GroupsOf(Fill(shape, g)) == g
    ensures Render(Fill(shape, g)) == s[..Width(shape)]
  {
    if shape != [] {
      TailWellFormed(shape);
      var k := shape[0];
      var w := TokWidth(k);
      var h := MatchHead(k, s).value;
      var m := Match(shape[1..], s[w..]).value;
      assert g == h + m;
      MatchedPrefix(shape[1..], s[w..], m);
      HeadPrefix(k, s, h, m);
      var p, u := Head(k, g), Fill(shape[1..], m);
      assert Fill(shape, g) == [p] + u;
      ConsPiece(p, u);
      ConsInRange(p, u);
      PrefixSplit(s, w, Width(shape[1..]));
    }
  }

  // ---------------------------------------------------------------------------
  // Format strings and capture groups

  /** The capturing tokens of a shape in order: one per capture group of a
      regular expression, one per argument of a format string. */
  function Captures(shape: seq<Tok>): (c: seq<Tok>)
    ensures |c| <= |shape|
  {
    if shape == [] then []
    else if shape[0].Exactly? then Captures(shape[1..])
    else [shape[0]] + Captures(shape[1..])
  }

  /** A group a capturing token can produce: a '+' or '-' for a sign class,
      a value with at most `w` digits for a run of `w` digits. */
  predicate GroupFits(k: Tok, x: Group)
  {
    match k
    case Exactly(_) => false
    case AnySign => x.SignGroup? && (x.c == '+' || x.c == '-')
    case Digits(w) => x.NumGroup? && 0 <= x.n < Pow10(w)
  }

  predicate Fits(shape: seq<Tok>, g: seq<Group>)
  {
    |g| == |Captures(shape)| &&
    forall i :: 0 <= i < |g| ==> GroupFits(Captures(shape)[i], g[i])
  }

  /** `fmt::format(shape, args...)`, reading a literal token as literal text,
      `AnySign` as a `{}` placeholder for a `char` and `Digits(w)` as a
      `{:0wd}` placeholder for an `int`. */
  function Format(shape: seq<Tok>, args: seq<Group>): string
  {
    Render(Fill(shape, args))
  }

  lemma FitsTail(shape: seq<Tok>, g: seq<Group>)
    requires shape != [] && Fits(shape, g)
    ensures !shape[0].Exactly? ==> |g| > 0 && GroupFits(shape[0], g[0])
    ensures Fits(shape[1..], Consume(shape[0], g))
  {
    if !shape[0].Exactly? {
      var c := Captures(shape[1..]);
      assert Captures(shape) == [shape[0]] + c;
      assert GroupFits(Captures(shape)[0], g[0]);
      forall i | 0 <= i < |g[1..]| ensures GroupFits(c[i], g[1..][i]) {
        assert Captures(shape)[i + 1] == c[i] && g[1..][i] == g[i + 1];
      }
    }
  }

  /** A piece in range ahead of a format string whose arguments fit. */
  lemma FitsConsPiece(p: Piece, shape: seq<Tok>, g: seq<Group>)
    requires PieceInRange(p) && Fits(shape, g)
    ensures Fits([ShapeOfPiece(p)] + shape, GroupOf(p) + g)
  {
    var s, h := [ShapeOfPiece(p)] + shape, GroupOf(p) + g;
    assert s[0] == ShapeOfPiece(p) && s[1..] == shape;
    if p.Lit? {
      assert Captures(s) == Captures(shape) && h == g;
    } else {
      assert Captures(s) == [s[0]] + Captures(shape);
      forall i | 0 <= i < |h| ensures GroupFits(Captures(s)[i], h[i]) {
        if i > 0 { assert Captures(s)[i] == Captures(shape)[i - 1] && h[i] == g[i - 1]; }
      }
    }
  }

  /** A token filled from arguments whose first one fits it is in range and
      takes exactly that argument. */
  lemma HeadFits(k: Tok, g: seq<Group>)
    requires k.Digits? ==> k.w >= 1
    requires k.Exactly? || (|g| > 0 && GroupFits(k, g[0]))
    ensures PieceInRange(Head(k, g)) && GroupOf(Head(k, g)) + Consume(k, g) == g
  {
    if !k.Exactly? {
      assert g == [g[0]] + g[1..];
    }
  }

  /** Arguments that fit a format string fill it in range, and filling
      keeps them as the capture groups. */
  lemma {:induction false} FillFits(shape: seq<Tok>, g: seq<Group>)
    requires WellFormed(shape) && Fits(shape, g)
    ensures InRange(Fill(shape, g)) && GroupsOf(Fill(shape, g)) == g
  {
    if shape != [] {
      TailWellFormed(shape);
      FitsTail(shape, g);
      var k := shape[0];
      var m := Consume(k, g);
      FillFits(shape[1..], m);
      HeadFits(k, g);
      var p, u := Head(k, g), Fill(shape[1..], m);
      assert Fill(shape, g) == [p] + u;
      ConsPiece(p, u);
      ConsInRange(p, u);
    }
  }

  /** A format string in range has capture groups that fit its shape. */
  lemma {:induction false} FitsOfInRange(t: seq<Piece>)
    requires InRange(t)
    ensures Fits(ShapeOf(t), GroupsOf(t))
  {
    if t != [] {
      TailInRange(t);
      FitsOfInRange(t[1..]);
      FitsConsPiece(t[0], ShapeOf(t[1..]), GroupsOf(t[1..]));
    }
  }

  /** Formatting arguments that fit and matching the text against the same
      shape gives the arguments back as the capture groups. */
  lemma FormatThenMatch(shape: seq<Tok>, g: seq<Group>, rest: string)
    requires WellFormed(shape) && Fits(shape, g)
    ensures |Format(shape, g)| == Width(shape)
    ensures Match(shape, Format(shape, g) + rest) == Some(g)
  {
    FillFits(shape, g);
    RenderWidth(Fill(shape, g));
    MatchRender(Fill(shape, g), rest);
    ShapeOfFill(shape, g);
  }

  /** A successful match consumed exactly the formatting of its capture
      groups, and those fit the shape. */
  lemma MatchThenFormat(shape: seq<Tok>, s: string, g: seq<Group>)
    requires WellFormed(shape) && Match(shape, s) == Some(g)
    ensures Fits(shape, g) && |s| >= Width(shape)
    ensures Format(shape, g) == s[..Width(shape)]
  {
    MatchedPrefix(shape, s, g);
    FitsOfInRange(Fill(shape, g));
    ShapeOfFill(shape, g);
  }

  lemma {:induction false} CapturesAppend(a: seq<Tok>, b: seq<Tok>)
    ensures Captures(a + b) == Captures(a) + Captures(b)
    ensures Width(a + b) == Width(a) + Width(b)
  {
    if a == [] {
      assert a + b == b;
    } else {
      assert (a + b)[0] == a[0] && (a + b)[1..] == a[1..] + b;
      CapturesAppend(a[1..], b);
    }
  }

  lemma WellFormedAppend(a: seq<Tok>, b: seq<Tok>)
    requires WellFormed(a) && WellFormed(b)
    ensures WellFormed(a + b)
  {
    forall i | 0 <= i < |a + b| ensures (a + b)[i].Digits? ==> (a + b)[i].w >= 1 {
      if i >= |a| { assert (a + b)[i] == b[i - |a|]; }
    }
  }

  lemma FillCons(shape: seq<Tok>, g: seq<Group>)
    requires shape != []
    ensures Fill(shape, g) == [Head(shape[0], g)] + Fill(shape[1..], Consume(shape[0], g))
  {
  }

  lemma CapturesTail(a: seq<Tok>, g: seq<Group>)
    requires a != [] && |g| == |Captures(a)|
    ensures a[0].Exactly? || g != []
    ensures |Consume(a[0], g)| == |Captures(a[1..])|
  {
  }

  lemma HeadAppend(k: Tok, ga: seq<Group>, gb: seq<Group>)
    requires k.Exactly? || ga != []
    ensures Head(k, ga + gb) == Head(k, ga)
    ensures Consume(k, ga + gb) == Consume(k, ga) + gb
  {
    if !k.Exactly? {
      assert (ga + gb)[0] == ga[0] && (ga + gb)[1..] == ga[1..] + gb;
    }
  }

  lemma {:induction false} FillAppend(a: seq<Tok>, b: seq<Tok>, ga: seq<Group>, gb: seq<Group>)
    requires |ga| == |Captures(a)|
    ensures Fill(a + b, ga + gb) == Fill(a, ga) + Fill(b, gb)
  {
    if a == [] {
      assert a + b == b && ga + gb == gb;
    } else {
      var k := a[0];
      CapturesTail(a, ga);
      var h, m := Head(k, ga), Consume(k, ga);
      FillAppend(a[1..], b, m, gb);
      TokensAppend(a, b);
      HeadAppend(k, ga, gb);
      FillCons(a + b, ga + gb);
      FillCons(a, ga);
      AppendAssoc([h], Fill(a[1..], m), Fill(b, gb));
    }
  }

  lemma TokensAppend(a: seq<Tok>, b: seq<Tok>)
    requires a != []
    ensures (a + b)[0] == a[0] && (a + b)[1..] == a[1..] + b
  {
  }

  /** A format string split in two formats as its two halves, each with its
      own arguments. */
  lemma FormatAppend(a: seq<Tok>, b: seq<Tok>, ga: seq<Group>, gb: seq<Group>)
    requires |ga| == |Captures(a)|
    ensures Format(a + b, ga + gb) == Format(a, ga) + Format(b, gb)
  {
    FillAppend(a, b, ga, gb);
    RenderAppend(Fill(a, ga), Fill(b, gb));
  }

  lemma FormatTerminated(f: seq<Tok>, g: seq<Group>, c: char)
    requires |g| == |Captures(f)|
    ensures Captures(f + [Exactly(c)]) == Captures(f)
    ensures Width(f + [Exactly(c)]) == Width(f) + 1
    ensures Format(f + [Exactly(c)], g) == Format(f, g) + [c]
  {
    var e := [Exactly(c)];
    CapturesAppend(f, e);
    assert g + [] == g;
    FormatAppend(f, e, g, []);
    assert e[1..] == [];
    assert Fill(e, []) == [Lit(c)];
    assert Render([Lit(c)]) == [c] by { assert [Lit(c)][1..] == []; }
  }

  /** Text formatted from `f`, followed by the terminator `c`, matches the
      regular expression `f` then `c` with the arguments as capture groups. */
  lemma TerminatedRoundTrip(f: seq<Tok>, g: seq<Group>, c: char, rest: string)
    requires WellFormed(f) && Fits(f, g)
    ensures Match(f + [Exactly(c)], Format(f, g) + [c] + rest) == Some(g)
  {
    FormatTerminated(f, g, c);
    WellFormedAppend(f, [Exactly(c)]);
    FormatThenMatch(f + [Exactly(c)], g, rest);
  }

  /** What a terminated match accepts starts with the formatting of its groups
      and the terminator. */
  lemma TerminatedSound(f: seq<Tok>, s: string, g: seq<Group>, c: char)
    requires WellFormed(f) && Match(f + [Exactly(c)], s) == Some(g)
    ensures Fits(f, g) && |s| >= Width(f) + 1
    ensures s[..Width(f) + 1] == Format(f, g) + [c]
  {
    var t := f + [Exactly(c)];
    WellFormedAppend(f, [Exactly(c)]);
    MatchThenFormat(t, s, g);
    CapturesAppend(f, [Exactly(c)]);
    assert Captures([Exactly(c)]) == [];
    assert Captures(t) == Captures(f);
    FormatTerminated(f, g, c);
  }

  /** Text shorter than what a shape consumes does not match it. */
  lemma ShortRejected(shape: seq<Tok>, s: string)
    requires WellFormed(shape) && |s| < Width(shape)
    ensures Match(shape, s).None?
  {
    if Match(shape, s).Some? {
      MatchedPrefix(shape, s, Match(shape, s).value);
    }
  }

  /** A match puts each literal of the shape at its fixed offset. */
  lemma {:induction false} MatchLiteralAt(shape: seq<Tok>, s: string, j: nat)
    requires Match(shape, s).Some? && j < |shape| && shape[j].Exactly?
    ensures Width(shape[..j]) < |s| && s[Width(shape[..j])] == shape[j].c
  {
    if j > 0 {
      var k := TokWidth(shape[0]);
      assert |s| >= k && Match(shape[1..], s[k..]).Some?;
      assert shape[1..][j - 1] == shape[j];
      MatchLiteralAt(shape[1..], s[k..], j - 1);
      assert shape[..j][0] == shape[0] && shape[..j][1..] == shape[1..][..j - 1];
    }
  }

  /** The formatting of fitting arguments has each literal at the same offset. */
  lemma FormatLiteralAt(shape: seq<Tok>, g: seq<Group>, j: nat)
    requires WellFormed(shape) && Fits(shape, g) && j < |shape| && shape[j].Exactly?
    ensures Width(shape[..j]) < |Format(shape, g)|
    ensures Format(shape, g)[Width(shape[..j])] == shape[j].c
  {
    FormatThenMatch(shape, g, []);
    assert Format(shape, g) + [] == Format(shape, g);
    MatchLiteralAt(shape, Format(shape, g), j);
  }

  /** Formatting fitting arguments writes only digits, signs and the
      layout's own literal characters. */
  lemma {:induction false} FormatAvoids(shape: seq<Tok>, g: seq<Group>, c: char)
    requires WellFormed(shape) && Fits(shape, g)
    requires !IsDigit(c) && c != '+' && c != '-' && Exactly(c) !in shape
    ensures c !in Format(shape, g)
  {
    if shape != [] {
      TailWellFormed(shape);
      FitsTail(shape, g);
      assert Exactly(c) !in shape[1..];
      var k := shape[0];
      var m := Consume(k, g);
      FormatAvoids(shape[1..], m, c);
      var p, u := Head(k, g), Fill(shape[1..], m);
      assert Fill(shape, g) == [p] + u;
      ConsPiece(p, u);
      match k
      case Exactly(d) => {
        assert d != c;
      }
      case AnySign => {
        assert p.c == g[0].c;
      }
      case Digits(w) => {
        assert p.n == g[0].n >= 0;
        assert c !in Pad(p.n, w);
      }
    }
  }

  // ---------------------------------------------------------------------------
  // Formatting one token at a time

  /** Text a formatted shape produces on its own, with nothing after it. */
  lemma FormatMatches(shape: seq<Tok>, g: seq<Group>)
    requires WellFormed(shape) && Fits(shape, g)
    ensures |Format(shape, g)| == Width(shape)
    ensures Match(shape, Format(shape, g)) == Some(g)
  {
    FormatThenMatch(shape, g, []);
    assert Format(shape, g) + [] == Format(shape, g);
  }

  /** A literal token prints itself and takes no argument. */
  lemma FormatLit(c: char, b: seq<Tok>, g: seq<Group>)
    ensures Format([Exactly(c)] + b, g) == [c] + Format(b, g)
  {
    var s := [Exactly(c)] + b;
    assert s[0] == Exactly(c) && s[1..] == b;
    var t := Fill(s, g);
    assert t[0] == Lit(c) && t[1..] == Fill(b, g);
  }

  /** A sign placeholder prints its argument character. */
  lemma FormatSign(c: char, b: seq<Tok>, g: seq<Group>)
    ensures Format([AnySign] + b, [SignGroup(c)] + g) == [c] + Format(b, g)
  {
    var s := [AnySign] + b;
    assert s[0] == AnySign && s[1..] == b;
    var h := [SignGroup(c)] + g;
    assert h[0] == SignGroup(c) && h[1..] == g;
    var t := Fill(s, h);
    assert t[0] == Sign(c) && t[1..] == Fill(b, g);
  }

  /** A `{:0wd}` placeholder prints its argument zero-padded to `w`. */
  lemma FormatNum(n: int, w: nat, b: seq<Tok>, g: seq<Group>)
    ensures Format([Digits(w)] + b, [NumGroup(n)] + g) == Pad(n, w) + Format(b, g)
  {
    var s := [Digits(w)] + b;
    assert s[0] == Digits(w) && s[1..] == b;
    var h := [NumGroup(n)] + g;
    assert h[0] == NumGroup(n) && h[1..] == g;
    var t := Fill(s, h);
    assert t[0] == Field(n, w) && t[1..] == Fill(b, g);
  }

  /** A formatting chain of 4 steps, each prepending one piece of text. */
  lemma Chain4(f0: string, f1: string, f2: string, f3: string,
               p0: string, p1: string, p2: string, p3: string)
    requires f0 == p0 + f1 && f1 == p1 + f2 && f2 == p2 + f3 && f3 == p3
    ensures f0 == p0 + p1 + p2 + p3
  {
  }

  /** A formatting chain of 5 steps, each prepending one piece of text. */
  lemma Chain5(f0: string, f1: string, f2: string, f3: string, f4: string,
               p0: string, p1: string, p2: string, p3: string, p4: string)
    requires f0 == p0 + f1 && f1 == p1 + f2 && f2 == p2 + f3 && f3 == p3 + f4 && f4 == p4
    ensures f0 == p0 + p1 + p2 + p3 + p4
  {
  }

  /** A formatting chain of 6 steps, each prepending one piece of text. */
  lemma Chain6(f0: string, f1: string, f2: string, f3: string, f4: string, f5: string,
               p0: string, p1: string, p2: string, p3: string, p4: string, p5: string)
    requires f0 == p0 + f1 && f1 == p1 + f2 && f2 == p2 + f3 && f3 == p3 + f4 && f4 == p4 + f5 && f5 == p5
    ensures f0 == p0 + p1 + p2 + p3 + p4 + p5
  {
  }
}
