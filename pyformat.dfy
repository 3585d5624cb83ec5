/**
 * A model of Python's `str.format` for positional arguments: a format string is parsed into
 * literal characters and replacement fields, then the fields are filled from the arguments.
 * Supported fields are `{}` (automatic numbering) and `{n}` (manual numbering); `{{` and `}}`
 * stand for literal braces. Fields with a conversion, a format specification or an index
 * (`{!r}`, `{0:>5}`, `{0[1]}`) are outside this model and are treated as errors, as are a lone
 * brace, mixing the two numbering styles and asking for an argument that is not there.
 */
module PyFormat {
  import opened Wrappers

  /** One element of a parsed format string: a literal character, `{}`, or `{n}`. */
  datatype Piece = Char(c: char) | AutoField | IndexField(index: nat)

  /** How the fields seen so far were numbered; Python refuses to mix the two styles. */
  datatype Numbering = Unset | Automatic | Manual

  predicate NoBraces(s: string) {
    forall i :: 0 <= i < |s| ==> s[i] != '{' && s[i] != '}'
  }

  lemma NoBracesAppend(a: string, b: string)
    requires NoBraces(a) && NoBraces(b)
    ensures NoBraces(a + b)
  {
  }

  /** The pieces of a text made of literal characters only. */
  function Chars(s: string): (r: seq<Piece>)
    ensures |r| == |s|
    ensures forall i :: 0 <= i < |s| ==> r[i] == Char(s[i])
  {
    seq(|s|, i requires 0 <= i < |s| => Char(s[i]))
  }

  lemma CharsAppend(a: string, b: string)
    ensures Chars(a + b) == Chars(a) + Chars(b)
  {
  }

  predicate IsDigit(c: char) {
    '0' <= c <= '9'
  }

  predicate AllDigits(s: string) {
    forall i :: 0 <= i < |s| ==> IsDigit(s[i])
  }

  // Manual numbering (`{n}`): decimal text and its value. The template of the installation
  // manager uses only `{}`; these make `Parse` agree with Python on every positional field.

  /** `str(n)` for a natural number. */
  function DecimalText(n: nat): (r: string)
    ensures |r| >= 1 && AllDigits(r)
  {
    if n < 10 then [('0' as int + n) as char]
    else DecimalText(n / 10) + [('0' as int + n % 10) as char]
  }

  /** `int(s)` for a string of decimal digits (leading zeros allowed). */
  function DecimalValue(s: string): nat
    requires AllDigits(s)
  {
    if s == [] then 0
    else DecimalValue(s[..|s| - 1]) * 10 + (s[|s| - 1] as int - '0' as int)
  }

  lemma {:induction false} DecimalRoundTrip(n: nat)
    ensures DecimalValue(DecimalText(n)) == n
  {
    if n >= 10 {
      var t := DecimalText(n);
      assert t[..|t| - 1] == DecimalText(n / 10);
      DecimalRoundTrip(n / 10);
    }
  }

  /** The position of the first `c` in `s`, if any. */
  function FindChar(s: string, c: char): (r: Option<nat>)
    ensures r.None? <==> c !in s
    ensures r.Some? ==> r.value < |s| && s[r.value] == c && c !in s[..r.value]
  {
    if s == [] then None
    else if s[0] == c then Some(0)
    else match FindChar(s[1..], c)
      case None => None
      case Some(k) =>
        assert s[..k + 1] == [s[0]] + s[1..][..k];
        Some(k + 1)
  }

  function Cons(p: Piece, r: Option<seq<Piece>>): Option<seq<Piece>> {
    if r.None? then None else Some([p] + r.value)
  }

  function Prepend(ps: seq<Piece>, r: Option<seq<Piece>>): Option<seq<Piece>> {
    if r.None? then None else Some(ps + r.value)
  }

  /** How `str.format` reads a format string: `None` where Python raises for a malformed field. */
  function Parse(t: string): Option<seq<Piece>>
    decreases |t|
  {
    if t == [] then Some([])
    else if t[0] == '{' then
      if |t| >= 2 && t[1] == '{' then Cons(Char('{'), Parse(t[2..]))
      else match FindChar(t[1..], '}')
        case None => None
        case Some(k) =>
          var field := t[1..k + 1];
          if field == [] then Cons(AutoField, Parse(t[k + 2..]))
          else if AllDigits(field) then Cons(IndexField(DecimalValue(field)), Parse(t[k + 2..]))
          else None
    else if t[0] == '}' then
      if |t| >= 2 && t[1] == '}' then Cons(Char('}'), Parse(t[2..])) else None
    else Cons(Char(t[0]), Parse(t[1..]))
  }

  /** The format-string text of one piece. */
  function RenderPiece(p: Piece): string {
    match p
    case Char(c) => if c == '{' then "{{" else if c == '}' then "}}" else [c]
    case AutoField => "{}"
    case IndexField(k) => "{" + DecimalText(k) + "}"
  }

  /** The format-string text of a sequence of pieces. */
  function Render(ps: seq<Piece>): string {
    if ps == [] then "" else RenderPiece(ps[0]) + Render(ps[1..])
  }

  lemma RenderChars(s: string)
    requires NoBraces(s)
    ensures Render(Chars(s)) == s
  {
    if s != [] {
      assert Chars(s)[1..] == Chars(s[1..]);
      RenderChars(s[1..]);
    }
  }

  lemma ParseRenderPiece(p: Piece, s: string)
    ensures Parse(RenderPiece(p) + s) == Cons(p, Parse(s))
  {
    match p
    case Char(c) => ParseRenderChar(c, s);
    case AutoField => ParseRenderAuto(s);
    case IndexField(k) => ParseRenderIndex(k, s);
  }

  lemma ParseRenderChar(c: char, s: string)
    ensures Parse(RenderPiece(Char(c)) + s) == Cons(Char(c), Parse(s))
  {
    var t := RenderPiece(Char(c)) + s;
    if c == '{' || c == '}' {
      assert t[2..] == s;
    } else {
      assert t[1..] == s;
    }
  }

  lemma ParseRenderAuto(s: string)
    ensures Parse(RenderPiece(AutoField) + s) == Cons(AutoField, Parse(s))
  {
    var t := RenderPiece(AutoField) + s;
    assert t[1..] == "}" + s;
    assert FindChar(t[1..], '}') == Some(0);
    assert t[2..] == s;
  }

  lemma ParseRenderIndex(k: nat, s: string)
    ensures Parse(RenderPiece(IndexField(k)) + s) == Cons(IndexField(k), Parse(s))
  {
    var d := DecimalText(k);
    var t := "{" + d + "}" + s;
    assert t == RenderPiece(IndexField(k)) + s;
    assert t[1..] == d + "}" + s;
    assert t[0] == '{' && t[1] == d[0] && IsDigit(d[0]);
    FindAfterDigits(d, s);
    assert t[1..|d| + 1] == d;
    assert t[|d| + 2..] == s;
    DecimalRoundTrip(k);
  }

  /** The first `}` after a run of digits is the one that ends it. */
  lemma FindAfterDigits(d: string, s: string)
    requires AllDigits(d)
    ensures FindChar(d + "}" + s, '}') == Some(|d|)
  {
    var u := d + "}" + s;
    assert u[|d|] == '}';
    assert '}' !in u[..|d|] by {
      assert u[..|d|] == d;
    }
  }

  lemma ConsPrepend(p: Piece, ps: seq<Piece>, r: Option<seq<Piece>>)
    ensures Cons(p, Prepend(ps, r)) == Prepend([p] + ps, r)
  {
    if r.Some? {
      assert [p] + (ps + r.value) == ([p] + ps) + r.value;
    }
  }

  /** Parsing undoes rendering, also in front of any remaining text. */
  lemma {:induction false} ParseRender(ps: seq<Piece>, s: string)
    ensures Parse(Render(ps) + s) == Prepend(ps, Parse(s))
    decreases |ps|
  {
    if ps == [] {
      assert Render(ps) + s == s;
      var r := Parse(s);
      if r.Some? {
        assert ps + r.value == r.value;
      }
    } else {
      var p, tail := ps[0], ps[1..];
      var u := Render(tail) + s;
      assert Render(ps) + s == RenderPiece(p) + u;
      ParseRenderPiece(p, u);
      ParseRender(tail, s);
      ConsPrepend(p, tail, Parse(s));
      assert [p] + tail == ps;
    }
  }

  lemma ParseRenderRoundTrip(ps: seq<Piece>)
    ensures Parse(Render(ps)) == Some(ps)
  {
    ParseRender(ps, "");
    assert Render(ps) + "" == Render(ps);
    assert Parse("") == Some([]);
    assert ps + [] == ps;
  }

  function PrependText(s: string, r: Option<string>): Option<string> {
    if r.None? then None else Some(s + r.value)
  }

  /** Filling the fields of `ps` from `args`; `next` is the next automatic field's argument. */
  function Fill(ps: seq<Piece>, args: seq<string>, next: nat, mode: Numbering): Option<string>
    decreases |ps|
  {
    if ps == [] then Some("")
    else match ps[0]
      case Char(c) => PrependText([c], Fill(ps[1..], args, next, mode))
      case AutoField =>
        if mode == Manual || next >= |args| then None
        else PrependText(args[next], Fill(ps[1..], args, next + 1, Automatic))
      case IndexField(k) =>
        if mode == Automatic || k >= |args| then None
        else PrependText(args[k], Fill(ps[1..], args, next, Manual))
  }

  /** `t.format(*args)`: `None` where Python raises. */
  function Format(t: string, args: seq<string>): Option<string> {
    match Parse(t)
    case None => None
    case Some(ps) => Fill(ps, args, 0, Unset)
  }

  /** Formatting the rendering of `ps` is filling `ps`. */
  lemma FormatRender(ps: seq<Piece>, args: seq<string>)
    ensures Format(Render(ps), args) == Fill(ps, args, 0, Unset)
  {
    ParseRenderRoundTrip(ps);
  }

  /** Literal characters are copied through unchanged. */
  lemma {:induction false} FillChars(s: string, rest: seq<Piece>, args: seq<string>, next: nat, mode: Numbering)
    ensures Fill(Chars(s) + rest, args, next, mode) == PrependText(s, Fill(rest, args, next, mode))
    decreases |s|
  {
    var ps := Chars(s) + rest;
    if s == [] {
      assert ps == rest;
      var r := Fill(rest, args, next, mode);
      if r.Some? {
        assert s + r.value == r.value;
      }
    } else {
      assert ps[0] == Char(s[0]);
      assert ps[1..] == Chars(s[1..]) + rest;
      FillChars(s[1..], rest, args, next, mode);
      var r := Fill(rest, args, next, mode);
      if r.Some? {
        assert [s[0]] + (s[1..] + r.value) == s + r.value;
      }
    }
  }

  /** The field-free string `s` followed by `rest` parses as its characters followed by `rest`'s pieces. */
  lemma ParseChars(s: string, rest: string)
    requires NoBraces(s)
    ensures Parse(s + rest) == Prepend(Chars(s), Parse(rest))
  {
    RenderChars(s);
    ParseRender(Chars(s), rest);
  }

  /** The format string made of the literal segments `segs` with one `{}` between each two. */
  function AutoTemplate(segs: seq<string>): seq<Piece>
    requires |segs| >= 1
    decreases |segs|
  {
    if |segs| == 1 then Chars(segs[0]) else Chars(segs[0]) + ([AutoField] + AutoTemplate(segs[1..]))
  }

  /** The segments with the arguments, in order, between them. */
  function Interleave(segs: seq<string>, args: seq<string>): string
    requires 1 <= |segs| <= |args| + 1
    decreases |segs|
  {
    if |segs| == 1 then segs[0] else segs[0] + args[0] + Interleave(segs[1..], args[1..])
  }

  /** Filling a template of automatic fields puts the next arguments into the fields, one each. */
  lemma {:induction false} FillAutoTemplate(segs: seq<string>, args: seq<string>, next: nat, mode: Numbering)
    requires |segs| >= 1 && next + |segs| - 1 <= |args| && mode != Manual
    ensures Fill(AutoTemplate(segs), args, next, mode) == Some(Interleave(segs, args[next..]))
    decreases |segs|
  {
    if |segs| == 1 {
      FillChars(segs[0], [], args, next, mode);
      assert Chars(segs[0]) + [] == Chars(segs[0]);
      assert segs[0] + "" == segs[0];
    } else {
      var rest := [AutoField] + AutoTemplate(segs[1..]);
      FillChars(segs[0], rest, args, next, mode);
      assert rest[0] == AutoField && rest[1..] == AutoTemplate(segs[1..]);
      FillAutoTemplate(segs[1..], args, next + 1, Automatic);
      assert args[next..][1..] == args[next + 1..];
      assert args[next..][0] == args[next];
      var tail := Interleave(segs[1..], args[next + 1..]);
      assert Fill(rest, args, next, mode) == Some(args[next] + tail);
      assert segs[0] + (args[next] + tail) == segs[0] + args[next] + tail;
    }
  }

  /** Appending literal text to a template extends its last segment. */
  lemma {:induction false} AutoTemplateAppend(segs: seq<string>, x: string)
    requires |segs| >= 1
    ensures AutoTemplate(segs) + Chars(x) == AutoTemplate(segs[..|segs| - 1] + [segs[|segs| - 1] + x])
    decreases |segs|
  {
    var longer := segs[..|segs| - 1] + [segs[|segs| - 1] + x];
    if |segs| == 1 {
      assert longer == [segs[0] + x];
      CharsAppend(segs[0], x);
    } else {
      AutoTemplateAppend(segs[1..], x);
      assert longer[0] == segs[0];
      assert longer[1..] == segs[1..][..|segs[1..]| - 1] + [segs[1..][|segs[1..]| - 1] + x];
    }
  }

  lemma {:induction false} InterleaveAppend(segs: seq<string>, args: seq<string>, x: string)
    requires 1 <= |segs| <= |args| + 1
    ensures Interleave(segs[..|segs| - 1] + [segs[|segs| - 1] + x], args) == Interleave(segs, args) + x
    decreases |segs|
  {
    var longer := segs[..|segs| - 1] + [segs[|segs| - 1] + x];
    if |segs| > 1 {
      InterleaveAppend(segs[1..], args[1..], x);
      assert longer[0] == segs[0];
      assert longer[1..] == segs[1..][..|segs[1..]| - 1] + [segs[1..][|segs[1..]| - 1] + x];
    }
  }

  /**
   * Formatting a template of automatic fields followed by brace-free text fills the fields and
   * copies the text.
   */
  lemma FormatAutoTemplateThenText(segs: seq<string>, args: seq<string>, tail: string)
    requires 1 <= |segs| <= |args| + 1
    requires NoBraces(tail)
    ensures Format(Render(AutoTemplate(segs)) + tail, args) == Some(Interleave(segs, args) + tail)
  {
    ParseRender(AutoTemplate(segs), tail);
    ParseChars(tail, "");
    assert tail + "" == tail;
    assert Parse("") == Some([]);
    assert Chars(tail) + [] == Chars(tail);
    AutoTemplateAppend(segs, tail);
    var longer := segs[..|segs| - 1] + [segs[|segs| - 1] + tail];
    FillAutoTemplate(longer, args, 0, Unset);
    assert args[0..] == args;
    InterleaveAppend(segs, args, tail);
  }

  /** Text that does not parse makes the whole format string fail, whatever comes before it. */
  lemma FormatFailsAfter(ps: seq<Piece>, tail: string, args: seq<string>)
    requires Parse(tail) == None
    ensures Format(Render(ps) + tail, args) == None
  {
    ParseRender(ps, tail);
  }
}
