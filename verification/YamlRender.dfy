/** Printed lines: what the serializers write, line by line, and that splitting the text gives those lines back: no comment
    is cut inside a quoted scalar, and every comment outside is. */
module YamlRender {
  import opened Sequences
  import opened YamlText
  import opened YamlLines

  /** A piece of a line: text as it is, or a string that gets quoted. */
  datatype Tok = Plain(text: string) | Quoted(text: string)

  function TokText(t: Tok): string {
    if t.Plain? then t.text else Quote(t.text)
  }

  function Text(toks: seq<Tok>): string {
    if toks == [] then "" else TokText(toks[0]) + Text(toks[1..])
  }

  /** Nothing the line scan would stop at. */
  predicate PlainChar(c: char) {
    c != '\"' && c != '\'' && c != '#' && c != '\n' && c != '\r' && c != '\t'
  }

  predicate PlainText(s: string) {
    s != "" && forall k :: 0 <= k < |s| ==> PlainChar(s[k])
  }

  /** Every quoted piece stands where a quote opens a scalar; `open` says whether one may come first. */
  predicate WellPlaced(toks: seq<Tok>, open: bool) {
    if toks == [] then true
    else (if toks[0].Plain? then PlainText(toks[0].text) else open) && WellPlaced(toks[1..], OpensAfter(toks[0]))
  }

  /** A printed line: a comment line (or a blank one), or text with a trailing comment. */
  datatype Printed = Comment(text: string) | Entry(indent: nat, toks: seq<Tok>, note: string)

  function Spaces(n: nat): (s: string)
    ensures |s| == n && forall k :: 0 <= k < n ==> s[k] == ' '
  {
    seq(n, _ => ' ')
  }

  /** No line end inside. */
  predicate OneLine(s: string) {
    forall k :: 0 <= k < |s| ==> s[k] != '\n' && s[k] != '\r'
  }

  /** Spaces, then nothing or a comment. */
  predicate BlankOrComment(s: string) {
    s == "" || s[0] == '#' || (s[0] == ' ' && BlankOrComment(s[1..]))
  }

  /** A comment line, or a blank one. */
  predicate CommentText(s: string) {
    OneLine(s) && BlankOrComment(s)
  }

  /** A comment that may follow text on its line. */
  predicate NoteText(s: string) {
    CommentText(s) && (s != "" ==> s[0] == ' ')
  }

  /** A text that stays what it is: trimmed, and no document marker. */
  predicate LineText(s: string) {
    s != "" && Trimmed(s) && !Thrice(s, '-') && !Thrice(s, '.')
  }

  predicate Printable(p: Printed) {
    match p
    case Comment(text) => CommentText(text)
    case Entry(_, toks, note) => WellPlaced(toks, true) && LineText(Text(toks)) && NoteText(note)
  }

  function LineOf(p: Printed): string {
    match p
    case Comment(text) => text
    case Entry(indent, toks, note) => Spaces(indent) + Text(toks) + note
  }

  /** The text of printed lines. */
  function Render(ps: seq<Printed>): string {
    if ps == [] then "" else LineOf(ps[0]) + "\n" + Render(ps[1..])
  }

  /** The lines that carry something. */
  function Lines(ps: seq<Printed>): seq<Line> {
    if ps == [] then []
    else if ps[0].Comment? then Lines(ps[1..])
    else [Line(ps[0].indent, Text(ps[0].toks))] + Lines(ps[1..])
  }

  predicate AllPrintable(ps: seq<Printed>) {
    forall k :: 0 <= k < |ps| ==> Printable(ps[k])
  }

  lemma {:induction false} LinesJoin(a: seq<Printed>, b: seq<Printed>)
    ensures Lines(a + b) == Lines(a) + Lines(b)
    decreases |a|
  {
    if a == [] {
      assert a + b == b;
    } else {
      assert (a + b)[1..] == a[1..] + b;
      LinesJoin(a[1..], b);
    }
  }

  lemma {:induction false} RenderJoin(a: seq<Printed>, b: seq<Printed>)
    ensures Render(a + b) == Render(a) + Render(b)
    decreases |a|
  {
    if a == [] {
      assert a + b == b;
    } else {
      assert (a + b)[1..] == a[1..] + b;
      RenderJoin(a[1..], b);
      assert LineOf(a[0]) + "\n" + (Render(a[1..]) + Render(b)) == LineOf(a[0]) + "\n" + Render(a[1..]) + Render(b);
    }
  }

  // ---------------------------------------------------------------- the comment scan

  /** Plain characters are passed over. */
  lemma {:induction false} CutPassesPlain(raw: string, p: nat, s: string)
    requires At(raw, p, s) && forall k :: 0 <= k < |s| ==> PlainChar(s[k])
    ensures Cut(raw, p, NONE) == Cut(raw, p + |s|, NONE)
    decreases |s|
  {
    if s != "" {
      AtIndex(raw, p, s, 0);
      assert s == [s[0]] + s[1..];
      AtSplit(raw, p, [s[0]], s[1..]);
      CutPassesPlain(raw, p + 1, s[1..]);
    }
  }

  /** An escaped string and its closing quote are passed over. */
  lemma {:induction false} CutPassesTail(raw: string, p: nat, s: string, end: nat)
    requires At(raw, p, QuoteTail(s)) && end == p + |QuoteTail(s)|
    ensures Cut(raw, p, '\"') == Cut(raw, end, NONE)
    decreases |s|
  {
    if s == "" {
      CutPassesClose(raw, p);
    } else {
      AtSplit(raw, p, Escape(s[0]), QuoteTail(s[1..]));
      CutPassesEscape(raw, p, s[0]);
      CutPassesTail(raw, p + |Escape(s[0])|, s[1..], end);
    }
  }

  lemma CutPassesClose(raw: string, p: nat)
    requires At(raw, p, "\"")
    ensures Cut(raw, p, '\"') == Cut(raw, p + 1, NONE)
  {
    AtIndex(raw, p, "\"", 0);
  }

  lemma CutPassesEscape(raw: string, p: nat, c: char)
    requires At(raw, p, Escape(c))
    ensures Cut(raw, p, '\"') == Cut(raw, p + |Escape(c)|, '\"')
  {
    var e := Escape(c);
    AtIndex(raw, p, e, 0);
    if |e| == 4 {
      AtIndex(raw, p, e, 2);
      AtIndex(raw, p, e, 3);
      NotQuote(c as int / 16);
      NotQuote(c as int % 16);
      assert Cut(raw, p, '\"') == Cut(raw, p + 2, '\"');
      assert Cut(raw, p + 2, '\"') == Cut(raw, p + 3, '\"');
    }
  }

  lemma NotQuote(d: nat)
    requires d < 16
    ensures HEX[d] != '\"' && HEX[d] != '\\'
  {
  }

  /** A quoted scalar where one may stand is passed over whole, whatever is in it. */
  lemma CutPassesQuoted(raw: string, p: nat, s: string)
    requires At(raw, p, Quote(s)) && (p == 0 || Opens(raw[p - 1]))
    ensures Cut(raw, p, NONE) == Cut(raw, p + |Quote(s)|, NONE)
  {
    QuoteIs(s);
    CutPassesWhole(raw, p, s, QuoteTail(s));
  }

  lemma CutPassesWhole(raw: string, p: nat, s: string, tail: string)
    requires At(raw, p, "\"" + tail) && Same(tail, QuoteTail(s)) && (p == 0 || Opens(raw[p - 1]))
    ensures Cut(raw, p, NONE) == Cut(raw, p + 1 + |tail|, NONE)
  {
    QuoteFirst(raw, p, tail);
    CutPassesTail(raw, p + 1, s, p + 1 + |tail|);
  }

  /** May a quoted scalar come after this piece? */
  predicate OpensAfter(t: Tok) {
    t.Plain? && t.text != "" && Opens(t.text[|t.text| - 1])
  }

  lemma CutPassesTok(raw: string, p: nat, t: Tok, open: bool)
    requires At(raw, p, TokText(t)) && (if t.Plain? then PlainText(t.text) else open)
    requires open ==> p == 0 || Opens(raw[p - 1])
    ensures CutFrom(raw, p) == CutFrom(raw, p + |TokText(t)|)
    ensures OpensAfter(t) ==> 0 < p + |TokText(t)| <= |raw| && Opens(raw[p + |TokText(t)| - 1])
  {
    if t.Plain? {
      CutPassesPlain(raw, p, t.text);
      AtIndex(raw, p, t.text, |t.text| - 1);
    } else {
      CutPassesQuoted(raw, p, t.text);
    }
  }

  /** Where the comment begins, seen from p outside quotes. */
  ghost function CutFrom(raw: string, p: nat): nat {
    Cut(raw, p, NONE)
  }

  lemma {:induction false} CutPassesToks(raw: string, p: nat, toks: seq<Tok>, open: bool, end: nat)
    requires At(raw, p, Text(toks)) && end == p + |Text(toks)|
    requires WellPlaced(toks, open) && (open ==> p == 0 || Opens(raw[p - 1]))
    ensures CutFrom(raw, p) == CutFrom(raw, end)
    decreases |toks|
  {
    if toks != [] {
      var q := CutPassesFirst(raw, p, toks, open);
      CutPassesToks(raw, q, toks[1..], OpensAfter(toks[0]), end);
    }
  }

  lemma CutPassesFirst(raw: string, p: nat, toks: seq<Tok>, open: bool) returns (q: nat)
    requires At(raw, p, Text(toks)) && WellPlaced(toks, open) && (open ==> p == 0 || Opens(raw[p - 1])) && toks != []
    ensures p + |Text(toks)| == q + |Text(toks[1..])| && CutFrom(raw, p) == CutFrom(raw, q)
    ensures At(raw, q, Text(toks[1..])) && WellPlaced(toks[1..], OpensAfter(toks[0]))
    ensures OpensAfter(toks[0]) ==> q == 0 || Opens(raw[q - 1])
  {
    q := p + |TokText(toks[0])|;
    TextSplit(raw, p, toks);
    CutPassesTok(raw, p, toks[0], open);
  }

  lemma TextSplit(s: string, p: nat, toks: seq<Tok>)
    requires At(s, p, Text(toks)) && toks != []
    ensures var n := |TokText(toks[0])|;
            |Text(toks)| == n + |Text(toks[1..])| && At(s, p, TokText(toks[0])) && At(s, p + n, Text(toks[1..]))
  {
    AtSplit(s, p, TokText(toks[0]), Text(toks[1..]));
  }

  lemma {:induction false} CutPassesSpaces(raw: string, p: nat, n: nat)
    requires p + n <= |raw| && forall k :: p <= k < p + n ==> raw[k] == ' '
    ensures Cut(raw, p, NONE) == Cut(raw, p + n, NONE)
    decreases n
  {
    if n > 0 { CutPassesSpaces(raw, p + 1, n - 1); }
  }

  ghost predicate BlankTo(note: string, n: nat) {
    n <= |note| && forall k :: 0 <= k < n ==> note[k] == ' '
  }

  /** The scan stops at a comment; only spaces are before it. */
  lemma {:induction false} CutAtNote(raw: string, p: nat, note: string) returns (n: nat)
    requires At(raw, p, note) && p + |note| == |raw| && BlankOrComment(note)
    requires note != "" && note[0] == '#' ==> p == 0 || raw[p - 1] == ' '
    ensures CutFrom(raw, p) == p + n && BlankTo(note, n)
    decreases |note|
  {
    if note == "" || note[0] == '#' {
      n := 0;
    } else {
      var m := CutAtNote(raw, p + 1, note[1..]);
      n := m + 1;
      forall k | 0 <= k < n ensures note[k] == ' ' { assert k > 0 ==> note[k] == note[1..][k - 1]; }
    }
  }

  // ---------------------------------------------------------------- one line

  /** Spaces before the text are the indent. */
  lemma {:induction false} BodyPassesSpaces(kept: string, at: nat, n: nat, first: bool)
    requires at + n <= |kept| && forall k :: at <= k < at + n ==> kept[k] == ' '
    ensures Body(kept, at, first) == Body(kept, at + n, first)
    decreases n
  {
    if n > 0 { BodyPassesSpaces(kept, at + 1, n - 1, first); }
  }

  lemma {:induction false} TrimRightOf(s: string, n: nat)
    requires s == "" || !IsBlank(s[|s| - 1])
    ensures TrimRight(s + Spaces(n)) == s
    decreases n
  {
    if n == 0 {
      assert s + Spaces(0) == s;
    } else {
      assert (s + Spaces(n))[..|s| + n - 1] == s + Spaces(n - 1);
      TrimRightOf(s, n - 1);
    }
  }

  lemma TrimOf(s: string, n: nat)
    requires Trimmed(s) && s != ""
    ensures Trim(s + Spaces(n)) == s
  {
    TrimRightOf(s, n);
  }

  lemma BodyOfEntry(indent: nat, text: string, n: nat, first: bool)
    requires LineText(text)
    ensures Same(Body(Spaces(indent) + text + Spaces(n), 0, first), Take(Line(indent, text)))
  {
    var kept := Spaces(indent) + text + Spaces(n);
    BodyPassesSpaces(kept, 0, indent, first);
    assert kept[indent..] == text + Spaces(n);
    TrimOf(text, n);
    assert kept[indent] == text[0];
  }

  lemma BodyOfSpaces(n: nat, first: bool)
    ensures Body(Spaces(n), 0, first) == Skip
  {
    BodyPassesSpaces(Spaces(n), 0, n, first);
    assert Spaces(n)[n..] == "";
  }

  /** Where the scan of a printed line stops: behind its text, but for the spaces before the note. */
  lemma EntryCut(raw: string, indent: nat, toks: seq<Tok>, note: string) returns (n: nat)
    requires WellPlaced(toks, true) && NoteText(note) && |raw| == indent + |Text(toks)| + |note|
    requires (forall k :: 0 <= k < indent ==> raw[k] == ' ') && At(raw, indent, Text(toks))
    requires At(raw, indent + |Text(toks)|, note)
    ensures CutFrom(raw, 0) == indent + |Text(toks)| + n && BlankTo(note, n)
  {
    TextCut(raw, indent, toks, indent + |Text(toks)|);
    n := CutAtNote(raw, indent + |Text(toks)|, note);
  }

  lemma TextCut(raw: string, indent: nat, toks: seq<Tok>, end: nat)
    requires WellPlaced(toks, true) && indent <= |raw| && end == indent + |Text(toks)|
    requires (forall k :: 0 <= k < indent ==> raw[k] == ' ') && At(raw, indent, Text(toks))
    ensures CutFrom(raw, 0) == CutFrom(raw, end)
  {
    CutPassesSpaces(raw, 0, indent);
    CutPassesToks(raw, indent, toks, true, end);
  }

  lemma SpacesFirst(indent: nat, text: string, note: string)
    ensures forall k :: 0 <= k < indent ==> (Spaces(indent) + text + note)[k] == ' '
  {
  }

  lemma MeantWhenCut(raw: string, indent: nat, text: string, n: nat, first: bool)
    requires Same(WithoutReturn(raw), raw) && CutFrom(raw, 0) == indent + |text| + n <= |raw| && LineText(text)
    requires Kept(raw, indent, text, n)
    ensures Same(Meant(raw, first), Take(Line(indent, text)))
  {
    BodyOfEntry(indent, text, n, first);
  }

  /** A printed line means what it was printed for. */
  lemma EntryMeans(indent: nat, toks: seq<Tok>, text: string, note: string, first: bool)
    requires WellPlaced(toks, true) && text == Text(toks) && LineText(text) && OneLine(text) && NoteText(note)
    ensures Same(Meant(Spaces(indent) + text + note, first), Take(Line(indent, text)))
  {
    EntryLaid(Spaces(indent) + text + note, indent, text, note);
    forall n: nat | BlankTo(note, n) ensures Kept(Spaces(indent) + text + note, indent, text, n) {
      KeptPart(Spaces(indent) + text, note, n);
    }
    LaidMeans(Spaces(indent) + text + note, indent, toks, text, note, first);
  }

  /** The part of an entry's line before its comment. */
  ghost predicate Kept(raw: string, indent: nat, text: string, n: nat) {
    indent + |text| + n <= |raw| && Same(raw[..indent + |text| + n], Spaces(indent) + text + Spaces(n))
  }

  lemma LaidMeans(raw: string, indent: nat, toks: seq<Tok>, text: string, note: string, first: bool)
    requires WellPlaced(toks, true) && text == Text(toks) && LineText(text) && NoteText(note)
    requires Same(WithoutReturn(raw), raw) && |raw| == indent + |text| + |note|
    requires (forall k :: 0 <= k < indent ==> raw[k] == ' ') && At(raw, indent, text) && At(raw, indent + |text|, note)
    requires forall n: nat :: BlankTo(note, n) ==> Kept(raw, indent, text, n)
    ensures Same(Meant(raw, first), Take(Line(indent, text)))
  {
    var n := EntryCut(raw, indent, toks, note);
    MeantWhenCut(raw, indent, text, n, first);
  }

  /** Where the parts of an entry's line stand. */
  lemma EntryLaid(raw: string, indent: nat, text: string, note: string)
    requires Same(raw, Spaces(indent) + text + note) && LineText(text) && OneLine(text) && NoteText(note)
    ensures Same(WithoutReturn(raw), raw) && |raw| == indent + |text| + |note|
    ensures (forall k :: 0 <= k < indent ==> raw[k] == ' ') && At(raw, indent, text) && At(raw, indent + |text|, note)
  {
    LastOneLine(Spaces(indent), text);
    NoReturn(Spaces(indent) + text, note);
    SpacesFirst(indent, text, note);
    AtMiddle(Spaces(indent), text, note);
    AtEnd(Spaces(indent) + text, note);
  }

  lemma LastOneLine(a: string, text: string)
    requires text != "" && OneLine(text)
    ensures (a + text)[|a + text| - 1] != '\r'
  {
    assert (a + text)[|a + text| - 1] == text[|text| - 1];
  }

  lemma KeptPart(s: string, note: string, n: nat)
    requires BlankTo(note, n)
    ensures Same((s + note)[..|s| + n], s + Spaces(n))
  {
    assert (s + note)[..|s| + n] == s + Spaces(n);
  }

  lemma NoReturn(a: string, b: string)
    requires (a == "" || a[|a| - 1] != '\r') && OneLine(b)
    ensures WithoutReturn(a + b) == a + b
  {
    if b != "" { assert (a + b)[|a + b| - 1] == b[|b| - 1]; }
  }

  lemma CommentMeans(text: string, first: bool)
    requires CommentText(text)
    ensures Meant(text, first) == Skip
  {
    assert text[0..|text|] == text;
    AtSlice(text, 0, text);
    var n := CutAtNote(text, 0, text);
    assert text[..n] == Spaces(n);
    BodyOfSpaces(n, first);
  }

  // ---------------------------------------------------------------- no line end inside a line

  lemma {:induction false} EscapedOneLine(s: string)
    ensures OneLine(Escaped(s))
    decreases |s|
  {
    if s != "" { EscapedOneLine(s[1..]); }
  }

  lemma {:induction false} TextOneLine(toks: seq<Tok>, open: bool)
    requires WellPlaced(toks, open)
    ensures OneLine(Text(toks))
    decreases |toks|
  {
    if toks != [] {
      if toks[0].Quoted? { EscapedOneLine(toks[0].text); }
      assert OneLine(TokText(toks[0]));
      TextOneLine(toks[1..], OpensAfter(toks[0]));
    }
  }

  lemma LineMeans(p: Printed, first: bool)
    requires Printable(p)
    ensures OneLine(LineOf(p))
    ensures Meant(LineOf(p), first) == if p.Comment? then Skip else Take(Line(p.indent, Text(p.toks)))
  {
    match p
    case Comment(text) => CommentMeans(text, first);
    case Entry(indent, toks, note) =>
      TextOneLine(toks, true);
      EntryMeans(indent, toks, Text(toks), note, first);
  }

  // ---------------------------------------------------------------- the whole text

  lemma {:induction false} LineEndAt(line: string, rest: string)
    requires OneLine(line)
    ensures LineEnd(line + "\n" + rest) == |line|
    decreases |line|
  {
    var text := line + "\n" + rest;
    if line != "" {
      assert text[1..] == line[1..] + "\n" + rest;
      LineEndAt(line[1..], rest);
    }
  }

  /** One line of a text. */
  lemma FirstLine(line: string, rest: string, first: bool, m: Meaning)
    requires OneLine(line) && m == Meant(line, first)
    ensures LinesOf(line + "\n" + rest, first) == Followed(m, LinesOf(rest, first && m.Skip?))
  {
    var text := line + "\n" + rest;
    LineEndAt(line, rest);
    assert text[..|line|] == line && text[|line| + 1..] == rest;
  }

  /** Splitting what was rendered gives the printed lines. */
  lemma {:induction false} SplitRendered(ps: seq<Printed>, first: bool)
    requires AllPrintable(ps)
    ensures LinesOf(Render(ps), first) == Ok(Lines(ps))
    decreases |ps|
  {
    if ps == [] {
      CommentMeans("", first);
      assert ""[..0] == "";
    } else {
      LineMeans(ps[0], first);
      var m := if ps[0].Comment? then Skip else Take(Line(ps[0].indent, Text(ps[0].toks)));
      FirstLine(LineOf(ps[0]), Render(ps[1..]), first, m);
      SplitRendered(ps[1..], first && m.Skip?);
    }
  }

  /** The rendered text, split: no byte order mark, and the lines printed. */
  lemma SplitOfRender(ps: seq<Printed>)
    requires AllPrintable(ps) && WithoutBom(Render(ps)) == Render(ps)
    ensures Split(Render(ps)) == Ok(Lines(ps))
  {
    SplitRendered(ps, true);
  }
}
