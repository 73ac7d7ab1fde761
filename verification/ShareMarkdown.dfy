/**
 The block renderer of a shared page (render_share_markdown in src/multiplayer/api/share_page.py), on tokens,
 block tags and pieces of escaped text, and the page that is written for them.
 */
module ShareMarkdown {
  import opened Prelude
  import opened ShareInline

  datatype Tag = P | Ul | Li | Pre | H(level: nat)

  /** A page is these tokens in order; the pieces inside one paragraph are joined by spaces. */
  datatype Token = Open(tag: Tag) | Close(tag: Tag) | Text(text: string)

  // ---- Escaping and lines

  /** html.escape on one character. */
  function EscapeChar(c: char): string {
    if c == '&' then "&amp;"
    else if c == '<' then "&lt;"
    else if c == '>' then "&gt;"
    else if c == '"' then "&quot;"
    else if c == '\'' then "&#x27;"
    else [c]
  }

  function Escape(text: string): string {
    if text == "" then "" else Escape(text[..|text| - 1]) + EscapeChar(text[|text| - 1])
  }

  predicate StartsWith(line: string, prefix: string) {
    |line| >= |prefix| && line[..|prefix|] == prefix
  }

  /** What a reader's browser makes of the five entities. */
  function Unescape(text: string): string {
    if text == "" then ""
    else if StartsWith(text, "&amp;") then "&" + Unescape(text[5..])
    else if StartsWith(text, "&lt;") then "<" + Unescape(text[4..])
    else if StartsWith(text, "&gt;") then ">" + Unescape(text[4..])
    else if StartsWith(text, "&quot;") then "\"" + Unescape(text[6..])
    else if StartsWith(text, "&#x27;") then "'" + Unescape(text[6..])
    else [text[0]] + Unescape(text[1..])
  }

  /** No entity starts like another, or like a character that needs none. */
  lemma EntityStarts(e: string, rest: string, p: string)
    requires p in {"&amp;", "&lt;", "&gt;", "&quot;", "&#x27;"}
    requires e in {"&amp;", "&lt;", "&gt;", "&quot;", "&#x27;"} || (|e| == 1 && e[0] != '&')
    ensures StartsWith(e + rest, p) <==> p == e
    ensures (e + rest)[|e|..] == rest && (e + rest)[0] == e[0]
  {
    var text := e + rest;
    if p == e {
      assert text[..|e|] == e;
    } else if |text| >= |p| {
      assert text[..|p|][0] == text[0] == e[0] && text[..|p|][1] == text[1] && (|e| > 1 ==> text[1] == e[1]);
    }
  }

  lemma UnescapeChar(c: char, rest: string)
    ensures Unescape(EscapeChar(c) + rest) == [c] + Unescape(rest)
  {
    var e := EscapeChar(c);
    EntityStarts(e, rest, "&amp;");
    EntityStarts(e, rest, "&lt;");
    EntityStarts(e, rest, "&gt;");
    EntityStarts(e, rest, "&quot;");
    EntityStarts(e, rest, "&#x27;");
    hide StartsWith;
  }

  lemma CutLast<T>(s: seq<T>) returns (few: seq<T>, last: T)
    requires s != []
    ensures s == few + [last] && |few| == |s| - 1
  {
    few, last := s[..|s| - 1], s[|s| - 1];
  }

  lemma EscapeLast(text: string, c: char)
    ensures Escape(text + [c]) == Escape(text) + EscapeChar(c)
  {
    assert (text + [c])[..|text + [c]| - 1] == text;
  }

  lemma Grouped(a: string, b: string, c: string)
    ensures a + b + c == a + (b + c)
  {
  }

  lemma {:induction false} EscapeFront(c: char, text: string)
    ensures Escape([c] + text) == EscapeChar(c) + Escape(text)
    decreases |text|
  {
    if text == "" {
      EscapeLast("", c);
      assert "" + [c] == [c] + text && Escape("") == "" && "" + EscapeChar(c) == EscapeChar(c) + "";
    } else {
      hide Escape, EscapeChar;
      var few, last := CutLast(text);
      EscapeFront(c, few);
      EscapeLast(few, last);
      EscapeLast([c] + few, last);
      Grouped([c], few, [last]);
      Grouped(EscapeChar(c), Escape(few), EscapeChar(last));
    }
  }

  /** Escaping loses nothing: what is shown for an escaped text is the text. */
  lemma {:induction false} EscapeReadsBack(text: string)
    ensures Unescape(Escape(text)) == text
  {
    if text != "" {
      EscapeFront(text[0], text[1..]);
      assert text == [text[0]] + text[1..];
      EscapeReadsBack(text[1..]);
      UnescapeChar(text[0], Escape(text[1..]));
      hide Escape, Unescape, EscapeChar;
    }
  }

  lemma EscapeCharIsInert(c: char)
    ensures Inert(EscapeChar(c))
  {
  }

  lemma {:induction false} EscapeIsInert(text: string)
    ensures Inert(Escape(text))
  {
    if text != "" {
      EscapeIsInert(text[..|text| - 1]);
      EscapeCharIsInert(text[|text| - 1]);
    }
  }

  /** split("\n") */
  function Lines(text: string): (lines: seq<string>)
    ensures lines != []
  {
    if text == "" then [""]
    else
      var before := Lines(text[..|text| - 1]);
      var c := text[|text| - 1];
      if c == '\n' then before + [""]
      else before[..|before| - 1] + [before[|before| - 1] + [c]]
  }

  function JoinLines(lines: seq<string>): string
    requires lines != []
  {
    if |lines| == 1 then lines[0] else JoinLines(lines[..|lines| - 1]) + "\n" + lines[|lines| - 1]
  }

  lemma JoinMore(lines: seq<string>, last: string)
    requires lines != []
    ensures JoinLines(lines + [last]) == JoinLines(lines) + "\n" + last
  {
    assert (lines + [last])[..|lines|] == lines;
  }

  lemma JoinLonger(before: seq<string>, last: string, c: char)
    ensures JoinLines(before + [last + [c]]) == JoinLines(before + [last]) + [c]
  {
    hide JoinLines;
    if before == [] {
      JoinOne(last);
      JoinOne(last + [c]);
    } else {
      JoinMore(before, last);
      JoinMore(before, last + [c]);
      JoinedStrings(JoinLines(before), "\n", last, [c]);
    }
  }

  lemma JoinOne(line: string)
    ensures JoinLines([] + [line]) == line
  {
    assert [] + [line] == [line];
  }

  lemma JoinedStrings(a: string, b: string, c: string, d: string)
    ensures a + b + (c + d) == a + b + c + d
  {
  }

  lemma LinesGrow(text: string, few: seq<string>, last: string, c: char)
    requires Lines(text) == few + [last]
    ensures Lines(text + [c]) == if c == '\n' then few + [last] + [""] else few + [last + [c]]
  {
    assert (text + [c])[..|text + [c]| - 1] == text;
    assert (few + [last])[..|few|] == few;
  }

  predicate OneLine(line: string) {
    '\n' !in line
  }

  lemma {:induction false} LinesAreSingle(text: string)
    ensures forall line <- Lines(text) :: OneLine(line)
  {
    if text != "" {
      var before := Lines(text[..|text| - 1]);
      LinesAreSingle(text[..|text| - 1]);
      assert OneLine(before[|before| - 1]);
    }
  }

  lemma {:induction false} JoinedIsText(text: string)
    ensures JoinLines(Lines(text)) == text
    decreases |text|
  {
    if text == "" {
      assert Lines("") == [""];
    } else {
      hide Lines, JoinLines;
      var before, c := CutLast(text);
      var few, last := CutLast(Lines(before));
      JoinedIsText(before);
      LinesGrow(before, few, last, c);
      JoinGrows(before, few, last, c);
    }
  }

  lemma JoinGrows(text: string, few: seq<string>, last: string, c: char)
    requires JoinLines(few + [last]) == text
    ensures JoinLines(if c == '\n' then few + [last] + [""] else few + [last + [c]]) == text + [c]
  {
    hide JoinLines;
    if c == '\n' {
      JoinMore(few + [last], "");
      EmptyLast(text);
    } else {
      JoinLonger(few, last, c);
    }
  }

  /** The lines, joined by newlines, are the text, and no line holds one. */
  lemma LinesJoin(text: string)
    ensures JoinLines(Lines(text)) == text && forall line <- Lines(text) :: '\n' !in line
  {
    JoinedIsText(text);
    LinesAreSingle(text);
    hide JoinLines, Lines;
    forall line <- Lines(text) ensures '\n' !in line {
      assert OneLine(line);
    }
  }

  lemma EmptyLast(text: string)
    ensures text + "\n" + "" == text + ['\n']
  {
  }

  lemma InertCut(text: string, i: nat)
    requires Inert(text) && i <= |text|
    ensures Inert(text[..i]) && Inert(text[i..])
  {
    forall c | c in text[..i] || c in text[i..] ensures c in text {
    }
  }

  lemma {:induction false} LinesAreInert(text: string)
    requires Inert(text)
    ensures forall line <- Lines(text) :: Inert(line)
  {
    if text != "" {
      var n := |text| - 1;
      InertCut(text, n);
      assert text[n] in text;
      LinesAreInert(text[..n]);
      var before := Lines(text[..n]);
      assert before[|before| - 1] in before;
    }
  }

  // ---- What a line is

  datatype Kind = Fence | Heading(level: nat, rest: string) | Bullet(rest: string) | Blank | Plain

  function Hashes(line: string): nat {
    if line != "" && line[0] == '#' then 1 + Hashes(line[1..]) else 0
  }

  lemma {:induction false} HashesFit(line: string)
    ensures Hashes(line) <= |line|
  {
    if line != "" && line[0] == '#' {
      HashesFit(line[1..]);
    }
  }

  function SkipSpace(line: string, space: char -> bool): string {
    if line != "" && space(line[0]) then SkipSpace(line[1..], space) else line
  }

  /** space is what the pattern language calls white space. */
  function KindOf(line: string, space: char -> bool): Kind {
    var n := Hashes(line);
    HashesFit(line);
    if StartsWith(line, "```") then Fence
    else if 1 <= n <= 3 && n < |line| && space(line[n]) then Heading(n + 2, SkipSpace(line[n..], space))
    else if |line| > 1 && line[0] == '-' && space(line[1]) then Bullet(SkipSpace(line[1..], space))
    else if SkipSpace(line, space) == "" then Blank
    else Plain
  }

  // ---- The renderer

  datatype State = State(out: seq<Token>, inList: bool, inCode: bool, para: seq<string>)

  const START := State([], false, false, [])

  function Texts(pieces: seq<string>): seq<Token> {
    seq(|pieces|, i requires 0 <= i < |pieces| => Text(pieces[i]))
  }

  function FlushPara(s: State): State {
    if s.para == [] then s else s.(out := s.out + [Open(P)] + Texts(s.para) + [Close(P)], para := [])
  }

  function CloseList(s: State): State {
    if s.inList then s.(out := s.out + [Close(Ul)], inList := false) else s
  }

  function Element(tag: Tag, text: string): seq<Token> {
    [Open(tag), Text(text), Close(tag)]
  }

  /** The loop's body on one line of this kind. */
  function StepOn(s: State, kind: Kind, line: string): State {
    if kind.Fence? then
      if s.inCode then s.(out := s.out + [Close(Pre)], inCode := false)
      else
        var closed := CloseList(FlushPara(s));
        closed.(out := closed.out + [Open(Pre)], inCode := true)
    else if s.inCode then s.(out := s.out + [Text(line)])
    else
      match kind
      case Heading(level, rest) =>
        var closed := CloseList(FlushPara(s));
        closed.(out := closed.out + Element(H(level), rest))
      case Bullet(rest) =>
        var flushed := FlushPara(s);
        var listed := if flushed.inList then flushed else flushed.(out := flushed.out + [Open(Ul)], inList := true);
        listed.(out := listed.out + Element(Li, rest))
      case Blank => FlushPara(CloseList(s))
      case _ =>
        var closed := CloseList(s);
        closed.(para := closed.para + [line])
  }

  function Step(s: State, line: string, space: char -> bool): State {
    StepOn(s, KindOf(line, space), line)
  }

  function Steps(lines: seq<string>, space: char -> bool): State {
    if lines == [] then START else Step(Steps(lines[..|lines| - 1], space), lines[|lines| - 1], space)
  }

  function Finish(s: State): seq<Token> {
    var closed := CloseList(FlushPara(s));
    if closed.inCode then closed.out + [Close(Pre)] else closed.out
  }

  // ---- Well nested

  /** Where a tag may open: a list item in a list, every other block at the top. */
  predicate MayOpen(tag: Tag, open: seq<Tag>) {
    if tag.Li? then open == [Ul] else open == []
  }

  /** Where text may stand: directly in a paragraph, a list item, a heading or a code block. */
  predicate MayHoldText(open: seq<Tag>) {
    open != [] && !open[|open| - 1].Ul?
  }

  /** The tags open after one more token, or None if it stands where it may not. */
  function Opened(open: seq<Tag>, t: Token): Option<seq<Tag>> {
    match t
    case Open(tag) => if MayOpen(tag, open) then Some(open + [tag]) else None
    case Close(tag) => if open != [] && open[|open| - 1] == tag then Some(open[..|open| - 1]) else None
    case Text(_) => if MayHoldText(open) then Some(open) else None
  }

  function OpenAfter(tokens: seq<Token>): Option<seq<Tag>> {
    if tokens == [] then Some([])
    else
      var open := OpenAfter(tokens[..|tokens| - 1]);
      if open.None? then None else Opened(open.value, tokens[|tokens| - 1])
  }

  /** Every token stands where it may, and every tag is closed. */
  predicate Nested(tokens: seq<Token>) {
    OpenAfter(tokens) == Some([])
  }

  lemma OpenPush(tokens: seq<Token>, t: Token)
    ensures OpenAfter(tokens + [t]) == var open := OpenAfter(tokens); if open.None? then None else Opened(open.value, t)
  {
    assert (tokens + [t])[..|tokens + [t]| - 1] == tokens;
  }

  lemma {:induction false} OpenTexts(tokens: seq<Token>, pieces: seq<string>)
    requires OpenAfter(tokens).Some? && MayHoldText(OpenAfter(tokens).value)
    ensures OpenAfter(tokens + Texts(pieces)) == OpenAfter(tokens)
  {
    if pieces == [] {
      assert tokens + Texts(pieces) == tokens;
    } else {
      var n := |pieces| - 1;
      OpenTexts(tokens, pieces[..n]);
      OpenPush(tokens + Texts(pieces[..n]), Text(pieces[n]));
      assert tokens + Texts(pieces) == tokens + Texts(pieces[..n]) + [Text(pieces[n])];
    }
  }

  lemma OpenElement(tokens: seq<Token>, tag: Tag, text: string)
    requires OpenAfter(tokens).Some? && MayOpen(tag, OpenAfter(tokens).value) && !tag.Ul?
    ensures OpenAfter(tokens + Element(tag, text)) == OpenAfter(tokens)
  {
    var open := OpenAfter(tokens).value;
    OpenPush(tokens, Open(tag));
    OpenPush(tokens + [Open(tag)], Text(text));
    OpenPush(tokens + [Open(tag)] + [Text(text)], Close(tag));
    assert (open + [tag])[..|open|] == open;
    assert tokens + Element(tag, text) == tokens + [Open(tag)] + [Text(text)] + [Close(tag)];
  }

  /** An open list excludes a pending paragraph, and an open code block excludes both. */
  predicate Sound(s: State) {
    && (s.inList ==> s.para == []) && (s.inCode ==> !s.inList && s.para == [])
    && OpenAfter(s.out) == Some(if s.inCode then [Pre] else if s.inList then [Ul] else [])
  }

  lemma FlushKeepsSound(s: State)
    requires Sound(s)
    ensures Sound(FlushPara(s)) && FlushPara(s).para == []
  {
    if s.para != [] {
      OpenPush(s.out, Open(P));
      OpenTexts(s.out + [Open(P)], s.para);
      OpenPush(s.out + [Open(P)] + Texts(s.para), Close(P));
      assert [] + [P] == [P] && [P][..0] == [];
    }
  }

  lemma CloseKeepsSound(s: State)
    requires Sound(s)
    ensures Sound(CloseList(s)) && !CloseList(s).inList
  {
    if s.inList {
      OpenPush(s.out, Close(Ul));
      assert [Ul][..0] == [];
    }
  }

  lemma CodeKeepsSound(s: State, kind: Kind, line: string)
    requires Sound(s) && s.inCode
    ensures Sound(StepOn(s, kind, line))
  {
    OpenPush(s.out, if kind.Fence? then Close(Pre) else Text(line));
    assert [Pre][..0] == [];
  }

  lemma FenceKeepsSound(s: State)
    requires Sound(s) && !s.inCode && !s.inList && s.para == []
    ensures Sound(s.(out := s.out + [Open(Pre)], inCode := true))
  {
    OpenPush(s.out, Open(Pre));
    assert [] + [Pre] == [Pre];
  }

  lemma BulletKeepsSound(s: State, rest: string)
    requires Sound(s) && !s.inCode && s.para == []
    ensures var listed := if s.inList then s else s.(out := s.out + [Open(Ul)], inList := true);
            Sound(listed.(out := listed.out + Element(Li, rest)))
  {
    OpenPush(s.out, Open(Ul));
    assert [] + [Ul] == [Ul];
    OpenElement(if s.inList then s.out else s.out + [Open(Ul)], Li, rest);
  }

  lemma StepKeepsSound(s: State, kind: Kind, line: string)
    requires Sound(s)
    ensures Sound(StepOn(s, kind, line))
  {
    if s.inCode {
      CodeKeepsSound(s, kind, line);
    } else {
      FlushKeepsSound(s);
      CloseKeepsSound(s);
      CloseKeepsSound(FlushPara(s));
      FlushKeepsSound(CloseList(s));
      match kind
      case Fence => FenceKeepsSound(CloseList(FlushPara(s)));
      case Heading(level, rest) => OpenElement(CloseList(FlushPara(s)).out, H(level), rest);
      case Bullet(rest) => BulletKeepsSound(FlushPara(s), rest);
      case Blank =>
      case Plain =>
    }
  }

  lemma {:induction false} StepsAreSound(lines: seq<string>, space: char -> bool)
    ensures Sound(Steps(lines, space))
  {
    if lines != [] {
      StepsAreSound(lines[..|lines| - 1], space);
      StepKeepsSound(Steps(lines[..|lines| - 1], space), KindOf(lines[|lines| - 1], space), lines[|lines| - 1]);
    }
  }

  /** Whatever the lines, the page is well nested and every tag is closed. */
  lemma PageIsNested(lines: seq<string>, space: char -> bool)
    ensures Nested(Finish(Steps(lines, space)))
  {
    var s := Steps(lines, space);
    StepsAreSound(lines, space);
    FlushKeepsSound(s);
    CloseKeepsSound(FlushPara(s));
    FinishNests(CloseList(FlushPara(s)));
  }

  lemma FinishNests(s: State)
    requires Sound(s) && s.para == [] && !s.inList
    ensures Nested(if s.inCode then s.out + [Close(Pre)] else s.out)
  {
    OpenPush(s.out, Close(Pre));
    assert [Pre][..0] == [];
  }

  // ---- Nothing lost, repeated or reordered

  /** The pieces of text on a page, in order. */
  function TextsOf(tokens: seq<Token>): seq<string> {
    if tokens == [] then []
    else
      var t := tokens[|tokens| - 1];
      var before := TextsOf(tokens[..|tokens| - 1]);
      if t.Text? then before + [t.text] else before
  }

  /** Whether the next line stands in a code block. */
  predicate InCode(lines: seq<string>, space: char -> bool) {
    lines != [] && (KindOf(lines[|lines| - 1], space).Fence? != InCode(lines[..|lines| - 1], space))
  }

  /** What one line shows: a code line whole, other lines without their marks, blank lines and fences nothing. */
  function Shows(kind: Kind, line: string, inCode: bool): seq<string> {
    if kind.Fence? then []
    else if inCode then [line]
    else
      match kind
      case Heading(_, rest) => [rest]
      case Bullet(rest) => [rest]
      case Blank => []
      case _ => [line]
  }

  /** What the lines show, in order. */
  function Kept(lines: seq<string>, space: char -> bool): seq<string> {
    if lines == [] then []
    else
      var before := lines[..|lines| - 1];
      var line := lines[|lines| - 1];
      Kept(before, space) + Shows(KindOf(line, space), line, InCode(before, space))
  }

  lemma TextsPush(tokens: seq<Token>, t: Token)
    ensures TextsOf(tokens + [t]) == if t.Text? then TextsOf(tokens) + [t.text] else TextsOf(tokens)
  {
    assert (tokens + [t])[..|tokens + [t]| - 1] == tokens;
  }

  lemma {:induction false} TextsOfTexts(tokens: seq<Token>, pieces: seq<string>)
    ensures TextsOf(tokens + Texts(pieces)) == TextsOf(tokens) + pieces
  {
    if pieces == [] {
      assert tokens + Texts(pieces) == tokens;
    } else {
      var n := |pieces| - 1;
      LastText(tokens, pieces);
      TextsOfTexts(tokens, pieces[..n]);
      TextsPush(tokens + Texts(pieces[..n]), Text(pieces[n]));
      hide Texts, TextsOf;
      LastPiece(TextsOf(tokens), pieces);
    }
  }

  lemma LastText(tokens: seq<Token>, pieces: seq<string>)
    requires pieces != []
    ensures var n := |pieces| - 1;
            tokens + Texts(pieces) == tokens + Texts(pieces[..n]) + [Text(pieces[n])]
  {
  }

  lemma LastPiece(before: seq<string>, pieces: seq<string>)
    requires pieces != []
    ensures var n := |pieces| - 1;
            before + pieces == before + pieces[..n] + [pieces[n]]
  {
  }

  lemma TextsOfElement(tokens: seq<Token>, tag: Tag, text: string)
    ensures TextsOf(tokens + Element(tag, text)) == TextsOf(tokens) + [text]
  {
    TextsPush(tokens, Open(tag));
    TextsPush(tokens + [Open(tag)], Text(text));
    TextsPush(tokens + [Open(tag)] + [Text(text)], Close(tag));
    assert tokens + Element(tag, text) == tokens + [Open(tag)] + [Text(text)] + [Close(tag)];
  }

  /** What is on the page and what waits in the paragraph. */
  function Shown(s: State): seq<string> {
    TextsOf(s.out) + s.para
  }

  lemma FlushShows(s: State)
    ensures Shown(FlushPara(s)) == Shown(s) && FlushPara(s).para == []
  {
    if s.para != [] {
      TextsPush(s.out, Open(P));
      TextsOfTexts(s.out + [Open(P)], s.para);
      TextsPush(s.out + [Open(P)] + Texts(s.para), Close(P));
    }
  }

  lemma CloseShows(s: State)
    ensures Shown(CloseList(s)) == Shown(s) && CloseList(s).para == s.para
  {
    TextsPush(s.out, Close(Ul));
  }

  lemma CodeShows(s: State, kind: Kind, line: string)
    requires s.inCode && s.para == []
    ensures Shown(StepOn(s, kind, line)) == Shown(s) + Shows(kind, line, true)
  {
    TextsPush(s.out, if kind.Fence? then Close(Pre) else Text(line));
  }

  /** After a flush and a close, what one more element shows is added at the end. */
  lemma BlockShows(s: State, kind: Kind, line: string)
    requires !s.inCode && (kind.Fence? || kind.Heading?)
    ensures Shown(StepOn(s, kind, line)) == Shown(s) + Shows(kind, line, false)
  {
    FlushShows(s);
    CloseShows(FlushPara(s));
    var closed := CloseList(FlushPara(s));
    match kind
    case Fence => TextsPush(closed.out, Open(Pre));
    case Heading(level, rest) => TextsOfElement(closed.out, H(level), rest);
  }

  lemma LineShows(s: State, kind: Kind, line: string)
    requires !s.inCode && (kind.Blank? || kind.Plain?)
    ensures Shown(StepOn(s, kind, line)) == Shown(s) + Shows(kind, line, false)
  {
    CloseShows(s);
    FlushShows(CloseList(s));
    if kind.Plain? {
      assert TextsOf(CloseList(s).out) + (s.para + [line]) == Shown(CloseList(s)) + [line];
    }
  }

  lemma StepShows(s: State, kind: Kind, line: string)
    requires Sound(s)
    ensures Shown(StepOn(s, kind, line)) == Shown(s) + Shows(kind, line, s.inCode)
    ensures StepOn(s, kind, line).inCode == (kind.Fence? != s.inCode)
  {
    if s.inCode {
      CodeShows(s, kind, line);
    } else if kind.Bullet? {
      FlushShows(s);
      BulletShows(FlushPara(s), kind.rest);
    } else if kind.Fence? || kind.Heading? {
      BlockShows(s, kind, line);
    } else {
      LineShows(s, kind, line);
    }
  }

  lemma BulletShows(s: State, rest: string)
    requires s.para == []
    ensures var listed := if s.inList then s else s.(out := s.out + [Open(Ul)], inList := true);
            Shown(listed.(out := listed.out + Element(Li, rest))) == Shown(s) + [rest]
  {
    TextsPush(s.out, Open(Ul));
    TextsOfElement(if s.inList then s.out else s.out + [Open(Ul)], Li, rest);
  }

  lemma {:induction false} StepsShow(lines: seq<string>, space: char -> bool)
    ensures Shown(Steps(lines, space)) == Kept(lines, space) && Steps(lines, space).inCode == InCode(lines, space)
  {
    if lines != [] {
      var n := |lines| - 1;
      StepsShow(lines[..n], space);
      StepsAreSound(lines[..n], space);
      StepShows(Steps(lines[..n], space), KindOf(lines[n], space), lines[n]);
    }
  }

  /** The page shows what is kept of the lines, once each and in their order. */
  lemma PageShowsTheLines(lines: seq<string>, space: char -> bool)
    ensures TextsOf(Finish(Steps(lines, space))) == Kept(lines, space)
  {
    var s := Steps(lines, space);
    StepsShow(lines, space);
    FlushShows(s);
    CloseShows(FlushPara(s));
    TextsPush(CloseList(FlushPara(s)).out, Close(Pre));
  }

  // ---- What a line is, by its shape

  predicate AllSpace(text: string, space: char -> bool) {
    forall i :: 0 <= i < |text| ==> space(text[i])
  }

  /** White space, and then text that starts with none. */
  ghost predicate Spaced(text: string, blanks: string, rest: string, space: char -> bool) {
    text == blanks + rest && AllSpace(blanks, space) && (rest == "" || !space(rest[0]))
  }

  /** A mark, at least one white space, and this text. */
  ghost predicate Marks(line: string, mark: string, rest: string, space: char -> bool) {
    && |line| > |mark| && line[..|mark|] == mark && space(line[|mark|])
    && exists blanks :: Spaced(line[|mark|..], blanks, rest, space)
  }

  /** The shape of each kind of line; a plain line has none. */
  ghost predicate Shaped(line: string, kind: Kind, space: char -> bool) {
    match kind
    case Fence => |line| >= 3 && line[..3] == "```"
    case Heading(level, rest) =>
      || (level == 3 && Marks(line, "#", rest, space))
      || (level == 4 && Marks(line, "##", rest, space))
      || (level == 5 && Marks(line, "###", rest, space))
    case Bullet(rest) => Marks(line, "-", rest, space)
    case Blank => AllSpace(line, space)
    case Plain => false
  }

  lemma {:induction false} SkipSplits(text: string, space: char -> bool) returns (blanks: string)
    ensures Spaced(text, blanks, SkipSpace(text, space), space)
  {
    if text != "" && space(text[0]) {
      var more := SkipSplits(text[1..], space);
      blanks := [text[0]] + more;
    } else {
      blanks := "";
    }
  }

  lemma {:induction false} SkipIsRest(text: string, blanks: string, rest: string, space: char -> bool)
    requires Spaced(text, blanks, rest, space)
    ensures SkipSpace(text, space) == rest
  {
    if blanks != "" {
      assert text[0] == blanks[0] && text[1..] == blanks[1..] + rest;
      SkipIsRest(text[1..], blanks[1..], rest, space);
    }
  }

  lemma MarksIff(line: string, mark: string, rest: string, space: char -> bool)
    ensures Marks(line, mark, rest, space)
            <==> |line| > |mark| && line[..|mark|] == mark && space(line[|mark|]) && rest == SkipSpace(line[|mark|..], space)
  {
    if |line| > |mark| {
      var blanks := SkipSplits(line[|mark|..], space);
      if more :| Spaced(line[|mark|..], more, rest, space) {
        SkipIsRest(line[|mark|..], more, rest, space);
      }
    }
  }

  /** The run of hashes a line starts with, as far as a heading goes. */
  lemma HashesIff(line: string, space: char -> bool)
    requires !space('#')
    ensures Hashes(line) == 1 && 1 < |line| && space(line[1]) <==> |line| > 1 && line[..1] == "#" && space(line[1])
    ensures Hashes(line) == 2 && 2 < |line| && space(line[2]) <==> |line| > 2 && line[..2] == "##" && space(line[2])
    ensures Hashes(line) == 3 && 3 < |line| && space(line[3]) <==> |line| > 3 && line[..3] == "###" && space(line[3])
  {
    hide Hashes;
    HashesAt(line, 0);
    if |line| > 0 { HashesAt(line, 1); }
    if |line| > 1 { HashesAt(line, 2); }
    if |line| > 2 { HashesAt(line, 3); }
    FewHashes(line);
  }

  lemma FewHashes(line: string)
    ensures |line| > 1 ==> (line[..1] == "#" <==> line[0] == '#')
    ensures |line| > 2 ==> (line[..2] == "##" <==> line[0] == '#' && line[1] == '#')
    ensures |line| > 3 ==> (line[..3] == "###" <==> line[0] == '#' && line[1] == '#' && line[2] == '#')
  {
  }

  lemma HashesAt(line: string, k: nat)
    requires k <= |line|
    ensures Hashes(line[k..]) == if k < |line| && line[k] == '#' then 1 + Hashes(line[k + 1..]) else 0
    ensures Hashes(line[k..]) >= 0
    ensures k == 0 ==> line[k..] == line
  {
    if k < |line| {
      assert line[k..][1..] == line[k + 1..];
    }
  }

  /** A line is a fence, a heading of a level, a bullet or blank exactly by its shape, marks not being white space; else plain. */
  lemma KindIsItsShape(line: string, kind: Kind, space: char -> bool)
    requires !space('#') && !space('`') && !space('-') && kind != Plain
    ensures KindOf(line, space) == kind <==> Shaped(line, kind, space)
  {
    HashesIff(line, space);
    MarksIff(line, "#", KindText(kind), space);
    MarksIff(line, "##", KindText(kind), space);
    MarksIff(line, "###", KindText(kind), space);
    MarksIff(line, "-", KindText(kind), space);
    BlankIff(line, space);
    hide Hashes, SkipSpace, Marks, AllSpace;
  }

  function KindText(kind: Kind): string {
    match kind
    case Heading(_, rest) => rest
    case Bullet(rest) => rest
    case _ => ""
  }

  lemma {:induction false} BlankIff(line: string, space: char -> bool)
    ensures SkipSpace(line, space) == "" <==> AllSpace(line, space)
  {
    if AllSpace(line, space) {
      assert line + "" == line;
      SkipIsRest(line, line, "", space);
    } else {
      var blanks := SkipSplits(line, space);
      assert blanks + "" == blanks;
    }
  }

  // ---- The page, by its grammar

  /** The blocks of the lines: code between fences, headings, lists of neighbouring bullets, paragraphs of neighbouring lines. */
  function Blocks(lines: seq<string>, space: char -> bool): seq<Token>
    decreases |lines|, 1
  {
    if lines == [] then []
    else
      match KindOf(lines[0], space)
      case Fence => [Open(Pre)] + CodeOf(lines[1..], space)
      case Heading(level, rest) => [Open(H(level)), Text(rest), Close(H(level))] + Blocks(lines[1..], space)
      case Bullet(_) => [Open(Ul)] + ItemsOf(lines, space)
      case Blank => Blocks(lines[1..], space)
      case Plain => [Open(P)] + WordsOf(lines, space)
  }

  /** Code: every line as it is, up to a fence or the end. */
  function CodeOf(lines: seq<string>, space: char -> bool): seq<Token>
    decreases |lines|, 0
  {
    if lines == [] then [Close(Pre)]
    else if KindOf(lines[0], space).Fence? then [Close(Pre)] + Blocks(lines[1..], space)
    else [Text(lines[0])] + CodeOf(lines[1..], space)
  }

  /** A list: bullets, up to a line that is none. */
  function ItemsOf(lines: seq<string>, space: char -> bool): seq<Token>
    decreases |lines|, if lines != [] && KindOf(lines[0], space).Bullet? then 0 else 2
  {
    if lines != [] && KindOf(lines[0], space).Bullet?
    then [Open(Li), Text(KindOf(lines[0], space).rest), Close(Li)] + ItemsOf(lines[1..], space)
    else [Close(Ul)] + Blocks(lines, space)
  }

  /** A paragraph: plain lines, up to a line that is none, a blank one for instance. */
  function WordsOf(lines: seq<string>, space: char -> bool): seq<Token>
    decreases |lines|, if lines != [] && KindOf(lines[0], space).Plain? then 0 else 2
  {
    if lines != [] && KindOf(lines[0], space).Plain? then [Text(lines[0])] + WordsOf(lines[1..], space)
    else [Close(P)] + Blocks(lines, space)
  }

  /** What the rest of the lines adds to a page in this state. */
  function Tail(s: State, lines: seq<string>, space: char -> bool): seq<Token> {
    s.out + if s.inCode then CodeOf(lines, space)
            else if s.inList then ItemsOf(lines, space)
            else if s.para != [] then [Open(P)] + Texts(s.para) + WordsOf(lines, space)
            else Blocks(lines, space)
  }

  function StepsFrom(s: State, lines: seq<string>, space: char -> bool): State
    decreases |lines|
  {
    if lines == [] then s else StepsFrom(Step(s, lines[0], space), lines[1..], space)
  }

  lemma {:induction false} StepsGoOn(lines: seq<string>, k: nat, space: char -> bool)
    requires k <= |lines|
    ensures StepsFrom(Steps(lines[..k], space), lines[k..], space) == Steps(lines, space)
    decreases |lines| - k
  {
    if k == |lines| {
      assert lines[..k] == lines;
    } else {
      assert lines[..k + 1][..k] == lines[..k] && lines[k..][1..] == lines[k + 1..];
      StepsGoOn(lines, k + 1, space);
    }
  }

  lemma Regroup(a: seq<Token>, b: seq<Token>, c: seq<Token>, d: seq<Token>, e: seq<Token>)
    ensures a + b + c == a + (b + c) && a + b + c + d == a + (b + (c + d)) && a + b + c + d + e == a + (b + c + (d + e))
    ensures a + (b + c + d) == a + (b + (c + d)) && a + (b + c) + d == a + (b + (c + d))
  {
  }

  lemma FirstLine(lines: seq<string>, space: char -> bool)
    requires lines != []
    ensures var rest, kind := lines[1..], KindOf(lines[0], space);
            && Blocks(lines, space) == (match kind
                                        case Fence => [Open(Pre)] + CodeOf(rest, space)
                                        case Heading(level, text) => Element(H(level), text) + Blocks(rest, space)
                                        case Bullet(_) => [Open(Ul)] + ItemsOf(lines, space)
                                        case Blank => Blocks(rest, space)
                                        case Plain => [Open(P)] + WordsOf(lines, space))
            && CodeOf(lines, space) == (if kind.Fence? then [Close(Pre)] + Blocks(rest, space)
                                        else [Text(lines[0])] + CodeOf(rest, space))
            && ItemsOf(lines, space) == (if kind.Bullet? then Element(Li, kind.rest) + ItemsOf(rest, space)
                                         else [Close(Ul)] + Blocks(lines, space))
            && WordsOf(lines, space) == (if kind.Plain? then [Text(lines[0])] + WordsOf(rest, space)
                                         else [Close(P)] + Blocks(lines, space))
  {
    hide KindOf;
  }

  lemma FinishIsTail(s: State, space: char -> bool)
    requires Sound(s)
    ensures Finish(s) == Tail(s, [], space)
  {
    var words := Texts(s.para);
    hide Texts, OpenAfter;
    Regroup(s.out, [Open(P)], words, [Close(P)], []);
    assert CodeOf([], space) == [Close(Pre)] && ItemsOf([], space) == [Close(Ul)] + Blocks([], space);
    assert WordsOf([], space) == [Close(P)] + Blocks([], space);
    assert s.out + [Open(P)] + words + [Close(P)] + [] == s.out + [Open(P)] + words + [Close(P)];
    assert [Close(P)] + [] == [Close(P)] && [Close(Ul)] + [] == [Close(Ul)] && s.out + [] == s.out;
  }

  lemma CodeTail(s: State, lines: seq<string>, space: char -> bool)
    requires Sound(s) && lines != [] && s.inCode
    ensures Tail(Step(s, lines[0], space), lines[1..], space) == Tail(s, lines, space)
  {
    hide KindOf, OpenAfter, Blocks, CodeOf, ItemsOf, WordsOf;
    var rest := lines[1..];
    FirstLine(lines, space);
    Regroup(s.out, [Close(Pre)], Blocks(rest, space), [], []);
    Regroup(s.out, [Text(lines[0])], CodeOf(rest, space), [], []);
  }

  lemma OpenTail(s: State, lines: seq<string>, space: char -> bool)
    requires lines != [] && !s.inCode && !s.inList && s.para == []
    ensures Tail(Step(s, lines[0], space), lines[1..], space) == Tail(s, lines, space)
  {
    var line, rest := lines[0], lines[1..];
    hide KindOf, OpenAfter, Texts, Blocks, CodeOf, ItemsOf, WordsOf, Element;
    FirstLine(lines, space);
    match KindOf(line, space)
    case Fence => Regroup(s.out, [Open(Pre)], CodeOf(rest, space), [], []);
    case Heading(level, text) => Regroup(s.out, Element(H(level), text), Blocks(rest, space), [], []);
    case Bullet(text) => Regroup(s.out, [Open(Ul)], Element(Li, text), ItemsOf(rest, space), []);
    case Blank =>
    case Plain => ParaOpens(s, lines, space);
  }

  lemma ParaOpens(s: State, lines: seq<string>, space: char -> bool)
    requires lines != [] && !s.inCode && !s.inList && s.para == [] && KindOf(lines[0], space).Plain?
    ensures Tail(Step(s, lines[0], space), lines[1..], space) == s.out + Blocks(lines, space)
  {
    var none: seq<string> := [];
    assert Texts(none) == [] && none + [lines[0]] == [lines[0]];
    hide KindOf, Texts, Blocks, CodeOf, ItemsOf, WordsOf, Element, Step, Tail;
    FirstLine(lines, space);
    PlainWaits(s, lines[0], space);
    TailInPara(Step(s, lines[0], space), lines[1..], space);
    WordsJoin([Open(P)], Texts(none), [Text(lines[0])], WordsOf(lines[1..], space));
    assert [Open(P)] + [] == [Open(P)];
  }

  /** A line that is no bullet finds the list closed. */
  lemma ListTail(s: State, lines: seq<string>, space: char -> bool)
    requires Sound(s) && lines != [] && !s.inCode && s.inList
    ensures Tail(Step(s, lines[0], space), lines[1..], space) == Tail(s, lines, space)
  {
    var rest, kind := lines[1..], KindOf(lines[0], space);
    FirstLine(lines, space);
    if kind.Bullet? {
      hide KindOf, OpenAfter, Texts, Blocks, CodeOf, ItemsOf, WordsOf, Element;
      Regroup(s.out, Element(Li, kind.rest), ItemsOf(rest, space), [], []);
    } else {
      OpenTail(CloseList(s), lines, space);
      hide KindOf, OpenAfter, Texts, Blocks, CodeOf, ItemsOf, WordsOf, Element;
      assert Step(s, lines[0], space) == Step(CloseList(s), lines[0], space);
      Regroup(s.out, [Close(Ul)], Blocks(lines, space), [], []);
      hide Step;
    }
  }

  lemma ParaGrows(s: State, lines: seq<string>, space: char -> bool)
    requires lines != [] && !s.inCode && !s.inList && s.para != [] && KindOf(lines[0], space).Plain?
    ensures Tail(Step(s, lines[0], space), lines[1..], space) == Tail(s, lines, space)
  {
    hide KindOf, Texts, Blocks, CodeOf, ItemsOf, WordsOf, Element, Step, Tail;
    FirstLine(lines, space);
    PlainWaits(s, lines[0], space);
    TailInPara(s, lines, space);
    TailInPara(Step(s, lines[0], space), lines[1..], space);
    WordsJoin([Open(P)], Texts(s.para), [Text(lines[0])], WordsOf(lines[1..], space));
  }

  lemma TailInPara(s: State, lines: seq<string>, space: char -> bool)
    requires !s.inCode && !s.inList && s.para != []
    ensures Tail(s, lines, space) == s.out + ([Open(P)] + Texts(s.para) + WordsOf(lines, space))
  {
    hide Texts, WordsOf;
  }

  lemma WordsJoin(a: seq<Token>, b: seq<Token>, c: seq<Token>, d: seq<Token>)
    ensures a + (b + c) + d == a + b + (c + d)
  {
  }

  lemma PlainWaits(s: State, line: string, space: char -> bool)
    requires !s.inCode && !s.inList && KindOf(line, space).Plain?
    ensures Step(s, line, space) == s.(para := s.para + [line])
    ensures Texts(s.para + [line]) == Texts(s.para) + [Text(line)]
  {
    hide KindOf;
  }

  /** A line that is not plain finds the paragraph flushed. */
  lemma ParaEnds(s: State, lines: seq<string>, space: char -> bool)
    requires lines != [] && !s.inCode && !s.inList && s.para != [] && !KindOf(lines[0], space).Plain?
    ensures Step(s, lines[0], space) == Step(FlushPara(s), lines[0], space)
    ensures Tail(FlushPara(s), lines, space) == Tail(s, lines, space)
  {
    hide KindOf, OpenAfter, Texts, Blocks, CodeOf, ItemsOf, WordsOf, Element;
    FirstLine(lines, space);
    Regroup(s.out, [Open(P)], Texts(s.para), [Close(P)], Blocks(lines, space));
  }

  lemma ParaTail(s: State, lines: seq<string>, space: char -> bool)
    requires lines != [] && !s.inCode && !s.inList && s.para != []
    ensures Tail(Step(s, lines[0], space), lines[1..], space) == Tail(s, lines, space)
  {
    if KindOf(lines[0], space).Plain? {
      ParaGrows(s, lines, space);
    } else {
      ParaEnds(s, lines, space);
      OpenTail(FlushPara(s), lines, space);
    }
    hide Step, Tail;
  }

  lemma {:induction false} TailIsFinish(s: State, lines: seq<string>, space: char -> bool)
    requires Sound(s)
    ensures Finish(StepsFrom(s, lines, space)) == Tail(s, lines, space)
    decreases |lines|
  {
    if lines == [] {
      FinishIsTail(s, space);
    } else {
      StepKeepsSound(s, KindOf(lines[0], space), lines[0]);
      TailIsFinish(Step(s, lines[0], space), lines[1..], space);
      if s.inCode {
        CodeTail(s, lines, space);
      } else if s.inList {
        ListTail(s, lines, space);
      } else if s.para != [] {
        ParaTail(s, lines, space);
      } else {
        OpenTail(s, lines, space);
      }
    }
  }

  /** The renderer's one pass, with its flags and its pending paragraph, gives exactly the blocks of the grammar. */
  lemma PageFollowsTheGrammar(lines: seq<string>, space: char -> bool)
    ensures Finish(Steps(lines, space)) == Blocks(lines, space)
  {
    StepsGoOn(lines, 0, space);
    assert lines[0..] == lines && lines[..0] == [];
    TailIsFinish(START, lines, space);
    assert [] + Blocks(lines, space) == Blocks(lines, space);
  }

  // ---- Nothing escapes

  lemma {:induction false} SkipKeepsInert(line: string, space: char -> bool)
    requires Inert(line)
    ensures Inert(SkipSpace(line, space))
  {
    if line != "" && space(line[0]) {
      InertCut(line, 1);
      SkipKeepsInert(line[1..], space);
    }
  }

  lemma {:induction false} KeptIsInert(lines: seq<string>, space: char -> bool)
    requires forall line <- lines :: Inert(line)
    ensures forall piece <- Kept(lines, space) :: Inert(piece)
  {
    if lines != [] {
      var line := lines[|lines| - 1];
      assert line in lines;
      KeptIsInert(lines[..|lines| - 1], space);
      HashesFit(line);
      InertCut(line, Hashes(line));
      SkipKeepsInert(line[Hashes(line)..], space);
      if line != "" {
        InertCut(line, 1);
        SkipKeepsInert(line[1..], space);
      }
    }
  }

  lemma {:induction false} TextIsAmongTexts(tokens: seq<Token>, t: Token)
    requires t in tokens && t.Text?
    ensures t.text in TextsOf(tokens)
  {
    var n := |tokens| - 1;
    assert tokens == tokens[..n] + [tokens[n]];
    if t in tokens[..n] {
      TextIsAmongTexts(tokens[..n], t);
    }
  }

  /** Whatever the text, no piece of it on the page holds a character that could open a tag. */
  lemma PageIsInert(text: string, space: char -> bool)
    ensures forall t <- Finish(Steps(Lines(Escape(text)), space)) :: t.Text? ==> Inert(t.text)
  {
    var lines := Lines(Escape(text));
    EscapeIsInert(text);
    LinesAreInert(Escape(text));
    KeptIsInert(lines, space);
    PageShowsTheLines(lines, space);
    forall t | t in Finish(Steps(lines, space)) && t.Text? ensures Inert(t.text) {
      TextIsAmongTexts(Finish(Steps(lines, space)), t);
    }
  }

  // ---- The page as written

  function OpenTag(tag: Tag): string {
    match tag
    case P => "<p>"
    case Ul => "<ul>"
    case Li => "<li>"
    case Pre => "<pre>"
    case H(level) => if level == 3 then "<h3>" else if level == 4 then "<h4>" else "<h5>"
  }

  function CloseTag(tag: Tag): string {
    match tag
    case P => "</p>"
    case Ul => "</ul>"
    case Li => "</li>"
    case Pre => "</pre>"
    case H(level) => if level == 3 then "</h3>" else if level == 4 then "</h4>" else "</h5>"
  }

  /** Whether the tokens end directly inside a code block. */
  predicate InPre(tokens: seq<Token>) {
    OpenAfter(tokens) == Some([Pre])
  }

  /** One token behind these: code as it is, other text through the inline passes, a space between two of a paragraph. */
  function Written(tokens: seq<Token>, t: Token): string {
    match t
    case Open(tag) => OpenTag(tag)
    case Close(tag) => CloseTag(tag)
    case Text(text) =>
      if InPre(tokens) then text + "\n"
      else (if tokens != [] && tokens[|tokens| - 1].Text? then " " else "") + Inline(text)
  }

  function Page(tokens: seq<Token>): string {
    if tokens == [] then ""
    else Page(tokens[..|tokens| - 1]) + Written(tokens[..|tokens| - 1], tokens[|tokens| - 1])
  }

  lemma BlockTagIsTagged(tag: Tag)
    ensures Tagged(OpenTag(tag)) && Tagged(CloseTag(tag))
  {
    TagIsTagged(OpenTag(tag));
    TagIsTagged(CloseTag(tag));
  }

  lemma WrittenIsTagged(tokens: seq<Token>, t: Token)
    requires t.Text? ==> Inert(t.text)
    ensures Tagged(Written(tokens, t))
  {
    match t
    case Open(tag) => BlockTagIsTagged(tag);
    case Close(tag) => BlockTagIsTagged(tag);
    case Text(text) =>
      InertIsTagged(text);
      InertIsTagged("\n");
      InertIsTagged(" ");
      InertIsTagged("");
      InlineIsTagged(text);
      hide Tagged, Inline;
      TaggedConcat(text, "\n");
      TaggedConcat(" ", Inline(text));
      TaggedConcat("", Inline(text));
  }

  lemma {:induction false} TokensAreTagged(tokens: seq<Token>)
    requires forall t <- tokens :: t.Text? ==> Inert(t.text)
    ensures Tagged(Page(tokens))
  {
    InertIsTagged("");
    hide Tagged, Written, Inert;
    if tokens != [] {
      var n := |tokens| - 1;
      TokensAreTagged(tokens[..n]);
      WrittenIsTagged(tokens[..n], tokens[n]);
      TaggedConcat(Page(tokens[..n]), Written(tokens[..n], tokens[n]));
    }
  }

  /** Whatever the text, every angle bracket on the page is of one of the fixed tags, and there is no quote. */
  lemma PageIsTagged(text: string, space: char -> bool)
    ensures Tagged(Page(Finish(Steps(Lines(Escape(text)), space))))
  {
    PageIsInert(text, space);
    TokensAreTagged(Finish(Steps(Lines(Escape(text)), space)));
  }

  // ---- How each block is written

  lemma PagePush(tokens: seq<Token>, t: Token)
    ensures Page(tokens + [t]) == Page(tokens) + Written(tokens, t)
  {
    assert (tokens + [t])[..|tokens + [t]| - 1] == tokens;
  }

  /** The name between a tag's brackets. */
  function Name(tag: Tag): string {
    match tag
    case P => "p"
    case Ul => "ul"
    case Li => "li"
    case Pre => "pre"
    case H(level) => if level == 3 then "h3" else if level == 4 then "h4" else "h5"
  }

  lemma TagsAreNamed(tag: Tag)
    ensures OpenTag(tag) == "<" + Name(tag) + ">" && CloseTag(tag) == "</" + Name(tag) + ">"
  {
  }

  /** The lines of a paragraph, each through the inline passes, one space between two. */
  function Joined(lines: seq<string>): string {
    if lines == [] then ""
    else
      var n := |lines| - 1;
      Joined(lines[..n]) + (if n == 0 then "" else " ") + Inline(lines[n])
  }

  /** The lines of a code block as they are, each ended. */
  function Ended(lines: seq<string>): string {
    if lines == [] then "" else Ended(lines[..|lines| - 1]) + lines[|lines| - 1] + "\n"
  }

  /** The space stands before every line of a paragraph but the first. */
  lemma WordIsWritten(tokens: seq<Token>, lines: seq<string>, line: string)
    requires tokens != [] && !tokens[|tokens| - 1].Text? && OpenAfter(tokens) == Some([P])
    ensures Written(tokens + Texts(lines), Text(line)) == (if lines == [] then "" else " ") + Inline(line)
  {
    hide OpenAfter, Texts, Inline, Written;
    OpenTexts(tokens, lines);
    TextIsWritten(tokens + Texts(lines), line);
    if lines != [] {
      LastText(tokens, lines);
    } else {
      NoTexts(tokens);
    }
  }

  lemma TextIsWritten(tokens: seq<Token>, line: string)
    requires tokens != [] && OpenAfter(tokens) == Some([P])
    ensures Written(tokens, Text(line)) == (if tokens[|tokens| - 1].Text? then " " else "") + Inline(line)
  {
    hide OpenAfter, Inline;
  }

  lemma NoTexts(tokens: seq<Token>)
    ensures tokens + Texts([]) == tokens
  {
  }

  lemma {:induction false} WordsAreJoined(tokens: seq<Token>, lines: seq<string>)
    requires tokens != [] && !tokens[|tokens| - 1].Text? && OpenAfter(tokens) == Some([P])
    ensures Page(tokens + Texts(lines)) == Page(tokens) + Joined(lines)
  {
    if lines == [] {
      assert tokens + Texts(lines) == tokens;
    } else {
      var n := |lines| - 1;
      hide Texts, Page, OpenAfter, Inline, Written;
      WordsAreJoined(tokens, lines[..n]);
      WordIsWritten(tokens, lines[..n], lines[n]);
      LastText(tokens, lines);
      PagePush(tokens + Texts(lines[..n]), Text(lines[n]));
      StringsJoin(Page(tokens), Joined(lines[..n]), if n == 0 then "" else " ", Inline(lines[n]));
    }
  }

  lemma StringsJoin(a: string, b: string, c: string, d: string)
    ensures a + b + (c + d) == a + (b + c + d)
  {
  }

  lemma {:induction false} CodeIsEnded(tokens: seq<Token>, lines: seq<string>)
    requires OpenAfter(tokens) == Some([Pre])
    ensures Page(tokens + Texts(lines)) == Page(tokens) + Ended(lines)
  {
    if lines == [] {
      assert tokens + Texts(lines) == tokens;
    } else {
      var n := |lines| - 1;
      CodeIsEnded(tokens, lines[..n]);
      OpenTexts(tokens, lines[..n]);
      LastText(tokens, lines);
      PagePush(tokens + Texts(lines[..n]), Text(lines[n]));
      hide Texts, Page, OpenAfter;
      StringsJoin(Page(tokens), Ended(lines[..n]), lines[n], "\n");
    }
  }

  /** Behind any tokens a heading or a list item is its text, through the inline passes, between its own tags. */
  lemma ElementIsWritten(tokens: seq<Token>, tag: Tag, text: string)
    requires OpenAfter(tokens).Some? && MayOpen(tag, OpenAfter(tokens).value) && (tag.H? || tag.Li?)
    ensures Page(tokens + [Open(tag)] + [Text(text)] + [Close(tag)])
            == Page(tokens) + ("<" + Name(tag) + ">") + Inline(text) + ("</" + Name(tag) + ">")
  {
    var begun, open := tokens + [Open(tag)], OpenAfter(tokens).value;
    OpenPush(tokens, Open(tag));
    assert (open + [tag])[|open|] == tag;
    assert Written(begun, Text(text)) == "" + Inline(text);
    hide Page, OpenAfter, Inline, Written;
    TagsAreNamed(tag);
    PagePush(tokens, Open(tag));
    PagePush(begun, Text(text));
    PagePush(begun + [Text(text)], Close(tag));
    WrittenTag(tokens, tag);
    WrittenTag(begun + [Text(text)], tag);
    assert "" + Inline(text) == Inline(text);
  }

  lemma WrittenTag(tokens: seq<Token>, tag: Tag)
    ensures Written(tokens, Open(tag)) == OpenTag(tag) && Written(tokens, Close(tag)) == CloseTag(tag)
  {
  }

  lemma BlockOpens(tokens: seq<Token>, tag: Tag)
    requires OpenAfter(tokens) == Some([]) && !tag.Li?
    ensures OpenAfter(tokens + [Open(tag)]) == Some([tag])
    ensures Page(tokens + [Open(tag)]) == Page(tokens) + ("<" + Name(tag) + ">")
    ensures forall more: seq<Token> :: Page(more + [Close(tag)]) == Page(more) + ("</" + Name(tag) + ">")
  {
    OpenPush(tokens, Open(tag));
    assert [] + [tag] == [tag];
    hide Page, OpenAfter, Name, Written;
    TagsAreNamed(tag);
    PagePush(tokens, Open(tag));
    WrittenTag(tokens, tag);
    forall more: seq<Token> ensures Page(more + [Close(tag)]) == Page(more) + ("</" + Name(tag) + ">") {
      PagePush(more, Close(tag));
      WrittenTag(more, tag);
    }
  }

  /** A paragraph is its lines, joined, between its tags. */
  lemma ParagraphIsWritten(tokens: seq<Token>, lines: seq<string>)
    requires OpenAfter(tokens) == Some([])
    ensures Page(tokens + [Open(P)] + Texts(lines) + [Close(P)]) == Page(tokens) + "<p>" + Joined(lines) + "</p>"
  {
    hide Page, OpenAfter, Texts, Joined;
    BlockOpens(tokens, P);
    WordsAreJoined(tokens + [Open(P)], lines);
  }

  /** A code block is its lines as they are, each ended, between its tags. */
  lemma CodeIsWritten(tokens: seq<Token>, lines: seq<string>)
    requires OpenAfter(tokens) == Some([])
    ensures Page(tokens + [Open(Pre)] + Texts(lines) + [Close(Pre)]) == Page(tokens) + "<pre>" + Ended(lines) + "</pre>"
  {
    hide Page, OpenAfter, Texts, Ended;
    BlockOpens(tokens, Pre);
    CodeIsEnded(tokens + [Open(Pre)], lines);
  }

  // ---- The loop

  method RenderShareMarkdown(text: string, space: char -> bool) returns (page: string, out: seq<Token>)
    ensures page == Page(out) && Tagged(page)
    ensures out == Blocks(Lines(Escape(text)), space)
    ensures Nested(out)
    ensures forall t <- out :: t.Text? ==> Inert(t.text)
    ensures TextsOf(out) == Kept(Lines(Escape(text)), space)
  {
    hide KindOf, Page, Tagged, Nested, Kept, TextsOf, Escape, Inert, Element, Texts, Blocks;
    var lines := Lines(Escape(text));
    out := [];
    var inList, inCode, para := false, false, [];
    for i := 0 to |lines|
      invariant State(out, inList, inCode, para) == Steps(lines[..i], space)
    {
      assert lines[..i + 1][..i] == lines[..i];
      var line := lines[i];
      var kind := KindOf(line, space);
      if kind.Fence? {
        if inCode {
          out, inCode := out + [Close(Pre)], false;
        } else {
          out, para := Flushed(out, para);
          out, inList := ListClosed(out, inList);
          out, inCode := out + [Open(Pre)], true;
        }
      } else if inCode {
        out := out + [Text(line)];
      } else if kind.Heading? {
        out, para := Flushed(out, para);
        out, inList := ListClosed(out, inList);
        out := out + Element(H(kind.level), kind.rest);
      } else if kind.Bullet? {
        out, para := Flushed(out, para);
        if !inList {
          out, inList := out + [Open(Ul)], true;
        }
        out := out + Element(Li, kind.rest);
      } else {
        out, inList := ListClosed(out, inList);
        if kind.Blank? {
          out, para := Flushed(out, para);
        } else {
          para := para + [line];
        }
      }
    }
    assert lines[..|lines|] == lines;
    out, para := Flushed(out, para);
    out, inList := ListClosed(out, inList);
    if inCode {
      out := out + [Close(Pre)];
    }
    PageFollowsTheGrammar(lines, space);
    PageIsNested(lines, space);
    PageIsInert(text, space);
    PageShowsTheLines(lines, space);
    PageIsTagged(text, space);
    page := Page(out);
  }

  /** flush_para */
  method Flushed(out: seq<Token>, para: seq<string>) returns (flushed: seq<Token>, left: seq<string>)
    ensures flushed == (if para == [] then out else out + [Open(P)] + Texts(para) + [Close(P)]) && left == []
  {
    flushed, left := out, para;
    if para != [] {
      flushed, left := out + [Open(P)] + Texts(para) + [Close(P)], [];
    }
  }

  /** close_list */
  method ListClosed(out: seq<Token>, inList: bool) returns (closed: seq<Token>, stillIn: bool)
    ensures closed == (if inList then out + [Close(Ul)] else out) && !stillIn
  {
    closed, stillIn := out, inList;
    if inList {
      closed, stillIn := out + [Close(Ul)], false;
    }
  }
}
