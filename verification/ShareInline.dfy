/**
 The inline passes of a shared page (_inline in src/multiplayer/api/share_page.py): backticks become code and double
 stars become bold, on text that is already escaped. Both work on strings, so the second sees the first's tags.
 */
module ShareInline {
  import opened Prelude

  /** The only tags a page's body is made of. */
  predicate Fixed(tag: string) {
    tag in {"<p>", "</p>", "<ul>", "</ul>", "<li>", "</li>", "<pre>", "</pre>", "<h3>", "</h3>", "<h4>", "</h4>",
            "<h5>", "</h5>", "<code>", "</code>", "<strong>", "</strong>"}
  }

  /** No character that could open a tag or leave an attribute. */
  predicate Inert(text: string) {
    forall c <- text :: c !in {'<', '>', '"', '\''}
  }

  // ---- The two substitutions

  /** Where c stands next, from i on, or the end. */
  function Next(s: string, c: char, i: nat): (j: nat)
    requires i <= |s|
    ensures i <= j <= |s| && (j < |s| ==> s[j] == c) && forall k | i <= k < j :: s[k] != c
    decreases |s| - i
  {
    if i == |s| || s[i] == c then i else Next(s, c, i + 1)
  }

  /** What a scan of some text finds first: a marked pair, or a mark that starts none, and the text behind it. */
  datatype Match =
    | Pair(before: string, opening: string, inner: string, closing: string, rest: string)
    | Skip(head: string, rest: string)

  function Whole(m: Match): string {
    match m
    case Pair(before, opening, inner, closing, rest) => before + opening + inner + closing + rest
    case Skip(head, rest) => head + rest
  }

  function PairAt(s: string, i: nat, w: nat, j: nat): (m: Match)
    requires i + w <= j && j + w <= |s|
    ensures Whole(m) == s
  {
    assert s[..i] + s[i..i + w] == s[..i + w];
    assert s[..i + w] + s[i + w..j] == s[..j];
    assert s[..j] + s[j..j + w] == s[..j + w];
    Pair(s[..i], s[i..i + w], s[i + w..j], s[j..j + w], s[j + w..])
  }

  function SkipTo(s: string, i: nat): (m: Match)
    requires i <= |s|
    ensures Whole(m) == s
  {
    Skip(s[..i], s[i..])
  }

  predicate Marks(s: string, c: char) {
    s != "" && forall k | 0 <= k < |s| :: s[k] == c
  }

  /** A match of this text, around marks of this kind; a skipped head ends in a mark or what follows starts with one. */
  predicate MatchOf(m: Match, s: string, c: char) {
    && Whole(m) == s && |m.rest| < |s|
    && match m
       case Pair(_, opening, _, closing, _) => Marks(opening, c) && Marks(closing, c)
       case Skip(head, rest) => head != "" && head[|head| - 1] == c
  }

  /** `([^`]+)`: two backticks in a row match nothing. */
  function CodeNext(s: string): (r: Option<Match>)
    ensures r.Some? ==> MatchOf(r.value, s, '`')
  {
    var i := Next(s, '`', 0);
    var j := if i < |s| then Next(s, '`', i + 1) else i;
    if j == |s| then None else if j == i + 1 then Some(SkipTo(s, j)) else Some(PairAt(s, i, 1, j))
  }

  /** A pair of double stars around something starts at i and ends at j. */
  predicate Pairs(s: string, i: nat, j: nat) {
    i + 2 < j && j + 1 < |s| && s[i] == s[i + 1] == s[j] == s[j + 1] == '*'
  }

  /** \*\*([^*]+)\*\* */
  function BoldNext(s: string): (r: Option<Match>)
    ensures r.Some? ==> MatchOf(r.value, s, '*')
  {
    var i := Next(s, '*', 0);
    var j := if i + 2 <= |s| then Next(s, '*', i + 2) else i;
    if i == |s| then None else if Pairs(s, i, j) then Some(PairAt(s, i, 2, j)) else Some(SkipTo(s, i + 1))
  }

  /** What is written for a match: a pair's marks become tags. */
  function Emit(m: Match, open: string, close: string): string {
    match m
    case Pair(before, _, inner, _, _) => before + open + inner + close
    case Skip(head, _) => head
  }

  /** re.sub: from the left, without overlaps. */
  function CodePass(s: string): string
    decreases |s|
  {
    match CodeNext(s)
    case None => s
    case Some(m) => Emit(m, "<code>", "</code>") + CodePass(m.rest)
  }

  function BoldPass(s: string): string
    decreases |s|
  {
    match BoldNext(s)
    case None => s
    case Some(m) => Emit(m, "<strong>", "</strong>") + BoldPass(m.rest)
  }

  function Inline(escaped: string): string {
    BoldPass(CodePass(escaped))
  }

  // ---- What each pass writes

  /** A text, a mark, a text without the mark's character, a mark, and the rest: where the marks and texts stand. */
  lemma PairStands(a: string, mark: string, inner: string, rest: string)
    ensures var s := a + mark + inner + mark + rest;
            var i, j := |a|, |a| + |mark| + |inner|;
            && s[..i] == a && s[i..i + |mark|] == mark && s[i + |mark|..j] == inner && s[j..j + |mark|] == mark
            && s[j + |mark|..] == rest && |s| == j + |mark| + |rest|
            && (forall k :: 0 <= k < |a| ==> s[k] == a[k]) && (forall k :: 0 <= k < |mark| ==> s[i + k] == mark[k])
            && (forall k :: i + |mark| <= k < j ==> s[k] == inner[k - i - |mark|])
            && (forall k :: 0 <= k < |mark| ==> s[j + k] == mark[k])
  {
  }

  lemma CodeFinds(a: string, inner: string, rest: string)
    requires '`' !in a && '`' !in inner && inner != ""
    ensures CodeNext(a + "`" + inner + "`" + rest) == Some(Pair(a, "`", inner, "`", rest))
  {
    var s, i, j := a + "`" + inner + "`" + rest, |a|, |a| + 1 + |inner|;
    hide Next;
    PairStands(a, "`", inner, rest);
    NextIs(s, '`', 0, i);
    NextIs(s, '`', i + 1, j);
  }

  lemma LoneFinds(a: string, inner: string)
    requires '`' !in a && '`' !in inner
    ensures CodeNext(a + "`" + inner) == None
  {
    var one, i := a + "`" + inner, |a|;
    hide Next;
    assert one[i] == '`' && forall k :: 0 <= k < |a| ==> one[k] == a[k];
    assert forall k :: i < k < |one| ==> one[k] == inner[k - i - 1];
    NextIs(one, '`', 0, i);
    NextIs(one, '`', i + 1, |one|);
  }

  /** The first two backticks around something become its tags; a lone one, and text without, stays. */
  lemma CodePassPairs(a: string, inner: string, rest: string)
    requires '`' !in a && '`' !in inner
    ensures inner != "" ==> CodePass(a + "`" + inner + "`" + rest) == a + "<code>" + inner + "</code>" + CodePass(rest)
    ensures CodePass(a) == a && CodePass(a + "`" + inner) == a + "`" + inner
  {
    hide CodeNext;
    NoneNext(a);
    LoneFinds(a, inner);
    if inner != "" {
      CodeFinds(a, inner, rest);
    }
  }

  lemma NoneNext(a: string)
    ensures '`' !in a ==> CodeNext(a) == None
    ensures '*' !in a ==> BoldNext(a) == None
  {
  }

  lemma BoldFindsAt(s: string, i: nat, j: nat)
    requires i + 2 <= j < |s| && Pairs(s, i, j) && (forall k :: 0 <= k < i ==> s[k] != '*')
    requires forall k :: i + 2 <= k < j ==> s[k] != '*'
    ensures BoldNext(s) == Some(PairAt(s, i, 2, j))
  {
    hide Next, PairAt;
    NextIs(s, '*', 0, i);
    NextIs(s, '*', i + 2, j);
  }

  lemma PairAtIs(a: string, mark: string, inner: string, rest: string)
    ensures var s := a + mark + inner + mark + rest;
            PairAt(s, |a|, |mark|, |a| + |mark| + |inner|) == Pair(a, mark, inner, mark, rest)
  {
    PairStands(a, mark, inner, rest);
  }

  lemma StarsStand(a: string, inner: string, rest: string)
    requires '*' !in a && '*' !in inner && inner != ""
    ensures var s, i, j := a + "**" + inner + "**" + rest, |a|, |a| + 2 + |inner|;
            && j < |s| && Pairs(s, i, j) && (forall k :: 0 <= k < i ==> s[k] != '*')
            && forall k :: i + 2 <= k < j ==> s[k] != '*'
  {
    var s, i, j := a + "**" + inner + "**" + rest, |a|, |a| + 2 + |inner|;
    assert s[i] == '*' && s[i + 1] == '*' && s[j] == '*' && s[j + 1] == '*';
    assert forall k :: i + 2 <= k < j ==> s[k] == inner[k - i - 2];
    assert forall k :: 0 <= k < i ==> s[k] == a[k];
  }

  lemma BoldFinds(a: string, inner: string, rest: string)
    requires '*' !in a && '*' !in inner && inner != ""
    ensures BoldNext(a + "**" + inner + "**" + rest) == Some(Pair(a, "**", inner, "**", rest))
  {
    hide BoldNext, Pairs, PairAt;
    StarsStand(a, inner, rest);
    PairAtIs(a, "**", inner, rest);
    BoldFindsAt(a + "**" + inner + "**" + rest, |a|, |a| + 2 + |inner|);
  }

  /** The first two double stars around something become its tags; text without stars stays. */
  lemma BoldPassPairs(a: string, inner: string, rest: string)
    requires '*' !in a && '*' !in inner
    ensures inner != "" ==> BoldPass(a + "**" + inner + "**" + rest) == a + "<strong>" + inner + "</strong>" + BoldPass(rest)
    ensures BoldPass(a) == a
  {
    hide BoldNext;
    NoneNext(a);
    if inner != "" {
      BoldFinds(a, inner, rest);
    }
  }

  // ---- Only fixed tags

  predicate StandsAt(s: string, i: int, tag: string) {
    0 <= i && i + |tag| <= |s| && s[i..i + |tag|] == tag
  }

  ghost predicate Begins(s: string, i: int) {
    exists tag :: Fixed(tag) && StandsAt(s, i, tag)
  }

  ghost predicate Ends(s: string, i: int) {
    exists tag :: Fixed(tag) && StandsAt(s, i + 1 - |tag|, tag)
  }

  ghost predicate GoodAt(s: string, i: nat)
    requires i < |s|
  {
    && (s[i] == '<' ==> Begins(s, i))
    && (s[i] == '>' ==> Ends(s, i))
    && s[i] !in {'"', '\''}
  }

  /** Each '<' begins a fixed tag, each '>' ends one, and there are no quotes. */
  ghost predicate Tagged(s: string) {
    forall i :: 0 <= i < |s| ==> GoodAt(s, i)
  }

  lemma InertIsTagged(s: string)
    requires Inert(s)
    ensures Tagged(s)
  {
    forall i | 0 <= i < |s| ensures GoodAt(s, i) {
      assert s[i] in s;
    }
  }

  lemma StandsFurther(a: string, b: string, i: int, tag: string)
    ensures StandsAt(a, i, tag) ==> StandsAt(a + b, i, tag)
    ensures StandsAt(b, i, tag) ==> StandsAt(a + b, |a| + i, tag)
  {
    if StandsAt(a, i, tag) {
      assert (a + b)[i..i + |tag|] == a[i..i + |tag|];
    }
    if StandsAt(b, i, tag) {
      assert (a + b)[|a| + i..|a| + i + |tag|] == b[i..i + |tag|];
    }
  }

  lemma GoodBefore(a: string, b: string, i: nat)
    requires i < |a| && GoodAt(a, i)
    ensures GoodAt(a + b, i)
  {
    hide Fixed, StandsAt;
    if a[i] == '<' {
      var tag :| Fixed(tag) && StandsAt(a, i, tag);
      StandsFurther(a, b, i, tag);
    }
    if a[i] == '>' {
      var tag :| Fixed(tag) && StandsAt(a, i + 1 - |tag|, tag);
      StandsFurther(a, b, i + 1 - |tag|, tag);
    }
  }

  lemma GoodBehind(a: string, b: string, i: nat)
    requires i < |b| && GoodAt(b, i)
    ensures GoodAt(a + b, |a| + i)
  {
    hide Fixed, StandsAt;
    if b[i] == '<' {
      var tag :| Fixed(tag) && StandsAt(b, i, tag);
      StandsFurther(a, b, i, tag);
    }
    if b[i] == '>' {
      var tag :| Fixed(tag) && StandsAt(b, i + 1 - |tag|, tag);
      StandsFurther(a, b, i + 1 - |tag|, tag);
      assert |a| + (i + 1 - |tag|) == |a| + i + 1 - |tag|;
    }
  }

  lemma TaggedConcat(a: string, b: string)
    requires Tagged(a) && Tagged(b)
    ensures Tagged(a + b)
  {
    hide GoodAt;
    forall i | 0 <= i < |a + b| ensures GoodAt(a + b, i) {
      if i < |a| {
        GoodBefore(a, b, i);
      } else {
        GoodBehind(a, b, i - |a|);
      }
    }
  }

  /** Tags have angle brackets at their two ends only, and hold neither stars nor quotes. */
  lemma FixedTagShape(tag: string, k: nat)
    requires Fixed(tag) && k < |tag|
    ensures tag[k] !in {'*', '"', '\''} && (tag[k] == '<' ==> k == 0) && (tag[k] == '>' ==> k == |tag| - 1)
  {
  }

  lemma TagIsTagged(tag: string)
    requires Fixed(tag)
    ensures Tagged(tag)
  {
    assert StandsAt(tag, 0, tag);
    forall i | 0 <= i < |tag| ensures GoodAt(tag, i) {
      FixedTagShape(tag, i);
      hide Fixed, StandsAt;
    }
  }

  /** A cut beside a star cuts no tag. */
  lemma StandsWhole(s: string, i: int, tag: string, k: nat)
    requires Fixed(tag) && StandsAt(s, i, tag) && 0 < k < |s| && (s[k] == '*' || s[k - 1] == '*')
    ensures i + |tag| <= k ==> StandsAt(s[..k], i, tag)
    ensures k <= i ==> StandsAt(s[k..], i - k, tag)
    ensures i + |tag| <= k || k <= i
  {
    if i + |tag| <= k {
      assert s[..k][i..i + |tag|] == s[i..i + |tag|];
    } else if k <= i {
      assert s[k..][i - k..i - k + |tag|] == s[i..i + |tag|];
    } else {
      NoStarInTag(s, i, tag, k);
      NoStarInTag(s, i, tag, k - 1);
      assert false;
    }
  }

  lemma NoStarInTag(s: string, i: int, tag: string, m: nat)
    requires Fixed(tag) && StandsAt(s, i, tag) && i <= m < i + |tag|
    ensures s[m] != '*'
  {
    FixedTagShape(tag, m - i);
    hide Fixed;
    assert s[i..i + |tag|][m - i] == s[m];
  }

  lemma BeginsInPart(s: string, k: nat, i: nat)
    requires 0 < k < |s| && (s[k] == '*' || s[k - 1] == '*') && i < |s| && Begins(s, i)
    ensures i < k ==> Begins(s[..k], i)
    ensures k <= i ==> Begins(s[k..], i - k)
  {
    hide Fixed, StandsAt;
    var tag :| Fixed(tag) && StandsAt(s, i, tag);
    NotEmpty(tag);
    StandsWhole(s, i, tag, k);
  }

  lemma EndsInPart(s: string, k: nat, i: nat)
    requires 0 < k < |s| && (s[k] == '*' || s[k - 1] == '*') && i < |s| && Ends(s, i)
    ensures i < k ==> Ends(s[..k], i)
    ensures k <= i ==> Ends(s[k..], i - k)
  {
    hide Fixed, StandsAt;
    var tag :| Fixed(tag) && StandsAt(s, i + 1 - |tag|, tag);
    NotEmpty(tag);
    StandsWhole(s, i + 1 - |tag|, tag, k);
    assert i + 1 - |tag| - k == i - k + 1 - |tag|;
  }

  lemma GoodInPart(s: string, k: nat, i: nat)
    requires 0 < k < |s| && (s[k] == '*' || s[k - 1] == '*') && i < |s| && GoodAt(s, i)
    ensures i < k ==> GoodAt(s[..k], i)
    ensures k <= i ==> GoodAt(s[k..], i - k)
  {
    hide Begins, Ends;
    if s[i] == '<' {
      BeginsInPart(s, k, i);
    }
    if s[i] == '>' {
      EndsInPart(s, k, i);
    }
  }

  lemma NotEmpty(tag: string)
    requires Fixed(tag)
    ensures |tag| > 0
  {
  }

  /** Parted beside a star. */
  predicate PartedAtStar(a: string, b: string) {
    a == "" || b == "" || a[|a| - 1] == '*' || b[0] == '*'
  }

  lemma TaggedParts(a: string, b: string)
    requires Tagged(a + b) && PartedAtStar(a, b)
    ensures Tagged(a) && Tagged(b)
  {
    var s, k := a + b, |a|;
    if a == "" || b == "" {
      assert a == "" ==> s == b;
      assert b == "" ==> s == a;
    } else {
      assert s[..k] == a && s[k..] == b && s[k - 1] == a[k - 1] && s[k] == b[0];
      hide GoodAt;
      forall i | 0 <= i < |a| ensures GoodAt(a, i) {
        GoodInPart(s, k, i);
      }
      forall i | 0 <= i < |b| ensures GoodAt(b, i) {
        GoodInPart(s, k, i + k);
      }
    }
  }

  lemma InertMiddle(text: string, i: nat, j: nat)
    requires Inert(text) && i <= j <= |text|
    ensures Inert(text[i..j])
  {
    forall c | c in text[i..j] ensures c in text {
    }
  }

  /** A replaced pair: what stood before, and the tags around what stood between. */
  lemma WrappedIsTagged(before: string, open: string, inner: string, close: string)
    requires Tagged(before) && Fixed(open) && Tagged(inner) && Fixed(close)
    ensures Tagged(before + open + inner + close)
  {
    TagIsTagged(open);
    TagIsTagged(close);
    hide Tagged;
    TaggedConcat(before, open);
    TaggedConcat(before + open, inner);
    TaggedConcat(before + open + inner, close);
  }

  lemma InertParts(a: string, b: string)
    requires Inert(a + b)
    ensures Inert(a) && Inert(b)
  {
    forall c | c in a || c in b ensures c in a + b {
    }
  }

  lemma CodeEmitIsTagged(m: Match)
    requires Inert(Whole(m))
    ensures Tagged(Emit(m, "<code>", "</code>")) && Inert(m.rest)
  {
    assert Fixed("<code>") && Fixed("</code>");
    hide Inert, Tagged, Fixed;
    match m
    case Pair(before, opening, inner, closing, rest) =>
      InertParts(before + opening + inner + closing, rest);
      InertParts(before + opening + inner, closing);
      InertParts(before + opening, inner);
      InertParts(before, opening);
      InertIsTagged(before);
      InertIsTagged(inner);
      WrappedIsTagged(before, "<code>", inner, "</code>");
    case Skip(head, rest) =>
      InertParts(head, rest);
      InertIsTagged(head);
  }

  lemma {:induction false} CodePassIsTagged(s: string)
    requires Inert(s)
    ensures Tagged(CodePass(s))
    decreases |s|
  {
    hide Tagged, Inert, CodeNext, Emit;
    InertIsTagged(s);
    if CodeNext(s).Some? {
      var m := CodeNext(s).value;
      CodeEmitIsTagged(m);
      CodePassIsTagged(m.rest);
      TaggedConcat(Emit(m, "<code>", "</code>"), CodePass(m.rest));
    }
  }

  lemma BoldEmitIsTagged(m: Match, s: string)
    requires MatchOf(m, s, '*') && Tagged(s)
    ensures Tagged(Emit(m, "<strong>", "</strong>")) && Tagged(m.rest)
  {
    assert Fixed("<strong>") && Fixed("</strong>");
    hide Tagged, Fixed;
    match m
    case Pair(before, opening, inner, closing, rest) =>
      assert (before + opening + inner + closing)[|before + opening + inner + closing| - 1] == closing[|closing| - 1];
      TaggedParts(before + opening + inner + closing, rest);
      TaggedParts(before + opening + inner, closing);
      assert (before + opening)[|before + opening| - 1] == opening[|opening| - 1];
      TaggedParts(before + opening, inner);
      TaggedParts(before, opening);
      WrappedIsTagged(before, "<strong>", inner, "</strong>");
    case Skip(head, rest) => TaggedParts(head, rest);
  }

  lemma {:induction false} BoldPassIsTagged(s: string)
    requires Tagged(s)
    ensures Tagged(BoldPass(s))
    decreases |s|
  {
    hide Tagged, BoldNext, Emit;
    if BoldNext(s).Some? {
      var m := BoldNext(s).value;
      BoldEmitIsTagged(m, s);
      BoldPassIsTagged(m.rest);
      TaggedConcat(Emit(m, "<strong>", "</strong>"), BoldPass(m.rest));
    }
  }

  /** Escaped text comes out of both passes with no tag but the fixed ones, even where the two passes cross. */
  lemma InlineIsTagged(escaped: string)
    requires Inert(escaped)
    ensures Tagged(Inline(escaped))
  {
    CodePassIsTagged(escaped);
    BoldPassIsTagged(CodePass(escaped));
  }

  // ---- Nothing lost but the marks

  predicate Mark(c: char) {
    c in {'`', '*'}
  }

  /** Whether the end of s stands inside angle brackets. */
  predicate InTag(s: string) {
    s != "" && (s[|s| - 1] == '<' || (s[|s| - 1] != '>' && InTag(s[..|s| - 1])))
  }

  /** What a reader sees: neither tags nor the two marks. */
  function Visible(s: string): string {
    if s == "" then ""
    else
      var before, c := s[..|s| - 1], s[|s| - 1];
      Visible(before) + if InTag(before) || c in {'<', '>'} || Mark(c) then "" else [c]
  }

  /** Brackets are closed, and no mark stands between them. */
  ghost predicate Clean(s: string) {
    !InTag(s) && forall k :: 0 <= k < |s| && Mark(s[k]) ==> !InTag(s[..k])
  }

  lemma {:induction false} InTagAppend(a: string, b: string)
    requires !InTag(a)
    ensures InTag(a + b) == InTag(b) && Visible(a + b) == Visible(a) + Visible(b)
  {
    if b == "" {
      assert a + b == a;
    } else {
      var n := |b| - 1;
      assert b == b[..n] + [b[n]] && a + b == a + b[..n] + [b[n]];
      hide InTag, Visible;
      InTagAppend(a, b[..n]);
      OneMoreChar(b[..n], b[n]);
      OneMoreChar(a + b[..n], b[n]);
    }
  }

  lemma OneMoreChar(s: string, c: char)
    ensures InTag(s + [c]) <==> c == '<' || (c != '>' && InTag(s))
    ensures Visible(s + [c]) == Visible(s) + if InTag(s) || c in {'<', '>'} || Mark(c) then "" else [c]
  {
    assert (s + [c])[..|s + [c]| - 1] == s;
  }

  lemma CleanConcat(a: string, b: string)
    requires Clean(a) && Clean(b)
    ensures Clean(a + b) && Visible(a + b) == Visible(a) + Visible(b)
  {
    var s := a + b;
    InTagAppend(a, b);
    forall k | 0 <= k < |s| && Mark(s[k]) ensures !InTag(s[..k]) {
      if k < |a| {
        assert s[..k] == a[..k];
      } else {
        assert s[..k] == a + b[..k - |a|];
        InTagAppend(a, b[..k - |a|]);
      }
    }
  }

  lemma {:induction false} InertIsClean(s: string)
    requires Inert(s)
    ensures !InTag(s)
  {
    if s != "" {
      var n := |s| - 1;
      assert s[n] in s;
      InertMiddle(s, 0, n);
      assert s[0..n] == s[..n];
      InertIsClean(s[..n]);
    }
  }

  lemma InertIsAllClean(s: string)
    requires Inert(s)
    ensures Clean(s)
  {
    InertIsClean(s);
    forall k | 0 <= k < |s| ensures !InTag(s[..k]) {
      InertMiddle(s, 0, k);
      assert s[0..k] == s[..k];
      InertIsClean(s[..k]);
    }
  }

  lemma {:induction false} CleanPrefix(a: string, b: string)
    requires Clean(a + b) && (b == "" || Mark(b[0]) || (a != "" && Mark(a[|a| - 1])))
    ensures !InTag(a)
  {
    var s := a + b;
    if b == "" {
      assert s == a;
    } else if Mark(b[0]) {
      assert s[|a|] == b[0] && s[..|a|] == a;
    } else {
      assert s[|a| - 1] == a[|a| - 1] && s[..|a| - 1] == a[..|a| - 1];
    }
  }

  /** Cut at a mark, or just behind one, both parts are clean. */
  lemma CleanParts(a: string, b: string)
    requires Clean(a + b) && (b == "" || Mark(b[0]) || (a != "" && Mark(a[|a| - 1])))
    ensures Clean(a) && Clean(b) && Visible(a + b) == Visible(a) + Visible(b)
  {
    var s := a + b;
    CleanPrefix(a, b);
    InTagAppend(a, b);
    hide InTag, Visible;
    forall m | 0 <= m < |a| && Mark(a[m]) ensures !InTag(a[..m]) {
      assert a[m] == s[m] && a[..m] == s[..m];
    }
    forall m | 0 <= m < |b| && Mark(b[m]) ensures !InTag(b[..m]) {
      assert b[m] == s[|a| + m] && s[..|a| + m] == a + b[..m];
      InTagAppend(a, b[..m]);
    }
  }

  lemma {:induction false} MarksAreInvisible(s: string)
    requires forall k | 0 <= k < |s| :: Mark(s[k])
    ensures !InTag(s) && Visible(s) == ""
  {
    if s != "" {
      MarksAreInvisible(s[..|s| - 1]);
    }
  }

  lemma TagIsInvisible(tag: string)
    requires tag in {"<code>", "</code>", "<strong>", "</strong>"}
    ensures Clean(tag) && Visible(tag) == ""
  {
    BracketedIsInvisible(tag, |tag| - 1);
  }

  lemma {:induction false} BracketedIsInvisible(tag: string, n: nat)
    requires n < |tag| && tag[0] == '<' && tag[|tag| - 1] == '>'
    requires forall k | 0 < k < |tag| - 1 :: tag[k] !in {'<', '>'}
    requires forall k | 0 <= k < |tag| :: !Mark(tag[k])
    ensures n > 0 ==> InTag(tag[..n])
    ensures Visible(tag[..n]) == ""
    ensures n == |tag| - 1 && n > 0 ==> Clean(tag) && Visible(tag) == ""
  {
    if n > 0 {
      BracketedIsInvisible(tag, n - 1);
      assert tag[..n][..n - 1] == tag[..n - 1];
    }
  }

  /** Marks between two parts: both are clean, and the marks show nothing. */
  lemma MarkedPart(a: string, marks: string, b: string, c: char)
    requires Mark(c) && Marks(marks, c) && Clean(a + marks + b)
    ensures Clean(a) && Clean(b) && Visible(a + marks + b) == Visible(a) + Visible(b)
  {
    hide Clean, InTag, Visible;
    var am := a + marks;
    assert am[|am| - 1] == marks[|marks| - 1];
    CleanParts(am, b);
    CleanParts(a, marks);
    MarksAreInvisible(marks);
    hide Marks, Mark;
    assert Visible(a) + "" == Visible(a);
  }

  /** Two tags around something and marks around it show the same. */
  lemma EmittedShows(before: string, inner: string, open: string, close: string)
    requires Clean(before) && Clean(inner)
    requires Clean(open) && Clean(close) && Visible(open) == "" && Visible(close) == ""
    ensures Clean(before + open + inner + close) && Visible(before + open + inner + close) == Visible(before) + Visible(inner)
  {
    hide Clean, InTag, Visible;
    CleanConcat(before, open);
    assert Visible(before) + "" == Visible(before);
    CleanConcat(before + open, inner);
    CleanConcat(before + open + inner, close);
    assert Visible(before) + Visible(inner) + "" == Visible(before) + Visible(inner);
  }

  /** Replacing a pair's marks by tags leaves the text, and what follows is as clean as before. */
  lemma EmitKeepsText(m: Match, s: string, c: char, open: string, close: string)
    requires Mark(c) && MatchOf(m, s, c) && Clean(s)
    requires open in {"<code>", "<strong>"} && close in {"</code>", "</strong>"}
    ensures Clean(Emit(m, open, close)) && Clean(m.rest) && Visible(s) == Visible(Emit(m, open, close)) + Visible(m.rest)
  {
    hide Clean, InTag, Visible, Marks, Mark;
    match m
    case Pair(before, opening, inner, closing, rest) =>
      PairKeepsText(before, opening, inner, closing, rest, c, open, close);
    case Skip(head, rest) => SkipKeepsText(m, s, c);
  }

  lemma SkipKeepsText(m: Match, s: string, c: char)
    requires Mark(c) && MatchOf(m, s, c) && Clean(s) && m.Skip?
    ensures Clean(m.head) && Clean(m.rest) && Visible(s) == Visible(m.head) + Visible(m.rest)
  {
    hide Clean, InTag, Visible;
    CleanParts(m.head, m.rest);
  }

  lemma PairKeepsText(before: string, opening: string, inner: string, closing: string, rest: string, c: char, open: string,
                      close: string)
    requires Mark(c) && Marks(opening, c) && Marks(closing, c) && Clean(before + opening + inner + closing + rest)
    requires open in {"<code>", "<strong>"} && close in {"</code>", "</strong>"}
    ensures Clean(before + open + inner + close) && Clean(rest)
    ensures Visible(before + opening + inner + closing + rest) == Visible(before + open + inner + close) + Visible(rest)
  {
    hide Clean, InTag, Visible, Marks, Mark;
    TagIsInvisible(open);
    TagIsInvisible(close);
    MarkedPart(before + opening + inner, closing, rest, c);
    MarkedPart(before, opening, inner, c);
    EmittedShows(before, inner, open, close);
  }

  lemma {:induction false} CodePassKeepsText(s: string)
    requires Clean(s)
    ensures Clean(CodePass(s)) && Visible(CodePass(s)) == Visible(s)
    decreases |s|
  {
    hide Clean, Visible, CodeNext, Emit;
    if CodeNext(s).Some? {
      var m := CodeNext(s).value;
      EmitKeepsText(m, s, '`', "<code>", "</code>");
      CodePassKeepsText(m.rest);
      CleanConcat(Emit(m, "<code>", "</code>"), CodePass(m.rest));
    }
  }

  lemma {:induction false} BoldPassKeepsText(s: string)
    requires Clean(s)
    ensures Clean(BoldPass(s)) && Visible(BoldPass(s)) == Visible(s)
    decreases |s|
  {
    hide Clean, Visible, BoldNext, Emit;
    if BoldNext(s).Some? {
      var m := BoldNext(s).value;
      EmitKeepsText(m, s, '*', "<strong>", "</strong>");
      BoldPassKeepsText(m.rest);
      CleanConcat(Emit(m, "<strong>", "</strong>"), BoldPass(m.rest));
    }
  }

  /** The two passes lose and move no text: what a reader sees is the line without backticks and stars. */
  lemma InlineKeepsText(escaped: string)
    requires Inert(escaped)
    ensures Visible(Inline(escaped)) == Visible(escaped) && Clean(Inline(escaped))
  {
    InertIsAllClean(escaped);
    CodePassKeepsText(escaped);
    BoldPassKeepsText(CodePass(escaped));
  }

  // ---- The two passes can cross

  const CROSSING := "`**`a**"
  const HALFWAY := "<code>**</code>a**"
  const CROSSED := "<code><strong></code>a</strong>"

  lemma NextIs(s: string, c: char, i: nat, j: nat)
    requires i <= j <= |s| && (j < |s| ==> s[j] == c) && forall k | i <= k < j :: s[k] != c
    ensures Next(s, c, i) == j
  {
  }

  lemma CodeMatches()
    ensures CodeNext(CROSSING) == Some(Pair("", "`", "**", "`", "a**")) && CodeNext("a**").None?
  {
    var s := CROSSING;
    NextIs(s, '`', 0, 0);
    NextIs(s, '`', 1, 3);
    NextIs("a**", '`', 0, 3);
    assert s[..0] == "" && s[0..1] == "`" && s[1..3] == "**" && s[3..4] == "`" && s[4..] == "a**";
    hide Next;
  }

  lemma CodeOfCrossing()
    ensures CodePass(CROSSING) == "" + "<code>" + "**" + "</code>" + "a**"
  {
    CodeMatches();
    hide CodeNext;
    assert CodePass("a**") == "a**";
  }

  lemma BoldMatches()
    ensures BoldNext(HALFWAY) == Some(Pair("<code>", "**", "</code>a", "**", "")) && BoldNext("").None?
  {
    var s := HALFWAY;
    NextIs(s, '*', 0, 6);
    NextIs(s, '*', 8, 16);
    hide Next;
    HalfwayParts();
  }

  lemma HalfwayParts()
    ensures HALFWAY[..6] == "<code>" && HALFWAY[6..8] == "**" && HALFWAY[8..16] == "</code>a"
    ensures HALFWAY[16..18] == "**" && HALFWAY[18..] == ""
  {
  }

  lemma BoldOfHalfway()
    ensures BoldPass(HALFWAY) == "<code>" + "<strong>" + "</code>a" + "</strong>" + ""
  {
    BoldMatches();
    hide BoldNext;
    assert BoldPass("") == "";
  }

  /** Bold opened inside code may close outside it: the tags are fixed, but they need not nest. */
  lemma InlineMayCross()
    ensures Inline(CROSSING) == CROSSED
  {
    CodeOfCrossing();
    BoldOfHalfway();
    hide CodePass, BoldPass;
    assert "" + "<code>" + "**" + "</code>" + "a**" == HALFWAY;
    assert "<code>" + "<strong>" + "</code>a" + "</strong>" + "" == CROSSED;
  }
}
