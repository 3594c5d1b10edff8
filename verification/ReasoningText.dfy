/** Separating reasoning from the final answer: a reference parse of whole texts
    and the incremental scan with a delimiter carry that refines it. */
module ReasoningText {
  import opened Common

  const OPEN := "<think>"
  const CLOSE := "</think>"
  const MAX_CARRY: nat := 7

  /** A piece of the input: a character of text, hidden or exposed, or a tag. */
  datatype Piece = Text(c: char, hidden: bool) | Tag(opening: bool)

  function TagText(opening: bool): string {
    if opening then OPEN else CLOSE
  }

  function Render(p: Piece): string {
    match p
    case Text(c, _) => [c]
    case Tag(opening) => TagText(opening)
  }

  function RenderAll(pieces: seq<Piece>): string {
    if pieces == [] then "" else Render(pieces[0]) + RenderAll(pieces[1..])
  }

  /** The text shown to the application. */
  function Exposed(pieces: seq<Piece>): string {
    if pieces == [] then ""
    else (if pieces[0].Text? && !pieces[0].hidden then [pieces[0].c] else "") + Exposed(pieces[1..])
  }

  /** The text recorded as reasoning. */
  function Hidden(pieces: seq<Piece>): string {
    if pieces == [] then ""
    else (if pieces[0].Text? && pieces[0].hidden then [pieces[0].c] else "") + Hidden(pieces[1..])
  }

  /** A tag sets the mode, text keeps it. */
  function ModeOf(hidden: bool, p: Piece): bool {
    if p.Tag? then p.opening else hidden
  }

  function ModeAfter(hidden: bool, pieces: seq<Piece>): bool
    decreases |pieces|
  {
    if pieces == [] then hidden else ModeAfter(ModeOf(hidden, pieces[0]), pieces[1..])
  }

  /** Each character carries the mode set by the tags before it. */
  predicate ModesRight(hidden: bool, pieces: seq<Piece>)
    decreases |pieces|
  {
    pieces == [] || ((pieces[0].Text? ==> pieces[0].hidden == hidden)
                     && ModesRight(ModeOf(hidden, pieces[0]), pieces[1..]))
  }

  /** The piece `s` starts with: a tag if it can be one, else one character. */
  function First(hidden: bool, s: string): (p: Piece)
    requires s != ""
    ensures 1 <= |Render(p)| && Render(p) <= s
  {
    if OPEN <= s then Tag(true) else if CLOSE <= s then Tag(false) else Text(s[0], hidden)
  }

  /** The reference: read a whole text from the left, tags first. */
  function Parse(hidden: bool, s: string): seq<Piece>
    decreases |s|
  {
    if s == "" then []
    else
      var p := First(hidden, s);
      [p] + Parse(ModeOf(hidden, p), s[|Render(p)|..])
  }

  /** `s` could still become a tag (the empty text could, too). */
  predicate Partial(s: string) {
    s < OPEN || s < CLOSE
  }

  datatype Scanned = Scanned(pieces: seq<Piece>, hidden: bool, carry: string)

  function Prepend(p: Piece, r: Scanned): Scanned {
    r.(pieces := [p] + r.pieces)
  }

  /** Like the reference, but a trailing part that could still become a tag is
      carried over. */
  function Scan(hidden: bool, s: string): Scanned
    decreases |s|
  {
    if Partial(s) then Scanned([], hidden, s)
    else
      var p := First(hidden, s);
      Prepend(p, Scan(ModeOf(hidden, p), s[|Render(p)|..]))
  }

  /** `s` as text of one mode. */
  function Plain(hidden: bool, s: string): seq<Piece> {
    seq(|s|, i requires 0 <= i < |s| => Text(s[i], hidden))
  }

  // ---- Concatenation -----------------------------------------------------

  lemma {:induction false} ExposedAppend(a: seq<Piece>, b: seq<Piece>)
    ensures Exposed(a + b) == Exposed(a) + Exposed(b)
  {
    if a == [] {
      assert a + b == b;
    } else {
      assert (a + b)[1..] == a[1..] + b;
      ExposedAppend(a[1..], b);
    }
  }

  lemma {:induction false} HiddenAppend(a: seq<Piece>, b: seq<Piece>)
    ensures Hidden(a + b) == Hidden(a) + Hidden(b)
  {
    if a == [] {
      assert a + b == b;
    } else {
      assert (a + b)[1..] == a[1..] + b;
      HiddenAppend(a[1..], b);
    }
  }

  lemma {:induction false} PlainText(hidden: bool, s: string)
    ensures Exposed(Plain(hidden, s)) == if hidden then "" else s
    ensures Hidden(Plain(hidden, s)) == if hidden then s else ""
    decreases |s|
  {
    if s != "" {
      assert Plain(hidden, s)[1..] == Plain(hidden, s[1..]);
      PlainText(hidden, s[1..]);
    }
  }

  lemma PlainCons(hidden: bool, s: string)
    requires s != ""
    ensures Plain(hidden, s) == [Text(s[0], hidden)] + Plain(hidden, s[1..])
  {
  }

  // ---- Tags and partial tags ---------------------------------------------

  /** A tag has its only '<' in front. */
  lemma TagShape(opening: bool, s: string, i: nat)
    requires s <= TagText(opening) && 0 < i < |s|
    ensures s[i] != '<'
  {
    assert s[i] == TagText(opening)[i];
  }

  lemma PartialStart(s: string)
    requires Partial(s)
    ensures !(OPEN <= s) && !(CLOSE <= s)
  {
    assert OPEN[1] != CLOSE[1];
  }

  /** A partial tag contains no tag. */
  lemma PartialHasNoTag(s: string, opening: bool, i: nat)
    requires Partial(s) && i <= |s|
    ensures !(TagText(opening) <= s[i..])
  {
    PartialStart(s);
    if i == 0 {
      assert s[0..] == s;
    } else if i < |s| {
      TagShape(s < OPEN, s, i);
      assert s[i..][0] == s[i];
    }
  }

  /** What `a` starts with is settled as soon as `a` is not a partial tag. */
  lemma FirstSettled(hidden: bool, a: string, b: string)
    requires !Partial(a)
    ensures a != "" && a + b != "" && !Partial(a + b) && First(hidden, a + b) == First(hidden, a)
  {
    PrefixSettled(OPEN, a, b);
    PrefixSettled(CLOSE, a, b);
    assert "" < OPEN;
  }

  lemma PrefixSettled(d: string, a: string, b: string)
    requires !(a < d)
    ensures d <= a + b <==> d <= a
    ensures !(a + b < d)
  {
    assert (a + b)[..|a|] == a;
  }

  // ---- The scan is a monoid action ----------------------------------------

  function After(r: Scanned, q: Scanned): Scanned {
    Scanned(r.pieces + q.pieces, q.hidden, q.carry)
  }

  lemma PrependAfter(p: Piece, r: Scanned, q: Scanned)
    ensures After(Prepend(p, r), q) == Prepend(p, After(r, q))
  {
    assert ([p] + r.pieces) + q.pieces == [p] + (r.pieces + q.pieces);
  }

  /** Scanning `a` and going on from its mode and carry with `b` is scanning
      `a + b`. */
  lemma {:induction false} ScanAppend(hidden: bool, a: string, b: string)
    ensures var r := Scan(hidden, a);
      Scan(hidden, a + b) == After(r, Scan(r.hidden, r.carry + b))
    decreases |a|
  {
    var r := Scan(hidden, a);
    var q := Scan(r.hidden, r.carry + b);
    if Partial(a) {
      assert [] + q.pieces == q.pieces;
    } else {
      FirstSettled(hidden, a, b);
      var p := First(hidden, a);
      var n := |Render(p)|;
      assert (a + b)[n..] == a[n..] + b;
      ScanAppend(ModeOf(hidden, p), a[n..], b);
      PrependAfter(p, Scan(ModeOf(hidden, p), a[n..]), q);
      hide Partial, First, Render;
    }
  }

  function Concat(chunks: seq<string>): string {
    if chunks == [] then "" else chunks[0] + Concat(chunks[1..])
  }

  /** The parser's state and all its output after the feeds of `chunks`. */
  function Feeds(state: Scanned, chunks: seq<string>): Scanned
    decreases |chunks|
  {
    if chunks == [] then state
    else Feeds(After(state, Scan(state.hidden, state.carry + chunks[0])), chunks[1..])
  }

  lemma AfterAssociates(r: Scanned, q: Scanned, u: Scanned)
    ensures After(After(r, q), u) == After(r, After(q, u))
  {
    assert (r.pieces + q.pieces) + u.pieces == r.pieces + (q.pieces + u.pieces);
  }

  lemma {:induction false} FeedsAreOneScan(state: Scanned, chunks: seq<string>)
    requires Partial(state.carry)
    ensures Feeds(state, chunks) == After(state, Scan(state.hidden, state.carry + Concat(chunks)))
    decreases |chunks|
  {
    hide *;
    if chunks == [] {
      FeedsNone(state);
    } else {
      FeedsStep(state, chunks);
      var rest := Concat(chunks[1..]);
      var q := Scan(state.hidden, state.carry + chunks[0]);
      ScanCarry(state.hidden, state.carry + chunks[0]);
      FeedsAreOneScan(After(state, q), chunks[1..]);
      ScanAppend(state.hidden, state.carry + chunks[0], rest);
      AfterAssociates(state, q, Scan(q.hidden, q.carry + rest));
      assert (state.carry + chunks[0]) + rest == state.carry + Concat(chunks);
    }
  }

  lemma FeedsNone(state: Scanned)
    requires Partial(state.carry)
    ensures Feeds(state, []) == After(state, Scan(state.hidden, state.carry + Concat([])))
  {
    assert state.carry + "" == state.carry;
    assert state.pieces + [] == state.pieces;
  }

  lemma FeedsStep(state: Scanned, chunks: seq<string>)
    requires chunks != []
    ensures var q := Scan(state.hidden, state.carry + chunks[0]);
      && Concat(chunks) == chunks[0] + Concat(chunks[1..])
      && Feeds(state, chunks) == Feeds(After(state, q), chunks[1..])
      && After(state, q).hidden == q.hidden && After(state, q).carry == q.carry
  {
    hide Scan;
  }

  lemma {:induction false} ScanCarry(hidden: bool, s: string)
    ensures Partial(Scan(hidden, s).carry) && |Scan(hidden, s).carry| <= MAX_CARRY
    decreases |s|
  {
    if !Partial(s) {
      FirstSettled(hidden, s, "");
      var p := First(hidden, s);
      ScanCarry(ModeOf(hidden, p), s[|Render(p)|..]);
      hide Partial, First, Render;
    }
  }

  /** Conservation: the input is the rendered pieces followed by the carry. */
  lemma {:induction false} ScanConserves(hidden: bool, s: string)
    ensures RenderAll(Scan(hidden, s).pieces) + Scan(hidden, s).carry == s
    decreases |s|
  {
    if !Partial(s) {
      FirstSettled(hidden, s, "");
      var p := First(hidden, s);
      var n := |Render(p)|;
      var r := Scan(ModeOf(hidden, p), s[n..]);
      assert Scan(hidden, s) == Prepend(p, r);
      ScanConserves(ModeOf(hidden, p), s[n..]);
      RenderCons(p, r.pieces);
      hide *;
      Splice(s, Render(p), RenderAll(r.pieces), r.carry);
    }
  }

  lemma RenderCons(p: Piece, pieces: seq<Piece>)
    ensures RenderAll([p] + pieces) == Render(p) + RenderAll(pieces)
  {
    assert ([p] + pieces)[1..] == pieces;
  }

  lemma Splice(s: string, x: string, y: string, z: string)
    requires x <= s && y + z == s[|x|..]
    ensures (x + y) + z == s
  {
  }

  /** Every character is in the mode set by the tags before it. */
  lemma {:induction false} ScanModes(hidden: bool, s: string)
    ensures ModesRight(hidden, Scan(hidden, s).pieces)
    ensures ModeAfter(hidden, Scan(hidden, s).pieces) == Scan(hidden, s).hidden
    decreases |s|
  {
    if !Partial(s) {
      FirstSettled(hidden, s, "");
      var p := First(hidden, s);
      assert p.Text? ==> p.hidden == hidden;
      var n := |Render(p)|;
      hide Partial, First, Render;
      var r := Scan(ModeOf(hidden, p), s[n..]);
      ScanModes(ModeOf(hidden, p), s[n..]);
      assert ([p] + r.pieces)[1..] == r.pieces;
    }
  }

  /** Reading text without tags. */
  lemma {:induction false} ParsePlain(hidden: bool, s: string)
    requires forall i | 0 <= i <= |s| :: !(OPEN <= s[i..]) && !(CLOSE <= s[i..])
    ensures Parse(hidden, s) == Plain(hidden, s)
    decreases |s|
  {
    if s != "" {
      assert s[0..] == s;
      forall i | 0 <= i <= |s[1..]| ensures !(OPEN <= s[1..][i..]) && !(CLOSE <= s[1..][i..]) {
        assert s[1..][i..] == s[i + 1..];
      }
      ParsePlain(hidden, s[1..]);
      assert Plain(hidden, s) == [Text(s[0], hidden)] + Plain(hidden, s[1..]);
    }
  }

  lemma PartialIsText(hidden: bool, s: string)
    requires Partial(s)
    ensures Parse(hidden, s) == Plain(hidden, s)
  {
    forall i | 0 <= i <= |s| ensures !(OPEN <= s[i..]) && !(CLOSE <= s[i..]) {
      PartialHasNoTag(s, true, i);
      PartialHasNoTag(s, false, i);
    }
    ParsePlain(hidden, s);
  }

  lemma Associative(a: seq<Piece>, b: seq<Piece>, c: seq<Piece>)
    ensures (a + b) + c == a + (b + c)
  {
  }

  /** Scanning and then flushing the carry as text is the reference parse. */
  lemma {:induction false} ScanIsParse(hidden: bool, s: string)
    ensures var r := Scan(hidden, s);
      Parse(hidden, s) == r.pieces + Plain(r.hidden, r.carry)
    decreases |s|
  {
    if Partial(s) {
      PartialIsText(hidden, s);
      assert [] + Plain(hidden, s) == Plain(hidden, s);
    } else {
      FirstSettled(hidden, s, "");
      var p := First(hidden, s);
      var r := Scan(ModeOf(hidden, p), s[|Render(p)|..]);
      ScanIsParse(ModeOf(hidden, p), s[|Render(p)|..]);
      Associative([p], r.pieces, Plain(r.hidden, r.carry));
      hide Partial, First, Render, Plain;
    }
  }

  /** Chunk invariance: however a text is cut into chunks, feeding them and then
      finishing yields the reference parse of the whole text. */
  lemma ChunkInvariance(hidden: bool, chunks: seq<string>)
    ensures var r := Feeds(Scanned([], hidden, ""), chunks);
      r.pieces + Plain(r.hidden, r.carry) == Parse(hidden, Concat(chunks))
  {
    var start := Scanned([], hidden, "");
    FeedsAreOneScan(start, chunks);
    assert "" + Concat(chunks) == Concat(chunks);
    ScanIsParse(hidden, Concat(chunks));
    assert Feeds(start, chunks).pieces == Scan(hidden, Concat(chunks)).pieces;
  }

  // ---- Exactly the tags that occur are recognised ----------------------------

  ghost predicate Contains(s: string, d: string) {
    exists i | 0 <= i <= |s| :: d <= s[i..]
  }

  lemma ContainsTail(s: string, d: string, n: nat)
    requires n <= |s|
    requires forall i | 0 <= i < n :: !(d <= s[i..])
    ensures Contains(s, d) <==> Contains(s[n..], d)
  {
    if Contains(s, d) {
      var i :| 0 <= i <= |s| && d <= s[i..];
      assert s[n..][i - n..] == s[i..];
    }
    if Contains(s[n..], d) {
      var i :| 0 <= i <= |s[n..]| && d <= s[n..][i..];
      assert s[n..][i..] == s[n + i..];
    }
  }

  /** Tags do not overlap. */
  lemma NoTagInside(hidden: bool, s: string, opening: bool, i: nat)
    requires s != "" && 0 < i < |Render(First(hidden, s))|
    ensures !(TagText(opening) <= s[i..])
  {
    var p := First(hidden, s);
    TagShape(p.opening, TagText(p.opening), i);
    assert s[i..][0] == s[i] == TagText(p.opening)[i];
  }

  lemma {:induction false} TagsAreOccurrences(hidden: bool, s: string, opening: bool)
    ensures Tag(opening) in Parse(hidden, s) <==> Contains(s, TagText(opening))
    decreases |s|
  {
    var d := TagText(opening);
    if s == "" {
    } else {
      var p := First(hidden, s);
      var n := |Render(p)|;
      assert s[0..] == s;
      FirstIsTag(hidden, s, opening);
      if p != Tag(opening) {
        forall i | 0 <= i < n ensures !(d <= s[i..]) {
          if i > 0 { NoTagInside(hidden, s, opening, i); }
        }
        ContainsTail(s, d, n);
        TagsAreOccurrences(ModeOf(hidden, p), s[n..], opening);
      }
    }
  }

  lemma FirstIsTag(hidden: bool, s: string, opening: bool)
    requires s != ""
    ensures First(hidden, s) == Tag(opening) <==> TagText(opening) <= s
  {
    assert OPEN[1] != CLOSE[1];
  }

  /** Text of a stream that starts hidden is exposed only after a closing tag. */
  lemma {:induction false} NoCloseNoExposure(pieces: seq<Piece>)
    requires ModesRight(true, pieces) && Tag(false) !in pieces
    ensures Exposed(pieces) == ""
  {
    if pieces != [] {
      NoCloseNoExposure(pieces[1..]);
    }
  }

  /** With reasoning expected and no closing tag anywhere, no feed exposes
      anything, under any chunking, and neither does the end. */
  lemma HiddenUntilClose(chunks: seq<string>)
    requires !Contains(Concat(chunks), CLOSE)
    ensures Exposed(Feeds(Scanned([], true, ""), chunks).pieces) == ""
    ensures Exposed(Parse(true, Concat(chunks))) == ""
  {
    var s := Concat(chunks);
    var r := Scan(true, s);
    FeedsAreOneScan(Scanned([], true, ""), chunks);
    assert "" + s == s;
    assert Feeds(Scanned([], true, ""), chunks).pieces == r.pieces;
    TagsAreOccurrences(true, s, false);
    ScanIsParse(true, s);
    ScanModes(true, s);
    assert Tag(false) !in r.pieces;
    NoCloseNoExposure(r.pieces);
    StaysHidden(r.pieces);
    ExposedAppend(r.pieces, Plain(r.hidden, r.carry));
    PlainText(r.hidden, r.carry);
  }

  lemma {:induction false} StaysHidden(pieces: seq<Piece>)
    requires Tag(false) !in pieces
    ensures ModeAfter(true, pieces)
  {
    if pieces != [] {
      StaysHidden(pieces[1..]);
    }
  }

  lemma TagNotYet(s: string, n: nat)
    requires 0 < n < |OPEN| && n < |s| && s[n] == '<'
    ensures !(OPEN <= s) && !(CLOSE <= s)
  {
    TagShape(true, OPEN, n);
    TagShape(false, CLOSE, n);
  }

  lemma OneOrdinary(s: string)
    requires s != "" && !(OPEN <= s) && !(CLOSE <= s)
    ensures Exposed(Parse(false, s)) == [s[0]] + Exposed(Parse(false, s[1..]))
  {
    var rest := Parse(false, s[1..]);
    assert ([Text(s[0], false)] + rest)[1..] == rest;
  }

  lemma CloseFirst(b: string)
    ensures Exposed(Parse(false, CLOSE + b)) == Exposed(Parse(false, b))
  {
    var s := CLOSE + b;
    assert CLOSE <= s && s[|CLOSE|..] == b;
    FirstIsTag(false, s, false);
    hide First;
    var rest := Parse(false, b);
    assert ([Tag(false)] + rest)[1..] == rest;
  }

  /** Fewer characters than a tag has, right before a closing tag, are text. */
  lemma {:induction false} TextBeforeClose(a: string, b: string)
    requires |a| < |OPEN|
    ensures Exposed(Parse(false, a + (CLOSE + b))) == a + Exposed(Parse(false, b))
    decreases |a|
  {
    hide Parse, Exposed;
    var s := a + (CLOSE + b);
    if a == "" {
      CloseFirst(b);
      assert s == CLOSE + b;
    } else {
      TagNotYet(s, |a|);
      assert s[1..] == a[1..] + (CLOSE + b);
      TextBeforeClose(a[1..], b);
      OneOrdinary(s);
      assert a == [a[0]] + a[1..];
    }
  }

  lemma ShortIsText(b: string)
    requires |b| < |OPEN|
    ensures Exposed(Parse(false, b)) == b
  {
    ParsePlain(false, b);
    PlainText(false, b);
  }

  /** The exposed text may still spell a tag: taking one out joins the two halves
      of another, wherever that one was cut. */
  lemma ExposedMaySpellATag(k: nat)
    requires 1 <= k < |OPEN|
    ensures Exposed(Parse(false, OPEN[..k] + (CLOSE + OPEN[k..]))) == OPEN
  {
    hide Parse, Exposed;
    TextBeforeClose(OPEN[..k], OPEN[k..]);
    ShortIsText(OPEN[k..]);
    assert OPEN == OPEN[..k] + OPEN[k..];
  }
}
