/** The parser that the stream redactor and the evaluation share: it updates its
    mode, its carry and its reasoning parts chunk by chunk. */
module ReasoningParser {
  import opened Common
  import opened ReasoningText

  // ---- From searching for delimiters to the scan ---------------------------

  ghost predicate NoTagBefore(s: string, k: nat) {
    forall i | 0 <= i < k && i <= |s| :: !(OPEN <= s[i..]) && !(CLOSE <= s[i..])
  }

  lemma NoTagBeforeTail(s: string, k: nat)
    requires s != "" && 0 < k && NoTagBefore(s, k)
    ensures !(OPEN <= s) && !(CLOSE <= s)
    ensures NoTagBefore(s[1..], k - 1)
  {
    assert s[0..] == s;
    forall i | 0 <= i < k - 1 && i <= |s[1..]|
      ensures !(OPEN <= s[1..][i..]) && !(CLOSE <= s[1..][i..])
    {
      assert s[1..][i..] == s[i + 1..];
    }
  }

  lemma OrdinaryStep(hidden: bool, s: string, k: nat)
    requires s != "" && 0 < k <= |s| && NoTagBefore(s, k) && !Partial(s)
    ensures Scan(hidden, s) == Prepend(Text(s[0], hidden), Scan(hidden, s[1..]))
    ensures Plain(hidden, s[..k]) == [Text(s[0], hidden)] + Plain(hidden, s[1..][..k - 1])
  {
    NoTagBeforeTail(s, k);
    hide Partial, NoTagBefore;
    PlainCons(hidden, s[..k]);
    assert s[..k][1..] == s[1..][..k - 1];
  }

  /** What precedes the leftmost tag is text, and the tag sets the mode. */
  lemma {:induction false} ScanTag(hidden: bool, s: string, k: nat, opening: bool)
    requires k <= |s| && NoTagBefore(s, k) && TagText(opening) <= s[k..]
    ensures 0 < |TagText(opening)| <= |s| - k
    ensures Scan(hidden, s) == After(Scanned(Plain(hidden, s[..k]) + [Tag(opening)], opening, ""),
                                     Scan(opening, s[k + |TagText(opening)|..]))
    decreases k
  {
    hide Scan, Plain, Partial, NoTagBefore, After, TagText;
    TagIsWhole(s, k, opening);
    if k == 0 {
      assert s[0..] == s;
      TagFirst(hidden, s, opening);
    } else {
      OrdinaryStep(hidden, s, k);
      NoTagBeforeTail(s, k);
      assert s[1..][k - 1..] == s[k..];
      ScanTag(hidden, s[1..], k - 1, opening);
      var n := |TagText(opening)|;
      var c := Text(s[0], hidden);
      var plain := Plain(hidden, s[1..][..k - 1]);
      assert s[1..][k - 1 + n..] == s[k + n..];
      PrependAfter(c, Scanned(plain + [Tag(opening)], opening, ""), Scan(opening, s[k + n..]));
      Associative([c], plain, [Tag(opening)]);
    }
  }

  lemma TagIsWhole(s: string, k: nat, opening: bool)
    requires k <= |s| && TagText(opening) <= s[k..]
    ensures 0 < |TagText(opening)| <= |s| - k && !Partial(s)
  {
    if Partial(s) {
      PartialHasNoTag(s, opening, k);
    }
  }

  lemma TagFirst(hidden: bool, s: string, opening: bool)
    requires TagText(opening) <= s && !Partial(s)
    ensures Scan(hidden, s) == After(Scanned(Plain(hidden, s[..0]) + [Tag(opening)], opening, ""),
                                     Scan(opening, s[|TagText(opening)|..]))
  {
    FirstIsTag(hidden, s, opening);
    assert Plain(hidden, s[..0]) + [Tag(opening)] == [Tag(opening)];
  }

  /** Without a tag, everything up to the longest partial tag is text. */
  lemma {:induction false} ScanNoTag(hidden: bool, s: string, k: nat)
    requires k <= |s| && NoTagBefore(s, |s| + 1)
    requires Partial(s[k..]) && forall i | 0 <= i < k :: !Partial(s[i..])
    ensures Scan(hidden, s) == Scanned(Plain(hidden, s[..k]), hidden, s[k..])
    decreases k
  {
    if k == 0 {
      assert s[0..] == s;
      assert Plain(hidden, s[..0]) == [];
    } else {
      assert s[0..] == s;
      assert NoTagBefore(s, k);
      OrdinaryStep(hidden, s, k);
      NoTagBeforeTail(s, |s| + 1);
      forall i | 0 <= i < k - 1 ensures !Partial(s[1..][i..]) {
        assert s[1..][i..] == s[i + 1..];
      }
      assert s[1..][k - 1..] == s[k..];
      hide Partial, NoTagBefore;
      ScanNoTag(hidden, s[1..], k - 1);
    }
  }

  // ---- The search helpers ---------------------------------------------------

  /** Python's `s.find(d)`. */
  function Find(s: string, d: string): (r: Option<nat>)
    ensures r.Some? ==> r.value <= |s| && d <= s[r.value..]
    ensures r.Some? ==> forall i | 0 <= i < r.value :: !(d <= s[i..])
    ensures r.None? ==> forall i | 0 <= i <= |s| :: !(d <= s[i..])
  {
    if d <= s then
      assert s[0..] == s; Some(0)
    else if s == "" then None
    else
      assert forall i | 0 < i <= |s| :: s[1..][i - 1..] == s[i..];
      assert s[0..] == s;
      match Find(s[1..], d)
      case None => None
      case Some(k) => Some(k + 1)
  }

  /** The leftmost delimiter. */
  function NextDelimiter(value: string): (r: Option<(nat, bool)>)
    ensures r.None? ==> NoTagBefore(value, |value| + 1)
    ensures r.Some? ==> r.value.0 <= |value| && NoTagBefore(value, r.value.0)
    ensures r.Some? ==> TagText(r.value.1) <= value[r.value.0..]
  {
    match (Find(value, OPEN), Find(value, CLOSE))
    case (None, None) => None
    case (Some(i), None) => Some((i, true))
    case (None, Some(j)) => Some((j, false))
    case (Some(i), Some(j)) => if i <= j then Some((i, true)) else Some((j, false))
  }

  lemma PartialIsShort(s: string)
    requires Partial(s)
    ensures |s| <= MAX_CARRY
  {
  }

  lemma EmptyIsPartial()
    ensures Partial("")
  {
    assert "" < OPEN;
  }

  predicate BeginsDelimiter(suffix: string) {
    suffix <= OPEN || suffix <= CLOSE
  }

  lemma SuffixPartial(value: string, i: nat)
    requires NoTagBefore(value, |value| + 1) && i <= |value|
    ensures Partial(value[i..]) <==> BeginsDelimiter(value[i..])
  {
  }

  ghost predicate NonePartial(value: string, from: nat, to: nat) {
    forall i | from <= i < to && i <= |value| :: !Partial(value[i..])
  }

  /** One candidate size of the suffix, from short to long. */
  lemma SuffixStep(value: string, start: nat, kept: nat)
    requires NoTagBefore(value, |value| + 1) && start < kept <= |value|
    requires NonePartial(value, start + 1, kept)
    ensures if BeginsDelimiter(value[start..]) then Partial(value[start..]) && NonePartial(value, start, start)
            else NonePartial(value, start, kept)
  {
    SuffixPartial(value, start);
  }

  lemma TooLongForPartial(value: string, start: nat, kept: nat)
    requires NonePartial(value, start, kept) && (start == 0 || |value| - start >= MAX_CARRY)
    ensures NonePartial(value, 0, kept)
  {
    forall i | 0 <= i < start && i <= |value| ensures !Partial(value[i..]) {
      if Partial(value[i..]) {
        PartialIsShort(value[i..]);
      }
    }
  }

  /** How much of a text without tags is safe to classify: all but its longest
      suffix that could still become a tag. */
  method SafePrefixLength(value: string) returns (length: nat)
    requires NoTagBefore(value, |value| + 1)
    ensures length <= |value| && Partial(value[length..]) && NonePartial(value, 0, length)
  {
    var keep := 0;
    var maxSuffix := if |value| < MAX_CARRY then |value| else MAX_CARRY;
    var size := 1;
    EmptyIsPartial();
    assert value[|value|..] == "";
    hide *;
    assert NonePartial(value, |value|, |value|) by { NoneYet(value); }
    while size <= maxSuffix
      invariant keep < size <= maxSuffix + 1
      invariant Partial(value[|value| - keep..])
      invariant NonePartial(value, |value| - size + 1, |value| - keep)
    {
      var suffix := value[|value| - size..];
      SuffixStep(value, |value| - size, |value| - keep);
      if BeginsDelimiter(suffix) {
        keep := size;
      }
      size := size + 1;
    }
    length := |value| - keep;
    TooLongForPartial(value, |value| - size + 1, length);
  }

  lemma NoneYet(value: string)
    ensures NonePartial(value, |value|, |value|)
  {
  }

  // ---- The parser -------------------------------------------------------------

  lemma {:induction false} ConcatAppend(parts: seq<string>, x: string)
    ensures Concat(parts + [x]) == Concat(parts) + x
  {
    if parts == [] {
      assert parts + [x] == [x];
      assert Concat([x][1..]) == "";
    } else {
      assert (parts + [x])[1..] == parts[1..] + [x];
      ConcatAppend(parts[1..], x);
    }
  }

  /** A stretch of text of one mode and the tag that ends it. */
  ghost function TagBlock(hidden: bool, text: string, opening: bool): Scanned {
    Scanned(Plain(hidden, text) + [Tag(opening)], opening, "")
  }

  lemma AfterOutput(state: Scanned, next: Scanned)
    ensures Exposed(After(state, next).pieces) == Exposed(state.pieces) + Exposed(next.pieces)
    ensures Hidden(After(state, next).pieces) == Hidden(state.pieces) + Hidden(next.pieces)
    ensures After(state, next).hidden == next.hidden && After(state, next).carry == next.carry
  {
    ExposedAppend(state.pieces, next.pieces);
    HiddenAppend(state.pieces, next.pieces);
  }

  lemma TagBlockOutput(hidden: bool, text: string, opening: bool)
    ensures Exposed(TagBlock(hidden, text, opening).pieces) == Exposed(Plain(hidden, text))
    ensures Hidden(TagBlock(hidden, text, opening).pieces) == Hidden(Plain(hidden, text))
  {
    var tag := [Tag(opening)];
    assert tag[1..] == [];
    assert Exposed(tag) == "" + Exposed([]);
    assert Hidden(tag) == "" + Hidden([]);
    ExposedAppend(Plain(hidden, text), tag);
    HiddenAppend(Plain(hidden, text), tag);
  }

  /** One round of the loop that finds a tag. */
  lemma TagStep(state: Scanned, buffer: string, index: nat, opening: bool)
    requires state.carry == ""
    requires index <= |buffer| && NoTagBefore(buffer, index) && TagText(opening) <= buffer[index..]
    ensures 0 < |TagText(opening)| <= |buffer| - index
    ensures var plain := Plain(state.hidden, buffer[..index]);
      var next := After(state, TagBlock(state.hidden, buffer[..index], opening));
      && After(state, Scan(state.hidden, buffer))
         == After(next, Scan(opening, buffer[index + |TagText(opening)|..]))
      && next.hidden == opening && next.carry == ""
      && Exposed(next.pieces) == Exposed(state.pieces) + Exposed(plain)
      && Hidden(next.pieces) == Hidden(state.pieces) + Hidden(plain)
  {
    hide Plain, Scan, After, Exposed, Hidden, NoTagBefore, TagText;
    var block := TagBlock(state.hidden, buffer[..index], opening);
    ScanTag(state.hidden, buffer, index, opening);
    AfterAssociates(state, block, Scan(opening, buffer[index + |TagText(opening)|..]));
    AfterOutput(state, block);
    TagBlockOutput(state.hidden, buffer[..index], opening);
  }

  /** The last round: no tag is left. */
  lemma LastStep(state: Scanned, buffer: string, safe: nat)
    requires safe <= |buffer| && NoTagBefore(buffer, |buffer| + 1)
    requires Partial(buffer[safe..]) && NonePartial(buffer, 0, safe)
    ensures var plain := Plain(state.hidden, buffer[..safe]);
      var end := After(state, Scan(state.hidden, buffer));
      && end.hidden == state.hidden && end.carry == buffer[safe..]
      && Exposed(end.pieces) == Exposed(state.pieces) + Exposed(plain)
      && Hidden(end.pieces) == Hidden(state.pieces) + Hidden(plain)
  {
    ScanNoTag(state.hidden, buffer, safe);
    AfterOutput(state, Scan(state.hidden, buffer));
    hide Plain, Scan, After, Exposed, Hidden, Partial, NoTagBefore;
  }

  lemma AllCarried(state: Scanned, buffer: string)
    requires NoTagBefore(buffer, |buffer| + 1) && Partial(buffer[0..])
    ensures var end := After(state, Scan(state.hidden, buffer));
      end.hidden == state.hidden && end.carry == buffer && end.pieces == state.pieces
  {
    assert buffer[0..] == buffer;
  }

  lemma LastScan(state: Scanned)
    requires state.carry == ""
    ensures After(state, Scan(state.hidden, "")) == state
  {
    EmptyIsPartial();
    assert state.pieces + [] == state.pieces;
  }

  lemma FirstRound(hidden: bool, whole: Scanned)
    ensures After(Scanned([], hidden, ""), whole) == whole
  {
    assert [] + whole.pieces == whole.pieces;
  }

  class ReasoningStreamParser {
    const collectReasoning: bool
    var inReasoning: bool
    var carry: string
    var reasoningParts: seq<string>

    ghost predicate Valid()
      reads this
    {
      Partial(carry)
    }

    function Reasoning(): string
      reads `reasoningParts
    {
      Concat(reasoningParts)
    }

    /** What the parser keeps of `pieces`. */
    ghost function Recorded(pieces: seq<Piece>): string {
      if collectReasoning then Hidden(pieces) else ""
    }

    constructor (expectReasoning: bool, collectReasoning: bool)
      ensures Valid() && this.collectReasoning == collectReasoning
      ensures inReasoning == expectReasoning && carry == "" && Reasoning() == ""
    {
      this.collectReasoning := collectReasoning;
      inReasoning := expectReasoning;
      carry := "";
      reasoningParts := [];
      new;
      EmptyIsPartial();
    }

    method RecordReasoning(text: string)
      modifies `reasoningParts
      ensures Reasoning() == old(Reasoning()) + (if collectReasoning then text else "")
    {
      if collectReasoning && text != "" {
        ConcatAppend(reasoningParts, text);
        reasoningParts := reasoningParts + [text];
      }
    }

    /** The output so far and the recorded reasoning are those of `pieces`. */
    ghost predicate Emitted(output: seq<string>, base: string, pieces: seq<Piece>)
      reads `reasoningParts
    {
      Concat(output) == Exposed(pieces) && Reasoning() == base + Recorded(pieces)
    }

    /** Text of the current mode goes to the output or to the reasoning. */
    method ConsumeOrdinary(text: string, output: seq<string>,
                           ghost base: string, ghost done: seq<Piece>, ghost more: seq<Piece>)
      returns (next: seq<string>)
      requires Emitted(output, base, done)
      requires Exposed(more) == Exposed(done) + Exposed(Plain(inReasoning, text))
      requires Hidden(more) == Hidden(done) + Hidden(Plain(inReasoning, text))
      modifies `reasoningParts
      ensures Emitted(next, base, more)
    {
      next := output;
      PlainText(inReasoning, text);
      hide Exposed, Hidden, Plain, Concat;
      if text == "" {
        return;
      }
      if inReasoning {
        RecordReasoning(text);
      } else {
        ConcatAppend(output, text);
        next := output + [text];
      }
    }

    lemma NothingFed()
      requires Valid()
      ensures Scan(inReasoning, carry + "") == Scanned([], inReasoning, carry)
      ensures Exposed([]) == "" && Reasoning() + Recorded([]) == Reasoning()
    {
      assert carry + "" == carry;
    }

    lemma NothingEmitted()
      ensures Emitted([], Reasoning(), [])
    {
    }

    /** One feed is one scan of the carry and the chunk. */
    method Feed(chunk: string) returns (exposed: string)
      requires Valid()
      modifies this
      ensures Valid()
      ensures var r := Scan(old(inReasoning), old(carry) + chunk);
        && exposed == Exposed(r.pieces)
        && inReasoning == r.hidden && carry == r.carry
        && Reasoning() == old(Reasoning()) + Recorded(r.pieces)
    {
      hide Scan, After, Plain, NoTagBefore, NonePartial, TagText, TagBlock, Exposed, Hidden, Concat;
      hide Partial, Reasoning, Emitted;
      if chunk == "" {
        NothingFed();
        return "";
      }
      var buffer := carry + chunk;
      ghost var whole := Scan(inReasoning, buffer);
      ghost var before := Reasoning();
      ScanCarry(inReasoning, buffer);
      carry := "";
      var output: seq<string> := [];
      ghost var state := Scanned([], inReasoning, "");
      FirstRound(inReasoning, whole);
      NothingEmitted();
      while buffer != ""
        invariant whole == After(state, Scan(inReasoning, buffer)) && carry == ""
        invariant state.hidden == inReasoning && state.carry == ""
        invariant Emitted(output, before, state.pieces)
        decreases |buffer|
      {
        var found := NextDelimiter(buffer);
        if found.Some? {
          var (index, opening) := found.value;
          ghost var text := buffer[..index];
          TagStep(state, buffer, index, opening);
          ghost var next := After(state, TagBlock(inReasoning, text, opening));
          output := ConsumeOrdinary(buffer[..index], output, before, state.pieces, next.pieces);
          buffer := buffer[index + |TagText(opening)|..];
          inReasoning := opening;
          state := next;
          continue;
        }
        var safe := SafePrefixLength(buffer);
        if safe == 0 {
          AllCarried(state, buffer);
          carry := buffer;
          state := whole;
          break;
        }
        LastStep(state, buffer, safe);
        output := ConsumeOrdinary(buffer[..safe], output, before, state.pieces, whole.pieces);
        state := whole;
        carry := buffer[safe..];
        break;
      }
      if buffer == "" {
        LastScan(state);
      }
      UseEmitted(output, before, whole.pieces);
      exposed := Concat(output);
    }

    lemma UseEmitted(output: seq<string>, base: string, pieces: seq<Piece>)
      requires Emitted(output, base, pieces)
      ensures Concat(output) == Exposed(pieces) && Reasoning() == base + Recorded(pieces)
    {
    }

    /** The carry becomes text of the current mode. */
    method Finish() returns (exposed: string)
      requires Valid()
      modifies this
      ensures Valid() && carry == "" && inReasoning == old(inReasoning)
      ensures exposed == Exposed(Plain(inReasoning, old(carry)))
      ensures Reasoning() == old(Reasoning())
                             + Recorded(Plain(inReasoning, old(carry)))
    {
      var rest := carry;
      PlainText(inReasoning, rest);
      EmptyIsPartial();
      carry := "";
      if rest == "" {
        return "";
      }
      if inReasoning {
        RecordReasoning(rest);
        return "";
      }
      return rest;
    }
  }

  /** Any number of feeds and the final flush expose and record exactly what the
      reference parse of the whole text does. */
  method FeedAll(parser: ReasoningStreamParser, chunks: seq<string>) returns (exposed: string)
    requires parser.Valid() && parser.carry == "" && parser.Reasoning() == ""
    modifies parser
    ensures var pieces := Parse(old(parser.inReasoning), Concat(chunks));
      && exposed == Exposed(pieces)
      && parser.Reasoning() == parser.Recorded(pieces)
  {
    exposed := "";
    ghost var start := Scanned([], parser.inReasoning, "");
    ghost var state := start;
    for i := 0 to |chunks|
      invariant parser.Valid() && parser.inReasoning == state.hidden && parser.carry == state.carry
      invariant exposed == Exposed(state.pieces)
      invariant parser.Reasoning() == parser.Recorded(state.pieces)
      invariant Feeds(start, chunks) == Feeds(state, chunks[i..])
    {
      ghost var q := Scan(state.hidden, state.carry + chunks[i]);
      var part := parser.Feed(chunks[i]);
      ExposedAppend(state.pieces, q.pieces);
      HiddenAppend(state.pieces, q.pieces);
      assert chunks[i..][1..] == chunks[i + 1..];
      exposed := exposed + part;
      state := After(state, q);
    }
    ghost var rest := parser.carry;
    var tail := parser.Finish();
    ExposedAppend(state.pieces, Plain(state.hidden, rest));
    HiddenAppend(state.pieces, Plain(state.hidden, rest));
    ChunkInvariance(start.hidden, chunks);
    exposed := exposed + tail;
  }

  // ---- Whole contents -----------------------------------------------------------

  predicate Occurs(d: string, s: string) {
    Find(s, d).Some?
  }

  /** Reasoning is taken to come first if it is expected or if only closing tags
      occur. */
  predicate StartsHidden(content: string, expectReasoning: bool) {
    expectReasoning || (Occurs(CLOSE, content) && !Occurs(OPEN, content))
  }

  /** The one-shot split is the reference parse of the content, stripped. */
  method SplitReasoningContent(content: string, expectReasoning: bool)
    returns (reasoning: string, final: string)
    ensures var pieces := Parse(StartsHidden(content, expectReasoning), content);
      reasoning == Strip(Hidden(pieces)) && final == Strip(Exposed(pieces))
  {
    var closeOnly := Occurs(CLOSE, content) && !Occurs(OPEN, content);
    var parser;
    if !expectReasoning && !closeOnly {
      if !Occurs(OPEN, content) && !Occurs(CLOSE, content) {
        ParsePlain(false, content);
        PlainText(false, content);
        return "", Strip(content);
      }
      parser := new ReasoningStreamParser(false, true);
    } else {
      parser := new ReasoningStreamParser(true, true);
    }
    assert Concat([content]) == content by {
      assert [content][1..] == [];
      assert content + "" == content;
    }
    var exposed := FeedAll(parser, [content]);
    return Strip(parser.Reasoning()), Strip(exposed);
  }
}
