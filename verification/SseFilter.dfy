/** What the stream redactor does to a sequence of server-sent events, as
    functions, and what the client can read from the result. */
module SseFilter {
  import opened Common
  import opened ReasoningText
  import opened ReasoningParser

  // ---- Events ----------------------------------------------------------------

  datatype Content = NoContent | Words(s: string) | NotWords(json: string)

  datatype Delta = Delta(content: Content, others: map<string, string>)

  /** A choice that is not an object passes through untouched. `others` are the
      fields of an object besides those named. */
  datatype Choice =
    | Other(json: string)
    | Choice(delta: Option<Delta>, finishReason: Option<string>, text: string, others: map<string, string>)

  /** A decoded `data:` object: its scalar fields, whether it carries usage or
      timings, and its list of choices if it has one. */
  datatype Payload = Payload(fields: map<string, string>, usage: bool, timings: bool, choices: Option<seq<Choice>>)

  datatype Event = Raw(text: string) | Data(payload: Payload) | Failure(final: string) | Done

  /** The parts of the surroundings the filter depends on: JSON decoding and the
      validation of structured output. */
  datatype Config = Config(structured: bool, decode: string -> Option<Payload>, valid: string -> bool)

  const METADATA: seq<string> := ["id", "object", "created", "model"]

  datatype State = State(
    hidden: bool, carry: string, parts: string, finishReason: Option<string>,
    metadata: map<string, string>, doneSeen: bool)

  function Start(expectReasoning: bool): State {
    State(expectReasoning, "", "", None, map[], false)
  }

  // ---- The words of decoded events -----------------------------------------------------

  function ChoiceWords(c: Choice): string {
    if c.Choice? && c.delta.Some? && c.delta.value.content.Words? then c.delta.value.content.s else ""
  }

  function ChoicesWords(choices: seq<Choice>): string {
    if choices == [] then "" else ChoiceWords(choices[0]) + ChoicesWords(choices[1..])
  }

  function PayloadWords(p: Payload): string {
    if p.choices.Some? then ChoicesWords(p.choices.value) else ""
  }

  function EventWords(e: Event): string {
    if e.Data? then PayloadWords(e.payload) else ""
  }

  function AllWords(events: seq<Event>): string {
    if events == [] then "" else EventWords(events[0]) + AllWords(events[1..])
  }

  // ---- The filter ---------------------------------------------------------------

  predicate DeltaNonEmpty(d: Delta) {
    d.content != NoContent || d.others != map[]
  }

  predicate ChoiceSignal(c: Choice) {
    c.Choice? && (c.finishReason.Some? || (c.delta.Some? && DeltaNonEmpty(c.delta.value)) || c.text != "")
  }

  predicate HasTransportSignal(p: Payload) {
    p.usage || p.timings || (p.choices.Some? && exists c :: c in p.choices.value && ChoiceSignal(c))
  }

  function FilterDelta(structured: bool, st: State, d: Delta): (State, Delta) {
    if d.content.Words? && d.content.s != "" then
      var r := Scan(st.hidden, st.carry + d.content.s);
      var exposed := Exposed(r.pieces);
      var next := st.(hidden := r.hidden, carry := r.carry);
      if exposed == "" then (next, d.(content := NoContent))
      else if structured then (next.(parts := st.parts + exposed), d.(content := NoContent))
      else (next, d.(content := Words(exposed)))
    else (st, d)
  }

  function FilterChoice(structured: bool, st: State, c: Choice): (State, Choice) {
    if c.Other? then (st, c)
    else
      var hold := structured && c.finishReason.Some?;
      var st1 := if hold then st.(finishReason := c.finishReason) else st;
      var c1 := if hold then c.(finishReason := None) else c;
      if c.delta.None? then (st1, c1)
      else
        var (st2, d) := FilterDelta(structured, st1, c.delta.value);
        (st2, c1.(delta := Some(d)))
  }

  function FilterChoices(structured: bool, st: State, choices: seq<Choice>): (State, seq<Choice>)
    decreases |choices|
  {
    if choices == [] then (st, [])
    else
      var (st1, c) := FilterChoice(structured, st, choices[0]);
      var (st2, rest) := FilterChoices(structured, st1, choices[1..]);
      (st2, [c] + rest)
  }

  function Selected(fields: map<string, string>, keys: seq<string>): map<string, string> {
    map k | k in fields && k in keys :: fields[k]
  }

  function Remember(st: State, p: Payload): State {
    st.(metadata := st.metadata + Selected(p.fields, METADATA))
  }

  function SyntheticContent(st: State, content: string, finishReason: Option<string>): Event {
    var fields := if "object" in st.metadata then st.metadata
                  else st.metadata["object" := "chat.completion.chunk"];
    Data(Payload(fields, false, false, Some([SyntheticChoice(content, finishReason)])))
  }

  function SyntheticChoice(content: string, finishReason: Option<string>): Choice {
    Choice(Some(Delta(Words(content), map[])), finishReason, "", map["index" := "0"])
  }

  /** The end of the answer: what the parser still carries, and in structured
      mode the whole validated object. */
  function FinishContent(cfg: Config, st: State, includeDone: bool): (State, seq<Event>) {
    var tail := Exposed(Plain(st.hidden, st.carry));
    var next := st.(carry := "", parts := if cfg.structured then st.parts + tail else st.parts);
    var final := Strip(next.parts);
    var content :=
      if cfg.structured then
        [if cfg.valid(final) then SyntheticContent(st, final, st.finishReason) else Failure(final)]
      else if tail != "" then [SyntheticContent(st, tail, None)] else [];
    (next, content + (if includeDone then [Done] else []))
  }

  /** The data of an event, if it has any. */
  function DataOf(event: string): Option<string> {
    var stripped := Strip(event);
    if "data:" <= stripped then Some(Strip(stripped[5..])) else None
  }

  predicate IsDone(event: string) {
    DataOf(event) == Some("[DONE]")
  }

  function PassThrough(event: string): seq<Event> {
    if event == "" then [] else [Raw(event)]
  }

  function FilterPayload(structured: bool, st: State, p: Payload): (State, seq<Event>) {
    var st1 := Remember(st, p);
    var (st2, q) :=
      if p.choices.None? then (st1, p)
      else
        var (s, choices) := FilterChoices(structured, st1, p.choices.value);
        (s, p.(choices := Some(choices)));
    (st2, if HasTransportSignal(q) then [Data(q)] else [])
  }

  function FilterEvent(cfg: Config, st: State, event: string): (State, seq<Event>) {
    var data := DataOf(event);
    if data.None? then (st, PassThrough(event))
    else if data.value == "[DONE]" then FinishContent(cfg, st.(doneSeen := true), true)
    else
      var payload := cfg.decode(data.value);
      if payload.None? then (st, PassThrough(event)) else FilterPayload(cfg.structured, st, payload.value)
  }

  function FilterEvents(cfg: Config, st: State, events: seq<string>): (State, seq<Event>)
    decreases |events|
  {
    if events == [] then (st, [])
    else
      var (st1, out1) := FilterEvent(cfg, st, events[0]);
      var (st2, out2) := FilterEvents(cfg, st1, events[1..]);
      (st2, out1 + out2)
  }

  // ---- Frames -----------------------------------------------------------------

  const GAP := "\n\n"

  datatype Framed = Framed(frames: seq<string>, rest: string)

  /** The complete frames of a text and what follows the last gap. */
  function Frames(s: string): Framed
    decreases |s|
  {
    match Find(s, GAP)
    case None => Framed([], s)
    case Some(k) =>
      var r := Frames(s[k + |GAP|..]);
      r.(frames := [s[..k]] + r.frames)
  }

  function StripNewlines(s: string): string {
    if s != "" && s[|s| - 1] == '\n' then StripNewlines(s[..|s| - 1]) else s
  }

  /** All the events of a whole text: a last frame needs no gap after it. */
  function EventsOf(text: string): seq<string> {
    var r := Frames(text);
    if r.rest == "" then r.frames else r.frames + [StripNewlines(r.rest)]
  }

  /** Filtering the events of a stream and ending it. */
  function FilterStream(cfg: Config, st: State, events: seq<string>): (State, seq<Event>) {
    var (st1, out1) := FilterEvents(cfg, st, events);
    if st1.doneSeen then (st1, out1)
    else
      var (st2, out2) := FinishContent(cfg, st1, false);
      (st2, out1 + out2)
  }

  // ---- Chunks -------------------------------------------------------------------

  lemma {:induction false} FindExtends(a: string, b: string, d: string)
    requires Find(a, d).Some?
    ensures Find(a + b, d) == Find(a, d)
    decreases |a|
  {
    var k := Find(a, d).value;
    assert |d| <= |a| - k;
    PrefixSettled(d, a, b);
    if !(d <= a) {
      assert Find(a[1..], d).Some?;
      assert (a + b)[1..] == a[1..] + b;
      FindExtends(a[1..], b, d);
    }
  }

  function PrependFrame(frame: string, r: Framed): Framed {
    r.(frames := [frame] + r.frames)
  }

  function AfterFrames(r: Framed, q: Framed): Framed {
    Framed(r.frames + q.frames, q.rest)
  }

  lemma PrependAfterFrames(frame: string, r: Framed, q: Framed)
    ensures AfterFrames(PrependFrame(frame, r), q) == PrependFrame(frame, AfterFrames(r, q))
  {
    assert ([frame] + r.frames) + q.frames == [frame] + (r.frames + q.frames);
  }

  lemma FramesStep(s: string)
    ensures match Find(s, GAP)
      case None => Frames(s) == Framed([], s)
      case Some(k) => Frames(s) == PrependFrame(s[..k], Frames(s[k + |GAP|..]))
  {
  }

  lemma NoFramesYet(s: string, q: Framed)
    ensures AfterFrames(Framed([], s), q) == q
  {
    assert [] + q.frames == q.frames;
  }

  lemma FirstFrame(a: string, b: string, k: nat)
    requires Find(a, GAP) == Some(k)
    ensures Frames(a + b) == PrependFrame(a[..k], Frames(a[k + |GAP|..] + b))
  {
    hide *;
    FindExtends(a, b, GAP);
    FramesStep(a + b);
    SlicesOfConcat(a, b, k, k + |GAP|);
  }

  lemma SlicesOfConcat(a: string, b: string, i: nat, j: nat)
    requires i <= |a| && j <= |a|
    ensures (a + b)[..i] == a[..i] && (a + b)[j..] == a[j..] + b
  {
  }

  /** Framing a text is framing its first part and going on from what it left. */
  lemma {:induction false} FramesAppend(a: string, b: string)
    ensures Frames(a + b) == AfterFrames(Frames(a), Frames(Frames(a).rest + b))
    decreases |a|
  {
    hide Frames, AfterFrames, Find;
    FramesStep(a);
    match Find(a, GAP)
    case None =>
      NoFramesYet(a, Frames(a + b));
    case Some(k) =>
      var tail := a[k + |GAP|..];
      FirstFrame(a, b, k);
      FramesAppend(tail, b);
      PrependAfterFrames(a[..k], Frames(tail), Frames(Frames(tail).rest + b));
  }

  lemma {:induction false} FilterAppend(cfg: Config, st: State, a: seq<string>, b: seq<string>)
    ensures var (st1, out1) := FilterEvents(cfg, st, a);
      var (st2, out2) := FilterEvents(cfg, st1, b);
      FilterEvents(cfg, st, a + b) == (st2, out1 + out2)
    decreases |a|
  {
    hide FilterEvent;
    if a == [] {
      assert a + b == b;
      assert [] + FilterEvents(cfg, st, b).1 == FilterEvents(cfg, st, b).1;
    } else {
      var (st0, out0) := FilterEvent(cfg, st, a[0]);
      FilterAppend(cfg, st0, a[1..], b);
      var (st1, out1) := FilterEvents(cfg, st0, a[1..]);
      var (st2, out2) := FilterEvents(cfg, st1, b);
      assert (a + b)[0] == a[0] && (a + b)[1..] == a[1..] + b;
      assert (out0 + out1) + out2 == out0 + (out1 + out2);
    }
  }

  /** The redactor's state, buffer and output after a text is fed. */
  function FeedText(cfg: Config, st: State, buffer: string, text: string): (State, string, seq<Event>) {
    var r := Frames(buffer + text);
    var (next, out) := FilterEvents(cfg, st, r.frames);
    (next, r.rest, out)
  }

  function FeedChunks(cfg: Config, st: State, buffer: string, chunks: seq<string>): (State, string, seq<Event>)
    decreases |chunks|
  {
    if chunks == [] then (st, buffer, [])
    else
      var (st1, buffer1, out1) := FeedText(cfg, st, buffer, chunks[0]);
      var (st2, buffer2, out2) := FeedChunks(cfg, st1, buffer1, chunks[1..]);
      (st2, buffer2, out1 + out2)
  }

  /** Feeding is a monoid action: two feeds are one feed of both texts. */
  lemma FeedAppend(cfg: Config, st: State, buffer: string, a: string, b: string)
    ensures var (st1, buffer1, out1) := FeedText(cfg, st, buffer, a);
      var (st2, buffer2, out2) := FeedText(cfg, st1, buffer1, b);
      FeedText(cfg, st, buffer, a + b) == (st2, buffer2, out1 + out2)
  {
    hide Frames, FilterEvents;
    var r := Frames(buffer + a);
    var q := Frames(r.rest + b);
    FramesAppend(buffer + a, b);
    assert (buffer + a) + b == buffer + (a + b);
    FilterAppend(cfg, st, r.frames, q.frames);
  }

  lemma FeedNothing(cfg: Config, st: State, buffer: string)
    requires Find(buffer, GAP).None?
    ensures FeedText(cfg, st, buffer, "") == (st, buffer, [])
  {
    assert buffer + "" == buffer;
  }

  lemma FeedLeavesNoGap(cfg: Config, st: State, buffer: string, text: string)
    ensures Find(FeedText(cfg, st, buffer, text).1, GAP).None?
  {
    RestHasNoGap(buffer + text);
  }

  /** However a text is cut into chunks, the feeds amount to one. */
  lemma {:induction false} FeedsAreOneFeed(cfg: Config, st: State, buffer: string, chunks: seq<string>)
    requires Find(buffer, GAP).None?
    ensures FeedChunks(cfg, st, buffer, chunks) == FeedText(cfg, st, buffer, Concat(chunks))
    decreases |chunks|
  {
    hide FeedText, Find;
    if chunks == [] {
      FeedNothing(cfg, st, buffer);
    } else {
      var (st1, buffer1, out1) := FeedText(cfg, st, buffer, chunks[0]);
      FeedLeavesNoGap(cfg, st, buffer, chunks[0]);
      FeedsAreOneFeed(cfg, st1, buffer1, chunks[1..]);
      FeedAppend(cfg, st, buffer, chunks[0], Concat(chunks[1..]));
    }
  }

  lemma {:induction false} RestHasNoGap(s: string)
    ensures Find(Frames(s).rest, GAP).None?
    decreases |s|
  {
    var found := Find(s, GAP);
    if found.Some? {
      RestHasNoGap(s[found.value + |GAP|..]);
    }
  }

  // ---- The words a client reads are the exposed part of the reference parse -----

  /** The model's own words in an event. */
  function EventDeltas(cfg: Config, event: string): string {
    var data := DataOf(event);
    if data.None? || data.value == "[DONE]" then ""
    else
      var payload := cfg.decode(data.value);
      if payload.None? then "" else PayloadWords(payload.value)
  }

  function AllDeltas(cfg: Config, events: seq<string>): string {
    if events == [] then "" else EventDeltas(cfg, events[0]) + AllDeltas(cfg, events[1..])
  }

  /** An event that neither shows words nor reports a failure. */
  predicate Silent(e: Event) {
    !e.Failure? && EventWords(e) == ""
  }

  predicate AllSilent(events: seq<Event>) {
    forall e :: e in events ==> Silent(e)
  }

  /** The filter has read `input` from the start of the stream, exposing `shown`
      to the client and holding back `parts`. */
  ghost predicate Tracks(cfg: Config, mode: bool, input: string, st: State, shown: string) {
    var r := Scan(mode, input);
    && st.hidden == r.hidden && st.carry == r.carry
    && (if cfg.structured then shown == "" && st.parts == Exposed(r.pieces)
        else shown == Exposed(r.pieces) && st.parts == "")
  }

  lemma TracksMore(cfg: Config, mode: bool, input: string, st: State, shown: string, s: string)
    requires Tracks(cfg, mode, input, st, shown)
    ensures var r := Scan(st.hidden, st.carry + s);
      var parts := if cfg.structured then st.parts + Exposed(r.pieces) else st.parts;
      Tracks(cfg, mode, input + s, st.(hidden := r.hidden, carry := r.carry, parts := parts),
             if cfg.structured then shown else shown + Exposed(r.pieces))
  {
    ScanAppend(mode, input, s);
    ExposedAppend(Scan(mode, input).pieces, Scan(st.hidden, st.carry + s).pieces);
    hide Scan, Exposed;
  }

  lemma ChoiceTracks(cfg: Config, mode: bool, input: string, st: State, shown: string, c: Choice)
    requires Tracks(cfg, mode, input, st, shown)
    ensures var (st1, c1) := FilterChoice(cfg.structured, st, c);
      && Tracks(cfg, mode, input + ChoiceWords(c), st1, shown + ChoiceWords(c1))
      && (cfg.structured ==> ChoiceWords(c1) == "")
      && st1.doneSeen == st.doneSeen
  {
    hide Scan, Exposed;
    if ChoiceWords(c) == "" {
      assert input + "" == input && shown + "" == shown;
    } else {
      TracksMore(cfg, mode, input, st, shown, ChoiceWords(c));
      assert shown + "" == shown && st.parts + "" == st.parts;
    }
  }

  lemma ChoicesWordsCons(c: Choice, rest: seq<Choice>)
    ensures ChoicesWords([c] + rest) == ChoiceWords(c) + ChoicesWords(rest)
  {
    assert ([c] + rest)[1..] == rest;
  }

  lemma Regroup(x: string, y: string, z: string)
    ensures (x + y) + z == x + (y + z)
  {
  }

  lemma NoMore(x: string)
    ensures x + "" == x
  {
  }

  lemma {:induction false} ChoicesTrack(
      cfg: Config, mode: bool, input: string, st: State, shown: string, choices: seq<Choice>)
    requires Tracks(cfg, mode, input, st, shown)
    ensures var (st1, out) := FilterChoices(cfg.structured, st, choices);
      && Tracks(cfg, mode, input + ChoicesWords(choices), st1, shown + ChoicesWords(out))
      && (cfg.structured ==> ChoicesWords(out) == "")
      && st1.doneSeen == st.doneSeen
    decreases |choices|
  {
    hide Tracks, FilterChoice, ChoiceWords;
    if choices == [] {
      NoMore(input);
      NoMore(shown);
    } else {
      var (st1, c) := FilterChoice(cfg.structured, st, choices[0]);
      var (st2, rest) := FilterChoices(cfg.structured, st1, choices[1..]);
      var words := ChoiceWords(choices[0]);
      ChoiceTracks(cfg, mode, input, st, shown, choices[0]);
      ChoicesTrack(cfg, mode, input + words, st1, shown + ChoiceWords(c), choices[1..]);
      ChoicesWordsCons(c, rest);
      Regroup(input, words, ChoicesWords(choices[1..]));
      Regroup(shown, ChoiceWords(c), ChoicesWords(rest));
    }
  }

  /** An event that shows words is never suppressed. */
  lemma {:induction false} WordsAreSignals(choices: seq<Choice>)
    requires ChoicesWords(choices) != ""
    ensures exists c :: c in choices && ChoiceSignal(c)
  {
    if ChoiceWords(choices[0]) != "" {
      assert ChoiceSignal(choices[0]);
    } else {
      assert ChoicesWords(choices) == ChoicesWords(choices[1..]);
      WordsAreSignals(choices[1..]);
      var c :| c in choices[1..] && ChoiceSignal(c);
      assert c in choices;
    }
  }

  lemma OneEvent(e: Event)
    ensures AllWords([e]) == EventWords(e)
  {
    assert [e][1..] == [];
    assert EventWords(e) + "" == EventWords(e);
  }

  lemma PayloadTracks(cfg: Config, mode: bool, input: string, st: State, shown: string, p: Payload)
    requires Tracks(cfg, mode, input, st, shown)
    ensures var (st1, out) := FilterPayload(cfg.structured, st, p);
      && Tracks(cfg, mode, input + PayloadWords(p), st1, shown + AllWords(out))
      && (cfg.structured ==> AllSilent(out))
      && st1.doneSeen == st.doneSeen
  {
    var st0 := Remember(st, p);
    assert Tracks(cfg, mode, input, st0, shown);
    if p.choices.None? {
      OneEvent(Data(p));
      assert input + "" == input && shown + "" == shown;
      hide Tracks;
    } else {
      ChoicesTrack(cfg, mode, input, st0, shown, p.choices.value);
      var choices := FilterChoices(cfg.structured, st0, p.choices.value).1;
      hide Tracks, FilterChoices;
      var q := p.(choices := Some(choices));
      OneEvent(Data(q));
      if !HasTransportSignal(q) && ChoicesWords(choices) != "" {
        WordsAreSignals(choices);
      }
    }
  }

  lemma EventTracks(cfg: Config, mode: bool, input: string, st: State, shown: string, event: string)
    requires Tracks(cfg, mode, input, st, shown) && !IsDone(event)
    ensures var (st1, out) := FilterEvent(cfg, st, event);
      && Tracks(cfg, mode, input + EventDeltas(cfg, event), st1, shown + AllWords(out))
      && (cfg.structured ==> AllSilent(out))
      && st1.doneSeen == st.doneSeen
  {
    hide Tracks, FilterPayload, PayloadWords, AllWords;
    var data := DataOf(event);
    hide DataOf;
    NoWordsInText(event);
    NoMore(input);
    NoMore(shown);
    if data.Some? && cfg.decode(data.value).Some? {
      PayloadTracks(cfg, mode, input, st, shown, cfg.decode(data.value).value);
    }
  }

  lemma NoWordsInText(event: string)
    ensures AllWords(PassThrough(event)) == ""
  {
    OneEvent(Raw(event));
  }

  /** What filtering leaves of a choice: everything but the hidden words, and in
      structured mode the finish reason, which is held for the final event. */
  predicate Kept(structured: bool, c: Choice, k: Choice) {
    if c.Other? then k == c
    else
      && k.Choice? && k.text == c.text && k.others == c.others
      && k.finishReason == (if structured then None else c.finishReason)
      && (k.delta.Some? <==> c.delta.Some?)
      && (c.delta.Some? ==> k.delta.value.others == c.delta.value.others)
      && (c.delta.Some? && !c.delta.value.content.Words? ==> k.delta.value.content == c.delta.value.content)
  }

  function LastReason(held: Option<string>, choices: seq<Choice>): Option<string> {
    if choices == [] then held
    else
      var c := choices[|choices| - 1];
      if c.Choice? && c.finishReason.Some? then c.finishReason else LastReason(held, choices[..|choices| - 1])
  }

  lemma {:induction false} LastReasonCons(held: Option<string>, choices: seq<Choice>)
    requires choices != []
    ensures LastReason(held, choices) == LastReason(LastReason(held, choices[..1]), choices[1..])
  {
    var last := choices[|choices| - 1];
    if |choices| > 1 && !(last.Choice? && last.finishReason.Some?) {
      LastReasonCons(held, choices[..|choices| - 1]);
      assert choices[..|choices| - 1][..1] == choices[..1];
      assert choices[..|choices| - 1][1..] == choices[1..][..|choices[1..]| - 1];
    } else if |choices| == 1 {
      assert choices[..1] == choices && choices[1..] == [];
    }
  }

  lemma {:induction false} ChoicesKept(structured: bool, st: State, choices: seq<Choice>)
    ensures var (st1, out) := FilterChoices(structured, st, choices);
      && |out| == |choices| && (forall i :: 0 <= i < |out| ==> Kept(structured, choices[i], out[i]))
      && st1.finishReason == (if structured then LastReason(st.finishReason, choices) else st.finishReason)
    decreases |choices|
  {
    hide Scan, Exposed, LastReason;
    if choices == [] {
      NoReasons(st.finishReason);
    } else {
      var (st1, c) := FilterChoice(structured, st, choices[0]);
      OneReason(st.finishReason, choices);
      LastReasonCons(st.finishReason, choices);
      ChoicesKept(structured, st1, choices[1..]);
      assert Kept(structured, choices[0], c);
      hide FilterChoice, Kept;
    }
  }

  lemma NoReasons(held: Option<string>)
    ensures LastReason(held, []) == held
  {
  }

  lemma OneReason(held: Option<string>, choices: seq<Choice>)
    requires choices != []
    ensures LastReason(held, choices[..1]) ==
      if choices[0].Choice? && choices[0].finishReason.Some? then choices[0].finishReason else held
  {
    assert choices[..1][..0] == [];
  }

  /** Usage and timings always reach the client, with the event's own fields and
      all of its choices. */
  lemma SideChannelsSurvive(cfg: Config, st: State, event: string)
    ensures var data := DataOf(event);
      data.Some? && data.value != "[DONE]" && cfg.decode(data.value).Some?
      && (cfg.decode(data.value).value.usage || cfg.decode(data.value).value.timings) ==>
      var p := cfg.decode(data.value).value;
      var out := FilterEvent(cfg, st, event).1;
      && |out| == 1 && out[0].Data?
      && var q := out[0].payload;
        && q.fields == p.fields && q.usage == p.usage && q.timings == p.timings
        && (q.choices.Some? <==> p.choices.Some?)
        && (p.choices.Some? ==>
          && |q.choices.value| == |p.choices.value|
          && forall i :: 0 <= i < |q.choices.value| ==> Kept(cfg.structured, p.choices.value[i], q.choices.value[i]))
  {
    hide DataOf, FilterChoices, Kept;
    var data := DataOf(event);
    if data.Some? && cfg.decode(data.value).Some? && cfg.decode(data.value).value.choices.Some? {
      var p := cfg.decode(data.value).value;
      ChoicesKept(cfg.structured, Remember(st, p), p.choices.value);
    }
  }

  lemma {:induction false} AllWordsAppend(a: seq<Event>, b: seq<Event>)
    ensures AllWords(a + b) == AllWords(a) + AllWords(b)
  {
    if a == [] {
      assert a + b == b;
    } else {
      assert (a + b)[1..] == a[1..] + b;
      AllWordsAppend(a[1..], b);
    }
  }

  // ---- The end of a stream --------------------------------------------------------

  lemma StartTracks(cfg: Config, mode: bool)
    ensures Tracks(cfg, mode, "", Start(mode), "")
  {
    EmptyIsPartial();
  }

  /** The whole answer: the exposed part of the reference parse of the model's
      words. */
  function Answer(mode: bool, input: string): string {
    Exposed(Parse(mode, input))
  }

  /** The one event that carries the structured answer: the validated object or a
      failure. */
  predicate Verdict(cfg: Config, mode: bool, input: string, e: Event) {
    var final := Strip(Answer(mode, input));
    if cfg.valid(final) then e.Data? && EventWords(e) == final else e == Failure(final)
  }

  /** What the decoded events must show: unstructured, the answer; structured,
      exactly one verdict and nothing else. */
  ghost predicate Delivered(cfg: Config, mode: bool, input: string, shown: string, out: seq<Event>) {
    if !cfg.structured then shown + AllWords(out) == Answer(mode, input)
    else exists k | 0 <= k < |out| ::
        Verdict(cfg, mode, input, out[k]) && AllSilent(out[..k]) && AllSilent(out[k + 1..])
  }

  lemma SyntheticWords(st: State, content: string, reason: Option<string>)
    ensures EventWords(SyntheticContent(st, content, reason)) == content
  {
    var c := SyntheticChoice(content, reason);
    ChoicesWordsCons(c, []);
    assert [c] + [] == [c];
    NoMore(ChoiceWords(c));
  }

  lemma DoneHasNoWords(includeDone: bool)
    ensures AllWords(if includeDone then [Done] else []) == ""
  {
    OneEvent(Done);
  }

  lemma FinishDelivers(cfg: Config, mode: bool, input: string, st: State, shown: string, includeDone: bool)
    requires Tracks(cfg, mode, input, st, shown)
    ensures var (st1, out) := FinishContent(cfg, st, includeDone);
      st1.doneSeen == st.doneSeen && Delivered(cfg, mode, input, shown, out)
  {
    var r := Scan(mode, input);
    var tail := Exposed(Plain(st.hidden, st.carry));
    var out := FinishContent(cfg, st, includeDone).1;
    ScanIsParse(mode, input);
    ExposedAppend(r.pieces, Plain(r.hidden, r.carry));
    hide Scan, Exposed, Plain, Parse, Strip;
    if cfg.structured {
      var final := Strip(Answer(mode, input));
      SyntheticWords(st, final, st.finishReason);
      assert Verdict(cfg, mode, input, out[0]);
      assert AllSilent(out[..0]) && AllSilent(out[1..]);
    } else {
      var marker := if includeDone then [Done] else [];
      DoneHasNoWords(includeDone);
      NoMore(shown);
      if tail != "" {
        var e := SyntheticContent(st, tail, None);
        SyntheticWords(st, tail, None);
        OneEvent(e);
        AllWordsAppend([e], marker);
        NoMore(tail);
      } else {
        assert [] + marker == marker;
      }
    }
  }

  lemma SilentConcat(a: seq<Event>, b: seq<Event>)
    requires AllSilent(a) && AllSilent(b)
    ensures AllSilent(a + b)
  {
    hide Silent;
  }

  /** Silent events around a delivery change nothing for the client. */
  lemma DeliveredAmid(cfg: Config, mode: bool, input: string, a: seq<Event>, b: seq<Event>, c: seq<Event>)
    requires cfg.structured && Delivered(cfg, mode, input, "", b) && AllSilent(a) && AllSilent(c)
    ensures Delivered(cfg, mode, input, "", a + b + c)
  {
    hide Verdict, AllSilent, AllWords, Answer;
    var k :| 0 <= k < |b| && Verdict(cfg, mode, input, b[k]) && AllSilent(b[..k]) && AllSilent(b[k + 1..]);
    var out := a + b + c;
    var i := |a| + k;
    assert out[i] == b[k];
    assert out[..i] == a + b[..k];
    assert out[i + 1..] == b[k + 1..] + c;
    SilentConcat(a, b[..k]);
    SilentConcat(b[k + 1..], c);
  }

  lemma DeliveredAfter(cfg: Config, mode: bool, input: string, shown: string, a: seq<Event>, b: seq<Event>)
    requires Delivered(cfg, mode, input, shown + AllWords(a), b) && (cfg.structured ==> AllSilent(a))
    ensures Delivered(cfg, mode, input, shown, a + b)
  {
    hide Verdict, AllWords, Answer;
    if cfg.structured {
      DeliveredAmid(cfg, mode, input, a, b, []);
      assert a + b + [] == a + b;
    } else {
      AllWordsAppend(a, b);
      Regroup(shown, AllWords(a), AllWords(b));
    }
  }

  lemma DeliveredBefore(cfg: Config, mode: bool, input: string, shown: string, a: seq<Event>, b: seq<Event>)
    requires Delivered(cfg, mode, input, shown, a) && AllSilent(b) && AllWords(b) == ""
    ensures Delivered(cfg, mode, input, shown, a + b)
  {
    hide Verdict, AllWords, Answer;
    if cfg.structured {
      DeliveredAmid(cfg, mode, input, [], a, b);
      assert [] + a + b == a + b;
    } else {
      AllWordsAppend(a, b);
      NoMore(AllWords(a));
    }
  }

  /** An event the filter does not decode. */
  predicate PassesThrough(cfg: Config, event: string) {
    var data := DataOf(event);
    data.None? || (data.value != "[DONE]" && cfg.decode(data.value).None?)
  }

  /** The end marker comes last, if it comes at all: only undecoded text may
      follow it. */
  predicate DoneEnds(cfg: Config, events: seq<string>) {
    events == [] || (if IsDone(events[0]) then forall e :: e in events[1..] ==> PassesThrough(cfg, e)
                     else DoneEnds(cfg, events[1..]))
  }

  lemma {:induction false} QuietTail(cfg: Config, st: State, events: seq<string>)
    requires forall e :: e in events ==> PassesThrough(cfg, e)
    ensures FilterEvents(cfg, st, events).0 == st
    ensures AllSilent(FilterEvents(cfg, st, events).1) && AllWords(FilterEvents(cfg, st, events).1) == ""
    ensures AllDeltas(cfg, events) == ""
    decreases |events|
  {
    hide DataOf, AllWords, FilterPayload, FinishContent;
    if events == [] {
      NoWordsInText("");
    } else {
      assert events[0] in events;
      assert PassesThrough(cfg, events[0]);
      QuietTail(cfg, st, events[1..]);
      NoWordsInText(events[0]);
      AllWordsAppend(PassThrough(events[0]), FilterEvents(cfg, st, events[1..]).1);
    }
  }

  lemma {:induction false} StreamTracks(
      cfg: Config, mode: bool, input: string, st: State, shown: string, events: seq<string>)
    requires Tracks(cfg, mode, input, st, shown) && !st.doneSeen && DoneEnds(cfg, events)
    ensures Delivered(cfg, mode, input + AllDeltas(cfg, events), shown, FilterStream(cfg, st, events).1)
    decreases |events|
  {
    hide Tracks, FilterEvent, FinishContent, EventDeltas, DataOf, Delivered, PassesThrough, AllWords, Silent;
    NoMore(input);
    if events == [] {
      FinishDelivers(cfg, mode, input, st, shown, false);
      var out := FinishContent(cfg, st, false).1;
      assert [] + out == out;
    } else if IsDone(events[0]) {
      StreamEnds(cfg, mode, input, st, shown, events);
    } else {
      var (st1, out1) := FilterEvent(cfg, st, events[0]);
      var words := EventDeltas(cfg, events[0]);
      EventTracks(cfg, mode, input, st, shown, events[0]);
      StreamTracks(cfg, mode, input + words, st1, shown + AllWords(out1), events[1..]);
      Regroup(input, words, AllDeltas(cfg, events[1..]));
      DeliveredAfter(cfg, mode, input + AllDeltas(cfg, events), shown, out1, FilterStream(cfg, st1, events[1..]).1);
      StreamStep(cfg, st, events);
    }
  }

  lemma StreamStep(cfg: Config, st: State, events: seq<string>)
    requires events != []
    ensures var (st1, out1) := FilterEvent(cfg, st, events[0]);
      FilterStream(cfg, st, events).1 == out1 + FilterStream(cfg, st1, events[1..]).1
  {
    hide FilterEvent, FinishContent;
    var (st1, out1) := FilterEvent(cfg, st, events[0]);
    var (st2, out2) := FilterEvents(cfg, st1, events[1..]);
    var out3 := FinishContent(cfg, st2, false).1;
    assert (out1 + out2) + out3 == out1 + (out2 + out3);
  }

  lemma StreamEnds(cfg: Config, mode: bool, input: string, st: State, shown: string, events: seq<string>)
    requires Tracks(cfg, mode, input, st, shown) && events != [] && IsDone(events[0]) && DoneEnds(cfg, events)
    ensures Delivered(cfg, mode, input + AllDeltas(cfg, events), shown, FilterStream(cfg, st, events).1)
  {
    var seen := st.(doneSeen := true);
    assert Tracks(cfg, mode, input, seen, shown);
    FinishDelivers(cfg, mode, input, seen, shown, true);
    var (st1, out1) := FinishContent(cfg, seen, true);
    assert FilterEvent(cfg, st, events[0]) == (st1, out1);
    assert EventDeltas(cfg, events[0]) == "";
    QuietTail(cfg, st1, events[1..]);
    hide *;
    NoMore(input);
    DeliveredBefore(cfg, mode, input, shown, out1, FilterEvents(cfg, st1, events[1..]).1);
    StreamStep(cfg, st, events);
    AfterDone(cfg, st1, events[1..]);
    DeltasStep(cfg, events);
  }

  lemma AfterDone(cfg: Config, st: State, events: seq<string>)
    requires st.doneSeen && FilterEvents(cfg, st, events).0 == st
    ensures FilterStream(cfg, st, events) == FilterEvents(cfg, st, events)
  {
  }

  lemma DeltasStep(cfg: Config, events: seq<string>)
    requires events != [] && EventDeltas(cfg, events[0]) == "" && AllDeltas(cfg, events[1..]) == ""
    ensures AllDeltas(cfg, events) == ""
  {
  }

  /** Filtering a whole stream delivers the reference parse of the model's words. */
  lemma StreamIsParsed(cfg: Config, mode: bool, events: seq<string>)
    requires DoneEnds(cfg, events)
    ensures Delivered(cfg, mode, AllDeltas(cfg, events), "", FilterStream(cfg, Start(mode), events).1)
  {
    StartTracks(cfg, mode);
    StreamTracks(cfg, mode, "", Start(mode), "", events);
    hide *;
    assert "" + AllDeltas(cfg, events) == AllDeltas(cfg, events);
  }

  // ---- From chunks to whole streams -------------------------------------------

  /** What the end of the input adds to a buffer without a gap. */
  function FinishText(cfg: Config, st: State, buffer: string): (State, seq<Event>) {
    FilterStream(cfg, st, if buffer == "" then [] else [StripNewlines(buffer)])
  }

  lemma FinishTextUnfolds(cfg: Config, st: State, buffer: string)
    ensures var (st1, out1) := if buffer == "" then (st, []) else FilterEvent(cfg, st, StripNewlines(buffer));
      var (st2, out2) := if st1.doneSeen then (st1, []) else FinishContent(cfg, st1, false);
      FinishText(cfg, st, buffer) == (st2, out1 + out2)
  {
    hide FilterEvent, FinishContent, StripNewlines;
    if buffer != "" {
      var last := StripNewlines(buffer);
      var (st1, out1) := FilterEvent(cfg, st, last);
      assert [last][1..] == [];
      assert FilterEvents(cfg, st, [last]) == (st1, out1 + []);
      assert out1 + [] == out1;
    } else {
      var none: seq<Event> := [];
      assert none + none == none && none + FinishContent(cfg, st, false).1 == FinishContent(cfg, st, false).1;
    }
  }

  lemma StreamAppend(cfg: Config, st: State, a: seq<string>, b: seq<string>)
    ensures var (st1, out1) := FilterEvents(cfg, st, a);
      FilterStream(cfg, st, a + b) == (FilterStream(cfg, st1, b).0, out1 + FilterStream(cfg, st1, b).1)
  {
    FilterAppend(cfg, st, a, b);
    hide FilterEvents, FinishContent;
    var (st1, out1) := FilterEvents(cfg, st, a);
    var (st2, out2) := FilterEvents(cfg, st1, b);
    var out3 := FinishContent(cfg, st2, false).1;
    assert (out1 + out2) + out3 == out1 + (out2 + out3);
  }

  /** However the text of a stream is cut into chunks, the output is that of the whole
      stream. */
  lemma ChunksAreOneStream(cfg: Config, mode: bool, chunks: seq<string>)
    ensures var (st, buffer, out) := FeedChunks(cfg, Start(mode), "", chunks);
      out + FinishText(cfg, st, buffer).1 == FilterStream(cfg, Start(mode), EventsOf(Concat(chunks))).1
  {
    var text := Concat(chunks);
    FeedsAreOneFeed(cfg, Start(mode), "", chunks);
    assert "" + text == text;
    var r := Frames(text);
    var last := if r.rest == "" then [] else [StripNewlines(r.rest)];
    StreamAppend(cfg, Start(mode), r.frames, last);
    assert r.frames + [] == r.frames;
    hide *;
  }

  /** However the text of a stream is cut into chunks, and its words into deltas, the
      decoded events show the reference parse of the words. */
  lemma ChunksAreParsed(cfg: Config, mode: bool, chunks: seq<string>)
    requires DoneEnds(cfg, EventsOf(Concat(chunks)))
    ensures var events := EventsOf(Concat(chunks));
      var (st, buffer, out) := FeedChunks(cfg, Start(mode), "", chunks);
      Delivered(cfg, mode, AllDeltas(cfg, events), "", out + FinishText(cfg, st, buffer).1)
  {
    StreamIsParsed(cfg, mode, EventsOf(Concat(chunks)));
    ChunksAreOneStream(cfg, mode, chunks);
    hide *;
  }
}
