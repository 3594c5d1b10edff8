/** What a client reads from the redacted stream, including the text that the
    redactor does not decode and passes on as it is. */
module SseClient {
  import opened Common
  import opened ReasoningText
  import opened ReasoningParser
  import opened SseFilter

  // ---- Reading ---------------------------------------------------------------

  /** How a client reads what the redactor passes on: text it does not decode, and
      what a decoded event holds besides the words of its choices. */
  datatype Client = Client(raw: string -> string, rest: Payload -> string)

  /** An event without the words of its choices, its finish reasons and the metadata
      that synthetic events repeat. */
  function Bare(p: Payload): Payload {
    Payload(map k | k in p.fields && k !in METADATA :: p.fields[k], p.usage, p.timings,
            if p.choices.None? then None else Some(BareChoices(p.choices.value)))
  }

  function BareChoices(choices: seq<Choice>): seq<Choice> {
    seq(|choices|, i requires 0 <= i < |choices| => BareChoice(choices[i]))
  }

  function BareChoice(c: Choice): Choice {
    if c.Other? then c
    else c.(delta := if c.delta.None? then None else Some(BareDelta(c.delta.value)), finishReason := None)
  }

  function BareDelta(d: Delta): Delta {
    if d.content.Words? then d.(content := NoContent) else d
  }

  /** What every event has that the redactor makes up itself. */
  function Envelope(): Payload {
    Payload(map[], false, false, Some([BareChoice(SyntheticChoice("", None))]))
  }

  /** No words are read from an event that has none. */
  predicate Sensible(client: Client) {
    client.rest(Envelope()) == ""
  }

  /** Besides the words, only what makes an event worth sending is read: usage,
      timings, texts, and deltas with something else in them. */
  ghost predicate Signalled(client: Client) {
    forall p :: client.rest(p) != "" ==> HasTransportSignal(p)
  }

  function SideWords(client: Client, e: Event): string {
    match e
    case Raw(text) => client.raw(text)
    case Data(p) => client.rest(Bare(p))
    case _ => ""
  }

  function ClientWords(client: Client, e: Event): string {
    EventWords(e) + SideWords(client, e)
  }

  function ClientReads(client: Client, out: seq<Event>): string {
    if out == [] then "" else ClientWords(client, out[0]) + ClientReads(client, out[1..])
  }

  function AllSides(client: Client, out: seq<Event>): string {
    if out == [] then "" else SideWords(client, out[0]) + AllSides(client, out[1..])
  }

  /** The decoded payload of an event, if the redactor decodes it. */
  function Decoded(cfg: Config, event: string): Option<Payload> {
    var data := DataOf(event);
    if data.None? || data.value == "[DONE]" then None else cfg.decode(data.value)
  }

  /** What the client reads from an event besides the words the model meant: all of
      undecoded text, and the rest of a decoded event unless it is suppressed. */
  function Beside(client: Client, cfg: Config, st: State, event: string): string {
    var payload := Decoded(cfg, event);
    if PassesThrough(cfg, event) then (if event == "" then "" else client.raw(event))
    else if payload.Some? && FilterPayload(cfg.structured, st, payload.value).1 != [] then
      client.rest(Bare(payload.value))
    else ""
  }

  function AllBeside(client: Client, cfg: Config, st: State, events: seq<string>): string
    decreases |events|
  {
    if events == [] then ""
    else Beside(client, cfg, st, events[0]) + AllBeside(client, cfg, FilterEvent(cfg, st, events[0]).0, events[1..])
  }

  /** The same without regard to what is suppressed: something a caller can check
      on the event alone. */
  predicate OffersNothing(client: Client, cfg: Config, event: string) {
    && (event != "" && PassesThrough(cfg, event) ==> client.raw(event) == "")
    && (Decoded(cfg, event).Some? ==> client.rest(Bare(Decoded(cfg, event).value)) == "")
  }

  /** The client reads the answer: unstructured, as the words of the stream;
      structured, as exactly one verdict without any other words. */
  ghost predicate Reads(client: Client, cfg: Config, mode: bool, input: string, out: seq<Event>) {
    if !cfg.structured then ClientReads(client, out) == Answer(mode, input)
    else exists k | 0 <= k < |out| ::
        Verdict(cfg, mode, input, out[k]) && SideWords(client, out[k]) == "" && OnlyAt(client, out, k)
  }

  /** No event but the one at `k` shows words or a failure. */
  ghost predicate OnlyAt(client: Client, out: seq<Event>, k: nat) {
    forall i | 0 <= i < |out| && i != k :: !out[i].Failure? && ClientWords(client, out[i]) == ""
  }

  // ---- What the filter leaves alone ---------------------------------------------

  lemma BareKept(structured: bool, st: State, c: Choice)
    ensures BareChoice(FilterChoice(structured, st, c).1) == BareChoice(c)
  {
    hide Scan, Exposed;
  }

  lemma {:induction false} BaresKept(structured: bool, st: State, choices: seq<Choice>)
    ensures BareChoices(FilterChoices(structured, st, choices).1) == BareChoices(choices)
    decreases |choices|
  {
    hide FilterChoice, BareChoice;
    if choices != [] {
      var (st1, c) := FilterChoice(structured, st, choices[0]);
      var (st2, rest) := FilterChoices(structured, st1, choices[1..]);
      BareKept(structured, st, choices[0]);
      BaresKept(structured, st1, choices[1..]);
      BareCons(c, rest);
      BareCons(choices[0], choices[1..]);
      assert [choices[0]] + choices[1..] == choices;
    }
  }

  lemma BareCons(c: Choice, rest: seq<Choice>)
    ensures BareChoices([c] + rest) == [BareChoice(c)] + BareChoices(rest)
  {
    hide BareChoice;
    assert ([c] + rest)[1..] == rest;
  }

  /** An event that is passed on keeps everything besides its words, its finish
      reasons and metadata. */
  lemma RestPasses(structured: bool, st: State, p: Payload)
    ensures var out := FilterPayload(structured, st, p).1;
      out == [] || (|out| == 1 && out[0].Data? && Bare(out[0].payload) == Bare(p))
  {
    hide FilterChoices, HasTransportSignal, BareChoices;
    if p.choices.Some? {
      BaresKept(structured, Remember(st, p), p.choices.value);
    }
  }

  lemma BareSignals(p: Payload)
    requires HasTransportSignal(Bare(p))
    ensures HasTransportSignal(p)
  {
    if !p.usage && !p.timings {
      var c :| c in BareChoices(p.choices.value) && ChoiceSignal(c);
      var i :| 0 <= i < |p.choices.value| && BareChoices(p.choices.value)[i] == c;
      assert ChoiceSignal(p.choices.value[i]) && p.choices.value[i] in p.choices.value;
    }
  }

  /** And an event with something else worth sending is passed on, whatever becomes of
      its words: other fields of a delta, content that is not text, or a text beside
      the delta reach the client unredacted. */
  lemma SignalsPass(structured: bool, st: State, p: Payload)
    requires HasTransportSignal(Bare(p))
    ensures var out := FilterPayload(structured, st, p).1;
      |out| == 1 && out[0].Data? && Bare(out[0].payload) == Bare(p)
  {
    hide FilterChoices, HasTransportSignal, BareChoices;
    RestPasses(structured, st, p);
    if p.choices.Some? {
      var q := p.(choices := Some(FilterChoices(structured, Remember(st, p), p.choices.value).1));
      BaresKept(structured, Remember(st, p), p.choices.value);
      assert Bare(q) == Bare(p);
      BareSignals(q);
    } else {
      BareSignals(p);
    }
  }

  // ---- What is read beside the answer ---------------------------------------------

  lemma {:induction false} SidesAppend(client: Client, a: seq<Event>, b: seq<Event>)
    ensures AllSides(client, a + b) == AllSides(client, a) + AllSides(client, b)
  {
    hide SideWords;
    if a == [] {
      assert a + b == b;
    } else {
      assert (a + b)[0] == a[0] && (a + b)[1..] == a[1..] + b;
      SidesAppend(client, a[1..], b);
      Regroup(SideWords(client, a[0]), AllSides(client, a[1..]), AllSides(client, b));
    }
  }

  lemma OneSide(client: Client, e: Event)
    ensures AllSides(client, [e]) == SideWords(client, e)
  {
    hide SideWords;
    assert [e][1..] == [];
    NoMore(SideWords(client, e));
  }

  /** The metadata remembered are those of the listed fields. */
  predicate KnownMetadata(st: State) {
    forall k :: k in st.metadata ==> k in METADATA
  }

  lemma SyntheticSide(client: Client, st: State, content: string, reason: Option<string>)
    requires Sensible(client) && KnownMetadata(st)
    ensures SideWords(client, SyntheticContent(st, content, reason)) == ""
  {
    var p := SyntheticContent(st, content, reason).payload;
    assert METADATA[1] == "object";
    assert Bare(p).fields == map[];
    assert BareChoices([SyntheticChoice(content, reason)]) == [BareChoice(SyntheticChoice("", None))];
    assert Bare(p) == Envelope();
  }

  lemma {:induction false} NoSides(client: Client, out: seq<Event>)
    ensures AllSides(client, out) == "" <==> forall e :: e in out ==> SideWords(client, e) == ""
  {
    hide SideWords;
    if out != [] {
      NoSides(client, out[1..]);
      assert forall e :: e in out <==> e == out[0] || e in out[1..];
    }
  }

  lemma FinishSides(client: Client, cfg: Config, st: State, includeDone: bool)
    requires Sensible(client) && KnownMetadata(st)
    ensures AllSides(client, FinishContent(cfg, st, includeDone).1) == ""
  {
    hide Strip, Exposed, Plain, SyntheticContent, Bare;
    var tail := Exposed(Plain(st.hidden, st.carry));
    var final := Strip(if cfg.structured then st.parts + tail else st.parts);
    SyntheticSide(client, st, final, st.finishReason);
    SyntheticSide(client, st, tail, None);
    var out := FinishContent(cfg, st, includeDone).1;
    forall e | e in out ensures SideWords(client, e) == "" {
      assert e == SyntheticContent(st, final, st.finishReason) || e == SyntheticContent(st, tail, None)
          || e == Failure(final) || e == Done;
    }
    NoSides(client, out);
  }

  lemma {:induction false} MetadataKept(structured: bool, st: State, choices: seq<Choice>)
    ensures FilterChoices(structured, st, choices).0.metadata == st.metadata
    decreases |choices|
  {
    hide Scan, Exposed;
    if choices != [] {
      MetadataKept(structured, FilterChoice(structured, st, choices[0]).0, choices[1..]);
    }
  }

  lemma PayloadMetadata(structured: bool, st: State, p: Payload)
    requires KnownMetadata(st)
    ensures KnownMetadata(FilterPayload(structured, st, p).0)
  {
    hide FilterChoices, HasTransportSignal;
    if p.choices.Some? {
      MetadataKept(structured, Remember(st, p), p.choices.value);
    }
  }

  lemma EventSides(client: Client, cfg: Config, st: State, event: string)
    requires Sensible(client) && KnownMetadata(st)
    ensures var (st1, out) := FilterEvent(cfg, st, event);
      AllSides(client, out) == Beside(client, cfg, st, event) && KnownMetadata(st1)
  {
    hide DataOf, FinishContent, FilterPayload, AllSides, Bare;
    OneSide(client, Raw(event));
    NoSides(client, []);
    var data := DataOf(event);
    if data == Some("[DONE]") {
      FinishSides(client, cfg, st.(doneSeen := true), true);
      FinishMetadata(cfg, st.(doneSeen := true), true);
    } else if data.Some? && cfg.decode(data.value).Some? {
      var p := cfg.decode(data.value).value;
      RestPasses(cfg.structured, st, p);
      PayloadMetadata(cfg.structured, st, p);
      var out := FilterPayload(cfg.structured, st, p).1;
      if out != [] {
        assert out == [out[0]];
        OneSide(client, out[0]);
      }
    }
  }

  lemma FinishMetadata(cfg: Config, st: State, includeDone: bool)
    ensures FinishContent(cfg, st, includeDone).0.metadata == st.metadata
  {
    hide Exposed, Plain, Strip;
  }

  lemma {:induction false} EventsSides(client: Client, cfg: Config, st: State, events: seq<string>)
    requires Sensible(client) && KnownMetadata(st)
    ensures var (st1, out) := FilterEvents(cfg, st, events);
      AllSides(client, out) == AllBeside(client, cfg, st, events) && KnownMetadata(st1)
    decreases |events|
  {
    hide FilterEvent, AllSides, Beside, KnownMetadata;
    if events == [] {
      NoSides(client, []);
    } else {
      var (st1, out1) := FilterEvent(cfg, st, events[0]);
      EventSides(client, cfg, st, events[0]);
      EventsSides(client, cfg, st1, events[1..]);
      SidesAppend(client, out1, FilterEvents(cfg, st1, events[1..]).1);
    }
  }

  /** What the client reads from the output besides the words of decoded events is
      what it reads beside them in the input, in order. */
  lemma StreamSides(client: Client, cfg: Config, st: State, events: seq<string>)
    requires Sensible(client) && KnownMetadata(st)
    ensures AllSides(client, FilterStream(cfg, st, events).1) == AllBeside(client, cfg, st, events)
  {
    hide FilterEvents, FinishContent, AllSides, AllBeside, KnownMetadata;
    var (st1, out1) := FilterEvents(cfg, st, events);
    EventsSides(client, cfg, st, events);
    FinishSides(client, cfg, st1, false);
    SidesAppend(client, out1, FinishContent(cfg, st1, false).1);
    NoMore(AllSides(client, out1));
  }

  /** Whether one event has words beside its own: for a client that reads signals only,
      exactly if it offers some; a suppressed event then offers none. */
  lemma BesideOne(client: Client, cfg: Config, st: State, event: string)
    ensures OffersNothing(client, cfg, event) ==> Beside(client, cfg, st, event) == ""
    ensures Signalled(client) && Beside(client, cfg, st, event) == "" ==> OffersNothing(client, cfg, event)
  {
    hide DataOf, FilterPayload, Bare, HasTransportSignal;
    var payload := Decoded(cfg, event);
    if payload.Some? && client.rest(Bare(payload.value)) != "" && Signalled(client) {
      SignalsPass(cfg.structured, st, payload.value);
    }
  }

  lemma {:induction false} BesideExactly(client: Client, cfg: Config, st: State, events: seq<string>)
    ensures (forall e :: e in events ==> OffersNothing(client, cfg, e)) ==> AllBeside(client, cfg, st, events) == ""
    ensures Signalled(client) && AllBeside(client, cfg, st, events) == "" ==>
      forall e :: e in events ==> OffersNothing(client, cfg, e)
    decreases |events|
  {
    hide OffersNothing, Signalled, Beside, FilterEvent;
    if events != [] {
      BesideOne(client, cfg, st, events[0]);
      BesideExactly(client, cfg, FilterEvent(cfg, st, events[0]).0, events[1..]);
      assert forall e :: e in events <==> e == events[0] || e in events[1..];
    }
  }

  // ---- What the client reads exactly ------------------------------------------------

  lemma {:induction false} ReadsLength(client: Client, out: seq<Event>)
    ensures |ClientReads(client, out)| == |AllWords(out)| + |AllSides(client, out)|
    ensures AllSides(client, out) == "" ==> ClientReads(client, out) == AllWords(out)
  {
    hide SideWords, EventWords;
    if out != [] {
      ReadsLength(client, out[1..]);
      NoMore(EventWords(out[0]));
    }
  }

  lemma StructuredReads(client: Client, cfg: Config, mode: bool, input: string, out: seq<Event>)
    requires cfg.structured && Delivered(cfg, mode, input, "", out)
    ensures Reads(client, cfg, mode, input, out) <==> AllSides(client, out) == ""
  {
    hide Answer, EventWords, AllSides, SideWords;
    NoSides(client, out);
    if AllSides(client, out) == "" {
      DeliveredIsRead(client, cfg, mode, input, out);
    }
    if Reads(client, cfg, mode, input, out) {
      var k :| 0 <= k < |out| && Verdict(cfg, mode, input, out[k]) && SideWords(client, out[k]) == ""
        && OnlyAt(client, out, k);
      forall e | e in out ensures SideWords(client, e) == "" {
        var i :| 0 <= i < |out| && out[i] == e;
        assert i != k ==> ClientWords(client, out[i]) == "";
      }
    }
  }

  lemma DeliveredIsRead(client: Client, cfg: Config, mode: bool, input: string, out: seq<Event>)
    requires cfg.structured && Delivered(cfg, mode, input, "", out)
    requires forall e :: e in out ==> SideWords(client, e) == ""
    ensures Reads(client, cfg, mode, input, out)
  {
    hide Verdict, EventWords, SideWords;
    var k :| 0 <= k < |out| && Verdict(cfg, mode, input, out[k]) && AllSilent(out[..k]) && AllSilent(out[k + 1..]);
    forall i | 0 <= i < |out| && i != k ensures !out[i].Failure? && ClientWords(client, out[i]) == "" {
      SilentAround(out, k, i);
    }
    assert OnlyAt(client, out, k);
  }

  lemma SilentAround(out: seq<Event>, k: nat, i: nat)
    requires k < |out| && i < |out| && i != k && AllSilent(out[..k]) && AllSilent(out[k + 1..])
    ensures Silent(out[i])
  {
    hide Silent;
    if i < k {
      assert out[i] == out[..k][i];
    } else {
      assert out[i] == out[k + 1..][i - k - 1];
    }
  }

  /** Exactly when the client reads the answer and nothing else: when it reads no words
      from undecoded events, nor from anything else in the decoded events that are
      passed on. */
  lemma StreamReadExactly(client: Client, cfg: Config, mode: bool, events: seq<string>)
    requires DoneEnds(cfg, events) && Sensible(client)
    ensures var out := FilterStream(cfg, Start(mode), events).1;
      Reads(client, cfg, mode, AllDeltas(cfg, events), out) <==> AllBeside(client, cfg, Start(mode), events) == ""
  {
    hide FilterStream, AllDeltas, AllBeside, DoneEnds, Verdict, OnlyAt, Answer, Sensible, AllSides;
    var out := FilterStream(cfg, Start(mode), events).1;
    StreamIsParsed(cfg, mode, events);
    StreamSides(client, cfg, Start(mode), events);
    if cfg.structured {
      StructuredReads(client, cfg, mode, AllDeltas(cfg, events), out);
    } else {
      ReadsLength(client, out);
      assert "" + AllWords(out) == AllWords(out);
    }
  }

  lemma SignalledIsSensible(client: Client)
    requires Signalled(client)
    ensures Sensible(client)
  {
    hide Envelope;
    EnvelopeIsEmpty();
  }

  lemma EnvelopeIsEmpty()
    ensures !HasTransportSignal(Envelope())
  {
  }

  /** In terms of the input alone, for every division of the stream's text into chunks:
      a client that besides the words reads only signals reads the answer and nothing
      else exactly if no event offers it words besides. */
  lemma ChunksReadExactly(client: Client, cfg: Config, mode: bool, chunks: seq<string>)
    requires DoneEnds(cfg, EventsOf(Concat(chunks))) && Signalled(client)
    ensures var events := EventsOf(Concat(chunks));
      var (st, buffer, out) := FeedChunks(cfg, Start(mode), "", chunks);
      Reads(client, cfg, mode, AllDeltas(cfg, events), out + FinishText(cfg, st, buffer).1)
      <==> forall e :: e in events ==> OffersNothing(client, cfg, e)
  {
    ChunksAreOneStream(cfg, mode, chunks);
    SignalledIsSensible(client);
    StreamReadExactly(client, cfg, mode, EventsOf(Concat(chunks)));
    BesideExactly(client, cfg, Start(mode), EventsOf(Concat(chunks)));
    hide *;
  }

  /** And any sensible client reads the answer and nothing else if no event offers it
      words besides. */
  lemma NothingBesideIsSafe(client: Client, cfg: Config, mode: bool, events: seq<string>)
    requires DoneEnds(cfg, events) && Sensible(client)
    requires forall e :: e in events ==> OffersNothing(client, cfg, e)
    ensures Reads(client, cfg, mode, AllDeltas(cfg, events), FilterStream(cfg, Start(mode), events).1)
  {
    hide Sensible, OffersNothing;
    StreamReadExactly(client, cfg, mode, events);
    BesideExactly(client, cfg, Start(mode), events);
    hide *;
  }

  // ---- A client that follows the event-stream format ------------------------------------

  /** The lines of a text; carriage return, line feed and both end a line. */
  function Lines(s: string): seq<string> {
    if s == "" then [""]
    else if s[0] == '\r' && |s| > 1 && s[1] == '\n' then [""] + Lines(s[2..])
    else if s[0] == '\r' || s[0] == '\n' then [""] + Lines(s[1..])
    else
      var rest := Lines(s[1..]);
      if rest == [] then [[s[0]]] else [[s[0]] + rest[0]] + rest[1..]
  }

  /** The value of a data line, without one leading space. */
  function DataLine(line: string): Option<string> {
    if !("data:" <= line) then None
    else if "data: " <= line then Some(line[6..])
    else Some(line[5..])
  }

  function Dispatch(decode: string -> Option<Payload>, data: Option<string>): string {
    if data.None? || decode(data.value).None? then "" else PayloadWords(decode(data.value).value)
  }

  /** The data lines up to an empty line make one event. */
  function ReadLines(decode: string -> Option<Payload>, lines: seq<string>, data: Option<string>): string
    decreases |lines|
  {
    if lines == [] then Dispatch(decode, data)
    else if lines[0] == "" then Dispatch(decode, data) + ReadLines(decode, lines[1..], None)
    else
      var d := DataLine(lines[0]);
      ReadLines(decode, lines[1..],
                if d.None? then data else if data.None? then d else Some(data.value + "\n" + d.value))
  }

  function StandardRead(decode: string -> Option<Payload>, text: string): string {
    ReadLines(decode, Lines(text), None)
  }

  /** Such a client reads nothing from a text without data lines: comments and other
      fields may be passed on. */
  lemma {:induction false} NoDataNoWords(decode: string -> Option<Payload>, lines: seq<string>)
    requires forall line :: line in lines ==> DataLine(line).None?
    ensures ReadLines(decode, lines, None) == ""
    decreases |lines|
  {
    hide DataLine;
    if lines != [] {
      assert lines[0] in lines;
      NoDataNoWords(decode, lines[1..]);
    }
  }

  predicate OneLine(s: string) {
    '\r' !in s && '\n' !in s
  }

  lemma {:induction false} LineAlone(s: string)
    requires OneLine(s)
    ensures Lines(s) == [s]
  {
    if s != "" {
      LineAlone(s[1..]);
      assert [s[0]] + s[1..] == s;
    }
  }

  lemma {:induction false} LineThen(s: string, rest: string)
    requires OneLine(s)
    ensures Lines(s + "\n" + rest) == [s] + Lines(rest)
  {
    if s == "" {
      assert s + "\n" + rest == "\n" + rest && ("\n" + rest)[1..] == rest;
    } else {
      LineThen(s[1..], rest);
      assert (s + "\n" + rest)[1..] == s[1..] + "\n" + rest;
      assert [s[0]] + s[1..] == s;
    }
  }

  /** But it reads the words of an event that carries a name in front of its data,
      which the redactor does not decode. */
  lemma NamedEventsPassUnredacted(cfg: Config, name: string, data: string)
    requires OneLine(name) && OneLine(data) && cfg.decode(data).Some?
    ensures var event := "event: " + name + "\n" + ("data: " + data);
      && PassesThrough(cfg, event)
      && StandardRead(cfg.decode, event) == PayloadWords(cfg.decode(data).value)
  {
    var first, second := "event: " + name, "data: " + data;
    LineThen(first, second);
    LineAlone(second);
    NamedPasses(first, second);
    assert [first] + [second] == [first, second];
    hide Lines, Strip, PayloadWords;
    assert first[0] == 'e' && DataLine(first) == None;
    assert DataLine(second) == Some(data);
    assert [first, second][1..] == [second] && [second][1..] == [];
    assert ReadLines(cfg.decode, [second], None) == ReadLines(cfg.decode, [], Some(data));
  }

  lemma FrontStays(s: string)
    requires s != "" && !IsSpace(s[0])
    ensures Strip(s) <= s
  {
    assert TrimLeft(s) == s;
    hide TrimLeft, TrimRight, IsSpace;
  }

  lemma NamedPasses(first: string, second: string)
    requires first != "" && first[0] == 'e'
    ensures DataOf(first + "\n" + second).None?
  {
    hide Strip;
    var s := first + "\n" + second;
    assert s[0] == 'e';
    FrontStays(s);
    StartsOtherwise(Strip(s));
  }

  lemma StartsOtherwise(s: string)
    requires s == "" || s[0] == 'e'
    ensures !("data:" <= s)
  {
  }
}
