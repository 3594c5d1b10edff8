/** The redactor between the model's event stream and the client. */
module SseRedactor {
  import opened Common
  import opened ReasoningText
  import opened ReasoningParser
  import opened SseClient
  import opened SseFilter

  class SSEReasoningRedactor {
    const cfg: Config
    const parser: ReasoningStreamParser
    var structuredParts: seq<string>
    var structuredFinishReason: Option<string>
    var buffer: string
    var lastMetadata: map<string, string>
    var doneSeen: bool

    ghost predicate Valid()
      reads this, parser
    {
      parser.Valid() && Find(buffer, GAP).None?
    }

    ghost function View(): State
      reads this, parser
    {
      State(parser.inReasoning, parser.carry, Concat(structuredParts), structuredFinishReason, lastMetadata, doneSeen)
    }

    constructor (cfg: Config, expectReasoning: bool)
      ensures Valid() && fresh(parser) && this.cfg == cfg
      ensures View() == Start(expectReasoning) && buffer == ""
    {
      this.cfg := cfg;
      parser := new ReasoningStreamParser(expectReasoning, false);
      structuredParts := [];
      structuredFinishReason := None;
      buffer := "";
      lastMetadata := map[];
      doneSeen := false;
    }

    method FilterDelta(d: Delta) returns (normalized: Delta)
      requires parser.Valid()
      modifies `structuredParts, parser
      ensures parser.Valid()
      ensures (View(), normalized) == SseFilter.FilterDelta(cfg.structured, old(View()), d)
    {
      normalized := d;
      if !d.content.Words? || d.content.s == "" {
        return;
      }
      hide Scan, Exposed;
      var exposed := parser.Feed(d.content.s);
      if exposed == "" {
        normalized := d.(content := NoContent);
      } else if cfg.structured {
        ConcatAppend(structuredParts, exposed);
        structuredParts := structuredParts + [exposed];
        normalized := d.(content := NoContent);
      } else {
        normalized := d.(content := Words(exposed));
      }
    }

    method FilterChoice(choice: Choice) returns (normalized: Choice)
      requires parser.Valid()
      modifies `structuredParts, `structuredFinishReason, parser
      ensures parser.Valid()
      ensures (View(), normalized) == SseFilter.FilterChoice(cfg.structured, old(View()), choice)
    {
      normalized := choice;
      if choice.Other? {
        return;
      }
      hide SseFilter.FilterDelta;
      if cfg.structured && choice.finishReason.Some? {
        structuredFinishReason := choice.finishReason;
        normalized := normalized.(finishReason := None);
      }
      if choice.delta.Some? {
        var d := FilterDelta(choice.delta.value);
        normalized := normalized.(delta := Some(d));
      }
    }

    method FilterChoices(choices: seq<Choice>) returns (normalized: seq<Choice>)
      requires parser.Valid()
      modifies `structuredParts, `structuredFinishReason, parser
      ensures parser.Valid()
      ensures (View(), normalized) == SseFilter.FilterChoices(cfg.structured, old(View()), choices)
    {
      hide SseFilter.FilterChoice, Concat;
      normalized := [];
      ghost var start := View();
      assert choices[0..] == choices;
      assert [] + SseFilter.FilterChoices(cfg.structured, start, choices).1
          == SseFilter.FilterChoices(cfg.structured, start, choices).1;
      for i := 0 to |choices|
        invariant parser.Valid()
        invariant var (st, rest) := SseFilter.FilterChoices(cfg.structured, View(), choices[i..]);
          SseFilter.FilterChoices(cfg.structured, start, choices) == (st, normalized + rest)
      {
        ghost var before := View();
        assert choices[i..][0] == choices[i] && choices[i..][1..] == choices[i + 1..];
        var c := FilterChoice(choices[i]);
        ghost var rest := SseFilter.FilterChoices(cfg.structured, View(), choices[i + 1..]).1;
        assert SseFilter.FilterChoices(cfg.structured, before, choices[i..]).1 == [c] + rest;
        assert normalized + ([c] + rest) == (normalized + [c]) + rest;
        normalized := normalized + [c];
      }
      assert choices[|choices|..] == [];
      assert normalized + [] == normalized;
    }

    method RememberMetadata(p: Payload, keys: seq<string>)
      modifies `lastMetadata
      ensures lastMetadata == old(lastMetadata) + Selected(p.fields, keys)
    {
      assert keys[..0] == [];
      assert lastMetadata + Selected(p.fields, []) == lastMetadata;
      hide Selected;
      for i := 0 to |keys|
        invariant lastMetadata == old(lastMetadata) + Selected(p.fields, keys[..i])
      {
        OneMoreKey(old(lastMetadata), p.fields, keys, i);
        if keys[i] in p.fields {
          lastMetadata := lastMetadata[keys[i] := p.fields[keys[i]]];
        }
      }
      assert keys[..|keys|] == keys;
    }

    method FinishApplicationContent(includeDone: bool) returns (output: seq<Event>)
      requires parser.Valid()
      modifies `structuredParts, parser
      ensures parser.Valid()
      ensures (View(), output) == FinishContent(cfg, old(View()), includeDone)
    {
      hide Strip, Exposed, Plain;
      var tail := parser.Finish();
      output := [];
      if cfg.structured {
        ghost var held := Concat(structuredParts);
        if tail != "" {
          ConcatAppend(structuredParts, tail);
          structuredParts := structuredParts + [tail];
        }
        assert held + "" == held;
        var final := Strip(Concat(structuredParts));
        if cfg.valid(final) {
          output := [SyntheticContentEvent(final, structuredFinishReason)];
        } else {
          output := [Failure(final)];
        }
      } else if tail != "" {
        output := [SyntheticContentEvent(tail, None)];
      }
      assert output + [] == output;
      if includeDone {
        output := output + [Done];
      }
    }

    function SyntheticContentEvent(content: string, finishReason: Option<string>): Event
      reads `lastMetadata
    {
      var fields := if "object" in lastMetadata then lastMetadata
                    else lastMetadata["object" := "chat.completion.chunk"];
      Data(Payload(fields, false, false, Some([SyntheticChoice(content, finishReason)])))
    }

    method FilterEvent(event: string) returns (output: seq<Event>)
      requires parser.Valid()
      modifies `structuredParts, `structuredFinishReason, `lastMetadata, `doneSeen, parser
      ensures parser.Valid()
      ensures (View(), output) == SseFilter.FilterEvent(cfg, old(View()), event)
    {
      hide SseFilter.FilterChoices, FinishContent, Strip, Selected;
      var stripped := Strip(event);
      if !("data:" <= stripped) {
        return PassThrough(event);
      }
      var data := Strip(stripped[5..]);
      if data == "[DONE]" {
        doneSeen := true;
        output := FinishApplicationContent(true);
        return;
      }
      var decoded := cfg.decode(data);
      if decoded.None? {
        return PassThrough(event);
      }
      var payload := decoded.value;
      RememberMetadata(payload, METADATA);
      if payload.choices.Some? {
        var choices := FilterChoices(payload.choices.value);
        payload := payload.(choices := Some(choices));
      }
      output := if HasTransportSignal(payload) then [Data(payload)] else [];
    }

    /** One feed is one feed of the specification. */
    method Feed(chunk: string) returns (output: seq<Event>)
      requires Valid()
      modifies this, parser
      ensures Valid()
      ensures (View(), buffer, output) == FeedText(cfg, old(View()), old(buffer), chunk)
    {
      buffer := buffer + chunk;
      output := [];
      ghost var whole := Frames(buffer);
      ghost var start := View();
      assert [] + FilterEvents(cfg, start, whole.frames).1 == FilterEvents(cfg, start, whole.frames).1;
      while Find(buffer, GAP).Some?
        invariant parser.Valid()
        invariant Frames(buffer).rest == whole.rest
        invariant FilterEvents(cfg, start, whole.frames)
               == (FilterEvents(cfg, View(), Frames(buffer).frames).0,
                   output + FilterEvents(cfg, View(), Frames(buffer).frames).1)
        decreases |buffer|
      {
        hide SseFilter.FilterEvent;
        var k := Find(buffer, GAP).value;
        var event := buffer[..k];
        ghost var before := View();
        ghost var rest := Frames(buffer[k + |GAP|..]);
        FramesStep(buffer);
        buffer := buffer[k + |GAP|..];
        var rendered := FilterEvent(event);
        FilterStep(cfg, before, event, rest.frames);
        ghost var more := FilterEvents(cfg, View(), rest.frames).1;
        Reassociate(output, rendered, more);
        output := output + rendered;
      }
      FramesStep(buffer);
      assert output + [] == output;
    }

    /** The end of the input: the last frame, then what is still held back. */
    method Finish() returns (output: seq<Event>)
      requires Valid()
      modifies this, parser
      ensures Valid() && buffer == ""
      ensures (View(), output) == FinishText(cfg, old(View()), old(buffer))
    {
      hide SseFilter.FilterEvent, FinishContent, FinishText, StripNewlines;
      FinishTextUnfolds(cfg, View(), buffer);
      output := [];
      if buffer != "" {
        output := FilterEvent(StripNewlines(buffer));
        buffer := "";
      }
      if !doneSeen {
        var rest := FinishApplicationContent(false);
        output := output + rest;
      }
      assert output + [] == output;
    }
  }

  lemma OneMoreKey(m: map<string, string>, fields: map<string, string>, keys: seq<string>, i: nat)
    requires i < |keys|
    ensures var was := m + Selected(fields, keys[..i]);
      m + Selected(fields, keys[..i + 1]) == if keys[i] in fields then was[keys[i] := fields[keys[i]]] else was
  {
    assert keys[..i + 1] == keys[..i] + [keys[i]];
  }

  lemma FilterStep(cfg: Config, st: State, event: string, rest: seq<string>)
    ensures var (st1, out1) := SseFilter.FilterEvent(cfg, st, event);
      var (st2, out2) := FilterEvents(cfg, st1, rest);
      FilterEvents(cfg, st, [event] + rest) == (st2, out1 + out2)
  {
    assert ([event] + rest)[1..] == rest;
  }

  lemma Reassociate(a: seq<Event>, b: seq<Event>, c: seq<Event>)
    ensures (a + b) + c == a + (b + c)
  {
  }

  /** Feeding a stream in any chunks and finishing it delivers the reference parse
      of the model's words; a client that reads besides them only signals reads the
      parse, and nothing else, exactly if no event offers it words besides. */
  method RedactStream(redactor: SSEReasoningRedactor, mode: bool, chunks: seq<string>, ghost client: Client)
    returns (output: seq<Event>)
    requires redactor.Valid() && redactor.View() == Start(mode) && redactor.buffer == ""
    requires DoneEnds(redactor.cfg, EventsOf(Concat(chunks)))
    modifies redactor, redactor.parser
    ensures Delivered(redactor.cfg, mode, AllDeltas(redactor.cfg, EventsOf(Concat(chunks))), "", output)
    ensures Signalled(client) ==>
      (Reads(client, redactor.cfg, mode, AllDeltas(redactor.cfg, EventsOf(Concat(chunks))), output)
       <==> forall e :: e in EventsOf(Concat(chunks)) ==> OffersNothing(client, redactor.cfg, e))
  {
    output := [];
    ghost var cfg := redactor.cfg;
    ghost var all := FeedChunks(cfg, Start(mode), "", chunks);
    assert chunks[0..] == chunks && [] + all.2 == all.2;
    for i := 0 to |chunks|
      invariant redactor.Valid()
      invariant var (st, buffer, out) := FeedChunks(cfg, redactor.View(), redactor.buffer, chunks[i..]);
        FeedChunks(cfg, Start(mode), "", chunks) == (st, buffer, output + out)
    {
      hide FeedText;
      assert chunks[i..][1..] == chunks[i + 1..];
      ghost var before, buffer := redactor.View(), redactor.buffer;
      var part := redactor.Feed(chunks[i]);
      Reassociate(output, part, FeedChunks(cfg, redactor.View(), redactor.buffer, chunks[i + 1..]).2);
      output := output + part;
    }
    assert chunks[|chunks|..] == [] && output + [] == output;
    ChunksAreParsed(cfg, mode, chunks);
    if Signalled(client) {
      ChunksReadExactly(client, cfg, mode, chunks);
    }
    hide FinishText;
    var rest := redactor.Finish();
    output := output + rest;
  }
}
