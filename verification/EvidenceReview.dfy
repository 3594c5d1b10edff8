/** The review of repeated multi-model device reports. */
module EvidenceReview {
  import opened Common
  import opened JsonValue

  datatype Settings = Settings(minReports: nat, minCycles: nat)

  /** The settings' constructor refuses the rest. */
  predicate ValidSettings(s: Settings) {
    s.minReports >= 2 && s.minCycles >= 1
  }

  // ---- Reading a report --------------------------------------------------------

  /** The parts of a cycle as the review recomputes them. */
  datatype Cycle = Cycle(complete: bool, identity: bool, overlap: bool, clean: bool,
                         rss: Option<Json>, available: Option<Json>)

  /** What two reports must share to be comparable. */
  datatype Key = Key(models: seq<Json>, fingerprints: Option<seq<string>>, host: Option<(string, int)>,
                     procedure: seq<Json>, budget: seq<Json>)

  datatype Parsed = Parsed(key: Key, cycles: seq<Cycle>, shutdownComplete: bool, reportComplete: bool,
                           autoEviction: bool)

  predicate PositiveInt(v: Json) {
    v.Int? && v.i > 0
  }

  predicate IsSha256(s: string) {
    |s| == 64 && forall c :: c in Lower(s) ==> c in "0123456789abcdef"
  }

  predicate ValidModel(m: Json) {
    && m.Obj?
    && NonBlankText(Lookup(m.fields, "key")) && NonBlankText(Lookup(m.fields, "model_id"))
    && NonBlankText(Lookup(m.fields, "backend"))
    && Lookup(m.fields, "artifact_sha256").Str? && IsSha256(Lookup(m.fields, "artifact_sha256").s)
    && PositiveInt(Lookup(m.fields, "estimate_bytes"))
  }

  predicate ValidModels(models: seq<Json>)
    requires forall m :: m in models ==> m.Obj?
  {
    && (forall m :: m in models ==> ValidModel(m))
    && (forall i, j :: 0 <= i < j < |models| ==>
      Lookup(models[i].fields, "key") != Lookup(models[j].fields, "key")
      && Lookup(models[i].fields, "model_id") != Lookup(models[j].fields, "model_id"))
  }

  function ModelKey(m: Json): Json
    requires ValidModel(m)
  {
    Arr([Lookup(m.fields, "key"), Lookup(m.fields, "model_id"), Lookup(m.fields, "backend"),
         Str(Lower(Lookup(m.fields, "artifact_sha256").s)), Lookup(m.fields, "estimate_bytes")])
  }

  function Fingerprint(v: Json): Option<string> {
    if v.Obj? && Lookup(v.fields, "fingerprint").Str? && IsSha256(Lookup(v.fields, "fingerprint").s)
    then Some(Lower(Lookup(v.fields, "fingerprint").s)) else None
  }

  function Fingerprints(v: Json): Option<seq<string>> {
    if v.Arr? && |v.items| == 2 && Fingerprint(v.items[0]).Some? && Fingerprint(v.items[1]).Some?
    then Some([Fingerprint(v.items[0]).value, Fingerprint(v.items[1]).value]) else None
  }

  predicate ResponsesOk(v: Json, models: seq<Json>)
    requires forall m :: m in models ==> m.Obj?
  {
    && v.Arr? && |v.items| == 2
    && (forall r :: r in v.items ==>
      r.Obj? && Lookup(r.fields, "model").Str? && EqualsNumber(Lookup(r.fields, "http_status"), 200))
    && (set r | r in v.items :: Lookup(r.fields, "model")) == (set m | m in models :: Lookup(m.fields, "key"))
  }

  predicate Overlaps(cycle: map<string, Json>, estimate: int) {
    var peak := Lookup(cycle, "configured_accounting_peak");
    && peak.Obj? && Lookup(cycle, "concurrent_transient_overlap_observed") == Bool(true)
    && Lookup(peak.fields, "transient_committed_bytes").Int?
    && Lookup(peak.fields, "transient_committed_bytes").i >= 2 * estimate
  }

  predicate AccountingClean(v: Json) {
    v.Obj? && forall k :: k in ["resident_committed_bytes", "resident_reserved_bytes", "transient_committed_bytes",
                                "transient_reserved_bytes", "reservation_count"]
                          ==> EqualsNumber(Lookup(v.fields, k), 0)
  }

  function OptionalNumber(v: Json): Option<Json> {
    if v.Int? || v.Real? then Some(v) else None
  }

  function PostStop(cycle: map<string, Json>, name: string): Option<Json> {
    var v := Lookup(cycle, "post_stop_observation");
    if v.Obj? then OptionalNumber(Lookup(v.fields, name)) else None
  }

  predicate Evicts(m: map<string, Json>) {
    Lookup(m, "automatic_eviction_exercised") == Bool(true)
  }

  function ParseCycle(cycle: map<string, Json>, models: seq<Json>, estimate: int): Cycle
    requires forall m :: m in models ==> m.Obj?
  {
    var identity := Lookup(cycle, "runtime_identities_verified") == Bool(true)
                    && Fingerprints(Lookup(cycle, "runtime_identities")).Some?;
    var overlap := Overlaps(cycle, estimate);
    var clean := AccountingClean(Lookup(cycle, "configured_accounting_after_unload"));
    var complete := Lookup(cycle, "complete") == Bool(true) && identity && overlap && clean
                    && ResponsesOk(Lookup(cycle, "responses"), models) && !Evicts(cycle);
    Cycle(complete, identity, overlap, clean, PostStop(cycle, "rss_after_minus_before_bytes"),
          PostStop(cycle, "available_after_minus_before_bytes"))
  }

  predicate RetainedFailedOwner(v: Json) {
    v.Arr? && exists x :: x in v.items && x.Obj? && Lookup(x.fields, "state") == Str("failed")
                          && PositiveInt(Lookup(x.fields, "active_requests"))
  }

  predicate ShutdownComplete(shutdown: map<string, Json>) {
    var first := Lookup(shutdown, "configured_accounting_after_first_shutdown");
    && !Evicts(shutdown)
    && Lookup(shutdown, "complete") == Bool(true)
    && Lookup(shutdown, "first_shutdown_reported_incomplete") == Bool(true)
    && Lookup(shutdown, "active_owner_retained_after_timeout") == Bool(true)
    && RetainedFailedOwner(Lookup(shutdown, "remaining_after_first_shutdown"))
    && first.Obj? && PositiveInt(Lookup(first.fields, "resident_committed_bytes"))
    && AccountingClean(Lookup(shutdown, "configured_accounting_after_retry"))
  }

  function HostKey(host: map<string, Json>): Option<(string, int)> {
    var total := Lookup(host, "total_memory_bytes");
    var platform := Lookup(host, "platform");
    if total.Obj? && PositiveInt(Lookup(total.fields, "value")) && Lookup(total.fields, "source") == Str("measured")
       && NonBlankText(platform)
    then Some((platform.s, Lookup(total.fields, "value").i)) else None
  }

  function Canons(m: map<string, Json>, keys: seq<string>): seq<Json> {
    seq(|keys|, i requires 0 <= i < |keys| => Canon(Lookup(m, keys[i])))
  }

  const PROCEDURE_KEYS := ["cycles", "max_tokens", "request_estimate_bytes", "global_max_running",
                           "global_queue_capacity", "settle_after_unload_seconds", "shutdown_timeout_seconds",
                           "sample_interval_seconds"]

  const BUDGET_KEYS := ["resident_estimate_bytes", "transient_capacity_bytes", "success_margin_bytes",
                        "headroom_bytes", "host_safety_bytes", "usable_budget_bytes"]

  predicate WellFormed(report: map<string, Json>) {
    var procedure := Lookup(report, "procedure");
    var models := Lookup(report, "models");
    && EqualsNumber(Lookup(report, "schema_version"), 1)
    && procedure.Obj?
    && Lookup(procedure.fields, "name") == Str("multi_model_resource_governor_v1")
    && Lookup(procedure.fields, "prompt_recorded") == Bool(false)
    && Lookup(procedure.fields, "output_recorded") == Bool(false)
    && Lookup(procedure.fields, "process_ids_recorded") == Bool(false)
    && Lookup(procedure.fields, "automatic_eviction_enabled") == Bool(false)
    && models.Arr? && |models.items| == 2 && (forall m :: m in models.items ==> m.Obj?)
    && Lookup(report, "budget").Obj? && Lookup(report, "host_before").Obj?
    && Lookup(report, "cycles").Arr? && Lookup(report, "shutdown_under_load").Obj?
    && PositiveInt(Lookup(procedure.fields, "request_estimate_bytes"))
    && ValidModels(models.items)
  }

  /** The cycles read so far, the fingerprints they share, and whether one of them
      exercised eviction. */
  datatype Reading = Reading(cycles: seq<Cycle>, fingerprints: Option<seq<string>>, evicted: bool)

  function ReadCycle(r: Reading, v: Json, models: seq<Json>, estimate: int): Option<Reading>
    requires forall m :: m in models ==> m.Obj?
  {
    if !v.Obj? then None
    else
      var f := Fingerprints(Lookup(v.fields, "runtime_identities"));
      if f.Some? && r.fingerprints.Some? && f != r.fingerprints then None
      else Some(Reading(r.cycles + [ParseCycle(v.fields, models, estimate)],
                        if f.Some? then f else r.fingerprints, r.evicted || Evicts(v.fields)))
  }

  function ReadCycles(items: seq<Json>, models: seq<Json>, estimate: int): Option<Reading>
    requires forall m :: m in models ==> m.Obj?
  {
    if items == [] then Some(Reading([], None, false))
    else
      var r := ReadCycles(items[..|items| - 1], models, estimate);
      if r.None? then None else ReadCycle(r.value, items[|items| - 1], models, estimate)
  }

  predicate AllComplete(cycles: seq<Cycle>) {
    forall c :: c in cycles ==> c.complete
  }

  function Assemble(report: map<string, Json>, r: Reading): Parsed
    requires WellFormed(report)
  {
    var procedure := Lookup(report, "procedure").fields;
    var models := Lookup(report, "models").items;
    var shutdown := Lookup(report, "shutdown_under_load").fields;
    var done := ShutdownComplete(shutdown);
    Parsed(
      Key(seq(|models|, i requires 0 <= i < |models| => ModelKey(models[i])), r.fingerprints,
          HostKey(Lookup(report, "host_before").fields), Canons(procedure, PROCEDURE_KEYS),
          Canons(Lookup(report, "budget").fields, BUDGET_KEYS)),
      r.cycles, done,
      Lookup(report, "complete") == Bool(true) && Lookup(report, "status") == Str("complete")
      && EqualsNumber(Lookup(procedure, "cycles"), |r.cycles|) && AllComplete(r.cycles) && done,
      Evicts(report) || r.evicted || Evicts(shutdown))
  }

  function Parse(report: map<string, Json>): Option<Parsed> {
    if !WellFormed(report) then None
    else
      var r := ReadCycles(Lookup(report, "cycles").items, Lookup(report, "models").items,
                          Lookup(Lookup(report, "procedure").fields, "request_estimate_bytes").i);
      if r.None? then None else Some(Assemble(report, r.value))
  }

  method ParseReport(report: map<string, Json>) returns (parsed: Option<Parsed>)
    ensures parsed == Parse(report)
  {
    hide WellFormed, ReadCycle, Assemble;
    if !WellFormed(report) {
      return None;
    }
    WellFormedParts(report);
    var cycles := Lookup(report, "cycles").items;
    var models := Lookup(report, "models").items;
    var estimate := Lookup(Lookup(report, "procedure").fields, "request_estimate_bytes").i;
    var reading := Reading([], None, false);
    for i := 0 to |cycles|
      invariant ReadCycles(cycles[..i], models, estimate) == Some(reading)
    {
      assert cycles[..i + 1][..i] == cycles[..i];
      var next := ReadCycle(reading, cycles[i], models, estimate);
      if next.None? {
        ReadingFails(cycles, i, models, estimate);
        return None;
      }
      reading := next.value;
    }
    assert cycles[..|cycles|] == cycles;
    return Some(Assemble(report, reading));
  }

  lemma WellFormedParts(report: map<string, Json>)
    requires WellFormed(report)
    ensures Lookup(report, "cycles").Arr? && Lookup(report, "models").Arr? && Lookup(report, "procedure").Obj?
    ensures Lookup(Lookup(report, "procedure").fields, "request_estimate_bytes").Int?
    ensures forall m :: m in Lookup(report, "models").items ==> m.Obj?
  {
  }

  /** One unreadable cycle makes the report unreadable. */
  lemma {:induction false} ReadingFails(items: seq<Json>, i: nat, models: seq<Json>, estimate: int)
    requires forall m :: m in models ==> m.Obj?
    requires i < |items| && ReadCycles(items[..i + 1], models, estimate).None?
    ensures ReadCycles(items, models, estimate).None?
  {
    hide ReadCycle;
    if i + 1 == |items| {
      assert items[..i + 1] == items;
    } else {
      assert items[..|items| - 1][..i + 1] == items[..i + 1];
      ReadingFails(items[..|items| - 1], i, models, estimate);
    }
  }

  // ---- Totals -------------------------------------------------------------------

  datatype Totals = Totals(complete: nat, identity: nat, overlap: nat, clean: nat, shutdowns: nat)

  function Plus(a: Totals, b: Totals): Totals {
    Totals(a.complete + b.complete, a.identity + b.identity, a.overlap + b.overlap, a.clean + b.clean,
           a.shutdowns + b.shutdowns)
  }

  const NOTHING := Totals(0, 0, 0, 0, 0)

  function One(b: bool): nat {
    if b then 1 else 0
  }

  function CycleTotals(c: Cycle): Totals {
    if c.complete then Totals(1, One(c.identity), One(c.overlap), One(c.clean), 0) else NOTHING
  }

  function CyclesTotals(cycles: seq<Cycle>): Totals {
    if cycles == [] then NOTHING else Plus(CyclesTotals(cycles[..|cycles| - 1]), CycleTotals(cycles[|cycles| - 1]))
  }

  function ItemTotals(item: Parsed): Totals {
    Plus(CyclesTotals(item.cycles), Totals(0, 0, 0, 0, One(item.shutdownComplete)))
  }

  function TotalsOf(items: seq<Parsed>): Totals {
    if items == [] then NOTHING else Plus(TotalsOf(items[..|items| - 1]), ItemTotals(items[|items| - 1]))
  }

  method AddCycles(start: Totals, cycles: seq<Cycle>) returns (t: Totals)
    ensures t == Plus(start, CyclesTotals(cycles))
  {
    t := start;
    hide CyclesTotals;
    assert t == Plus(start, CyclesTotals(cycles[..0])) by { NoCycles(start, cycles); }
    for j := 0 to |cycles|
      invariant t == Plus(start, CyclesTotals(cycles[..j]))
    {
      var c := cycles[j];
      OneMoreCycle(start, cycles, j);
      if c.complete {
        t := Totals(t.complete + 1, t.identity + One(c.identity), t.overlap + One(c.overlap),
                    t.clean + One(c.clean), t.shutdowns);
      }
    }
    assert cycles[..|cycles|] == cycles;
  }

  lemma NoCycles(start: Totals, cycles: seq<Cycle>)
    ensures Plus(start, CyclesTotals(cycles[..0])) == start
  {
  }

  lemma OneMoreCycle(start: Totals, cycles: seq<Cycle>, j: nat)
    requires j < |cycles|
    ensures Plus(start, CyclesTotals(cycles[..j + 1]))
         == Plus(Plus(start, CyclesTotals(cycles[..j])), CycleTotals(cycles[j]))
  {
    assert cycles[..j + 1][..j] == cycles[..j];
  }

  method ComputeTotals(items: seq<Parsed>) returns (t: Totals)
    ensures t == TotalsOf(items)
  {
    hide CyclesTotals;
    t := NOTHING;
    for i := 0 to |items|
      invariant t == TotalsOf(items[..i])
    {
      var item := items[i];
      assert items[..i + 1][..i] == items[..i];
      t := AddCycles(t, item.cycles);
      t := t.(shutdowns := t.shutdowns + One(item.shutdownComplete));
    }
    assert items[..|items|] == items;
  }

  // ---- The review ------------------------------------------------------------------

  datatype State = Insufficient | Incompatible | Sufficient

  datatype Reason =
    | InvalidSchema | NoValidReports | IdentityDiffers | TooFewReports | TooFewCycles
    | UnverifiedIdentity | NoOverlap | AccountingLeft | ShutdownIncomplete | ReportIncomplete
    | EvictionExercised | CompatibleSet

  datatype Review = Review(state: State, reports: nat, compatible: nat, totals: Totals,
                           rss: seq<Json>, available: seq<Json>, reasons: seq<Reason>)

  function When(b: bool, r: Reason): seq<Reason> {
    if b then [r] else []
  }

  function Valid(reports: seq<map<string, Json>>): seq<Parsed> {
    FlatMap(ParsedOne, reports)
  }

  function ParsedOne(report: map<string, Json>): seq<Parsed> {
    var p := Parse(report);
    if p.Some? then [p.value] else []
  }

  function WithKey(items: seq<Parsed>, key: Key): seq<Parsed> {
    if items == [] then []
    else WithKey(items[..|items| - 1], key)
         + (if items[|items| - 1].key == key then [items[|items| - 1]] else [])
  }

  function Deltas(cycles: seq<Cycle>, rss: bool): seq<Json> {
    if cycles == [] then []
    else
      var c := cycles[|cycles| - 1];
      var d := if rss then c.rss else c.available;
      Deltas(cycles[..|cycles| - 1], rss) + (if d.Some? then [d.value] else [])
  }

  function RssDeltas(item: Parsed): seq<Json> {
    Deltas(item.cycles, true)
  }

  function AvailableDeltas(item: Parsed): seq<Json> {
    Deltas(item.cycles, false)
  }

  function Report(state: State, reports: nat, compatible: seq<Parsed>, reasons: seq<Reason>): Review {
    Review(state, reports, |compatible|, TotalsOf(compatible), FlatMap(RssDeltas, compatible),
           FlatMap(AvailableDeltas, compatible), reasons)
  }

  predicate AnyIncomplete(items: seq<Parsed>) {
    exists p :: p in items && !p.reportComplete
  }

  predicate AnyEviction(items: seq<Parsed>) {
    exists p :: p in items && p.autoEviction
  }

  /** The reasons found in a compatible set. */
  function SetReasons(s: Settings, items: seq<Parsed>): seq<Reason> {
    var t := TotalsOf(items);
    When(|items| < s.minReports, TooFewReports)
    + When(t.complete < s.minCycles, TooFewCycles)
    + When(t.identity != t.complete, UnverifiedIdentity)
    + When(t.overlap != t.complete, NoOverlap)
    + When(t.clean != t.complete, AccountingLeft)
    + When(t.shutdowns != |items|, ShutdownIncomplete)
    + When(AnyIncomplete(items), ReportIncomplete)
    + When(AnyEviction(items), EvictionExercised)
  }

  function ReviewValid(s: Settings, reports: nat, valid: seq<Parsed>): Review {
    var schema := When(|valid| != reports, InvalidSchema);
    if valid == [] then Report(Insufficient, reports, [], if schema == [] then [NoValidReports] else schema)
    else
      var compatible := WithKey(valid, valid[0].key);
      if |compatible| != |valid| then Report(Incompatible, reports, compatible, schema + [IdentityDiffers])
      else
        var reasons := schema + SetReasons(s, compatible);
        if reasons == [] then Report(Sufficient, reports, compatible, [CompatibleSet])
        else Report(Insufficient, reports, compatible, reasons)
  }

  function ReviewOf(s: Settings, reports: seq<map<string, Json>>): Review {
    ReviewValid(s, |reports|, Valid(reports))
  }

  method CollectDeltas(items: seq<Parsed>) returns (rss: seq<Json>, available: seq<Json>)
    ensures rss == FlatMap(RssDeltas, items) && available == FlatMap(AvailableDeltas, items)
  {
    rss, available := [], [];
    for i := 0 to |items|
      invariant rss == FlatMap(RssDeltas, items[..i]) && available == FlatMap(AvailableDeltas, items[..i])
    {
      assert items[..i + 1][..i] == items[..i];
      var cycles := items[i].cycles;
      ghost var rss0, available0 := rss, available;
      for j := 0 to |cycles|
        invariant rss == rss0 + Deltas(cycles[..j], true)
        invariant available == available0 + Deltas(cycles[..j], false)
      {
        assert cycles[..j + 1][..j] == cycles[..j];
        if cycles[j].rss.Some? {
          rss := rss + [cycles[j].rss.value];
        }
        if cycles[j].available.Some? {
          available := available + [cycles[j].available.value];
        }
      }
      assert cycles[..|cycles|] == cycles;
    }
    assert items[..|items|] == items;
  }

  method Result(state: State, reports: nat, compatible: seq<Parsed>, reasons: seq<Reason>) returns (r: Review)
    ensures r == Report(state, reports, compatible, reasons)
  {
    var totals := ComputeTotals(compatible);
    var rss, available := CollectDeltas(compatible);
    r := Review(state, reports, |compatible|, totals, rss, available, reasons);
  }

  method ParseReports(reports: seq<map<string, Json>>) returns (valid: seq<Parsed>)
    ensures valid == Valid(reports)
  {
    hide Parse;
    valid := [];
    for i := 0 to |reports|
      invariant valid == Valid(reports[..i])
    {
      assert reports[..i + 1][..i] == reports[..i];
      var p := ParseReport(reports[i]);
      if p.Some? {
        valid := valid + [p.value];
      }
    }
    assert reports[..|reports|] == reports;
  }

  method SelectCompatible(valid: seq<Parsed>, key: Key) returns (compatible: seq<Parsed>)
    ensures compatible == WithKey(valid, key)
  {
    compatible := [];
    for i := 0 to |valid|
      invariant compatible == WithKey(valid[..i], key)
    {
      assert valid[..i + 1][..i] == valid[..i];
      if valid[i].key == key {
        compatible := compatible + [valid[i]];
      }
    }
    assert valid[..|valid|] == valid;
  }

  method ReviewMultiModelEvidence(reports: seq<map<string, Json>>, settings: Settings) returns (r: Review)
    ensures r == ReviewOf(settings, reports)
  {
    hide Valid, WithKey, SetReasons, Report, When;
    var valid := ParseReports(reports);
    NoReason(|valid| != |reports|, InvalidSchema);
    var reasons := Noted([], |valid| != |reports|, InvalidSchema);
    if valid == [] {
      r := Result(Insufficient, |reports|, [], if reasons == [] then [NoValidReports] else reasons);
      return;
    }
    var compatible := SelectCompatible(valid, valid[0].key);
    if |compatible| != |valid| {
      r := Result(Incompatible, |reports|, compatible, reasons + [IdentityDiffers]);
      return;
    }
    var more := FindReasons(compatible, settings);
    reasons := reasons + more;
    r := Result(if reasons == [] then Sufficient else Insufficient, |reports|, compatible,
                if reasons == [] then [CompatibleSet] else reasons);
  }

  method FindReasons(items: seq<Parsed>, settings: Settings) returns (reasons: seq<Reason>)
    ensures reasons == SetReasons(settings, items)
  {
    hide TotalsOf, AnyIncomplete, AnyEviction, When, Noted;
    var totals := ComputeTotals(items);
    NoReason(|items| < settings.minReports, TooFewReports);
    reasons := Noted([], |items| < settings.minReports, TooFewReports);
    reasons := Noted(reasons, totals.complete < settings.minCycles, TooFewCycles);
    reasons := Noted(reasons, totals.identity != totals.complete, UnverifiedIdentity);
    reasons := Noted(reasons, totals.overlap != totals.complete, NoOverlap);
    reasons := Noted(reasons, totals.clean != totals.complete, AccountingLeft);
    reasons := Noted(reasons, totals.shutdowns != |items|, ShutdownIncomplete);
    reasons := Noted(reasons, AnyIncomplete(items), ReportIncomplete);
    reasons := Noted(reasons, AnyEviction(items), EvictionExercised);
  }

  lemma NoReason(b: bool, r: Reason)
    ensures [] + When(b, r) == When(b, r)
  {
  }

  /** One more reason if it applies. */
  function Noted(reasons: seq<Reason>, b: bool, r: Reason): (next: seq<Reason>)
    ensures next == reasons + When(b, r)
  {
    if b then reasons + [r] else reasons
  }

  // ---- What completeness implies -----------------------------------------------------

  predicate Honest(c: Cycle) {
    c.complete ==> c.identity && c.overlap && c.clean
  }

  /** Every recomputed cycle that counts as complete was verified, overlapped and
      clean, and none of them exercised eviction. */
  lemma {:induction false} ReadingIsHonest(items: seq<Json>, models: seq<Json>, estimate: int)
    requires forall m :: m in models ==> m.Obj?
    ensures var r := ReadCycles(items, models, estimate);
      r.Some? ==>
        && |r.value.cycles| == |items|
        && (forall c :: c in r.value.cycles ==> Honest(c))
        && (AllComplete(r.value.cycles) ==> !r.value.evicted)
  {
    hide Fingerprints, Overlaps, AccountingClean, ResponsesOk, Evicts, PostStop;
    if items != [] {
      ReadingIsHonest(items[..|items| - 1], models, estimate);
      var r := ReadCycles(items[..|items| - 1], models, estimate);
      if ReadCycles(items, models, estimate).Some? {
        var c := ParseCycle(items[|items| - 1].fields, models, estimate);
        assert forall x :: x in r.value.cycles + [c] <==> x in r.value.cycles || x == c;
      }
    }
  }

  /** A complete report has only complete cycles, as many as it declares, and a
      complete shutdown; the only eviction it can show is the one it declares at
      the top. */
  lemma ParsedFacts(report: map<string, Json>)
    requires Parse(report).Some?
    ensures var p := Parse(report).value;
      && (forall c :: c in p.cycles ==> Honest(c))
      && (p.reportComplete ==> p.shutdownComplete && AllComplete(p.cycles) && |p.key.procedure| > 0
                               && p.key.procedure[0] == Real(|p.cycles| as real))
      && (p.reportComplete ==> (p.autoEviction <==> Evicts(report)))
  {
    WellFormedParts(report);
    ReadingIsHonest(Lookup(report, "cycles").items, Lookup(report, "models").items,
                    Lookup(Lookup(report, "procedure").fields, "request_estimate_bytes").i);
    hide WellFormed, ReadCycles, AccountingClean, RetainedFailedOwner, HostKey, ModelKey, Canon, Honest;
  }

  lemma {:induction false} HonestCycles(cycles: seq<Cycle>)
    requires forall c :: c in cycles ==> Honest(c)
    ensures var t := CyclesTotals(cycles);
      t.identity == t.overlap == t.clean == t.complete && t.complete <= |cycles| && t.shutdowns == 0
    ensures AllComplete(cycles) ==> CyclesTotals(cycles).complete == |cycles|
  {
    if cycles != [] {
      HonestCycles(cycles[..|cycles| - 1]);
      assert cycles[|cycles| - 1] in cycles;
    }
  }

  ghost predicate HonestItem(p: Parsed) {
    forall c :: c in p.cycles ==> Honest(c)
  }

  lemma {:induction false} HonestTotals(items: seq<Parsed>)
    requires forall p :: p in items ==> HonestItem(p)
    ensures var t := TotalsOf(items);
      t.identity == t.overlap == t.clean == t.complete && t.shutdowns <= |items|
    ensures (forall p :: p in items ==> p.shutdownComplete) ==> TotalsOf(items).shutdowns == |items|
  {
    hide CyclesTotals, HonestItem;
    if items != [] {
      HonestTotals(items[..|items| - 1]);
      assert items[|items| - 1] in items;
      HonestItemCycles(items[|items| - 1]);
    }
  }

  lemma HonestItemCycles(p: Parsed)
    requires HonestItem(p)
    ensures var t := CyclesTotals(p.cycles);
      t.identity == t.overlap == t.clean == t.complete && t.shutdowns == 0
  {
    HonestCycles(p.cycles);
  }

  lemma ValidAreHonest(reports: seq<map<string, Json>>)
    ensures forall p :: p in Valid(reports) ==> HonestItem(p)
  {
    hide Parse;
    FlatMapMembers(ParsedOne, reports);
    forall p | p in Valid(reports) ensures HonestItem(p) {
      var report :| report in reports && p in ParsedOne(report);
      ParsedFacts(report);
    }
  }

  lemma {:induction false} WithKeyMembers(items: seq<Parsed>, key: Key)
    ensures forall p :: p in WithKey(items, key) ==> p in items
    ensures |WithKey(items, key)| <= |items|
    ensures |WithKey(items, key)| == |items| <==> forall p :: p in items ==> p.key == key
    ensures |WithKey(items, key)| == |items| ==> WithKey(items, key) == items
  {
    if items != [] {
      var front, last := items[..|items| - 1], items[|items| - 1];
      WithKeyMembers(front, key);
      assert items == front + [last];
      assert forall p :: p in items <==> p in front || p == last;
    }
  }

  /** The three mismatch reasons can never be given. */
  lemma MismatchNeverReported(s: Settings, reports: seq<map<string, Json>>)
    ensures var reasons := ReviewOf(s, reports).reasons;
      forall r :: r in reasons ==> !Mismatch(r)
  {
    hide Valid, HonestItem, Report, SetReasons, TotalsOf, WithKey;
    ReportReasons();
    var valid := Valid(reports);
    ValidAreHonest(reports);
    if valid != [] {
      var compatible := WithKey(valid, valid[0].key);
      WithKeyMembers(valid, valid[0].key);
      HonestTotals(compatible);
      NoMismatch(s, compatible);
    }
  }

  lemma ReportReasons()
    ensures forall state, n, items, reasons :: Report(state, n, items, reasons).reasons == reasons
    ensures forall state, n, items, reasons :: Report(state, n, items, reasons).state == state
  {
  }

  predicate Mismatch(r: Reason) {
    r == UnverifiedIdentity || r == NoOverlap || r == AccountingLeft
  }

  lemma NoMismatch(s: Settings, items: seq<Parsed>)
    requires var t := TotalsOf(items); t.identity == t.overlap == t.clean == t.complete
    ensures forall r :: r in SetReasons(s, items) ==> !Mismatch(r)
  {
    hide TotalsOf, AnyIncomplete, AnyEviction;
  }

  // ---- Exactly when the evidence is sufficient ---------------------------------------

  lemma NoSetReasons(s: Settings, items: seq<Parsed>)
    ensures var t := TotalsOf(items);
      SetReasons(s, items) == [] <==>
        && |items| >= s.minReports && t.complete >= s.minCycles
        && t.identity == t.complete && t.overlap == t.complete && t.clean == t.complete
        && t.shutdowns == |items| && !AnyIncomplete(items) && !AnyEviction(items)
  {
    hide TotalsOf, AnyIncomplete, AnyEviction;
  }

  lemma SufficientValid(s: Settings, n: nat, valid: seq<Parsed>)
    ensures ReviewValid(s, n, valid).state == Sufficient <==>
      && |valid| == n && valid != [] && (forall p :: p in valid ==> p.key == valid[0].key)
      && SetReasons(s, valid) == []
  {
    hide SetReasons, WithKey, Report;
    ReportReasons();
    if valid != [] {
      WithKeyMembers(valid, valid[0].key);
      if |valid| == n {
        NoReasonsBefore(SetReasons(s, valid));
      }
    }
  }

  lemma NoReasonsBefore(more: seq<Reason>)
    ensures When(false, InvalidSchema) + more == more
  {
  }

  lemma {:induction false} ValidMatches(reports: seq<map<string, Json>>)
    ensures |Valid(reports)| <= |reports|
    ensures |Valid(reports)| == |reports| <==> forall r :: r in reports ==> Parse(r).Some?
    ensures |Valid(reports)| == |reports| ==>
      forall i :: 0 <= i < |reports| ==> Parse(reports[i]).Some? && Valid(reports)[i] == Parse(reports[i]).value
  {
    hide Parse;
    if reports != [] {
      var front, last := reports[..|reports| - 1], reports[|reports| - 1];
      ValidMatches(front);
      assert reports == front + [last];
      assert forall r :: r in reports <==> r in front || r == last;
      assert forall i :: 0 <= i < |front| ==> reports[i] == front[i];
    }
  }

  /** Complete items of the same length count as many cycles as a product. */
  lemma {:induction false} CompleteTotals(items: seq<Parsed>, n: nat)
    requires forall p :: p in items ==> HonestItem(p) && AllComplete(p.cycles) && |p.cycles| == n
    ensures TotalsOf(items).complete == |items| * n
  {
    hide CyclesTotals;
    if items != [] {
      var last := items[|items| - 1];
      CompleteTotals(items[..|items| - 1], n);
      assert last in items;
      HonestCycles(last.cycles);
      assert |items| * n == (|items| - 1) * n + n;
    }
  }

  /** Every report in `items` is recomputed complete and shows no eviction. */
  ghost predicate AllSound(items: seq<Parsed>) {
    forall p :: p in items ==> p.reportComplete && !p.autoEviction
  }

  ghost predicate SameKeys(items: seq<Parsed>) {
    forall p, q :: p in items && q in items ==> p.key == q.key
  }

  lemma SoundFacts(items: seq<Parsed>)
    requires items != [] && AllSound(items) && SameKeys(items)
    requires forall p :: p in items ==> HonestItem(p) && (p.reportComplete ==>
      p.shutdownComplete && AllComplete(p.cycles) && |p.key.procedure| > 0
      && p.key.procedure[0] == Real(|p.cycles| as real))
    ensures var t := TotalsOf(items);
      && t.complete == |items| * |items[0].cycles|
      && t.identity == t.complete && t.overlap == t.complete && t.clean == t.complete && t.shutdowns == |items|
  {
    forall p | p in items ensures |p.cycles| == |items[0].cycles| {
      assert items[0] in items && p.key == items[0].key;
      assert (|p.cycles| as real) == (|items[0].cycles| as real);
    }
    hide TotalsOf, HonestItem, AllComplete;
    CompleteTotals(items, |items[0].cycles|);
    HonestTotals(items);
  }

  lemma SufficientForParsed(s: Settings, items: seq<Parsed>)
    requires items != []
    requires forall p :: p in items ==> HonestItem(p) && (p.reportComplete ==>
      p.shutdownComplete && AllComplete(p.cycles) && |p.key.procedure| > 0
      && p.key.procedure[0] == Real(|p.cycles| as real))
    requires SameKeys(items)
    ensures SetReasons(s, items) == [] <==>
      AllSound(items) && |items| >= s.minReports && |items| * |items[0].cycles| >= s.minCycles
  {
    NoSetReasons(s, items);
    if AllSound(items) {
      SoundFacts(items);
    }
    assert AllSound(items) <==> !AnyIncomplete(items) && !AnyEviction(items);
    hide SetReasons, TotalsOf, HonestItem, AllComplete, SameKeys;
  }

  /** The evidence is sufficient exactly when every report parses, all share one
      key, each is recomputed complete and declares no eviction, and both the number
      of reports and that number times the declared cycles meet the minima. */
  lemma SufficientExactly(s: Settings, reports: seq<map<string, Json>>)
    requires ValidSettings(s)
    ensures ReviewOf(s, reports).state == Sufficient <==>
      && |reports| >= s.minReports
      && (forall r :: r in reports ==> Parse(r).Some?)
      && (forall r, q :: r in reports && q in reports ==> Parse(r).value.key == Parse(q).value.key)
      && (forall r :: r in reports ==> Parse(r).value.reportComplete && !Evicts(r))
      && |reports| * |Parse(reports[0]).value.cycles| >= s.minCycles
  {
    hide Parse, SetReasons, HonestItem, Evicts, Valid, Matching, SameKeys, AllSound, AllComplete, ReviewValid;
    var valid := Valid(reports);
    SufficientValid(s, |reports|, valid);
    ValidMatches(reports);
    if |valid| == |reports| && valid != [] {
      ValidMatching(reports);
      KeysMatch(reports, valid);
      if SameKeys(valid) {
        SoundMatch(reports, valid);
        SufficientForParsed(s, valid);
      }
    }
  }

  lemma ValidMatching(reports: seq<map<string, Json>>)
    requires |Valid(reports)| == |reports|
    ensures Matching(reports, Valid(reports))
  {
    hide Parse, Valid;
    var valid := Valid(reports);
    ValidMatches(reports);
    forall p | p in valid ensures exists r :: r in reports && Parse(r) == Some(p) {
      var i :| 0 <= i < |valid| && valid[i] == p;
      assert reports[i] in reports && Parse(reports[i]) == Some(p);
    }
    forall r | r in reports ensures Parse(r).value in valid {
      var i :| 0 <= i < |reports| && reports[i] == r;
      assert valid[i] == Parse(r).value;
    }
  }

  ghost predicate Matching(reports: seq<map<string, Json>>, valid: seq<Parsed>) {
    && (forall r :: r in reports ==> Parse(r).Some? && Parse(r).value in valid)
    && (forall p :: p in valid ==> exists r :: r in reports && Parse(r) == Some(p))
  }

  lemma KeysMatch(reports: seq<map<string, Json>>, valid: seq<Parsed>)
    requires Matching(reports, valid) && valid != []
    ensures SameKeys(valid) <==> forall p :: p in valid ==> p.key == valid[0].key
    ensures SameKeys(valid) <==>
      forall r, q :: r in reports && q in reports ==> Parse(r).value.key == Parse(q).value.key
  {
    hide Parse;
    assert valid[0] in valid;
    if forall r, q :: r in reports && q in reports ==> Parse(r).value.key == Parse(q).value.key {
      forall p, q | p in valid && q in valid ensures p.key == q.key {
        var r :| r in reports && Parse(r) == Some(p);
        var u :| u in reports && Parse(u) == Some(q);
        assert Parse(r).value.key == Parse(u).value.key;
      }
    }
  }

  lemma SoundMatch(reports: seq<map<string, Json>>, valid: seq<Parsed>)
    requires Matching(reports, valid)
    ensures forall p :: p in valid ==> HonestItem(p) && (p.reportComplete ==>
      p.shutdownComplete && AllComplete(p.cycles) && |p.key.procedure| > 0
      && p.key.procedure[0] == Real(|p.cycles| as real))
    ensures AllSound(valid) <==> forall r :: r in reports ==> Parse(r).value.reportComplete && !Evicts(r)
  {
    hide Parse, Evicts, AllComplete;
    forall r | r in reports ensures ReportFacts(r, Parse(r).value) {
      ParsedFacts(r);
    }
  }

  ghost predicate ReportFacts(report: map<string, Json>, p: Parsed) {
    && HonestItem(p)
    && (p.reportComplete ==> p.shutdownComplete && AllComplete(p.cycles) && |p.key.procedure| > 0
                             && p.key.procedure[0] == Real(|p.cycles| as real))
    && (p.reportComplete ==> (p.autoEviction <==> Evicts(report)))
  }

  // ---- The order of the reports ---------------------------------------------------------

  lemma PlusAssociates(a: Totals, b: Totals, c: Totals)
    ensures Plus(Plus(a, b), c) == Plus(a, Plus(b, c)) && Plus(a, NOTHING) == a
  {
  }

  lemma {:induction false} TotalsAppend(a: seq<Parsed>, b: seq<Parsed>)
    ensures TotalsOf(a + b) == Plus(TotalsOf(a), TotalsOf(b))
  {
    hide ItemTotals, Plus;
    if b == [] {
      assert a + b == a;
      PlusAssociates(TotalsOf(a), NOTHING, NOTHING);
    } else {
      var front, last := b[..|b| - 1], ItemTotals(b[|b| - 1]);
      assert (a + b)[..|a + b| - 1] == a + front;
      TotalsAppend(a, front);
      PlusAssociates(TotalsOf(a), TotalsOf(front), last);
    }
  }

  lemma PlusSwaps(a: Totals, b: Totals, c: Totals)
    ensures Plus(Plus(a, b), c) == Plus(Plus(a, c), b)
  {
  }

  lemma TotalsSnoc(items: seq<Parsed>, i: nat)
    requires i < |items|
    ensures TotalsOf(items[..i + 1]) == Plus(TotalsOf(items[..i]), ItemTotals(items[i]))
  {
    hide ItemTotals, Plus;
    assert items[..i + 1][..i] == items[..i];
  }

  lemma TotalsTakeOut(items: seq<Parsed>, i: nat)
    requires i < |items|
    ensures TotalsOf(items) == Plus(TotalsOf(TakeOut(items, i)), ItemTotals(items[i]))
  {
    hide TotalsOf, ItemTotals, Plus;
    assert items == items[..i + 1] + items[i + 1..];
    TotalsAppend(items[..i + 1], items[i + 1..]);
    TotalsAppend(items[..i], items[i + 1..]);
    TotalsSnoc(items, i);
    PlusSwaps(TotalsOf(items[..i]), ItemTotals(items[i]), TotalsOf(items[i + 1..]));
  }

  lemma {:induction false} TotalsPermuted(a: seq<Parsed>, b: seq<Parsed>)
    requires multiset(a) == multiset(b)
    ensures TotalsOf(a) == TotalsOf(b)
    decreases |a|
  {
    hide ItemTotals, Plus;
    if a == [] {
      assert |multiset(b)| == |b|;
    } else {
      var i := PermutedHead(a, b);
      TotalsPermuted(a[1..], TakeOut(b, i));
      TotalsTakeOut(b, i);
      TotalsTakeOut(a, 0);
      assert TakeOut(a, 0) == a[1..];
    }
  }

  lemma SameMembers<T(!new)>(a: seq<T>, b: seq<T>)
    requires multiset(a) == multiset(b)
    ensures |a| == |b| && forall x :: x in a <==> x in b
  {
    assert |a| == |multiset(a)| == |multiset(b)| == |b|;
    forall x ensures x in a <==> x in b {
      assert x in a <==> x in multiset(a);
      assert x in b <==> x in multiset(b);
    }
  }

  /** Reviews that differ at most in the order of the observed deltas, and in the
      compatible part if there is no common key. */
  ghost predicate SameVerdict(a: Review, b: Review) {
    && a.state == b.state && a.reports == b.reports && a.reasons == b.reasons
    && (a.state != Incompatible ==>
      && a.compatible == b.compatible && a.totals == b.totals
      && multiset(a.rss) == multiset(b.rss) && multiset(a.available) == multiset(b.available))
  }

  lemma ReportPermuted(state: State, n: nat, a: seq<Parsed>, b: seq<Parsed>, reasons: seq<Reason>)
    requires multiset(a) == multiset(b)
    ensures SameVerdict(Report(state, n, a, reasons), Report(state, n, b, reasons))
  {
    SameMembers(a, b);
    TotalsPermuted(a, b);
    FlatMapPermuted(RssDeltas, a, b);
    FlatMapPermuted(AvailableDeltas, a, b);
    hide TotalsOf;
  }

  lemma SetReasonsPermuted(s: Settings, a: seq<Parsed>, b: seq<Parsed>)
    requires multiset(a) == multiset(b)
    ensures SetReasons(s, a) == SetReasons(s, b)
  {
    SameMembers(a, b);
    TotalsPermuted(a, b);
    assert AnyIncomplete(a) == AnyIncomplete(b) && AnyEviction(a) == AnyEviction(b);
    hide TotalsOf, AnyIncomplete, AnyEviction, When;
  }

  lemma ValidPermuted(s: Settings, n: nat, a: seq<Parsed>, b: seq<Parsed>)
    requires multiset(a) == multiset(b)
    ensures SameVerdict(ReviewValid(s, n, a), ReviewValid(s, n, b))
  {
    SameMembers(a, b);
    if a == [] {
    } else {
      WithKeyMembers(a, a[0].key);
      WithKeyMembers(b, b[0].key);
      assert a[0] in b && b[0] in a;
      hide WithKey, SetReasons, Report;
      ReportReasons();
      SetReasonsPermuted(s, a, b);
      var schema := When(|a| != n, InvalidSchema);
      var reasons := schema + SetReasons(s, a);
      ReportPermuted(Insufficient, n, a, b, reasons);
      ReportPermuted(Sufficient, n, a, b, [CompatibleSet]);
      ReportCount();
      var k := |WithKey(a, a[0].key)| == |a|;
      assert k <==> |WithKey(b, b[0].key)| == |b|;
    }
  }

  lemma ReportCount()
    ensures forall state, n, items, reasons :: Report(state, n, items, reasons).reports == n
  {
  }

  /** The verdict does not depend on the order of the reports. */
  lemma OrderIrrelevant(s: Settings, a: seq<map<string, Json>>, b: seq<map<string, Json>>)
    requires multiset(a) == multiset(b)
    ensures SameVerdict(ReviewOf(s, a), ReviewOf(s, b))
  {
    hide ReviewValid, SameVerdict, ParsedOne;
    SameMembers(a, b);
    FlatMapPermuted(ParsedOne, a, b);
    ValidPermuted(s, |a|, Valid(a), Valid(b));
  }
}
