/** Custom evaluation test sets: parsing, printing, identity and storage. */
module TestSets {
  import opened Common
  import opened JsonValue
  import opened Ordering

  datatype Task = Chat | StructuredGeneration

  datatype Sample = Sample(
    id: string, task: Task, payload: map<string, Json>, checks: map<string, Json>, tags: seq<string>)

  datatype TestSet = TestSet(id: string, version: string, samples: seq<Sample>, provenance: map<string, Json>)

  datatype Error =
    | RootNotObject | WrongSchema | BadIdentifier | SamplesNotArray | TooFewSamples | TooManySamples
    | BadProvenance | SampleNotObject | UnsupportedTask | EmptyInput | BadChecks | BadTags | DuplicateSample

  datatype Result<+T, +E> = Ok(value: T) | Err(error: E)

  // ---- Identifiers -----------------------------------------------------------

  predicate AlphaNumeric(c: char) {
    'A' <= c <= 'Z' || 'a' <= c <= 'z' || '0' <= c <= '9'
  }

  predicate IsIdentifier(s: string) {
    && 1 <= |s| <= 80 && AlphaNumeric(s[0])
    && forall i :: 1 <= i < |s| ==> AlphaNumeric(s[i]) || s[i] in "._-"
  }

  function RequiredIdentifier(v: Option<Json>): Result<string, Error> {
    if v.None? || !v.value.Str? || !IsIdentifier(Strip(v.value.s)) then Err(BadIdentifier)
    else Ok(Strip(v.value.s))
  }

  lemma IdentifierIsStripped(s: string)
    requires IsIdentifier(s)
    ensures Strip(s) == s
  {
    var last := s[|s| - 1];
    assert !IsSpace(s[0]) && !IsSpace(last);
  }

  // ---- Parsing ------------------------------------------------------------------

  predicate NonEmptyText(v: Json) {
    v.Str? && v.s != ""
  }

  predicate IsCount(v: Json) {
    v.Int? && v.i >= 0
  }

  predicate IsTextList(v: Json) {
    v.Arr? && v.items != [] && forall x :: x in v.items ==> NonEmptyText(x)
  }

  predicate IsScalar(v: Json) {
    !v.Obj? && !v.Arr?
  }

  const CHECKS: set<string> := {"exact", "exact_ci", "contains", "word_count", "comma_count", "json"}

  predicate ValidChecks(m: map<string, Json>) {
    && m != map[] && m.Keys <= CHECKS
    && ("word_count" in m ==> IsCount(m["word_count"]))
    && ("comma_count" in m ==> IsCount(m["comma_count"]))
    && ("contains" in m ==> IsTextList(m["contains"]))
    && ("exact" in m ==> IsScalar(m["exact"]))
    && ("exact_ci" in m ==> IsScalar(m["exact_ci"]))
  }

  function TaskOf(v: Option<Json>): Option<Task> {
    if v.None? || v == Some(Str("chat")) then Some(Chat)
    else if v == Some(Str("structured_generation")) then Some(StructuredGeneration)
    else None
  }

  function TaskName(t: Task): string {
    if t.Chat? then "chat" else "structured_generation"
  }

  function Texts(items: seq<Json>): seq<string> {
    seq(|items|, i requires 0 <= i < |items| => if items[i].Str? then items[i].s else "")
  }

  function TagsOf(v: Option<Json>): Option<seq<string>> {
    if v.None? then Some([])
    else if v.value.Arr? && forall x :: x in v.value.items ==> NonBlankText(x) then Some(Texts(v.value.items))
    else None
  }

  function ParseSample(v: Json): Result<Sample, Error> {
    if !v.Obj? then Err(SampleNotObject)
    else
      var id := RequiredIdentifier(Get(v.fields, "id"));
      var task := TaskOf(Get(v.fields, "task"));
      var input := Get(v.fields, "input");
      var checks := Get(v.fields, "expected");
      var tags := TagsOf(Get(v.fields, "tags"));
      if id.Err? then Err(id.error)
      else if task.None? then Err(UnsupportedTask)
      else if input.None? || !NonBlankText(input.value) then Err(EmptyInput)
      else if checks.None? || !checks.value.Obj? || !ValidChecks(checks.value.fields) then Err(BadChecks)
      else if tags.None? then Err(BadTags)
      else Ok(Sample(id.value, task.value, map["input" := input.value], checks.value.fields, tags.value))
  }

  function ParseSamples(items: seq<Json>): Result<seq<Sample>, Error> {
    if items == [] then Ok([])
    else
      var first := ParseSample(items[0]);
      if first.Err? then Err(first.error)
      else
        var rest := ParseSamples(items[1..]);
        if rest.Err? then rest else Ok([first.value] + rest.value)
  }

  function SampleId(s: Sample): string {
    s.id
  }

  predicate UniqueIds(samples: seq<Sample>) {
    forall i, j :: 0 <= i < j < |samples| ==> samples[i].id != samples[j].id
  }

  function Provenance(declared: map<string, Json>): map<string, Json> {
    map["source" := Str("user-upload"), "schema_version" := Int(1), "declared" := Obj(declared),
        "scoring" := Str("deterministic-objective")]
  }

  function ParseTestSet(v: Json): Result<TestSet, Error> {
    if !v.Obj? then Err(RootNotObject)
    else if !EqualsNumber(Lookup(v.fields, "schema_version"), 1) then Err(WrongSchema)
    else
      var id := RequiredIdentifier(Get(v.fields, "id"));
      var version := RequiredIdentifier(Get(v.fields, "version"));
      var items := Get(v.fields, "samples");
      var declared := if "provenance" in v.fields then v.fields["provenance"] else Obj(map[]);
      if id.Err? then Err(id.error)
      else if version.Err? then Err(version.error)
      else if items.None? || !items.value.Arr? then Err(SamplesNotArray)
      else if |items.value.items| < 10 then Err(TooFewSamples)
      else if |items.value.items| > 10000 then Err(TooManySamples)
      else if !declared.Obj? then Err(BadProvenance)
      else
        var samples := ParseSamples(items.value.items);
        if samples.Err? then Err(samples.error)
        else if !UniqueIds(samples.value) then Err(DuplicateSample)
        else Ok(TestSet(id.value, version.value, samples.value, Provenance(declared.fields)))
  }

  // ---- Printing and identity --------------------------------------------------------

  predicate ById(a: Sample, b: Sample) {
    AtMost(a.id, b.id)
  }

  lemma ByIdIsTotal()
    ensures Total(ById)
  {
    forall a: Sample, b: Sample ensures ById(a, b) || ById(b, a) {
      AtMostTotal(a.id, b.id);
    }
    forall a: Sample, b: Sample, c: Sample | ById(a, b) && ById(b, c) ensures ById(a, c) {
      AtMostTransitive(a.id, b.id, c.id);
    }
  }

  function TagTexts(tags: seq<string>): seq<Json> {
    seq(|tags|, i requires 0 <= i < |tags| => Str(tags[i]))
  }

  function PrintSample(s: Sample): Json {
    var input := if "input" in s.payload then s.payload["input"] else Null;
    Obj(map["id" := Str(s.id), "task" := Str(TaskName(s.task)), "input" := input,
            "expected" := Obj(s.checks), "tags" := Arr(TagTexts(s.tags))])
  }

  function PrintSamples(samples: seq<Sample>): seq<Json> {
    seq(|samples|, i requires 0 <= i < |samples| => PrintSample(samples[i]))
  }

  function Print(ts: TestSet): Json {
    var declared := if "declared" in ts.provenance && ts.provenance["declared"].Obj?
                    then ts.provenance["declared"] else Obj(map[]);
    Obj(map["schema_version" := Int(1), "id" := Str(ts.id), "version" := Str(ts.version),
            "provenance" := declared, "samples" := Arr(PrintSamples(Sort(ById, ts.samples)))])
  }

  /** The canonical content that the identity digest is taken of. */
  datatype Identity = Identity(id: string, version: string, samples: seq<Sample>, provenance: map<string, Json>)

  function IdentityOf(ts: TestSet): Identity {
    Identity(ts.id, ts.version, Sort(ById, ts.samples), ts.provenance)
  }

  // ---- Round trip -----------------------------------------------------------------

  predicate ValidSample(s: Sample) {
    && IsIdentifier(s.id) && ValidChecks(s.checks)
    && "input" in s.payload && NonBlankText(s.payload["input"]) && s.payload == map["input" := s.payload["input"]]
    && forall t :: t in s.tags ==> !Blank(t)
  }

  lemma ParsedSampleIsValid(v: Json)
    ensures ParseSample(v).Ok? ==> ValidSample(ParseSample(v).value)
  {
    hide Blank, Strip, IsIdentifier, ValidChecks, TagsOf;
    if v.Obj? {
      ParsedTagsAreNotBlank(Get(v.fields, "tags"));
    }
  }

  lemma ParsedTagsAreNotBlank(v: Option<Json>)
    ensures TagsOf(v).Some? ==> forall t :: t in TagsOf(v).value ==> !Blank(t)
  {
    hide Blank;
    if v.Some? && TagsOf(v).Some? {
      forall t | t in TagsOf(v).value ensures !Blank(t) {
        var i :| 0 <= i < |TagsOf(v).value| && TagsOf(v).value[i] == t;
        assert v.value.items[i] in v.value.items;
      }
    }
  }

  lemma {:induction false} ParsedSamplesAreValid(items: seq<Json>)
    ensures ParseSamples(items).Ok? ==> forall s :: s in ParseSamples(items).value ==> ValidSample(s)
    ensures ParseSamples(items).Ok? ==> |ParseSamples(items).value| == |items|
  {
    hide ParseSample, ValidSample;
    if items != [] {
      ParsedSampleIsValid(items[0]);
      ParsedSamplesAreValid(items[1..]);
    }
  }

  lemma TagsComeBack(tags: seq<string>)
    requires forall t :: t in tags ==> !Blank(t)
    ensures TagsOf(Some(Arr(TagTexts(tags)))) == Some(tags)
  {
    hide Blank;
    var items := TagTexts(tags);
    forall x | x in items ensures NonBlankText(x) {
      var i :| 0 <= i < |items| && items[i] == x;
      assert tags[i] in tags;
    }
    assert Texts(items) == tags;
  }

  lemma PrintedSampleParses(s: Sample)
    requires ValidSample(s)
    ensures ParseSample(PrintSample(s)) == Ok(s)
  {
    hide Blank, IsIdentifier, ValidChecks, Strip, TagsOf;
    IdentifierIsStripped(s.id);
    TagsComeBack(s.tags);
    assert TaskOf(Some(Str(TaskName(s.task)))) == Some(s.task);
  }

  lemma {:induction false} PrintedSamplesParse(samples: seq<Sample>)
    requires forall s :: s in samples ==> ValidSample(s)
    ensures ParseSamples(PrintSamples(samples)) == Ok(samples)
  {
    hide ParseSample, ValidSample, PrintSample;
    if samples == [] {
      assert PrintSamples(samples) == [];
    } else {
      PrintedSampleParses(samples[0]);
      PrintedSamplesParse(samples[1..]);
      assert PrintSamples(samples)[1..] == PrintSamples(samples[1..]);
      assert PrintSamples(samples)[0] == PrintSample(samples[0]);
      assert [samples[0]] + samples[1..] == samples;
    }
  }

  /** What the parser guarantees of its results. */
  predicate ValidSet(ts: TestSet) {
    && IsIdentifier(ts.id) && IsIdentifier(ts.version)
    && 10 <= |ts.samples| <= 10000 && UniqueIds(ts.samples)
    && (forall s :: s in ts.samples ==> ValidSample(s))
    && "declared" in ts.provenance && ts.provenance["declared"].Obj?
    && ts.provenance == Provenance(ts.provenance["declared"].fields)
  }

  lemma ParsedSetIsValid(v: Json)
    ensures ParseTestSet(v).Ok? ==> ValidSet(ParseTestSet(v).value)
  {
    hide ParseSamples, IsIdentifier, Strip, ValidSample, UniqueIds;
    if ParseTestSet(v).Ok? {
      ParsedSamplesAreValid(v.fields["samples"].items);
    }
  }

  /** Sorting the samples keeps a set valid. */
  lemma SortedSetIsValid(ts: TestSet)
    requires ValidSet(ts)
    ensures ValidSet(ts.(samples := Sort(ById, ts.samples)))
  {
    var sorted := Sort(ById, ts.samples);
    ByIdIsTotal();
    SortKeeps(ById, ts.samples);
    assert Distinct(SampleId, ts.samples);
    DistinctPermuted(SampleId, ts.samples, sorted);
    hide ValidSample, IsIdentifier, Sort;
    forall i, j | 0 <= i < j < |sorted| ensures sorted[i].id != sorted[j].id {
      assert SampleId(sorted[i]) != SampleId(sorted[j]);
    }
    forall s | s in sorted ensures ValidSample(s) {
      assert s in multiset(ts.samples);
    }
  }

  /** Printing a valid set and parsing the result gives the set with its samples
      sorted. */
  lemma PrintedSetParses(ts: TestSet)
    requires ValidSet(ts)
    ensures ParseTestSet(Print(ts)) == Ok(ts.(samples := Sort(ById, ts.samples)))
  {
    hide Sort, ParseSamples, PrintSample, ValidSample, IsIdentifier, Strip, UniqueIds, Provenance, PrintSamples;
    hide Get, Lookup;
    SortedSetIsValid(ts);
    var sorted := Sort(ById, ts.samples);
    PrintedSamplesParse(sorted);
    PrintedLength(sorted);
    IdentifierIsStripped(ts.id);
    IdentifierIsStripped(ts.version);
    PrintedFields(ts);
    hide Print;
  }

  lemma PrintedLength(samples: seq<Sample>)
    ensures |PrintSamples(samples)| == |samples|
  {
  }

  lemma PrintedFields(ts: TestSet)
    ensures Print(ts).Obj?
    ensures var fields := Print(ts).fields;
      && Lookup(fields, "schema_version") == Int(1)
      && Get(fields, "id") == Some(Str(ts.id)) && Get(fields, "version") == Some(Str(ts.version))
      && Get(fields, "samples") == Some(Arr(PrintSamples(Sort(ById, ts.samples))))
      && "provenance" in fields
      && ("declared" in ts.provenance && ts.provenance["declared"].Obj?
          ==> fields["provenance"] == ts.provenance["declared"])
  {
    hide PrintSamples, Sort;
  }

  /** For every set the parser produces, printing and parsing succeeds and keeps
      the identity, and printing again changes nothing. */
  lemma RoundTrip(v: Json)
    ensures ParseTestSet(v).Ok? ==>
      var ts := ParseTestSet(v).value;
      var again := ParseTestSet(Print(ts));
      && again.Ok?
      && IdentityOf(again.value) == IdentityOf(ts)
      && Print(again.value) == Print(ts)
      && multiset(again.value.samples) == multiset(ts.samples)
  {
    hide ParseTestSet, Sort, ValidSet, Total;
    if ParseTestSet(v).Ok? {
      var ts := ParseTestSet(v).value;
      ParsedSetIsValid(v);
      PrintedSetParses(ts);
      ByIdIsTotal();
      SortTwice(ById, ts.samples);
      SortKeeps(ById, ts.samples);
    }
  }

  /** The identity does not depend on the order of the samples. */
  lemma IdentityIgnoresOrder(a: TestSet, b: TestSet)
    requires a.id == b.id && a.version == b.version && a.provenance == b.provenance
    requires multiset(a.samples) == multiset(b.samples) && UniqueIds(a.samples)
    ensures IdentityOf(a) == IdentityOf(b)
  {
    ByIdIsTotal();
    forall x, y | x in multiset(a.samples) && y in multiset(a.samples) && ById(x, y) && ById(y, x) ensures x == y {
      AtMostTotal(x.id, y.id);
      assert x in a.samples && y in a.samples;
    }
    SortPermuted(ById, a.samples, b.samples);
  }

  /** Equal identities mean equal content: the samples are the same up to order. */
  lemma IdentityDetermines(a: TestSet, b: TestSet)
    requires IdentityOf(a) == IdentityOf(b)
    ensures a.id == b.id && a.version == b.version && a.provenance == b.provenance
    ensures multiset(a.samples) == multiset(b.samples)
  {
    ByIdIsTotal();
    SortKeeps(ById, a.samples);
    SortKeeps(ById, b.samples);
  }

  // ---- File keys ----------------------------------------------------------------

  function FileKey(id: string, version: string): string {
    id + "@" + version + ".json"
  }

  lemma IdentifierHasNoAt(s: string)
    requires IsIdentifier(s)
    ensures '@' !in s
  {
  }

  lemma NotShorter(a: string, x: string, c: string, y: string)
    requires '@' !in c && a + "@" + x == c + "@" + y
    ensures |a| >= |c|
  {
    assert (c + "@" + y)[|a|] == '@';
    assert forall j | 0 <= j < |c| :: (c + "@" + y)[j] == c[j] && c[j] in c;
  }

  /** Two valid pairs of id and version never share a file. */
  lemma FileKeyInjective(a: string, b: string, c: string, d: string)
    requires IsIdentifier(a) && IsIdentifier(b) && IsIdentifier(c) && IsIdentifier(d)
    requires FileKey(a, b) == FileKey(c, d)
    ensures a == c && b == d
  {
    IdentifierHasNoAt(a);
    IdentifierHasNoAt(c);
    hide IsIdentifier;
    var left, right := FileKey(a, b), FileKey(c, d);
    assert left == a + "@" + (b + ".json") && right == c + "@" + (d + ".json");
    NotShorter(a, b + ".json", c, d + ".json");
    NotShorter(c, d + ".json", a, b + ".json");
    assert a == left[..|a|] && c == right[..|c|];
    assert left[|a| + 1..] == b + ".json" && right[|c| + 1..] == d + ".json";
    assert |b| == |d|;
    assert b == left[|a| + 1..][..|b|] && d == right[|c| + 1..][..|d|];
  }

  // ---- The store --------------------------------------------------------------------

  type Files = map<string, Json>

  datatype StoreError = Reserved | Invalid | AlreadyExists | Ambiguous

  predicate Readable(files: Files, name: string) {
    name in files && ParseTestSet(files[name]).Ok?
  }

  /** Some readable file holds `ts`. */
  ghost predicate Holds(files: Files, ts: TestSet) {
    exists k :: k in files && ParseTestSet(files[k]) == Ok(ts)
  }

  /** Every readable file is named after the set it holds, as those that the store
      writes are; files that come from elsewhere need not be. */
  ghost predicate Keyed(files: Files) {
    forall k :: k in files && ParseTestSet(files[k]).Ok? ==>
      var ts := ParseTestSet(files[k]).value; k == FileKey(ts.id, ts.version)
  }

  // ---- Listings ---------------------------------------------------------------------

  /** An order in which the directory may list the readable files. */
  ghost predicate Listing(files: Files, order: seq<string>) {
    NoDup(order) && forall k :: k in order <==> Readable(files, k)
  }

  /** The sets that the listed files hold. */
  function ReadAll(files: Files, order: seq<string>): seq<TestSet>
    requires forall k :: k in order ==> Readable(files, k)
  {
    if order == [] then []
    else
      var front, last := order[..|order| - 1], order[|order| - 1];
      assert last in order && Readable(files, last);
      ReadAll(files, front) + [ParseTestSet(files[last]).value]
  }

  lemma {:induction false} ReadAllAt(files: Files, order: seq<string>)
    requires forall k :: k in order ==> Readable(files, k)
    ensures |ReadAll(files, order)| == |order|
    ensures forall i :: 0 <= i < |order| ==>
      order[i] in files && ParseTestSet(files[order[i]]) == Ok(ReadAll(files, order)[i])
  {
    hide ParseTestSet;
    if order != [] {
      var front := order[..|order| - 1];
      ReadAllAt(files, front);
      assert forall i :: 0 <= i < |front| ==> front[i] == order[i];
      assert order[|order| - 1] in order;
    }
  }

  function Matching(s: seq<TestSet>, id: string, version: Option<string>): seq<TestSet> {
    FlatMap((ts: TestSet) => if Matches(ts, id, version) then [ts] else [], s)
  }

  lemma MatchingSnoc(s: seq<TestSet>, i: nat, id: string, version: Option<string>)
    requires i < |s|
    ensures Matching(s[..i + 1], id, version)
         == Matching(s[..i], id, version) + if Matches(s[i], id, version) then [s[i]] else []
  {
    FlatMapSnoc((ts: TestSet) => if Matches(ts, id, version) then [ts] else [], s, i);
  }

  lemma MatchingPermuted(a: seq<TestSet>, b: seq<TestSet>, id: string, version: Option<string>)
    requires multiset(a) == multiset(b)
    ensures multiset(Matching(a, id, version)) == multiset(Matching(b, id, version))
    ensures |Matching(a, id, version)| == |Matching(b, id, version)|
  {
    FlatMapPermuted((ts: TestSet) => if Matches(ts, id, version) then [ts] else [], a, b);
    assert |multiset(Matching(a, id, version))| == |multiset(Matching(b, id, version))|;
  }

  lemma {:induction false} MatchingSize(s: seq<TestSet>, id: string, version: Option<string>)
    ensures |Matching(s, id, version)| > 0 <==> exists i | 0 <= i < |s| :: Matches(s[i], id, version)
    ensures |Matching(s, id, version)| > 1 <==>
      exists i, j | 0 <= i < j < |s| :: Matches(s[i], id, version) && Matches(s[j], id, version)
    ensures forall ts :: ts in Matching(s, id, version) <==> ts in s && Matches(ts, id, version)
  {
    hide Matches;
    if s != [] {
      var n := |s| - 1;
      MatchingSize(s[..n], id, version);
      MatchingSnoc(s, n, id, version);
      hide Matching;
      assert s[..n + 1] == s && s == s[..n] + [s[n]];
      assert forall i :: 0 <= i < n ==> s[..n][i] == s[i];
    }
  }

  /** Two files hold sets with the id and, if it is given, the version. */
  ghost predicate TwoMatch(files: Files, id: string, version: Option<string>) {
    exists a, b :: a != b && FileMatches(files, a, id, version) && FileMatches(files, b, id, version)
  }

  predicate FileMatches(files: Files, name: string, id: string, version: Option<string>) {
    Readable(files, name) && Matches(ParseTestSet(files[name]).value, id, version)
  }

  /** What a listing has that matches is what the files have. */
  lemma MatchingFiles(files: Files, order: seq<string>, id: string, version: Option<string>)
    requires Listing(files, order)
    ensures var found := Matching(ReadAll(files, order), id, version);
      && (|found| > 0 <==> exists k :: FileMatches(files, k, id, version))
      && (|found| > 1 <==> TwoMatch(files, id, version))
      && (forall ts :: ts in found <==> Holds(files, ts) && Matches(ts, id, version))
  {
    hide ParseTestSet, Matches, Matching, FileMatches, ReadAll, TwoMatch;
    MatchingSize(ReadAll(files, order), id, version);
    ListedSets(files, order);
    SomeMatch(files, order, id, version);
    TwoListed(files, order, id, version);
  }

  lemma SomeMatch(files: Files, order: seq<string>, id: string, version: Option<string>)
    requires Listing(files, order)
    ensures var s := ReadAll(files, order);
      (exists i | 0 <= i < |s| :: Matches(s[i], id, version)) <==> exists k :: FileMatches(files, k, id, version)
  {
    hide ParseTestSet, Matches;
    var s := ReadAll(files, order);
    ReadAllAt(files, order);
    if k :| FileMatches(files, k, id, version) {
      var i :| 0 <= i < |order| && order[i] == k;
      assert Matches(s[i], id, version);
    }
    if i :| 0 <= i < |s| && Matches(s[i], id, version) {
      assert order[i] in order && FileMatches(files, order[i], id, version);
    }
  }

  lemma TwoListed(files: Files, order: seq<string>, id: string, version: Option<string>)
    requires Listing(files, order)
    ensures var s := ReadAll(files, order);
      (exists i, j | 0 <= i < j < |s| :: Matches(s[i], id, version) && Matches(s[j], id, version))
      <==> TwoMatch(files, id, version)
  {
    hide ParseTestSet, Matches;
    var s := ReadAll(files, order);
    ReadAllAt(files, order);
    if a, b :| a != b && FileMatches(files, a, id, version) && FileMatches(files, b, id, version) {
      var i :| 0 <= i < |order| && order[i] == a;
      var j :| 0 <= j < |order| && order[j] == b;
      assert Matches(s[i], id, version) && Matches(s[j], id, version);
      assert if i < j then 0 <= i < j < |s| else 0 <= j < i < |s|;
    }
    if i, j :| 0 <= i < j < |s| && Matches(s[i], id, version) && Matches(s[j], id, version) {
      assert order[i] in order && order[j] in order;
      assert FileMatches(files, order[i], id, version) && FileMatches(files, order[j], id, version);
    }
  }

  lemma ListedSets(files: Files, order: seq<string>)
    requires Listing(files, order)
    ensures forall ts :: ts in ReadAll(files, order) <==> Holds(files, ts)
  {
    hide ParseTestSet;
    var s := ReadAll(files, order);
    ReadAllAt(files, order);
    forall ts | Holds(files, ts) ensures ts in s {
      var k :| k in files && ParseTestSet(files[k]) == Ok(ts);
      assert Readable(files, k);
      var i :| 0 <= i < |order| && order[i] == k;
      assert s[i] == ts;
    }
    forall ts | ts in s ensures Holds(files, ts) {
      var i :| 0 <= i < |s| && s[i] == ts;
      assert order[i] in order && Readable(files, order[i]);
    }
  }

  function Pair(ts: TestSet): (string, string) {
    (ts.id, ts.version)
  }

  predicate ByPair(a: TestSet, b: TestSet) {
    if a.id == b.id then AtMost(a.version, b.version) else AtMost(a.id, b.id)
  }

  lemma ByPairIsTotal()
    ensures Total(ByPair)
  {
    forall a: TestSet, b: TestSet ensures ByPair(a, b) || ByPair(b, a) {
      AtMostTotal(a.id, b.id);
      AtMostTotal(a.version, b.version);
    }
    forall a: TestSet, b: TestSet, c: TestSet | ByPair(a, b) && ByPair(b, c) ensures ByPair(a, c) {
      if a.id == b.id == c.id {
        AtMostTransitive(a.version, b.version, c.version);
      } else if a.id != b.id && b.id != c.id {
        AtMostTransitive(a.id, b.id, c.id);
        AtMostTotal(b.id, c.id);
      }
    }
  }

  /** What a printed set parses to is named like the set it was printed from. */
  lemma PrintedIsKeyed(ts: TestSet)
    requires IsIdentifier(ts.id) && IsIdentifier(ts.version)
    ensures ParseTestSet(Print(ts)).Ok? ==> Pair(ParseTestSet(Print(ts)).value) == Pair(ts)
  {
    hide Strip, IsIdentifier, ParseSamples, UniqueIds, PrintSamples, Sort, Print, Get, Lookup, Provenance;
    IdentifierIsStripped(ts.id);
    IdentifierIsStripped(ts.version);
    PrintedFields(ts);
  }

  /** If files are named after what they hold, no two match an id and a version. */
  lemma KeyedIsUnambiguous(files: Files, id: string, version: string)
    requires Keyed(files)
    ensures !TwoMatch(files, id, Some(version))
  {
    hide ParseTestSet;
  }

  class CustomTestSetStore {
    const reservedIds: set<string>
    var files: Files

    /** A store over a directory that may already have files. */
    constructor (reservedIds: set<string>, files: Files)
      ensures this.files == files && this.reservedIds == reservedIds
    {
      this.reservedIds := reservedIds;
      this.files := files;
    }

    method Save(ts: TestSet, replace: bool) returns (r: Result<string, StoreError>)
      modifies this
      ensures r == if ts.id in reservedIds then Err(Reserved)
                   else if !IsIdentifier(ts.id) || !IsIdentifier(ts.version) then Err(Invalid)
                   else if FileKey(ts.id, ts.version) in old(files) && !replace then Err(AlreadyExists)
                   else Ok(FileKey(ts.id, ts.version))
      ensures files == if r.Ok? then old(files)[r.value := Print(ts)] else old(files)
      ensures Keyed(old(files)) ==> Keyed(files)
    {
      hide ParseTestSet, Print, IsIdentifier;
      if ts.id in reservedIds {
        return Err(Reserved);
      }
      if !IsIdentifier(ts.id) || !IsIdentifier(ts.version) {
        return Err(Invalid);
      }
      var target := FileKey(ts.id, ts.version);
      if target in files && !replace {
        return Err(AlreadyExists);
      }
      PrintedIsKeyed(ts);
      files := files[target := Print(ts)];
      return Ok(target);
    }

    /** What every readable file holds, by id and version; of files with the same pair,
        in the order of the directory. */
    method ListTestSets() returns (result: seq<TestSet>)
      ensures exists order :: Listing(files, order) && result == Sort(ByPair, ReadAll(files, order))
      ensures Sorted(ByPair, result)
      ensures forall ts :: ts in result <==> Holds(files, ts)
      ensures Keyed(files) ==> Distinct(Pair, result)
    {
      hide ParseTestSet, Sort, Sorted, ByPair, Distinct, Keyed;
      ghost var order: seq<string> := [];
      var found: seq<TestSet> := [];
      var keys := files.Keys;
      while keys != {}
        invariant keys <= files.Keys && NoDup(order)
        invariant forall k :: k in order <==> Readable(files, k) && k !in keys
        invariant found == ReadAll(files, order)
        decreases |keys|
      {
        var k :| k in keys;
        var parsed := ParseTestSet(files[k]);
        keys := keys - {k};
        if parsed.Ok? {
          NoDupSnoc(order, k);
          assert (order + [k])[..|order|] == order;
          found := found + [parsed.value];
          order := order + [k];
        }
      }
      ByPairIsTotal();
      SortKeeps(ByPair, found);
      ListedSets(files, order);
      result := Sort(ByPair, found);
      assert Listing(files, order);
      SameMembers(found, result);
      if Keyed(files) {
        KeyedDistinct(files, order);
        DistinctPermuted(Pair, found, result);
      }
    }

    /** A stored set with the id and, if it is given, the version. An error says that
        several files match and no version was given; none says that none matches. */
    method Resolve(id: string, version: Option<string>) returns (r: Result<Option<TestSet>, StoreError>)
      ensures r.Err? <==> version.None? && TwoMatch(files, id, version)
      ensures r == Ok(None) <==> forall k :: !FileMatches(files, k, id, version)
      ensures r.Ok? && r.value.Some? ==> Holds(files, r.value.value) && Matches(r.value.value, id, version)
      ensures r.Ok? && !TwoMatch(files, id, version) ==>
        forall ts :: Holds(files, ts) && Matches(ts, id, version) ==> r.value == Some(ts)
    {
      hide ParseTestSet, Matching, Matches, Holds, TwoMatch, FileMatches, Sort, Sorted, ByPair, Keyed;
      var all := ListTestSets();
      ghost var order :| Listing(files, order) && all == Sort(ByPair, ReadAll(files, order));
      var matches: seq<TestSet> := [];
      NothingMatches(id, version);
      assert all[..0] == [];
      for i := 0 to |all|
        invariant matches == Matching(all[..i], id, version)
      {
        MatchingSnoc(all, i, id, version);
        if Matches(all[i], id, version) {
          matches := matches + [all[i]];
        } else {
          assert matches + [] == matches;
        }
      }
      assert all[..|all|] == all;
      MatchesOfFiles(files, order, all, id, version);
      if matches == [] {
        return Ok(None);
      }
      assert matches[0] in matches;
      if version.None? && |matches| > 1 {
        return Err(Ambiguous);
      }
      assert forall ts :: |matches| == 1 && ts in matches ==> ts == matches[0];
      return Ok(Some(matches[0]));
    }
  }

  lemma NothingMatches(id: string, version: Option<string>)
    ensures Matching([], id, version) == []
  {
  }

  lemma SameMembers(a: seq<TestSet>, b: seq<TestSet>)
    requires multiset(a) == multiset(b)
    ensures forall ts :: ts in a <==> ts in b
  {
    assert forall ts :: ts in a <==> ts in multiset(a);
    assert forall ts :: ts in b <==> ts in multiset(b);
  }

  lemma MatchesOfFiles(files: Files, order: seq<string>, all: seq<TestSet>, id: string, version: Option<string>)
    requires Listing(files, order) && all == Sort(ByPair, ReadAll(files, order))
    ensures var found := Matching(all, id, version);
      && (|found| > 0 <==> exists k :: FileMatches(files, k, id, version))
      && (|found| > 1 <==> TwoMatch(files, id, version))
      && (forall ts :: ts in found <==> Holds(files, ts) && Matches(ts, id, version))
  {
    hide ParseTestSet, Matching, Matches, Holds, TwoMatch, FileMatches, Sort, ByPair, ReadAll;
    var s := ReadAll(files, order);
    ByPairIsTotal();
    SortKeeps(ByPair, s);
    MatchingPermuted(s, all, id, version);
    SameMembers(Matching(s, id, version), Matching(all, id, version));
    MatchingFiles(files, order, id, version);
  }

  lemma KeyedDistinct(files: Files, order: seq<string>)
    requires Keyed(files) && Listing(files, order)
    ensures Distinct(Pair, ReadAll(files, order))
  {
    hide ParseTestSet;
    var s := ReadAll(files, order);
    ReadAllAt(files, order);
    forall i, j | 0 <= i < j < |s| ensures Pair(s[i]) != Pair(s[j]) {
      assert order[i] in order && order[j] in order;
    }
  }

  predicate Matches(ts: TestSet, id: string, version: Option<string>) {
    ts.id == id && (version.None? || ts.version == version.value)
  }

  /** What is saved is what is resolved: the same identity comes back, as long as no
      other file holds a set with the same id and version. */
  method SaveThenResolve(store: CustomTestSetStore, v: Json, replace: bool) returns (r: Option<TestSet>)
    requires ParseTestSet(v).Ok? && ParseTestSet(v).value.id !in store.reservedIds
    requires replace || FileKey(ParseTestSet(v).value.id, ParseTestSet(v).value.version) !in store.files
    requires var ts := ParseTestSet(v).value;
      forall k :: FileMatches(store.files, k, ts.id, Some(ts.version)) ==> k == FileKey(ts.id, ts.version)
    modifies store
    ensures r.Some? && IdentityOf(r.value) == IdentityOf(ParseTestSet(v).value)
  {
    hide ParseTestSet, Print, IsIdentifier, IdentityOf, FileMatches, Holds, Keyed;
    var ts := ParseTestSet(v).value;
    ParsedSetIsValid(v);
    ghost var again := RoundTripSet(v);
    ghost var before := store.files;
    var saved := store.Save(ts, replace);
    SavedIsOnly(before, saved.value, ts, again);
    var found := store.Resolve(ts.id, Some(ts.version));
    return found.value;
  }

  lemma RoundTripSet(v: Json) returns (again: TestSet)
    requires ParseTestSet(v).Ok?
    ensures ParseTestSet(Print(ParseTestSet(v).value)) == Ok(again)
    ensures IdentityOf(again) == IdentityOf(ParseTestSet(v).value) && Pair(again) == Pair(ParseTestSet(v).value)
    ensures IsIdentifier(ParseTestSet(v).value.id) && IsIdentifier(ParseTestSet(v).value.version)
  {
    ParsedSetIsValid(v);
    RoundTrip(v);
    PrintedIsKeyed(ParseTestSet(v).value);
    hide ParseTestSet, Print, IsIdentifier, IdentityOf;
    again := ParseTestSet(Print(ParseTestSet(v).value)).value;
  }

  /** After the save its file is the only one that matches. */
  lemma SavedIsOnly(files: Files, target: string, ts: TestSet, again: TestSet)
    requires ParseTestSet(Print(ts)) == Ok(again) && Pair(again) == Pair(ts)
    requires forall k :: FileMatches(files, k, ts.id, Some(ts.version)) ==> k == target
    ensures var now := files[target := Print(ts)];
      Holds(now, again) && Matches(again, ts.id, Some(ts.version)) && !TwoMatch(now, ts.id, Some(ts.version))
  {
    hide ParseTestSet, Print;
    var now := files[target := Print(ts)];
    assert now[target] == Print(ts);
    forall k | FileMatches(now, k, ts.id, Some(ts.version)) ensures k == target {
      assert k != target ==> FileMatches(files, k, ts.id, Some(ts.version));
    }
  }
}
