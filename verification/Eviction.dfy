/** Which idle runtimes to evict: the eligible ones, oldest first. */
module Eviction {
  import opened Common
  import opened Ordering

  datatype Mode = LRU | TTL

  datatype Settings = Settings(mode: Mode, limit: nat, ttl: real, protectDefault: bool)

  /** The settings' constructor refuses the rest. */
  predicate ValidSettings(s: Settings) {
    s.limit >= 1 && s.ttl >= 0.0
  }

  /** A listed runtime. A key, model or default flag that is absent is the falsy
      value; an age that is not a number is None. */
  datatype Runtime =
    | Malformed
    | Runtime(evictable: bool, key: string, model: string, isDefault: bool, age: Option<real>)

  datatype Candidate = Candidate(key: string, model: string, reason: Mode, age: real, isDefault: bool)

  // ---- Ranking -------------------------------------------------------------

  /** `a` is evicted no later than `b`. */
  predicate Ranks(a: Candidate, b: Candidate) {
    a.age > b.age || (a.age == b.age && AtMost(a.key, b.key))
  }

  lemma RanksTotal(a: Candidate, b: Candidate)
    ensures Ranks(a, b) || Ranks(b, a)
    ensures Ranks(a, b) && Ranks(b, a) ==> a.age == b.age && a.key == b.key
  {
    AtMostTotal(a.key, b.key);
  }

  lemma RanksTransitive(a: Candidate, b: Candidate, c: Candidate)
    requires Ranks(a, b) && Ranks(b, c)
    ensures Ranks(a, c)
  {
    if a.age == c.age {
      AtMostTransitive(a.key, b.key, c.key);
    }
  }

  lemma RanksAreTotal()
    ensures Total(Ranks)
  {
    forall a, b ensures Ranks(a, b) || Ranks(b, a) {
      RanksTotal(a, b);
    }
    forall a, b, c | Ranks(a, b) && Ranks(b, c) ensures Ranks(a, c) {
      RanksTransitive(a, b, c);
    }
  }

  function Ranked(s: seq<Candidate>): seq<Candidate> {
    Sort(Ranks, s)
  }

  // ---- Eligibility --------------------------------------------------------------

  function CandidateOf(r: Runtime, s: Settings): Option<Candidate> {
    if r.Malformed? || !r.evictable then None
    else
      var key := Strip(r.key);
      if key == "" || (s.protectDefault && r.isDefault) || r.age.None? || r.age.value < 0.0 then None
      else if s.mode.TTL? && r.age.value < s.ttl then None
      else Some(Candidate(key, Strip(if r.model == "" then key else r.model), s.mode, r.age.value, r.isDefault))
  }

  function Chosen(r: Runtime, s: Settings): seq<Candidate> {
    var c := CandidateOf(r, s);
    if c.Some? then [c.value] else []
  }

  function Candidates(runtimes: seq<Runtime>, s: Settings): seq<Candidate> {
    if runtimes == [] then [] else Chosen(runtimes[0], s) + Candidates(runtimes[1..], s)
  }

  function First(s: seq<Candidate>, limit: nat): seq<Candidate> {
    if |s| <= limit then s else s[..limit]
  }

  function Selected(runtimes: Option<seq<Runtime>>, s: Settings): seq<Candidate> {
    if runtimes.None? then [] else First(Ranked(Candidates(runtimes.value, s)), s.limit)
  }

  lemma {:induction false} CandidatesAppend(a: seq<Runtime>, b: seq<Runtime>, s: Settings)
    ensures Candidates(a + b, s) == Candidates(a, s) + Candidates(b, s)
  {
    hide Chosen;
    if a == [] {
      assert a + b == b;
    } else {
      var first, rest, more := Chosen(a[0], s), Candidates(a[1..], s), Candidates(b, s);
      assert (a + b)[0] == a[0] && (a + b)[1..] == a[1..] + b;
      CandidatesAppend(a[1..], b, s);
      assert first + (rest + more) == (first + rest) + more;
    }
  }

  lemma CandidatesSnoc(raw: seq<Runtime>, i: nat, s: Settings)
    requires i < |raw|
    ensures Candidates(raw[..i + 1], s) == Candidates(raw[..i], s) + Chosen(raw[i], s)
  {
    assert raw[..i + 1] == raw[..i] + [raw[i]];
    CandidatesAppend(raw[..i], [raw[i]], s);
    assert [raw[i]][1..] == [];
    assert Candidates([raw[i]], s) == Chosen(raw[i], s) + [];
  }

  method SelectEvictionCandidates(runtimes: Option<seq<Runtime>>, settings: Settings)
    returns (selected: seq<Candidate>)
    ensures selected == Selected(runtimes, settings)
  {
    if runtimes.None? {
      return [];
    }
    hide Candidates, Strip, Ranked;
    var raw := runtimes.value;
    assert raw[..0] == [] && Candidates([], settings) == [] by { CandidatesOfNone(settings); }
    var candidates: seq<Candidate> := [];
    for i := 0 to |raw|
      invariant candidates == Candidates(raw[..i], settings)
    {
      var item := raw[i];
      CandidatesSnoc(raw, i, settings);
      if item.Malformed? || !item.evictable {
        continue;
      }
      var key := Strip(item.key);
      var model := Strip(if item.model == "" then key else item.model);
      if key == "" {
        continue;
      }
      if settings.protectDefault && item.isDefault {
        continue;
      }
      if item.age.None? {
        continue;
      }
      var age := item.age.value;
      if age < 0.0 {
        continue;
      }
      if settings.mode.TTL? && age < settings.ttl {
        continue;
      }
      candidates := candidates + [Candidate(key, model, settings.mode, age, item.isDefault)];
    }
    assert raw[..|raw|] == raw;
    var sorted := Ranked(candidates);
    selected := if |sorted| <= settings.limit then sorted else sorted[..settings.limit];
  }

  lemma CandidatesOfNone(s: Settings)
    ensures Candidates([], s) == []
  {
  }

  // ---- The first `limit` of the ranking ----------------------------------------

  /** The result is ranked, has no more than `limit` elements, leaves an eligible
      runtime out only when it is full, and then everything left out ranks after
      everything in it. */
  lemma SelectedAreFirst(runtimes: seq<Runtime>, s: Settings)
    ensures var all := Candidates(runtimes, s);
      var chosen := Selected(Some(runtimes), s);
      && Sorted(Ranks, chosen) && multiset(chosen) <= multiset(all)
      && |chosen| == (if |all| <= s.limit then |all| else s.limit)
      && forall c, d :: c in chosen && d in multiset(all) - multiset(chosen) ==> Ranks(c, d)
  {
    var all := Candidates(runtimes, s);
    hide Candidates, Sort, Ranks;
    var sorted := Ranked(all);
    RanksAreTotal();
    SortKeeps(Ranks, all);
    var k := |Selected(Some(runtimes), s)|;
    assert sorted == sorted[..k] + sorted[k..];
    assert multiset(sorted) == multiset(sorted[..k]) + multiset(sorted[k..]);
    FrontRanksFirst(sorted, k);
  }

  lemma FrontRanksFirst(s: seq<Candidate>, k: nat)
    requires Sorted(Ranks, s) && k <= |s|
    ensures forall c, d :: c in s[..k] && d in s[k..] ==> Ranks(c, d)
  {
    hide Ranks;
  }

  /** The order in which runtimes are listed does not matter as long as the
      eligible ones have distinct keys (or, more generally, tie only with equals). */
  lemma ListingOrderIrrelevant(a: seq<Runtime>, b: seq<Runtime>, s: Settings)
    requires multiset(a) == multiset(b) && TiesAreEqual(Ranks, multiset(Candidates(a, s)))
    ensures Selected(Some(a), s) == Selected(Some(b), s)
  {
    CandidatesPermute(a, b, s);
    RanksAreTotal();
    SortPermuted(Ranks, Candidates(a, s), Candidates(b, s));
  }

  lemma {:induction false} CandidatesPermute(a: seq<Runtime>, b: seq<Runtime>, s: Settings)
    requires multiset(a) == multiset(b)
    ensures multiset(Candidates(a, s)) == multiset(Candidates(b, s))
    decreases |a|
  {
    if a == [] {
      assert |multiset(b)| == |b|;
    } else {
      var i := PermutedHead(a, b);
      CandidatesPermute(a[1..], TakeOut(b, i), s);
      CandidatesTakeOut(b, i, s);
      CandidatesTakeOut(a, 0, s);
      assert TakeOut(a, 0) == a[1..];
    }
  }

  lemma CandidatesTakeOut(a: seq<Runtime>, i: nat, s: Settings)
    requires i < |a|
    ensures multiset(Candidates(a, s)) == multiset(Candidates(TakeOut(a, i), s)) + multiset(Chosen(a[i], s))
  {
    hide Candidates, Chosen;
    CandidatesSnoc(a, i, s);
    CandidatesAppend(a[..i + 1], a[i + 1..], s);
    CandidatesAppend(a[..i], a[i + 1..], s);
    assert a == a[..i + 1] + a[i + 1..];
  }

  /** Of runtimes that tie, the one listed first takes their first place. */
  lemma ListedFirstWinsTies(r: Runtime, rest: seq<Runtime>, s: Settings)
    requires CandidateOf(r, s).Some?
    ensures var c := CandidateOf(r, s).value;
      var p := Place(Ranks, c, Candidates([r] + rest, s));
      var chosen := Selected(Some([r] + rest), s);
      p < s.limit ==> p < |chosen| && chosen[p] == c
  {
    hide CandidateOf, Ranks, Place;
    var c := CandidateOf(r, s).value;
    var others := Candidates(rest, s);
    assert ([r] + rest)[1..] == rest;
    assert Candidates([r] + rest, s) == [c] + others;
    RanksAreTotal();
    SortKeeps(Ranks, others);
    InsertPlace(Ranks, c, Ranked(others));
    PlacePermuted(Ranks, c, Ranked(others), others);
    PlaceCons(Ranks, c, c, others);
    assert ([c] + others)[1..] == others;
    assert Ranked([c] + others) == Insert(Ranks, c, Ranked(others));
  }

  ghost predicate OrderIrrelevant(a: seq<Runtime>, s: Settings) {
    forall b :: multiset(b) == multiset(a) ==> Selected(Some(b), s) == Selected(Some(a), s)
  }

  /** Whoever ties with a selected candidate equals it. */
  ghost predicate SelectedTieWithEquals(a: seq<Runtime>, s: Settings) {
    forall c, d :: c in Selected(Some(a), s) && d in Candidates(a, s) && c.age == d.age && c.key == d.key ==> c == d
  }

  lemma TieMeans(c: Candidate, d: Candidate)
    ensures Tie(Ranks, c, d) <==> c.age == d.age && c.key == d.key
  {
    AtMostTotal(c.key, d.key);
    RanksTotal(c, d);
  }

  /** Exactly when the listing order does not matter: every eligible candidate that
      ties in age and key with a selected one equals it. */
  lemma OrderIrrelevantExactly(a: seq<Runtime>, s: Settings)
    ensures OrderIrrelevant(a, s) <==> SelectedTieWithEquals(a, s)
  {
    hide Selected, Candidates;
    if SelectedTieWithEquals(a, s) {
      forall b | multiset(b) == multiset(a) ensures Selected(Some(b), s) == Selected(Some(a), s) {
        EqualTiesKeepSelection(a, b, s);
      }
    }
    if OrderIrrelevant(a, s) {
      forall c, d | c in Selected(Some(a), s) && d in Candidates(a, s) && c.age == d.age && c.key == d.key
        ensures c == d
      {
        TieShowsInSelection(a, s, c, d);
      }
    }
  }

  lemma EqualTiesKeepSelection(a: seq<Runtime>, b: seq<Runtime>, s: Settings)
    requires multiset(b) == multiset(a) && SelectedTieWithEquals(a, s)
    ensures Selected(Some(b), s) == Selected(Some(a), s)
  {
    var x, y := Candidates(a, s), Candidates(b, s);
    CandidatesPermute(a, b, s);
    RanksAreTotal();
    SortKeeps(Ranks, x);
    SortKeeps(Ranks, y);
    SameLength(x, y);
    SelectedIsPrefix(a, s);
    SelectedIsPrefix(b, s);
    TiesInRanking(a, s);
    hide *;
    RankedIsSort(x);
    RankedIsSort(y);
    SortedPrefixUnique(Ranks, Ranked(x), Ranked(y), |Selected(Some(a), s)|);
  }

  lemma RankedIsSort(x: seq<Candidate>)
    ensures Ranked(x) == Sort(Ranks, x)
  {
  }

  lemma SelectedIsPrefix(a: seq<Runtime>, s: Settings)
    ensures var x := Ranked(Candidates(a, s));
      var n := if |x| <= s.limit then |x| else s.limit;
      Selected(Some(a), s) == x[..n]
  {
    hide Ranked, Candidates;
  }

  lemma TiesInRanking(a: seq<Runtime>, s: Settings)
    requires SelectedTieWithEquals(a, s)
    ensures var x := Ranked(Candidates(a, s));
      forall c, d :: c in Selected(Some(a), s) && d in x && Tie(Ranks, c, d) ==> c == d
  {
    var x := Candidates(a, s);
    RanksAreTotal();
    SortKeeps(Ranks, x);
    RankedIsSort(x);
    hide Candidates, Selected, Ranked, Sort, Ranks, Tie;
    forall c, d | c in Selected(Some(a), s) && d in Ranked(x) && Tie(Ranks, c, d) ensures c == d {
      TieMeans(c, d);
      assert d in multiset(Ranked(x));
      assert d in x;
    }
  }

  /** Listing either of two tied candidates first puts it at their common place. */
  lemma TieShowsInSelection(a: seq<Runtime>, s: Settings, c: Candidate, d: Candidate)
    requires OrderIrrelevant(a, s) && c in Selected(Some(a), s) && d in Candidates(a, s)
    requires c.age == d.age && c.key == d.key
    ensures c == d
  {
    hide Candidates, Selected, Place, OrderIrrelevant;
    SelectedPlace(a, s, c);
    TieMeans(c, d);
    RanksAreTotal();
    PlaceOfTies(Ranks, c, d, Candidates(a, s));
    PlaceHolder(a, s, c);
    PlaceHolder(a, s, d);
  }

  /** The place of a selected candidate is within the limit, and it is eligible. */
  lemma SelectedPlace(a: seq<Runtime>, s: Settings, c: Candidate)
    requires c in Selected(Some(a), s)
    ensures c in Candidates(a, s) && Place(Ranks, c, Candidates(a, s)) < s.limit
  {
    var x := Candidates(a, s);
    hide Candidates, Sort, Ranks, Place;
    RanksAreTotal();
    SortKeeps(Ranks, x);
    var i :| 0 <= i < |Selected(Some(a), s)| && Selected(Some(a), s)[i] == c;
    assert i < s.limit && Ranked(x)[i] == c;
    assert c in multiset(Ranked(x));
    PlaceBound(Ranks, Ranked(x), i);
    PlacePermuted(Ranks, c, Ranked(x), x);
  }

  /** If the listing order does not matter, every eligible candidate whose place is
      within the limit holds that place. */
  lemma PlaceHolder(a: seq<Runtime>, s: Settings, c: Candidate)
    requires OrderIrrelevant(a, s) && c in Candidates(a, s)
    requires Place(Ranks, c, Candidates(a, s)) < s.limit
    ensures var p := Place(Ranks, c, Candidates(a, s));
      p < |Selected(Some(a), s)| && Selected(Some(a), s)[p] == c
  {
    hide Candidates, Selected, Place, Ranks, CandidateOf;
    var i := SourceOf(a, s, c);
    var b := [a[i]] + TakeOut(a, i);
    TakeOutMultiset(a, i);
    assert multiset(b) == multiset(a);
    CandidatesPermute(a, b, s);
    PlacePermuted(Ranks, c, Candidates(a, s), Candidates(b, s));
    ListedFirstWinsTies(a[i], TakeOut(a, i), s);
  }

  lemma {:induction false} SourceOf(a: seq<Runtime>, s: Settings, c: Candidate) returns (i: nat)
    requires c in Candidates(a, s)
    ensures i < |a| && CandidateOf(a[i], s) == Some(c)
  {
    hide CandidateOf;
    if CandidateOf(a[0], s) == Some(c) {
      return 0;
    }
    assert c in Chosen(a[0], s) || c in Candidates(a[1..], s);
    i := SourceOf(a[1..], s, c);
    i := i + 1;
  }

  lemma LargerLimitExtends(runtimes: Option<seq<Runtime>>, s: Settings, t: Settings)
    requires t == s.(limit := t.limit) && s.limit <= t.limit
    ensures Selected(runtimes, s) <= Selected(runtimes, t)
  {
    if runtimes.Some? {
      SameButLimit(runtimes.value, s, t);
    }
  }

  lemma {:induction false} SameButLimit(runtimes: seq<Runtime>, s: Settings, t: Settings)
    requires t == s.(limit := t.limit)
    ensures Candidates(runtimes, s) == Candidates(runtimes, t)
  {
    if runtimes != [] {
      SameButLimit(runtimes[1..], s, t);
    }
  }

  // ---- TTL selects a prefix of LRU -----------------------------------------------

  function Retag(s: seq<Candidate>): seq<Candidate> {
    seq(|s|, i requires 0 <= i < |s| => s[i].(reason := LRU))
  }

  /** The candidates that are at least `ttl` old. */
  function Aged(s: seq<Candidate>, ttl: real): seq<Candidate> {
    if s == [] then [] else (if s[0].age >= ttl then [s[0]] else []) + Aged(s[1..], ttl)
  }

  lemma RetagCons(x: Candidate, s: seq<Candidate>)
    ensures Retag([x] + s) == [x.(reason := LRU)] + Retag(s)
  {
  }

  lemma {:induction false} TtlCandidates(runtimes: seq<Runtime>, s: Settings)
    requires s.mode.TTL?
    ensures Retag(Candidates(runtimes, s)) == Aged(Candidates(runtimes, s.(mode := LRU)), s.ttl)
  {
    hide CandidateOf, Retag, Aged;
    if runtimes == [] {
      NothingAged(s.ttl);
    } else {
      var c := CandidateOf(runtimes[0], s);
      var d := CandidateOf(runtimes[0], s.(mode := LRU));
      TtlCandidates(runtimes[1..], s);
      TtlCandidate(runtimes[0], s);
      var rest := Candidates(runtimes[1..], s);
      var more := Candidates(runtimes[1..], s.(mode := LRU));
      assert [] + rest == rest && [] + more == more;
      if d.Some? {
        AgedCons(d.value, more, s.ttl);
      }
      if c.Some? {
        RetagCons(c.value, rest);
      }
    }
  }

  lemma NothingAged(ttl: real)
    ensures Retag([]) == Aged([], ttl)
  {
  }

  lemma AgedCons(x: Candidate, s: seq<Candidate>, ttl: real)
    ensures Aged([x] + s, ttl) == if x.age >= ttl then [x] + Aged(s, ttl) else Aged(s, ttl)
  {
    assert ([x] + s)[1..] == s;
    assert [] + Aged(s, ttl) == Aged(s, ttl);
  }

  lemma TtlCandidate(r: Runtime, s: Settings)
    requires s.mode.TTL?
    ensures var c := CandidateOf(r, s);
      var d := CandidateOf(r, s.(mode := LRU));
      && (c.Some? <==> d.Some? && d.value.age >= s.ttl)
      && (c.Some? ==> c.value.(reason := LRU) == d.value)
  {
  }

  lemma {:induction false} InsertRetag(x: Candidate, s: seq<Candidate>)
    ensures Retag(Insert(Ranks, x, s)) == Insert(Ranks, x.(reason := LRU), Retag(s))
    decreases |s|
  {
    if s != [] && !Ranks(x, s[0]) {
      InsertRetag(x, s[1..]);
      RetagCons(s[0], Insert(Ranks, x, s[1..]));
      assert Retag(s)[1..] == Retag(s[1..]);
    } else {
      RetagCons(x, s);
    }
  }

  lemma {:induction false} SortRetag(s: seq<Candidate>)
    ensures Retag(Ranked(s)) == Ranked(Retag(s))
  {
    if s != [] {
      SortRetag(s[1..]);
      InsertRetag(s[0], Ranked(s[1..]));
      assert Retag(s)[1..] == Retag(s[1..]);
    } else {
      assert Retag(s) == [];
    }
  }

  /** In a ranking the aged candidates come first. */
  lemma {:induction false} AgedIsPrefix(s: seq<Candidate>, ttl: real)
    requires Sorted(Ranks, s)
    ensures Aged(s, ttl) <= s
    ensures s != [] && s[0].age < ttl ==> Aged(s, ttl) == []
  {
    if s != [] {
      AgedIsPrefix(s[1..], ttl);
      assert s == [s[0]] + s[1..];
      if |s| > 1 {
        assert Ranks(s[0], s[1]);
      }
    }
  }

  lemma {:induction false} InsertAged(x: Candidate, s: seq<Candidate>, ttl: real)
    requires Sorted(Ranks, s)
    ensures Aged(Insert(Ranks, x, s), ttl) == if x.age >= ttl then Insert(Ranks, x, Aged(s, ttl)) else Aged(s, ttl)
    decreases |s|
  {
    AgedIsPrefix(s, ttl);
    if s == [] {
      assert [x][1..] == [];
    } else if Ranks(x, s[0]) {
      assert ([x] + s)[1..] == s;
    } else {
      RanksTotal(x, s[0]);
      var r := Insert(Ranks, x, s[1..]);
      assert ([s[0]] + r)[1..] == r;
      InsertAged(x, s[1..], ttl);
      if s[0].age >= ttl {
        assert Aged(s, ttl) == [s[0]] + Aged(s[1..], ttl);
        assert Aged(s, ttl)[1..] == Aged(s[1..], ttl);
      }
    }
  }

  lemma {:induction false} SortAged(s: seq<Candidate>, ttl: real)
    ensures Ranked(Aged(s, ttl)) == Aged(Ranked(s), ttl)
  {
    if s != [] {
      SortAged(s[1..], ttl);
      RanksAreTotal();
      hide Ranks;
      SortKeeps(Ranks, s[1..]);
      InsertAged(s[0], Ranked(s[1..]), ttl);
      var rest := Aged(s[1..], ttl);
      if s[0].age >= ttl {
        assert ([s[0]] + rest)[1..] == rest;
      } else {
        assert [] + rest == rest;
      }
    }
  }

  /** With the same limit and protection, the time-to-live selection is a prefix of
      the least-recently-used one, up to the reason tag. */
  lemma TtlIsPrefixOfLru(runtimes: seq<Runtime>, s: Settings)
    requires s.mode.TTL?
    ensures Retag(Selected(Some(runtimes), s)) <= Selected(Some(runtimes), s.(mode := LRU))
  {
    var all := Candidates(runtimes, s);
    var lru := Candidates(runtimes, s.(mode := LRU));
    TtlCandidates(runtimes, s);
    SortRetag(all);
    SortAged(lru, s.ttl);
    RanksAreTotal();
    SortKeeps(Ranks, lru);
    AgedIsPrefix(Ranked(lru), s.ttl);
    hide *;
    RetagFirst(Ranked(all), Ranked(lru), s.limit);
    FirstIsSelected(runtimes, s);
    FirstIsSelected(runtimes, s.(mode := LRU));
  }

  lemma RetagFirst(a: seq<Candidate>, b: seq<Candidate>, limit: nat)
    requires Retag(a) <= b
    ensures Retag(First(a, limit)) <= First(b, limit)
  {
  }

  lemma FirstIsSelected(runtimes: seq<Runtime>, s: Settings)
    ensures Selected(Some(runtimes), s) == First(Ranked(Candidates(runtimes, s)), s.limit)
  {
  }
}
