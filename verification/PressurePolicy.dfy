/** From sampled memory pressure to eviction attempts, with hysteresis. */
module PressurePolicy {
  import opened Common
  import Eviction

  datatype Pressure = Unknown | Normal | Elevated | Critical

  datatype Phase = Calm | Watching | Triggered

  datatype Transition = ToTriggered | ToCleared

  datatype Settings = Settings(trigger: Pressure, n: nat, clear: Pressure, m: nat, limit: nat, protectDefault: bool)

  function Rank(p: Pressure): nat {
    match p
    case Unknown => 0
    case Normal => 0
    case Elevated => 1
    case Critical => 2
  }

  /** What the settings' constructor accepts. */
  predicate ValidSettings(s: Settings) {
    && s.trigger != Unknown && s.clear != Unknown && s.n >= 1 && s.m >= 1 && s.limit >= 1
    && Rank(s.clear) < Rank(s.trigger)
  }

  predicate High(s: Settings, p: Pressure) {
    p != Unknown && Rank(p) >= Rank(s.trigger)
  }

  predicate Low(s: Settings, p: Pressure) {
    p != Unknown && Rank(p) <= Rank(s.clear)
  }

  // ---- One sample ----------------------------------------------------------

  datatype State = State(phase: Phase, triggerStreak: nat, clearStreak: nat)

  const START := State(Calm, 0, 0)

  function Step(s: Settings, st: State, p: Pressure): (State, Option<Transition>) {
    if p == Unknown then (st.(triggerStreak := 0, clearStreak := 0), None)
    else if st.phase == Triggered then
      if Rank(p) <= Rank(s.clear) then
        if st.clearStreak + 1 >= s.m then (START, Some(ToCleared))
        else (st.(clearStreak := st.clearStreak + 1), None)
      else (st.(clearStreak := 0), None)
    else if Rank(p) >= Rank(s.trigger) then
      if st.triggerStreak + 1 >= s.n then (State(Triggered, st.triggerStreak + 1, 0), Some(ToTriggered))
      else (State(Watching, st.triggerStreak + 1, 0), None)
    else (START, None)
  }

  // ---- Whole histories --------------------------------------------------------

  function After(s: Settings, h: seq<Pressure>): State {
    if h == [] then START else Step(s, After(s, h[..|h| - 1]), h[|h| - 1]).0
  }

  /** The transition made by the sample at `i`. */
  function At(s: Settings, h: seq<Pressure>, i: nat): Option<Transition>
    requires i < |h|
  {
    Step(s, After(s, h[..i]), h[i]).1
  }

  /** How many of the latest samples are high (low) in a row. */
  function HighSuffix(s: Settings, h: seq<Pressure>): nat {
    if h == [] || !High(s, h[|h| - 1]) then 0 else HighSuffix(s, h[..|h| - 1]) + 1
  }

  function LowSuffix(s: Settings, h: seq<Pressure>): nat {
    if h == [] || !Low(s, h[|h| - 1]) then 0 else LowSuffix(s, h[..|h| - 1]) + 1
  }

  /** The streak counters are the lengths of the qualifying suffix of the whole
      history, and each stays under its threshold. */
  lemma {:induction false} StreaksAreSuffixes(s: Settings, h: seq<Pressure>)
    requires ValidSettings(s)
    ensures var st := After(s, h);
      if st.phase == Triggered then st.clearStreak == LowSuffix(s, h) && st.clearStreak < s.m
      else st.triggerStreak == HighSuffix(s, h) && st.triggerStreak < s.n && st.clearStreak == 0
  {
    if h != [] {
      StreaksAreSuffixes(s, h[..|h| - 1]);
    }
  }

  function LastKnown(h: seq<Pressure>): Option<Pressure> {
    if h == [] then None
    else if h[|h| - 1] != Unknown then Some(h[|h| - 1])
    else LastKnown(h[..|h| - 1])
  }

  /** An armed policy is watching exactly if the latest known sample was high: an
      unknown sample breaks the streak but not the watch. */
  lemma {:induction false} WatchingExactly(s: Settings, h: seq<Pressure>)
    requires ValidSettings(s)
    ensures After(s, h).phase != Triggered ==>
      (After(s, h).phase == Watching <==> LastKnown(h).Some? && High(s, LastKnown(h).value))
  {
    if h != [] {
      WatchingExactly(s, h[..|h| - 1]);
    }
  }

  /** Exactly when a sample triggers or clears. */
  lemma TransitionExactly(s: Settings, h: seq<Pressure>, p: Pressure)
    requires ValidSettings(s)
    ensures var armed := After(s, h).phase != Triggered;
      && (At(s, h + [p], |h|) == Some(ToTriggered) <==> armed && HighSuffix(s, h + [p]) >= s.n)
      && (At(s, h + [p], |h|) == Some(ToCleared) <==> !armed && LowSuffix(s, h + [p]) >= s.m)
      && (After(s, h + [p]).phase == Triggered
          <==> if armed then HighSuffix(s, h + [p]) >= s.n else LowSuffix(s, h + [p]) < s.m)
  {
    hide After, At, HighSuffix, LowSuffix;
    StreaksAreSuffixes(s, h);
    OneMore(s, h, p);
  }

  lemma OneMore(s: Settings, h: seq<Pressure>, p: Pressure)
    ensures After(s, h + [p]) == Step(s, After(s, h), p).0
    ensures At(s, h + [p], |h|) == Step(s, After(s, h), p).1
    ensures HighSuffix(s, h + [p]) == if High(s, p) then HighSuffix(s, h) + 1 else 0
    ensures LowSuffix(s, h + [p]) == if Low(s, p) then LowSuffix(s, h) + 1 else 0
  {
    assert (h + [p])[..|h|] == h;
  }

  // ---- Transitions alternate -----------------------------------------------------

  /** The transitions of a history, in order. */
  function Transitions(s: Settings, h: seq<Pressure>): seq<Transition> {
    if h == [] then []
    else
      var t := At(s, h, |h| - 1);
      Transitions(s, h[..|h| - 1]) + (if t.Some? then [t.value] else [])
  }

  lemma {:induction false} TransitionsAlternate(s: Settings, h: seq<Pressure>)
    requires ValidSettings(s)
    ensures var ts := Transitions(s, h);
      && (forall i :: 0 <= i < |ts| ==> ts[i] == if i % 2 == 0 then ToTriggered else ToCleared)
      && (After(s, h).phase == Triggered <==> |ts| % 2 == 1)
  {
    if h != [] {
      TransitionsAlternate(s, h[..|h| - 1]);
    }
  }

  predicate Qualifies(s: Settings, t: Transition, p: Pressure) {
    if t == ToTriggered then High(s, p) else Low(s, p)
  }

  function Needed(s: Settings, t: Transition): nat {
    if t == ToTriggered then s.n else s.m
  }

  lemma {:induction false} SuffixMeans(s: Settings, h: seq<Pressure>)
    ensures HighSuffix(s, h) <= |h| && LowSuffix(s, h) <= |h|
    ensures forall j :: |h| - HighSuffix(s, h) <= j < |h| ==> High(s, h[j])
    ensures forall j :: |h| - LowSuffix(s, h) <= j < |h| ==> Low(s, h[j])
  {
    if h != [] {
      SuffixMeans(s, h[..|h| - 1]);
    }
  }

  /** A transition rests on its full number of consecutive qualifying samples, all
      of them after the previous transition. */
  lemma TransitionWindow(s: Settings, h: seq<Pressure>, i: nat)
    requires ValidSettings(s) && i < |h| && At(s, h, i).Some?
    ensures var t := At(s, h, i).value;
      var n := Needed(s, t);
      && n <= i + 1
      && (forall j :: i - n < j <= i ==> Qualifies(s, t, h[j]))
      && (forall j :: i - n < j < i ==> At(s, h, j).None?)
  {
    hide After, At, HighSuffix, LowSuffix;
    var t := At(s, h, i).value;
    Prefix(s, h, i);
    TransitionExactly(s, h[..i], h[i]);
    SuffixMeans(s, h[..i + 1]);
    forall j | i - Needed(s, t) < j <= i ensures Qualifies(s, t, h[j]) {
      assert h[..i + 1][j] == h[j];
    }
    forall j | i - Needed(s, t) < j < i ensures At(s, h, j).None? {
      if At(s, h, j).Some? {
        SameKind(s, h, j, t);
        PhaseStays(s, h, j, i, t);
      }
    }
  }

  lemma Prefix(s: Settings, h: seq<Pressure>, i: nat)
    requires i < |h|
    ensures h[..i + 1] == h[..i] + [h[i]]
    ensures At(s, h[..i + 1], i) == At(s, h, i)
    ensures After(s, h[..i + 1]) == Step(s, After(s, h[..i]), h[i]).0
    ensures At(s, h, i) == Step(s, After(s, h[..i]), h[i]).1
  {
    assert h[..i + 1][..i] == h[..i];
  }

  /** A transition of one kind needs a sample that does not qualify for the other. */
  lemma SameKind(s: Settings, h: seq<Pressure>, j: nat, t: Transition)
    requires ValidSettings(s) && j < |h| && Qualifies(s, t, h[j])
    ensures At(s, h, j).Some? ==> At(s, h, j).value == t
  {
  }

  /** After a transition the phase lasts while samples qualify for it. */
  lemma {:induction false} PhaseStays(s: Settings, h: seq<Pressure>, j: nat, k: nat, t: Transition)
    requires ValidSettings(s) && j < k <= |h| && At(s, h, j) == Some(t)
    requires forall i :: j < i < k ==> Qualifies(s, t, h[i])
    ensures After(s, h[..k]).phase == Triggered <==> t == ToTriggered
  {
    hide After, At;
    Prefix(s, h, k - 1);
    if j < k - 1 {
      PhaseStays(s, h, j, k - 1, t);
      SameKind(s, h, k - 1, t);
    }
  }

  // ---- How often the policy can trigger ------------------------------------------

  function Triggers(s: Settings, h: seq<Pressure>): nat {
    if h == [] then 0
    else Triggers(s, h[..|h| - 1]) + if At(s, h, |h| - 1) == Some(ToTriggered) then 1 else 0
  }

  /** What the triggers and the current streak have cost in samples; a triggered
      policy has paid for its clearing in advance. */
  lemma {:induction false} TriggersPaidFor(s: Settings, h: seq<Pressure>)
    requires ValidSettings(s)
    ensures var st := After(s, h);
      var paid := Triggers(s, h) * (s.n + s.m);
      if st.phase == Triggered then paid + st.clearStreak <= |h| + s.m && st.clearStreak < s.m
      else paid + st.triggerStreak <= |h| && st.triggerStreak < s.n
  {
    Nothing(s);
    hide After, At, Triggers;
    if h != [] {
      var front, last := h[..|h| - 1], h[|h| - 1];
      assert h == front + [last];
      TriggersPaidFor(s, front);
      OneMore(s, front, last);
      OneMoreTrigger(s, front, last);
      var k := Triggers(s, front);
      assert (k + 1) * (s.n + s.m) == k * (s.n + s.m) + (s.n + s.m);
    }
  }

  /** L samples trigger at most (L + M) / (N + M) times. */
  lemma TriggerBound(s: Settings, h: seq<Pressure>)
    requires ValidSettings(s)
    ensures Triggers(s, h) * (s.n + s.m) <= |h| + s.m
  {
    TriggersPaidFor(s, h);
  }

  function Repeat(p: Pressure, k: nat): seq<Pressure> {
    seq(k, _ => p)
  }

  /** `k` episodes, each as short as possible, without the last clearing. */
  function Episodes(s: Settings, k: nat): seq<Pressure>
    requires k >= 1
  {
    if k == 1 then Repeat(s.trigger, s.n)
    else Episodes(s, k - 1) + Repeat(s.clear, s.m) + Repeat(s.trigger, s.n)
  }

  lemma OneMoreTrigger(s: Settings, h: seq<Pressure>, p: Pressure)
    ensures Triggers(s, h + [p])
         == Triggers(s, h) + if Step(s, After(s, h), p).1 == Some(ToTriggered) then 1 else 0
  {
    assert (h + [p])[..|h|] == h;
  }

  lemma {:induction false} Rises(s: Settings, h: seq<Pressure>, k: nat)
    requires ValidSettings(s) && k <= s.n && After(s, h) == START
    ensures var g := h + Repeat(s.trigger, k);
      if k == s.n then After(s, g).phase == Triggered && After(s, g).clearStreak == 0
                       && Triggers(s, g) == Triggers(s, h) + 1
      else After(s, g).phase != Triggered && After(s, g).triggerStreak == k && Triggers(s, g) == Triggers(s, h)
  {
    hide After, At, Triggers;
    if k == 0 {
      assert h + Repeat(s.trigger, 0) == h;
    } else {
      Rises(s, h, k - 1);
      var g := h + Repeat(s.trigger, k - 1);
      assert g + [s.trigger] == h + Repeat(s.trigger, k);
      OneMore(s, g, s.trigger);
      OneMoreTrigger(s, g, s.trigger);
    }
  }

  lemma {:induction false} Falls(s: Settings, h: seq<Pressure>, k: nat)
    requires ValidSettings(s) && k <= s.m && After(s, h).phase == Triggered && After(s, h).clearStreak == 0
    ensures var g := h + Repeat(s.clear, k);
      && Triggers(s, g) == Triggers(s, h)
      && if k == s.m then After(s, g) == START
         else After(s, g).phase == Triggered && After(s, g).clearStreak == k
  {
    hide After, At, Triggers;
    if k == 0 {
      assert h + Repeat(s.clear, 0) == h;
    } else {
      Falls(s, h, k - 1);
      var g := h + Repeat(s.clear, k - 1);
      assert g + [s.clear] == h + Repeat(s.clear, k);
      OneMore(s, g, s.clear);
      OneMoreTrigger(s, g, s.clear);
    }
  }

  /** The bound is reached: there is a history that triggers `k` times in exactly
      as many samples as `TriggerBound` demands. */
  lemma {:induction false} TriggerBoundIsTight(s: Settings, k: nat)
    requires ValidSettings(s) && k >= 1
    ensures var h := Episodes(s, k);
      && Triggers(s, h) == k && |h| + s.m == k * (s.n + s.m)
      && After(s, h).phase == Triggered && After(s, h).clearStreak == 0
  {
    hide After, At, Triggers;
    if k == 1 {
      Nothing(s);
      Rises(s, [], s.n);
      assert [] + Repeat(s.trigger, s.n) == Repeat(s.trigger, s.n);
    } else {
      TriggerBoundIsTight(s, k - 1);
      var h := Episodes(s, k - 1);
      Falls(s, h, s.m);
      Rises(s, h + Repeat(s.clear, s.m), s.n);
      assert k * (s.n + s.m) == (k - 1) * (s.n + s.m) + (s.n + s.m);
    }
  }

  lemma Nothing(s: Settings)
    ensures After(s, []) == START && Triggers(s, []) == 0
  {
  }

  // ---- The policy object ---------------------------------------------------------

  datatype Evaluation = Evaluation(pressure: Pressure, state: State, transition: Option<Transition>,
                                   candidates: seq<Eviction.Candidate>)

  function EvictionSettings(s: Settings): Eviction.Settings {
    Eviction.Settings(Eviction.LRU, s.limit, 0.0, s.protectDefault)
  }

  class PressureEvictionPolicy {
    const settings: Settings
    var phase: Phase
    var triggerStreak: nat
    var clearStreak: nat
    /** Every sample observed so far. */
    ghost var history: seq<Pressure>

    ghost predicate Valid()
      reads this
    {
      ValidSettings(settings) && View() == After(settings, history)
    }

    function View(): State
      reads this
    {
      State(phase, triggerStreak, clearStreak)
    }

    constructor (settings: Settings)
      requires ValidSettings(settings)
      ensures Valid() && history == [] && this.settings == settings
    {
      this.settings := settings;
      phase := Calm;
      triggerStreak := 0;
      clearStreak := 0;
      history := [];
    }

    method Observe(pressure: Pressure, runtimes: Option<seq<Eviction.Runtime>>) returns (e: Evaluation)
      requires Valid()
      modifies this
      ensures Valid() && history == old(history) + [pressure]
      ensures e.pressure == pressure && e.state == View()
      ensures e.transition == At(settings, history, |old(history)|)
      ensures e.candidates == if e.transition == Some(ToTriggered)
                              then Eviction.Selected(runtimes, EvictionSettings(settings)) else []
    {
      hide After, At;
      OneMore(settings, history, pressure);
      history := history + [pressure];
      var transition: Option<Transition> := None;
      var candidates: seq<Eviction.Candidate> := [];
      if pressure == Unknown {
        triggerStreak := 0;
        clearStreak := 0;
        return Evaluation(pressure, View(), transition, candidates);
      }
      var rank := Rank(pressure);
      var triggerRank := Rank(settings.trigger);
      var clearRank := Rank(settings.clear);
      if phase == Triggered {
        if rank <= clearRank {
          clearStreak := clearStreak + 1;
          if clearStreak >= settings.m {
            phase := Calm;
            triggerStreak := 0;
            clearStreak := 0;
            transition := Some(ToCleared);
          }
        } else {
          clearStreak := 0;
        }
        return Evaluation(pressure, View(), transition, candidates);
      }
      clearStreak := 0;
      if rank >= triggerRank {
        triggerStreak := triggerStreak + 1;
        phase := Watching;
        if triggerStreak >= settings.n {
          phase := Triggered;
          transition := Some(ToTriggered);
          candidates := Eviction.SelectEvictionCandidates(runtimes, EvictionSettings(settings));
        }
      } else {
        triggerStreak := 0;
        phase := Calm;
      }
      return Evaluation(pressure, View(), transition, candidates);
    }
  }
}
