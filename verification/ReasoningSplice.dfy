/** Exactly when the exposed text contains a delimiter: when taking out a tag joins
    the two parts of another. */
module ReasoningSplice {
  import opened Common
  import opened ReasoningText

  /** Removing the tag at `i` joins the first `k` characters of `d`, which the
      exposed text before it ends with, to the others. */
  ghost predicate Joins(pieces: seq<Piece>, d: string, i: int, k: int) {
    && 0 <= i < |pieces| && pieces[i].Tag? && 0 < k < |d|
    && var before, after := Exposed(pieces[..i]), Exposed(pieces[i + 1..]);
      k <= |before| && before[|before| - k..] == d[..k] && d[k..] <= after
  }

  ghost predicate Spliced(pieces: seq<Piece>, d: string) {
    exists i, k :: Joins(pieces, d, i, k)
  }

  /** The same with the `k` characters directly in front of the tag. */
  ghost predicate JoinsHere(pieces: seq<Piece>, d: string, i: int, k: int) {
    && 0 <= i < |pieces| && pieces[i].Tag? && 0 < k < |d| && k <= i
    && pieces[i - k..i] == Plain(false, d[..k]) && d[k..] <= Exposed(pieces[i + 1..])
  }

  ghost predicate SplicedHere(pieces: seq<Piece>, d: string) {
    exists i, k :: JoinsHere(pieces, d, i, k)
  }

  // ---- A join spells a delimiter -----------------------------------------------

  lemma HereIsJoin(pieces: seq<Piece>, d: string, i: int, k: int)
    requires JoinsHere(pieces, d, i, k)
    ensures Joins(pieces, d, i, k)
  {
    hide Exposed, Plain;
    assert pieces[..i] == pieces[..i - k] + pieces[i - k..i];
    ExposedAppend(pieces[..i - k], pieces[i - k..i]);
    PlainText(false, d[..k]);
  }

  lemma ExposedCons(p: Piece, rest: seq<Piece>)
    ensures Exposed([p] + rest) == (if p.Text? && !p.hidden then [p.c] else "") + Exposed(rest)
  {
    assert ([p] + rest)[1..] == rest;
  }

  lemma AroundTag(pieces: seq<Piece>, i: int)
    requires 0 <= i < |pieces| && pieces[i].Tag?
    ensures Exposed(pieces) == Exposed(pieces[..i]) + Exposed(pieces[i + 1..])
  {
    hide Exposed;
    assert pieces == pieces[..i] + ([pieces[i]] + pieces[i + 1..]);
    ExposedAppend(pieces[..i], [pieces[i]] + pieces[i + 1..]);
    ExposedCons(pieces[i], pieces[i + 1..]);
    assert "" + Exposed(pieces[i + 1..]) == Exposed(pieces[i + 1..]);
  }

  lemma JoinedContains(before: string, after: string, d: string, k: int)
    requires 0 < k < |d| && k <= |before| && before[|before| - k..] == d[..k] && d[k..] <= after
    ensures Contains(before + after, d)
  {
    var at := |before| - k;
    assert (before + after)[at..] == d[..k] + after;
    assert d == d[..k] + d[k..];
    assert d <= (before + after)[at..];
  }

  lemma SplicedContains(pieces: seq<Piece>, d: string)
    requires Spliced(pieces, d)
    ensures Contains(Exposed(pieces), d)
  {
    hide Exposed;
    var i, k :| Joins(pieces, d, i, k);
    AroundTag(pieces, i);
    JoinedContains(Exposed(pieces[..i]), Exposed(pieces[i + 1..]), d, k);
  }

  // ---- A delimiter is spelt by a join ----------------------------------------------

  /** The length of the leading text. */
  function Lead(pieces: seq<Piece>): nat {
    if pieces == [] || pieces[0].Tag? then 0 else 1 + Lead(pieces[1..])
  }

  /** The leading text of a parse is the text itself, up to the first tag. */
  lemma {:induction false} LeadText(s: string)
    ensures var pieces := Parse(false, s);
      var n := Lead(pieces);
      && n <= |pieces| && n <= |s| && pieces[..n] == Plain(false, s[..n])
      && (n < |pieces| ==> pieces[n].Tag?)
      && (n == |pieces| ==> n == |s|)
    decreases |s|
  {
    if s != "" {
      var p := First(false, s);
      if p.Text? {
        LeadText(s[1..]);
        TextFirst(s);
      }
    } else {
      assert Plain(false, s[..0]) == [];
    }
  }

  lemma TextFirst(s: string)
    requires s != "" && First(false, s).Text?
    ensures var rest := Parse(false, s[1..]);
      var n := Lead(rest);
      && Parse(false, s) == [Text(s[0], false)] + rest && Lead(Parse(false, s)) == n + 1
      && (n <= |s[1..]| ==> Plain(false, s[..n + 1]) == [Text(s[0], false)] + Plain(false, s[1..][..n]))
  {
    var rest := Parse(false, s[1..]);
    assert Parse(false, s) == [Text(s[0], false)] + rest;
    hide *;
    LeadCons(Text(s[0], false), rest);
    if Lead(rest) <= |s[1..]| {
      PlainLonger(s, Lead(rest));
    }
  }

  lemma LeadCons(p: Piece, rest: seq<Piece>)
    requires p.Text?
    ensures Lead([p] + rest) == Lead(rest) + 1
  {
    assert ([p] + rest)[1..] == rest;
  }

  lemma PlainLonger(s: string, n: nat)
    requires s != "" && n <= |s[1..]|
    ensures Plain(false, s[..n + 1]) == [Text(s[0], false)] + Plain(false, s[1..][..n])
  {
    hide Plain;
    PlainCons(false, s[..n + 1]);
    assert s[..n + 1][1..] == s[1..][..n];
  }

  /** If the exposed text starts with a tag, its first part is the leading text and
      what follows the next tag completes it. */
  lemma StartIsJoined(s: string, opening: bool)
    requires s != "" && First(false, s).Text? && TagText(opening) <= Exposed(Parse(false, s))
    ensures JoinsHere(Parse(false, s), TagText(opening), Lead(Parse(false, s)), Lead(Parse(false, s)))
  {
    var d := TagText(opening);
    var pieces := Parse(false, s);
    var n := Lead(pieces);
    LeadText(s);
    FirstIsTag(false, s, opening);
    hide Parse, First, Lead, TagText;
    LeadExposed(pieces, s[..n], n);
    TextIsFirst(s);
    NoWholeTag(s, d, n, pieces);
  }

  lemma TextIsFirst(s: string)
    requires s != "" && First(false, s).Text?
    ensures Lead(Parse(false, s)) >= 1
  {
    TextFirst(s);
  }

  lemma LeadExposed(pieces: seq<Piece>, text: string, n: nat)
    requires n <= |pieces| && pieces[..n] == Plain(false, text)
    ensures Exposed(pieces) == text + Exposed(pieces[n..])
  {
    assert pieces == pieces[..n] + pieces[n..];
    ExposedAppend(pieces[..n], pieces[n..]);
    PlainText(false, text);
  }

  lemma NoWholeTag(s: string, d: string, n: nat, pieces: seq<Piece>)
    requires 1 <= n <= |s| && n <= |pieces| && |d| > 0 && !(d <= s)
    requires pieces[..n] == Plain(false, s[..n])
    requires n < |pieces| ==> pieces[n].Tag?
    requires n == |pieces| ==> n == |s|
    requires Exposed(pieces) == s[..n] + Exposed(pieces[n..]) && d <= Exposed(pieces)
    ensures JoinsHere(pieces, d, n, n)
  {
    if n == |pieces| {
      OnlyText(s, pieces);
    } else {
      AfterTag(pieces[n..]);
      assert pieces[n..][1..] == pieces[n + 1..];
      hide Exposed, Plain;
      SharedPrefix(s, d, n, Exposed(pieces[n + 1..]));
    }
  }

  lemma OnlyText(s: string, pieces: seq<Piece>)
    requires |pieces| == |s| && pieces[..|s|] == Plain(false, s[..|s|])
    ensures Exposed(pieces) == s
  {
    assert s[..|s|] == s && pieces[..|s|] == pieces;
    PlainText(false, s);
  }

  lemma AfterTag(pieces: seq<Piece>)
    requires pieces != [] && pieces[0].Tag?
    ensures Exposed(pieces) == Exposed(pieces[1..])
  {
  }

  lemma SharedPrefix(s: string, d: string, n: nat, after: string)
    requires n <= |s| && d <= s[..n] + after && !(d <= s)
    ensures n < |d| && d[..n] == s[..n] && d[n..] <= after
  {
    var e := s[..n] + after;
    assert forall i | 0 <= i < |d| :: d[i] == e[i];
    assert forall i | 0 <= i < n :: e[i] == s[i];
    assert forall i | 0 <= i < |after| :: e[n + i] == after[i];
  }

  /** A join further on is a join of the whole. */
  lemma JoinShifts(p: Piece, pieces: seq<Piece>, d: string)
    requires SplicedHere(pieces, d)
    ensures SplicedHere([p] + pieces, d)
  {
    hide Exposed, Plain;
    var i, k :| JoinsHere(pieces, d, i, k);
    var all := [p] + pieces;
    assert all[i + 1] == pieces[i];
    assert all[i + 1 - k..i + 1] == pieces[i - k..i] && all[i + 2..] == pieces[i + 1..];
    assert JoinsHere(all, d, i + 1, k);
  }

  lemma ContainsCons(c: string, s: string, d: string)
    requires |c| <= 1 && Contains(c + s, d) && !(d <= c + s)
    ensures Contains(s, d)
  {
    var i :| 0 <= i <= |c + s| && d <= (c + s)[i..];
    assert (c + s)[0..] == c + s;
    assert (c + s)[i..] == s[i - |c|..];
  }

  lemma ContainedIsSpliced(hidden: bool, s: string, opening: bool)
    requires Contains(Exposed(Parse(hidden, s)), TagText(opening))
    ensures SplicedHere(Parse(hidden, s), TagText(opening))
    decreases |s|
  {
    var d := TagText(opening);
    if s != "" {
      var p := First(hidden, s);
      var rest := Parse(ModeOf(hidden, p), s[|Render(p)|..]);
      assert Parse(hidden, s) == [p] + rest;
      ExposedCons(p, rest);
      FirstMode(hidden, s);
      hide Parse, Exposed, First, Render, TagText, SplicedHere;
      var shown := if p.Text? && !p.hidden then [p.c] else "";
      if shown == "" {
        assert shown + Exposed(rest) == Exposed(rest);
        ContainedIsSpliced(ModeOf(hidden, p), s[|Render(p)|..], opening);
        JoinShifts(p, rest, d);
      } else if d <= shown + Exposed(rest) {
        StartIsJoined(s, opening);
        JoinedHere(Parse(hidden, s), d, Lead(Parse(hidden, s)));
      } else {
        ContainsCons(shown, Exposed(rest), d);
        ContainedIsSpliced(ModeOf(hidden, p), s[|Render(p)|..], opening);
        JoinShifts(p, rest, d);
      }
    }
  }

  lemma FirstMode(hidden: bool, s: string)
    requires s != ""
    ensures var p := First(hidden, s); p.Text? ==> p.hidden == hidden && |Render(p)| == 1
  {
  }

  lemma JoinedHere(pieces: seq<Piece>, d: string, k: int)
    requires JoinsHere(pieces, d, k, k)
    ensures SplicedHere(pieces, d)
  {
  }

  /** Exactly when exposed text contains a tag: when removing some tag joins the two
      parts of one; then its first part stands directly in front of a removed tag. */
  lemma ExposedTagExactly(hidden: bool, s: string, opening: bool)
    ensures var pieces := Parse(hidden, s);
      var d := TagText(opening);
      && (Contains(Exposed(pieces), d) <==> Spliced(pieces, d))
      && (Contains(Exposed(pieces), d) <==> SplicedHere(pieces, d))
  {
    hide Parse, Exposed, Contains, TagText;
    var pieces := Parse(hidden, s);
    var d := TagText(opening);
    if SplicedHere(pieces, d) {
      hide JoinsHere, Joins;
      var i, k :| JoinsHere(pieces, d, i, k);
      HereIsJoin(pieces, d, i, k);
    }
    if Spliced(pieces, d) {
      SplicedContains(pieces, d);
    }
    if Contains(Exposed(pieces), d) {
      ContainedIsSpliced(hidden, s, opening);
    }
  }

  /** What a caller can check on the parse: if no tag stands directly behind exposed
      text that begins a tag, then no tag is exposed. */
  lemma NoTagBehindPartial(hidden: bool, s: string, opening: bool)
    requires var pieces := Parse(hidden, s);
      forall i, k | 0 <= i < |pieces| && pieces[i].Tag? && 0 < k <= i && k < |TagText(opening)| ::
        pieces[i - k..i] != Plain(false, TagText(opening)[..k])
    ensures !Contains(Exposed(Parse(hidden, s)), TagText(opening))
  {
    hide Parse, Exposed, Contains, TagText, Plain;
    ExposedTagExactly(hidden, s, opening);
  }

  // ---- A condition on the text itself -------------------------------------------------

  /** At `j` stands a tag, and in front of it the first `k` characters of a tag. */
  ghost predicate TagBehindPartialAt(s: string, j: int, k: int, cut: bool, removed: bool) {
    && 0 < k <= j <= |s| && k < |TagText(cut)|
    && s[j - k..j] == TagText(cut)[..k] && TagText(removed) <= s[j..]
  }

  ghost predicate TagBehindPartial(s: string) {
    exists j, k, cut, removed :: TagBehindPartialAt(s, j, k, cut, removed)
  }

  lemma {:induction false} RenderAppend(a: seq<Piece>, b: seq<Piece>)
    ensures RenderAll(a + b) == RenderAll(a) + RenderAll(b)
  {
    hide Render;
    if a == [] {
      assert a + b == b;
    } else {
      var x, y, z := Render(a[0]), RenderAll(a[1..]), RenderAll(b);
      assert (a + b)[0] == a[0] && (a + b)[1..] == a[1..] + b;
      RenderAppend(a[1..], b);
      assert x + (y + z) == (x + y) + z;
    }
  }

  lemma {:induction false} RenderPlain(s: string)
    ensures RenderAll(Plain(false, s)) == s
    decreases |s|
  {
    if s != "" {
      PlainCons(false, s);
      RenderCons(Text(s[0], false), Plain(false, s[1..]));
      RenderPlain(s[1..]);
      assert [s[0]] + s[1..] == s;
    }
  }

  /** Rendering a parse gives the text back. */
  lemma {:induction false} ParseRenders(hidden: bool, s: string)
    ensures RenderAll(Parse(hidden, s)) == s
    decreases |s|
  {
    if s != "" {
      var p := First(hidden, s);
      var n := |Render(p)|;
      assert Parse(hidden, s) == [p] + Parse(ModeOf(hidden, p), s[n..]);
      hide First, Render, Parse;
      ParseRenders(ModeOf(hidden, p), s[n..]);
      RenderCons(p, Parse(ModeOf(hidden, p), s[n..]));
      assert Render(p) + s[n..] == s;
    }
  }

  lemma JoinInText(s: string, pieces: seq<Piece>, d: string, i: int, k: int)
    requires RenderAll(pieces) == s && JoinsHere(pieces, d, i, k)
    ensures var j := |RenderAll(pieces[..i])|;
      && k <= j <= |s| && s[j - k..j] == d[..k] && TagText(pieces[i].opening) <= s[j..]
  {
    var front, cut, back := pieces[..i - k], pieces[i - k..i], pieces[i + 1..];
    assert pieces[..i] == front + cut && pieces == pieces[..i] + ([pieces[i]] + back);
    RenderAppend(front, cut);
    RenderAppend(pieces[..i], [pieces[i]] + back);
    RenderCons(pieces[i], back);
    RenderPlain(d[..k]);
    hide RenderAll, Plain, TagText, Exposed;
    var x, y, z := RenderAll(front), d[..k], TagText(pieces[i].opening);
    assert s == (x + y) + (z + RenderAll(back));
  }

  lemma JoinedBehindPartial(hidden: bool, s: string, opening: bool)
    requires SplicedHere(Parse(hidden, s), TagText(opening))
    ensures TagBehindPartial(s)
  {
    hide Parse, TagText, RenderAll;
    var pieces := Parse(hidden, s);
    ParseRenders(hidden, s);
    var i, k :| JoinsHere(pieces, TagText(opening), i, k);
    JoinInText(s, pieces, TagText(opening), i, k);
    assert TagBehindPartialAt(s, |RenderAll(pieces[..i])|, k, opening, pieces[i].opening);
  }

  /** A text in which no tag stands directly behind the beginning of a tag exposes no
      tag, in either mode. */
  lemma CleanTextExposesNoTag(hidden: bool, s: string, opening: bool)
    requires !TagBehindPartial(s)
    ensures !Contains(Exposed(Parse(hidden, s)), TagText(opening))
  {
    hide Parse, Exposed, Contains, TagText, RenderAll;
    ExposedTagExactly(hidden, s, opening);
    if SplicedHere(Parse(hidden, s), TagText(opening)) {
      JoinedBehindPartial(hidden, s, opening);
    }
  }
}
