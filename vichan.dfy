/** The vichan engine's markup rules (VichanChanMarkup.java): which tags a board supports,
    and how a post link names its thread and post.

    The link pattern `(\d+).*\.html(?:#(\d+))?$` is run with Matcher.find. The model follows
    Java's backtracking matcher: start positions from the left; at each, the greedy groups
    try their longest extent first and give back one character at a time. `.` matches
    anything but a line terminator, and `$` (without MULTILINE) matches at the end or just
    before a final line terminator. */
module Vichan {
  import opened Wrappers
  import opened JavaText
  import opened ChanMarkup

  const SUPPORTED_TAGS: bv32 := TAG_BOLD | TAG_ITALIC | TAG_SPOILER | TAG_QUOTE

  // -------------------------------------------------------------------------- tags

  /** A tag (a set of flag bits) is supported when all of its bits are supported ones. */
  function IsTagSupported(boardName: string, tag: bv32): (r: bool)
    ensures r <==> tag & !SUPPORTED_TAGS == 0
  {
    SUPPORTED_TAGS & tag == tag
  }

  /** The four supported tags, alone or combined, are supported. */
  lemma SupportedTags(boardName: string)
    ensures IsTagSupported(boardName, TAG_BOLD) && IsTagSupported(boardName, TAG_ITALIC)
    ensures IsTagSupported(boardName, TAG_SPOILER) && IsTagSupported(boardName, TAG_QUOTE)
    ensures IsTagSupported(boardName, SUPPORTED_TAGS)
  {
  }

  /** Supported tags combine: their union is supported, and so is any part of one. */
  lemma SupportedClosed(boardName: string, a: bv32, b: bv32)
    ensures IsTagSupported(boardName, a) && IsTagSupported(boardName, b) ==> IsTagSupported(boardName, a | b)
    ensures IsTagSupported(boardName, a) ==> IsTagSupported(boardName, a & b)
  {
  }

  /** A tag carrying any other bit is not supported, whatever it is combined with. */
  lemma ForeignBitUnsupported(boardName: string, tag: bv32, other: bv32)
    requires other & !SUPPORTED_TAGS != 0
    ensures !IsTagSupported(boardName, other) && !IsTagSupported(boardName, tag | other)
  {
  }

  // ------------------------------------------------------------------ the link pattern

  const HTML: string := ".html"

  /** What Java's `.` does not match without DOTALL. */
  predicate IsLineTerminator(c: char) {
    c == '\n' || c == '\r' || c == '\U{85}' || c == '\U{2028}' || c == '\U{2029}'
  }

  /** Java's `$` without MULTILINE, at position p: the end of the input, or before a final
      line terminator ("\r\n" counting as one, and never between its two characters). */
  predicate AtEnd(s: string, p: int) {
    || p == |s|
    || (0 <= p == |s| - 1 && IsLineTerminator(s[p]) && !(s[p] == '\n' && p > 0 && s[p - 1] == '\r'))
    || (0 <= p == |s| - 2 && s[p] == '\r' && s[p + 1] == '\n')
  }

  /** How far `.*` can reach from i: the next line terminator, or the end. */
  function DotsEnd(s: string, i: nat): (j: nat)
    requires i <= |s|
    ensures i <= j <= |s|
    ensures forall k :: i <= k < j ==> !IsLineTerminator(s[k])
    ensures j < |s| ==> IsLineTerminator(s[j])
    decreases |s| - i
  {
    if i < |s| && !IsLineTerminator(s[i]) then DotsEnd(s, i + 1) else i
  }

  /** Where each group of a successful match lies. */
  datatype Match = Match(start: nat, end: nat, html: nat, fragmentEnd: Option<nat>)

  /** The text of `(?:#(\d+))?$` after `.html` at p, as the pattern requires it. */
  predicate TailMatched(s: string, p: nat, fragmentEnd: Option<nat>) {
    && (fragmentEnd.None? ==> AtEnd(s, p))
    && (fragmentEnd.Some? ==>
         && p + 1 < fragmentEnd.value <= |s| && s[p] == '#'
         && (forall k :: p + 1 <= k < fragmentEnd.value ==> IsDigit(s[k]))
         && AtEnd(s, fragmentEnd.value))
  }

  /** A match of the whole pattern: digits, then no line terminator up to `.html`, then
      the tail. */
  predicate Matched(s: string, m: Match) {
    && m.start < m.end <= m.html && m.html + |HTML| <= |s|
    && (forall k :: m.start <= k < m.end ==> IsDigit(s[k]))
    && (forall k :: m.end <= k < m.html ==> !IsLineTerminator(s[k]))
    && OccursAt(s, HTML, m.html)
    && TailMatched(s, m.html + |HTML|, m.fragmentEnd)
  }

  /** `\d+$` of the fragment, its digits from a, trying its end from e downwards. */
  function FragmentDigits(s: string, a: nat, e: nat): (r: Option<nat>)
    requires e <= |s|
    ensures r.Some? ==> a < r.value <= e && AtEnd(s, r.value)
    decreases e
  {
    if e <= a then None
    else if AtEnd(s, e) then Some(e)
    else FragmentDigits(s, a, e - 1)
  }

  /** `(?:#(\d+))?$` at p: the greedy option tries the fragment first, then goes without. */
  function Tail(s: string, p: nat): (r: Option<Option<nat>>)
    requires p <= |s|
    ensures r.Some? ==> TailMatched(s, p, r.value)
  {
    var fragment := if p < |s| && s[p] == '#' then FragmentDigits(s, p + 1, RunEnd(s, p + 1)) else None;
    if fragment.Some? then Some(fragment)
    else if AtEnd(s, p) then Some(None)
    else None
  }

  /** `.*` from i followed by `\.html` and the tail, trying the end of `.*` from j down. */
  function DotsThenHtml(s: string, i: nat, j: nat): (r: Option<(nat, Option<nat>)>)
    requires i <= |s| && i <= j <= DotsEnd(s, i)
    ensures r.Some? ==>
      && i <= r.value.0 <= j && OccursAt(s, HTML, r.value.0)
      && TailMatched(s, r.value.0 + |HTML|, r.value.1)
    decreases j
  {
    var here := if OccursAt(s, HTML, j) then Tail(s, j + |HTML|) else None;
    if here.Some? then Some((j, here.value))
    else if j == i then None
    else DotsThenHtml(s, i, j - 1)
  }

  /** The pattern at start st: `(\d+)` ending at e, then the rest; a failure gives back the
      last digit. */
  function MatchFrom(s: string, st: nat, e: nat): (r: Option<Match>)
    requires st <= |s| && st <= e <= RunEnd(s, st)
    ensures r.Some? ==> Matched(s, r.value) && r.value.start == st && r.value.end <= e
    decreases e
  {
    if e == st then None
    else
      var rest := DotsThenHtml(s, e, DotsEnd(s, e));
      if rest.Some? then Some(Match(st, e, rest.value.0, rest.value.1))
      else MatchFrom(s, st, e - 1)
  }

  /** Matcher.find from st: the first start position where the pattern matches. */
  function Find(s: string, st: nat): (r: Option<Match>)
    requires st <= |s|
    ensures r.Some? ==> Matched(s, r.value) && st <= r.value.start
    decreases |s| - st
  {
    var here := MatchFrom(s, st, RunEnd(s, st));
    if here.Some? then here
    else if st == |s| then None
    else Find(s, st + 1)
  }

  /** The thread number and post number a link names: group 1, and group 2 or null. */
  function ObtainPostLinkThreadPostNumbers(uriString: string): (r: Option<(string, Option<string>)>)
    ensures r.Some? ==> r.value.0 != [] && AllDigits(r.value.0)
    ensures r.Some? && r.value.1.Some? ==> r.value.1.value != [] && AllDigits(r.value.1.value)
  {
    match Find(uriString, 0)
    case None => None
    case Some(m) =>
      var post := if m.fragmentEnd.Some? then Some(uriString[m.html + |HTML| + 1..m.fragmentEnd.value]) else None;
      Some((uriString[m.start..m.end], post))
  }

  // ------------------------------------------------------------------- completeness

  lemma {:induction false} FragmentDigitsFinds(s: string, a: nat, e: nat, x: nat)
    requires a < x <= e <= |s| && AtEnd(s, x)
    ensures FragmentDigits(s, a, e).Some?
    decreases e
  {
    if !AtEnd(s, e) {
      FragmentDigitsFinds(s, a, e - 1, x);
    }
  }

  lemma TailFinds(s: string, p: nat, fragmentEnd: Option<nat>)
    requires p <= |s| && TailMatched(s, p, fragmentEnd)
    ensures Tail(s, p).Some?
  {
    if fragmentEnd.Some? {
      var x := fragmentEnd.value;
      assert RunEnd(s, p + 1) >= x;
      FragmentDigitsFinds(s, p + 1, RunEnd(s, p + 1), x);
    }
  }

  lemma {:induction false} DotsThenHtmlFinds(s: string, i: nat, j: nat, h: nat, fragmentEnd: Option<nat>)
    requires i <= |s| && i <= h <= j <= DotsEnd(s, i)
    requires OccursAt(s, HTML, h) && TailMatched(s, h + |HTML|, fragmentEnd)
    ensures DotsThenHtml(s, i, j).Some?
    decreases j
  {
    TailFinds(s, h + |HTML|, fragmentEnd);
    if j > h && !(OccursAt(s, HTML, j) && Tail(s, j + |HTML|).Some?) {
      DotsThenHtmlFinds(s, i, j - 1, h, fragmentEnd);
    }
  }

  /** From anywhere in a run of non-terminators, `.*` reaches the same place. */
  lemma {:induction false} DotsEndFrom(s: string, i: nat, k: nat)
    requires i <= |s| && i <= k <= DotsEnd(s, i)
    ensures DotsEnd(s, k) == DotsEnd(s, i)
    decreases k - i
  {
    if i < k {
      DotsEndFrom(s, i + 1, k);
    }
  }

  /** Whenever a match starts at st, the matcher finds one there. */
  lemma MatchFromFinds(s: string, m: Match)
    requires Matched(s, m)
    ensures MatchFrom(s, m.start, RunEnd(s, m.start)).Some?
  {
    var e := RunEnd(s, m.start);
    RunBeforeHtml(s, m);
    DotsReach(s, m.end, e, m.html);
    DotsThenHtmlFinds(s, e, DotsEnd(s, e), m.html, m.fragmentEnd);
  }

  /** The digit run of a match ends before its `.html`. */
  lemma RunBeforeHtml(s: string, m: Match)
    requires Matched(s, m)
    ensures m.end <= RunEnd(s, m.start) <= m.html
  {
    assert RunEnd(s, m.start) >= m.end;
    assert s[m.html] == HTML[0];
  }

  /** `.*` from e reaches h when nothing between e and h ends a line. */
  lemma {:induction false} DotsReach(s: string, from: nat, e: nat, h: nat)
    requires from <= e <= h <= |s|
    requires forall k :: from <= k < h ==> !IsLineTerminator(s[k])
    ensures h <= DotsEnd(s, e)
    decreases h - e
  {
    if e < h {
      DotsReach(s, from, e + 1, h);
    }
  }

  lemma {:induction false} FindFinds(s: string, st: nat, m: Match)
    requires st <= m.start && Matched(s, m)
    ensures Find(s, st).Some? && Find(s, st).value.start <= m.start
    decreases m.start - st
  {
    var here := MatchFrom(s, st, RunEnd(s, st));
    if st == m.start {
      MatchFromFinds(s, m);
      assert Find(s, st) == here && here.value.start == st;
    } else if here.None? {
      FindFinds(s, st + 1, m);
      assert Find(s, st) == Find(s, st + 1);
    } else {
      assert Find(s, st) == here && here.value.start == st;
    }
  }

  /** A link with a digit run followed, on the same line, by `.html` at the end (before a
      final line break), optionally with `#digits`, always yields its numbers. */
  lemma LinkFound(s: string, m: Match)
    requires Matched(s, m)
    ensures ObtainPostLinkThreadPostNumbers(s).Some?
  {
    FindFinds(s, 0, m);
  }

  // ------------------------------------------------------------------------ soundness

  /** Only one end position is left to `$` once the last character matched is not a line
      terminator. */
  lemma AtEndUnique(s: string, p: nat, q: nat)
    requires 0 < p <= |s| && 0 < q <= |s| && AtEnd(s, p) && AtEnd(s, q)
    requires !IsLineTerminator(s[p - 1]) && !IsLineTerminator(s[q - 1])
    ensures p == q
  {
  }

  /** When the first attempt at a start fails, giving back digits does not help: `\.html`
      cannot begin inside the run. */
  lemma {:induction false} ShorterRunFails(s: string, st: nat, e: nat)
    requires st <= |s| && st <= e <= RunEnd(s, st)
    requires DotsThenHtml(s, RunEnd(s, st), DotsEnd(s, RunEnd(s, st))).None?
    ensures MatchFrom(s, st, e).None?
    decreases e
  {
    if e > st {
      NoHtmlFromInsideRun(s, st, e);
      ShorterRunFails(s, st, e - 1);
    }
  }

  /** `.*\.html` and the tail fail from inside a run when they fail from its end. */
  lemma NoHtmlFromInsideRun(s: string, st: nat, e: nat)
    requires st <= |s| && st <= e <= RunEnd(s, st)
    requires DotsThenHtml(s, RunEnd(s, st), DotsEnd(s, RunEnd(s, st))).None?
    ensures DotsThenHtml(s, e, DotsEnd(s, e)).None?
  {
    var rest := DotsThenHtml(s, e, DotsEnd(s, e));
    if rest.Some? {
      var h := rest.value.0;
      var E := RunEnd(s, st);
      assert e <= h <= DotsEnd(s, e);
      assert OccursAt(s, HTML, h);
      assert s[h] == HTML[0];
      assert E <= h;
      assert TailMatched(s, h + |HTML|, rest.value.1);
      HtmlAfterRunFound(s, e, E, h, rest.value.1);
      assert false;
    }
  }

  /** A `.html` and tail reachable by `.*` from inside a run are reachable from its end. */
  lemma HtmlAfterRunFound(s: string, e: nat, E: nat, h: nat, fragmentEnd: Option<nat>)
    requires E <= |s| && e <= E <= h <= DotsEnd(s, e)
    requires OccursAt(s, HTML, h) && TailMatched(s, h + |HTML|, fragmentEnd)
    ensures DotsThenHtml(s, E, DotsEnd(s, E)).Some?
  {
    DotsEndFrom(s, e, E);
    DotsThenHtmlFinds(s, E, DotsEnd(s, E), h, fragmentEnd);
  }

  /** The match found, with its groups: group 1 is a whole run of digits and the match is
      the leftmost one. */
  lemma LinkShape(s: string) returns (m: Match)
    requires ObtainPostLinkThreadPostNumbers(s).Some?
    ensures Matched(s, m)
    ensures ObtainPostLinkThreadPostNumbers(s).value.0 == s[m.start..m.end]
    ensures ObtainPostLinkThreadPostNumbers(s).value.1 ==
      if m.fragmentEnd.Some? then Some(s[m.html + |HTML| + 1..m.fragmentEnd.value]) else None
    ensures m.start == 0 || !IsDigit(s[m.start - 1])
    ensures m.end == |s| || !IsDigit(s[m.end])
    ensures forall m' :: Matched(s, m') ==> m.start <= m'.start
  {
    m := Find(s, 0).value;
    FoundLeftmost(s, m);
    FoundAfterNonDigit(s, m);
    FoundWholeRun(s, m);
  }

  /** No match starts before the one found. */
  lemma FoundLeftmost(s: string, m: Match)
    requires Find(s, 0) == Some(m)
    ensures forall m' :: Matched(s, m') ==> m.start <= m'.start
  {
    forall m' | Matched(s, m') ensures m.start <= m'.start {
      FindFinds(s, 0, m');
    }
  }

  /** The match found does not start in the middle of a digit run. */
  lemma FoundAfterNonDigit(s: string, m: Match)
    requires Find(s, 0) == Some(m)
    ensures m.start == 0 || !IsDigit(s[m.start - 1])
  {
    if m.start > 0 && IsDigit(s[m.start - 1]) {
      var earlier := m.(start := m.start - 1);
      assert Matched(s, earlier);
      FindFinds(s, 0, earlier);
    }
  }

  /** Group 1 of the match found is the whole digit run at its start. */
  lemma FoundWholeRun(s: string, m: Match)
    requires Find(s, 0) == Some(m)
    ensures m.end == RunEnd(s, m.start)
  {
    var E := RunEnd(s, m.start);
    FindAt(s, 0, m.start);
    if DotsThenHtml(s, E, DotsEnd(s, E)).None? {
      ShorterRunFails(s, m.start, E);
      assert false;
    }
  }

  /** Find returns what the matcher finds at the start it reports. */
  lemma {:induction false} FindAt(s: string, st: nat, start: nat)
    requires st <= start <= |s| && Find(s, st).Some? && Find(s, st).value.start == start
    ensures MatchFrom(s, start, RunEnd(s, start)) == Find(s, st)
    decreases start - st
  {
    if MatchFrom(s, st, RunEnd(s, st)).None? {
      FindAt(s, st + 1, start);
    }
  }

  /** Where a match ends: after `.html`, or after the digits of its fragment. */
  lemma MatchEnd(s: string, m: Match) returns (e: nat)
    requires Matched(s, m)
    ensures 0 < e <= |s| && AtEnd(s, e) && !IsLineTerminator(s[e - 1])
    ensures m.fragmentEnd.None? ==> e == m.html + |HTML| && s[e - 1] == 'l'
    ensures m.fragmentEnd.Some? ==> e == m.fragmentEnd.value && IsDigit(s[e - 1])
  {
    if m.fragmentEnd.None? {
      e := m.html + |HTML|;
      assert s[e - 1] == HTML[4];
    } else {
      e := m.fragmentEnd.value;
    }
  }

  /** Two '#' each followed only by digits up to the same end are the same '#'. */
  lemma HashesMeet(s: string, p: nat, q: nat, y: nat)
    requires p < y <= |s| && q < y && s[p] == '#' && s[q] == '#'
    requires forall k :: p < k < y ==> IsDigit(s[k])
    requires forall k :: q < k < y ==> IsDigit(s[k])
    ensures p == q
  {
  }

  /** A match in a text ending in `.html#N` (before a final line break) has N as its
      fragment. */
  lemma FragmentOfMatch(s: string, m: Match, q: nat, digits: string)
    requires Matched(s, m) && digits != [] && AllDigits(digits)
    requires OccursAt(s, HTML + "#" + digits, q) && AtEnd(s, q + |HTML| + 1 + |digits|)
    ensures m.fragmentEnd.Some? && s[m.html + |HTML| + 1..m.fragmentEnd.value] == digits
  {
    var x := q + |HTML| + 1 + |digits|;
    LinkTail(s, q, digits);
    var e := MatchEnd(s, m);
    AtEndUnique(s, e, x);
    HashesMeet(s, m.html + |HTML|, q + |HTML|, x);
  }

  /** What `.html#N` at q puts in the text: the '#', then N, all digits. */
  lemma LinkTail(s: string, q: nat, digits: string)
    requires digits != [] && AllDigits(digits) && OccursAt(s, HTML + "#" + digits, q)
    ensures var x := q + |HTML| + 1 + |digits|;
      && x <= |s| && s[q + |HTML|] == '#' && s[q + |HTML| + 1..x] == digits
      && (forall k :: q + |HTML| < k < x ==> IsDigit(s[k]))
      && IsDigit(s[x - 1]) && !IsLineTerminator(s[x - 1])
  {
    var x := q + |HTML| + 1 + |digits|;
    var link := HTML + "#" + digits;
    assert s[q..x] == link;
    assert link[|HTML|] == '#';
    assert link[|HTML| + 1..] == digits;
    assert s[q + |HTML| + 1..x] == s[q..x][|HTML| + 1..];
    assert s[x - 1] == digits[|digits| - 1];
    DigitNotTerminator(s[x - 1]);
  }

  lemma DigitNotTerminator(c: char)
    requires IsDigit(c)
    ensures !IsLineTerminator(c)
  {
  }

  /** A link ending in `.html#N` (before a final line break) names post N. */
  lemma FragmentNamesPost(s: string, q: nat, digits: string)
    requires digits != [] && AllDigits(digits)
    requires OccursAt(s, HTML + "#" + digits, q) && AtEnd(s, q + |HTML| + 1 + |digits|)
    requires ObtainPostLinkThreadPostNumbers(s).Some?
    ensures ObtainPostLinkThreadPostNumbers(s).value.1 == Some(digits)
  {
    var m := LinkShape(s);
    FragmentOfMatch(s, m, q, digits);
  }

  /** A match in a text ending in `.html` (before a final line break) has no fragment. */
  lemma NoFragmentInMatch(s: string, m: Match, q: nat)
    requires Matched(s, m) && OccursAt(s, HTML, q) && AtEnd(s, q + |HTML|)
    ensures m.fragmentEnd.None?
  {
    var e := MatchEnd(s, m);
    assert s[q + |HTML| - 1] == HTML[4];
    AtEndUnique(s, e, q + |HTML|);
  }

  /** A link ending in `.html` (before a final line break) names no post. */
  lemma NoFragmentNoPost(s: string, q: nat)
    requires OccursAt(s, HTML, q) && AtEnd(s, q + |HTML|)
    requires ObtainPostLinkThreadPostNumbers(s).Some?
    ensures ObtainPostLinkThreadPostNumbers(s).value.1.None?
  {
    var m := LinkShape(s);
    NoFragmentInMatch(s, m, q);
  }
}
