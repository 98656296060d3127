/** The last rewrite Erlach applies to a post message: every quote block
    `<span class="citate"` that does not already follow a `<br>` gets one inserted before
    it, so that quotes start on a new line (the POST_QUOTE pattern, a negative lookbehind,
    with replaceAll).

    replaceAll finds its matches on the original text and then copies the text with the
    replacement spliced in at each match. The model follows that order: Matches marks
    the match positions of the input, and Emit copies the input with the break before
    each marked position.

    The proofs are stated for any opener `q` and break `b` of the shape the two tags
    have (Shaped); InsertQuoteBreaks and the lemmas at the end fix them to the tags. */
module ErlachQuote {
  import opened JavaText

  const CITATE: string := "<span class=\"citate\""
  const BR: string := "<br>"

  /** No '<' after the first character. */
  predicate NoAngleAfterFirst(w: string) {
    forall k :: 1 <= k < |w| ==> w[k] != '<'
  }

  /** Opener and break both start with their only '<', and the last character of the
      opener does not occur in the break. */
  predicate Shaped(q: string, b: string) {
    |q| > 0 && |b| > 0 && q[0] == '<' && b[0] == '<'
    && NoAngleAfterFirst(q) && NoAngleAfterFirst(b)
    && forall k :: 0 <= k < |b| ==> b[k] != q[|q| - 1]
  }

  /** The quote tag and `<br>` have that shape. */
  lemma TagsShaped()
    ensures Shaped(CITATE, BR)
  {
    assert CITATE[|CITATE| - 1] == '"';
  }

  /** The pattern matches at `i`: an opener, not preceded by the break. */
  predicate NeedsBreak(s: string, q: string, b: string, i: int) {
    OccursAt(s, q, i) && !(i >= |b| && s[i - |b|..i] == b)
  }

  /** The match positions of the pattern among the first `n` characters of `s`. */
  function MatchesTo(s: string, q: string, b: string, n: nat): (m: seq<bool>)
    requires n <= |s|
    ensures |m| == n
    ensures forall i :: 0 <= i < n ==> m[i] == NeedsBreak(s, q, b, i)
  {
    if n == 0 then [] else MatchesTo(s, q, b, n - 1) + [NeedsBreak(s, q, b, n - 1)]
  }

  /** The match positions of the pattern in `s`: exactly where an opener starts that
      the break does not precede. */
  function Matches(s: string, q: string, b: string): (m: seq<bool>)
    ensures |m| == |s|
    ensures forall i :: 0 <= i < |s| ==> m[i] == NeedsBreak(s, q, b, i)
  {
    MatchesTo(s, q, b, |s|)
  }

  /** Marks only on characters '<', as every match of the pattern is. */
  predicate OnlyAtAngles(s: string, m: seq<bool>) {
    |m| == |s| && forall i :: 0 <= i < |s| && m[i] ==> s[i] == '<'
  }

  /** What is emitted before the character at `i`. */
  function Gap(m: seq<bool>, b: string, i: int): string
    requires 0 <= i < |m|
  {
    if m[i] then b else []
  }

  /** The first `n` characters of `s`, each preceded by the break when it is marked. */
  function Emit(s: string, m: seq<bool>, b: string, n: nat): (r: string)
    requires |m| == |s| && n <= |s|
    ensures |r| >= n
  {
    if n == 0 then [] else Emit(s, m, b, n - 1) + Gap(m, b, n - 1) + [s[n - 1]]
  }

  /** When every opener already follows the break nothing is marked, and the copy is
      the input. */
  lemma BrokenKept(s: string, q: string, b: string)
    ensures (forall j :: OccursAt(s, q, j) ==> BreakBefore(s, b, j)) ==>
      Emit(s, Matches(s, q, b), b, |s|) == s
  {
    if forall j :: OccursAt(s, q, j) ==> BreakBefore(s, b, j) {
      EmitIdentity(s, Matches(s, q, b), b, |s|);
      assert s[..|s|] == s;
    }
  }

  /** Without marks the copy is the input. */
  lemma {:induction false} EmitIdentity(s: string, m: seq<bool>, b: string, n: nat)
    requires |m| == |s| && n <= |s|
    requires forall i :: 0 <= i < |s| ==> !m[i]
    ensures Emit(s, m, b, n) == s[..n]
  {
    if n > 0 {
      EmitIdentity(s, m, b, n - 1);
      assert s[..n] == s[..n - 1] + [s[n - 1]];
    }
  }

  /** replaceAll of the pattern "opener not after break" by "break, opener": a text in
      which every opener already follows the break is left as it is. */
  function InsertBreaks(s: string, q: string, b: string): (r: string)
    ensures |r| >= |s|
    ensures (forall j :: OccursAt(s, q, j) ==> BreakBefore(s, b, j)) ==> r == s
  {
    BrokenKept(s, q, b);
    Emit(s, Matches(s, q, b), b, |s|)
  }

  /** The rewrite the post-message handler applies: afterwards every quote opener
      follows a `<br>`, so nothing is left for the pattern to match. */
  function InsertQuoteBreaks(s: string): (r: string)
    ensures forall j :: OccursAt(r, CITATE, j) ==> BreakBefore(r, BR, j)
  {
    TagsShaped();
    BrokenTo(s, CITATE, BR, |s|);
    assert InsertBreaks(s, CITATE, BR) == Emit(s, Matches(s, CITATE, BR), BR, |s|);
    InsertBreaks(s, CITATE, BR)
  }

  // ------------------------------------------------------------ facts about the pattern

  /** An opener starts with '<'. */
  lemma OpenerAngle(s: string, q: string, i: int)
    requires |q| > 0 && q[0] == '<'
    ensures OccursAt(s, q, i) ==> s[i] == '<'
  {
    if OccursAt(s, q, i) {
      assert s[i] == s[i..i + |q|][0];
    }
  }

  /** Every match is on a '<'. */
  lemma MatchesOnlyAtAngles(s: string, q: string, b: string)
    requires |q| > 0 && q[0] == '<'
    ensures OnlyAtAngles(s, Matches(s, q, b))
  {
    forall i | 0 <= i < |s| && Matches(s, q, b)[i]
      ensures s[i] == '<'
    {
      OpenerAngle(s, q, i);
    }
  }

  /** Two openers never overlap, so each match of replaceAll is found. */
  lemma QuotesDisjoint(s: string, q: string, i: int, k: int)
    requires |q| > 0 && q[0] == '<' && NoAngleAfterFirst(q)
    requires OccursAt(s, q, i) && OccursAt(s, q, k) && i < k
    ensures k >= i + |q|
  {
    forall k' | i < k' < i + |q|
      ensures s[k'] != '<'
    {
      assert s[k'] == s[i..i + |q|][k' - i];
    }
    OpenerAngle(s, q, k);
  }

  // ------------------------------------------------------------ positions in the output

  /** Where the character at `i` lands in the output. */
  function Pos(s: string, m: seq<bool>, b: string, i: int): nat
    requires |m| == |s| && 0 <= i < |s|
  {
    |Emit(s, m, b, i)| + |Gap(m, b, i)|
  }

  /** The output for a prefix of the input is a prefix of the output for a longer one. */
  lemma {:induction false} EmitPrefix(s: string, m: seq<bool>, b: string, k: nat, n: nat)
    requires |m| == |s| && k <= n <= |s|
    ensures Emit(s, m, b, k) <= Emit(s, m, b, n)
    decreases n
  {
    if k < n {
      EmitPrefix(s, m, b, k, n - 1);
      var prev := Emit(s, m, b, n - 1);
      assert Emit(s, m, b, n) == prev + (Gap(m, b, n - 1) + [s[n - 1]]);
      assert Emit(s, m, b, n)[..|prev|] == prev;
    }
  }

  /** The last character of the output is the last input character. */
  lemma LastOfOutput(s: string, m: seq<bool>, b: string, n: nat, w: string)
    requires |m| == |s| && 0 < n <= |s| && w != []
    requires EndsWith(Emit(s, m, b, n), w)
    ensures s[n - 1] == w[|w| - 1]
  {
    var o := Emit(s, m, b, n);
    assert o[|o| - 1] == s[n - 1];
    assert o[|o| - |w|..][|w| - 1] == w[|w| - 1];
  }

  /** A character that is not '<' is copied with no break before it. */
  lemma CopiedPlain(s: string, m: seq<bool>, b: string, n: nat)
    requires OnlyAtAngles(s, m) && 0 < n <= |s| && s[n - 1] != '<'
    ensures Gap(m, b, n - 1) == [] && Emit(s, m, b, n) == Emit(s, m, b, n - 1) + [s[n - 1]]
  {
  }

  /** Dropping the last character of a text and of one of its suffixes. */
  lemma DropLast(prev: string, c: char, w: string)
    requires |w| > 1 && EndsWith(prev + [c], w)
    ensures w == w[..|w| - 1] + [c] && EndsWith(prev, w[..|w| - 1])
  {
    var o := prev + [c];
    assert o[|o| - |w|..][|w| - 1] == c;
    assert prev[|prev| - (|w| - 1)..] == o[|o| - |w|..|o| - 1];
  }

  /** Dropping the last character keeps a '<' first and no other '<'. */
  lemma DropLastAngles(w: string)
    requires |w| > 1 && w[0] == '<' && NoAngleAfterFirst(w)
    ensures var w' := w[..|w| - 1]; w' != [] && w'[0] == '<' && NoAngleAfterFirst(w')
  {
  }

  /** The last |w| characters of the first `n` of the input are `w`, the output for
      them ends with `w`, and `w` starts in the output where its first character lands. */
  predicate Lands(s: string, m: seq<bool>, b: string, n: nat, w: string) {
    |m| == |s| && 0 < |w| <= n <= |s| && s[n - |w|..n] == w
    && EndsWith(Emit(s, m, b, n), w) && |Emit(s, m, b, n)| == Pos(s, m, b, n - |w|) + |w|
  }

  /** A single character lands right after its break. */
  lemma LandsOne(s: string, m: seq<bool>, b: string, n: nat, w: string)
    requires |m| == |s| && 0 < n <= |s| && w == [s[n - 1]]
    ensures Lands(s, m, b, n, w)
  {
    var o := Emit(s, m, b, n);
    assert o[|o| - 1] == s[n - 1];
    assert o[|o| - 1..] == w;
    assert s[n - 1..n] == w;
  }

  /** Appending one character to a text and to one of its suffixes. */
  lemma AppendBoth(prev: string, w': string, c: char)
    requires EndsWith(prev, w')
    ensures EndsWith(prev + [c], w' + [c])
  {
    var o := prev + [c];
    assert o[|o| - |w'| - 1..] == prev[|prev| - |w'|..] + [c];
  }

  /** A character that is not '<' extends a landed suffix by one. */
  lemma LandsStep(s: string, m: seq<bool>, b: string, n: nat, w: string, w': string)
    requires OnlyAtAngles(s, m) && 0 < n <= |s| && s[n - 1] != '<'
    requires w == w' + [s[n - 1]] && Lands(s, m, b, n - 1, w')
    ensures Lands(s, m, b, n, w)
  {
    CopiedPlain(s, m, b, n);
    var prev := Emit(s, m, b, n - 1);
    AppendBoth(prev, w', s[n - 1]);
    var lo := n - |w|;
    assert lo == n - 1 - |w'|;
    assert s[lo..n] == s[lo..n - 1] + [s[n - 1]];
    assert |Emit(s, m, b, n)| == |prev| + 1;
  }

  /** The step of OutputSuffix before its recursive call: the output without its last
      character ends with the suffix without its last character. */
  lemma OutputSuffixPre(s: string, m: seq<bool>, b: string, n: nat, w: string, w': string)
    requires OnlyAtAngles(s, m) && n <= |s|
    requires |w| > 1 && w[0] == '<' && NoAngleAfterFirst(w) && w' == w[..|w| - 1]
    requires EndsWith(Emit(s, m, b, n), w)
    ensures 0 < n && s[n - 1] != '<' && w == w' + [s[n - 1]]
    ensures w' != [] && w'[0] == '<' && NoAngleAfterFirst(w') && EndsWith(Emit(s, m, b, n - 1), w')
  {
    assert n > 0;
    LastOfOutput(s, m, b, n, w);
    assert s[n - 1] != '<';
    CopiedPlain(s, m, b, n);
    DropLast(Emit(s, m, b, n - 1), s[n - 1], w);
    DropLastAngles(w);
  }

  /** A suffix of the output that starts with '<' and has no further '<' was copied
      unchanged from the input, right after the break (if any) of its first character. */
  lemma {:induction false} OutputSuffix(s: string, m: seq<bool>, b: string, n: nat, w: string)
    requires OnlyAtAngles(s, m) && n <= |s|
    requires w != [] && w[0] == '<' && NoAngleAfterFirst(w)
    requires EndsWith(Emit(s, m, b, n), w)
    ensures Lands(s, m, b, n, w)
    decreases |w|
  {
    if |w| == 1 {
      assert n > 0;
      LastOfOutput(s, m, b, n, w);
      LandsOne(s, m, b, n, w);
    } else {
      var w' := w[..|w| - 1];
      OutputSuffixPre(s, m, b, n, w, w');
      OutputSuffix(s, m, b, n - 1, w');
      LandsStep(s, m, b, n, w, w');
    }
  }

  /** The step of InputSuffix before its recursive call. */
  lemma InputSuffixPre(s: string, m: seq<bool>, n: nat, w: string, w': string)
    requires n <= |s| && |w| > 1 && |w| <= n && NoAngleAfterFirst(w) && s[n - |w|..n] == w
    requires w' == w[..|w| - 1]
    ensures 0 < n && s[n - 1] != '<' && w == w' + [s[n - 1]]
    ensures w' != [] && |w'| <= n - 1 && NoAngleAfterFirst(w') && s[n - 1 - |w'|..n - 1] == w'
  {
    assert s[n - 1] == w[|w| - 1] by {
      assert s[n - |w|..n][|w| - 1] == s[n - 1];
    }
    assert s[n - |w|..n - 1] == w[..|w| - 1];
  }

  /** A suffix of the input that has no '<' after its first character reappears at the
      end of the output, right after the break (if any) of its first character. */
  lemma {:induction false} InputSuffix(s: string, m: seq<bool>, b: string, n: nat, w: string)
    requires OnlyAtAngles(s, m) && n <= |s|
    requires w != [] && |w| <= n && NoAngleAfterFirst(w) && s[n - |w|..n] == w
    ensures Lands(s, m, b, n, w)
    decreases |w|
  {
    if |w| == 1 {
      assert w == [s[n - 1]] by {
        assert s[n - 1..n][0] == s[n - 1];
      }
      LandsOne(s, m, b, n, w);
    } else {
      var w' := w[..|w| - 1];
      InputSuffixPre(s, m, n, w, w');
      InputSuffix(s, m, b, n - 1, w');
      LandsStep(s, m, b, n, w, w');
    }
  }

  /** An opener in the output that reaches past the output of the first n - 1 characters
      ends the output: it ends with a character that the break does not contain. */
  lemma SpanningQuoteAtEnd(s: string, m: seq<bool>, q: string, b: string, n: nat, j: int)
    requires Shaped(q, b) && |m| == |s| && 0 < n <= |s|
    requires OccursAt(Emit(s, m, b, n), q, j)
    requires j + |q| > |Emit(s, m, b, n - 1)|
    ensures j + |q| == |Emit(s, m, b, n)|
  {
    var o := Emit(s, m, b, n);
    var prev := Emit(s, m, b, n - 1);
    var g := Gap(m, b, n - 1);
    assert o == prev + g + [s[n - 1]];
    var k := j + |q| - 1;
    assert o[k] == q[|q| - 1] by {
      assert o[j..j + |q|][|q| - 1] == o[k];
    }
    forall k' | |prev| <= k' < |o| - 1
      ensures o[k'] != q[|q| - 1]
    {
      assert o[k'] == g[k' - |prev|];
    }
  }

  // ------------------------------------------------------------ the rewrite's promise

  /** The text right before position `p` is the break. */
  predicate BreakBefore(o: string, b: string, p: int) {
    |b| <= p <= |o| && o[p - |b|..p] == b
  }

  /** Right before where an opener of the input lands, at `p`, the output has the break:
      the one inserted, or the one the input already had. */
  lemma BreakBeforeOpener(s: string, m: seq<bool>, q: string, b: string, i: nat, p: int)
    requires Shaped(q, b) && OnlyAtAngles(s, m) && i < |s| && OccursAt(s, q, i)
    requires m[i] == NeedsBreak(s, q, b, i) && p == Pos(s, m, b, i)
    ensures BreakBefore(Emit(s, m, b, i + 1), b, p)
  {
    var head := Emit(s, m, b, i);
    assert Emit(s, m, b, i + 1) == head + Gap(m, b, i) + [s[i]];
    if m[i] {
      assert Emit(s, m, b, i + 1)[p - |b|..p] == Gap(m, b, i);
    } else {
      assert i >= |b| && s[i - |b|..i] == b;
      InputSuffix(s, m, b, i, b);
      assert Gap(m, b, i) == [];
      assert Emit(s, m, b, i + 1)[p - |b|..p] == head[|head| - |b|..];
    }
  }

  /** An opener that ends the output, at `j`, was copied from an opener of the input, and
      the output of the input up to that opener ends with the break. */
  lemma FinalQuoteSource(s: string, m: seq<bool>, q: string, b: string, n: nat, j: int)
    returns (i: nat)
    requires Shaped(q, b) && OnlyAtAngles(s, m) && n <= |s|
    requires |q| <= n ==> m[n - |q|] == NeedsBreak(s, q, b, n - |q|)
    requires OccursAt(Emit(s, m, b, n), q, j) && j + |q| == |Emit(s, m, b, n)|
    ensures i < n && BreakBefore(Emit(s, m, b, i + 1), b, j)
  {
    assert EndsWith(Emit(s, m, b, n), q);
    OutputSuffix(s, m, b, n, q);
    i := n - |q|;
    BreakBeforeOpener(s, m, q, b, i, j);
  }

  /** A break in a prefix of a text is a break in the text. */
  lemma BreakInExtension(e: string, o: string, b: string, p: int)
    requires e <= o && BreakBefore(e, b, p)
    ensures BreakBefore(o, b, p)
  {
    assert o[p - |b|..p] == e[p - |b|..p];
  }

  /** A break in the output for a prefix of the input stays in the output for a longer
      prefix. */
  lemma {:induction false} BreakKept(s: string, m: seq<bool>, b: string, k: nat, n: nat, p: int)
    requires |m| == |s| && k <= n <= |s| && BreakBefore(Emit(s, m, b, k), b, p)
    ensures BreakBefore(Emit(s, m, b, n), b, p)
  {
    if k < n {
      BreakKept(s, m, b, k, n - 1, p);
      var prev := Emit(s, m, b, n - 1);
      assert Emit(s, m, b, n) == prev + (Gap(m, b, n - 1) + [s[n - 1]]);
      BreakInExtension(prev, Emit(s, m, b, n), b, p);
    }
  }

  /** An occurrence in a prefix of a text is an occurrence in the text. */
  lemma OccursInPrefixBack(e: string, o: string, q: string, j: int)
    requires e <= o && OccursAt(e, q, j)
    ensures OccursAt(o, q, j)
  {
    assert o[j..j + |q|] == e[j..j + |q|];
  }

  /** An occurrence inside a prefix of a text is an occurrence in the prefix. */
  lemma OccursInPrefix(e: string, o: string, q: string, j: int)
    requires e <= o && OccursAt(o, q, j) && j + |q| <= |e|
    ensures OccursAt(e, q, j)
  {
    assert e[j..j + |q|] == o[j..j + |q|];
  }

  /** An opener that ends the output follows the break. */
  lemma FinalQuoteBroken(s: string, m: seq<bool>, q: string, b: string, n: nat, j: int)
    requires Shaped(q, b) && OnlyAtAngles(s, m) && n <= |s|
    requires |q| <= n ==> m[n - |q|] == NeedsBreak(s, q, b, n - |q|)
    requires OccursAt(Emit(s, m, b, n), q, j) && j + |q| == |Emit(s, m, b, n)|
    ensures BreakBefore(Emit(s, m, b, n), b, j)
  {
    var i := FinalQuoteSource(s, m, q, b, n, j);
    assert i + 1 <= n && BreakBefore(Emit(s, m, b, i + 1), b, j);
    BreakKept(s, m, b, i + 1, n, j);
  }

  /** An opener that the last input character completes follows the break. */
  lemma LastOpenerBroken(s: string, q: string, b: string, n: nat, j: int)
    requires Shaped(q, b) && 0 < n <= |s|
    requires OccursAt(Emit(s, Matches(s, q, b), b, n), q, j)
    requires j + |q| > |Emit(s, Matches(s, q, b), b, n - 1)|
    ensures BreakBefore(Emit(s, Matches(s, q, b), b, n), b, j)
  {
    var m := Matches(s, q, b);
    SpanningQuoteAtEnd(s, m, q, b, n, j);
    MatchesOnlyAtAngles(s, q, b);
    FinalQuoteBroken(s, m, q, b, n, j);
  }

  /** Every opener in the output for a prefix follows the break. */
  lemma {:induction false} BrokenTo(s: string, q: string, b: string, n: nat)
    requires Shaped(q, b) && n <= |s|
    ensures var o := Emit(s, Matches(s, q, b), b, n);
      forall j :: OccursAt(o, q, j) ==> BreakBefore(o, b, j)
  {
    if n > 0 {
      BrokenTo(s, q, b, n - 1);
      var m := Matches(s, q, b);
      var o := Emit(s, m, b, n);
      var prev := Emit(s, m, b, n - 1);
      EmitPrefix(s, m, b, n - 1, n);
      forall j | OccursAt(o, q, j)
        ensures BreakBefore(o, b, j)
      {
        if j + |q| <= |prev| {
          OccursInPrefix(prev, o, q, j);
          BreakInExtension(prev, o, b, j);
        } else {
          LastOpenerBroken(s, q, b, n, j);
        }
      }
    }
  }

  // ------------------------------------------------------------ the quote tag

  /** Text in which every quote opener already follows a `<br>` is left as it is. */
  lemma AlreadyBrokenUnchanged(s: string)
    requires forall j :: OccursAt(s, CITATE, j) ==> BreakBefore(s, BR, j)
    ensures InsertQuoteBreaks(s) == s
  {
  }

  /** Applying the rewrite twice is the same as once. */
  lemma InsertQuoteBreaksIdempotent(s: string)
    ensures InsertQuoteBreaks(InsertQuoteBreaks(s)) == InsertQuoteBreaks(s)
  {
    AlreadyBrokenUnchanged(InsertQuoteBreaks(s));
  }

  /** Text without quote openers is left as it is. */
  lemma NoQuotesUnchanged(s: string)
    requires !Contains(s, CITATE)
    ensures InsertQuoteBreaks(s) == s
  {
    AlreadyBrokenUnchanged(s);
  }

  /** An unbroken quote opener of the input gets exactly one `<br>` before it. */
  lemma UnbrokenQuoteGetsBreak(s: string, i: nat)
    requires i < |s| && NeedsBreak(s, CITATE, BR, i)
    ensures var m := Matches(s, CITATE, BR);
      Emit(s, m, BR, i + 1) == Emit(s, m, BR, i) + BR + [s[i]]
  {
  }

  /** Every quote opener of the input reappears in the output, at the place its first
      character lands, right after a `<br>`: the one inserted or the one it had. */
  lemma QuoteKeptAfterBreak(s: string, i: nat)
    requires OccursAt(s, CITATE, i)
    ensures var p := Pos(s, Matches(s, CITATE, BR), BR, i);
      var r := InsertQuoteBreaks(s);
      OccursAt(r, CITATE, p) && BreakBefore(r, BR, p)
  {
    TagsShaped();
    var m := Matches(s, CITATE, BR);
    assert InsertQuoteBreaks(s) == Emit(s, m, BR, |s|);
    MatchesOnlyAtAngles(s, CITATE, BR);
    OpenerLands(s, m, CITATE, BR, i);
    BreakBeforeLanding(s, m, CITATE, BR, i);
  }

  /** An opener of the input is copied whole to where its first character lands. */
  lemma OpenerLands(s: string, m: seq<bool>, q: string, b: string, i: nat)
    requires Shaped(q, b) && OnlyAtAngles(s, m) && OccursAt(s, q, i)
    ensures OccursAt(Emit(s, m, b, |s|), q, Pos(s, m, b, i))
  {
    var n := i + |q|;
    assert s[n - |q|..n] == q;
    InputSuffix(s, m, b, n, q);
    var e := Emit(s, m, b, n);
    assert OccursAt(e, q, Pos(s, m, b, i));
    EmitPrefix(s, m, b, n, |s|);
    OccursInPrefixBack(e, Emit(s, m, b, |s|), q, Pos(s, m, b, i));
  }

  /** The output has the break right before where an opener of the input lands. */
  lemma BreakBeforeLanding(s: string, m: seq<bool>, q: string, b: string, i: nat)
    requires Shaped(q, b) && OnlyAtAngles(s, m) && OccursAt(s, q, i)
    requires m[i] == NeedsBreak(s, q, b, i)
    ensures BreakBefore(Emit(s, m, b, |s|), b, Pos(s, m, b, i))
  {
    BreakBeforeOpener(s, m, q, b, i, Pos(s, m, b, i));
    BreakKept(s, m, b, i + 1, |s|, Pos(s, m, b, i));
  }
}
