/** Reducing a message body to what a Tier 2 prompt needs: quoted mail cut off, length bounded,
    blank lines collapsed. */
module BodyCleaning {
  import opened Model

  /** The white space of a regular expression's `\s` and of stripping. */
  predicate IsSpace(c: char) {
    || '\t' <= c <= '\r' || '\U{1c}' <= c <= ' ' || c == '\U{85}' || c == '\U{a0}'
    || c == '\U{1680}' || '\U{2000}' <= c <= '\U{200a}' || c == '\U{2028}' || c == '\U{2029}'
    || c == '\U{202f}' || c == '\U{205f}' || c == '\U{3000}'
  }

  /** Case folding as far as the letters of the quote markers go. */
  function Fold(c: char): char {
    if 'A' <= c <= 'Z' then c - 'A' + 'a'
    else if c == '\U{17f}' then 's'
    else if c == '\U{130}' || c == '\U{131}' then 'i'
    else c
  }

  // ----- Quote markers -----

  datatype Marker = AngleLine | OnWrote | OriginalMessage | Underscores

  const MARKERS := [AngleLine, OnWrote, OriginalMessage, Underscores]

  predicate LineStart(t: string, i: nat) {
    i <= |t| && (i == 0 || t[i - 1] == '\n')
  }

  /** `folded` stands at position `i`, ignoring case. */
  predicate FoldedAt(t: string, i: nat, folded: string) {
    i + |folded| <= |t| && forall k | 0 <= k < |folded| :: Fold(t[i + k]) == folded[k]
  }

  predicate AllSpace(t: string, from: nat, to: nat) {
    from <= to <= |t| && forall k | from <= k < to :: IsSpace(t[k])
  }

  predicate AllOf(t: string, from: nat, to: nat, c: char) {
    from <= to <= |t| && forall k | from <= k < to :: t[k] == c
  }

  predicate NoNewline(t: string, from: nat, to: nat) {
    from <= to <= |t| && forall k | from <= k < to :: t[k] != '\n'
  }

  /** White space from `from` up to the end of some line; it may run over line breaks. */
  predicate BlankToLineEnd(t: string, from: nat) {
    exists j | from <= j <= |t| :: AllSpace(t, from, j) && (j == |t| || t[j] == '\n')
  }

  /** `On ` ... `wrote:` with at most 120 characters between, then nothing to the line end. */
  predicate OnWroteAt(t: string, i: nat) {
    && FoldedAt(t, i, "on ")
    && exists n | i + 3 <= n <= i + 123 ::
         NoNewline(t, i + 3, n) && FoldedAt(t, n, "wrote:") && BlankToLineEnd(t, n + 6)
  }

  predicate DashesAt(t: string, i: nat) {
    i + 3 <= |t| && AllOf(t, i, i + 3, '-')
  }

  predicate OriginalTail(t: string, j: nat) {
    exists k | j <= k <= |t| :: AllSpace(t, j, k) && DashesAt(t, k)
  }

  predicate OriginalBody(t: string, j: nat) {
    exists k | j <= k <= |t| :: AllSpace(t, j, k) && FoldedAt(t, k, "original message") && OriginalTail(t, k + 16)
  }

  predicate OriginalAt(t: string, i: nat) {
    exists j | i + 3 <= j <= |t| :: AllOf(t, i, j, '-') && OriginalBody(t, j)
  }

  predicate UnderscoresAt(t: string, i: nat) {
    exists j | i + 10 <= j <= |t| :: AllOf(t, i, j, '_') && BlankToLineEnd(t, j)
  }

  predicate MatchAt(marker: Marker, t: string, i: nat) {
    && LineStart(t, i)
    && match marker
       case AngleLine => i < |t| && t[i] == '>'
       case OnWrote => OnWroteAt(t, i)
       case OriginalMessage => OriginalAt(t, i)
       case Underscores => UnderscoresAt(t, i)
  }

  /** Where the leftmost match at or after `from` starts. */
  function Search(marker: Marker, t: string, from: nat): (r: Option<nat>)
    requires from <= |t| + 1
    ensures r.Some? ==> from <= r.value <= |t| && MatchAt(marker, t, r.value)
    ensures forall i | from <= i <= |t| && (r.Some? ==> i < r.value) :: !MatchAt(marker, t, i)
    decreases |t| + 1 - from
  {
    if from > |t| then None else if MatchAt(marker, t, from) then Some(from) else Search(marker, t, from + 1)
  }

  ghost predicate MarkerAt(t: string, i: nat) {
    exists m: Marker :: MatchAt(m, t, i)
  }

  /** `r` is `t` up to the first marker, or all of `t` if there is none. */
  ghost predicate Collapsed(t: string, r: string) {
    && r <= t
    && (r == t || (LineStart(t, |r|) && MarkerAt(t, |r|)))
    && (forall i: nat | i < |r| :: !MarkerAt(t, i))
    && (r == t ==> forall i: nat | i <= |t| :: !MarkerAt(t, i))
  }

  /** Where a line begins: `>`; or `On `, at most 120 characters, `wrote:` and nothing more; or the line of dashes
      with `Original Message`; or ten underscores and nothing more. From any of these on, whatever else the text
      holds, nothing is kept. */
  lemma QuotesAreCut(pre: string, between: string, rest: string, r: string)
    requires LineStart(pre, |pre|) && |between| <= 120 && NoNewline(between, 0, |between|)
    requires
      || Collapsed(pre + ">" + rest, r)
      || Collapsed(pre + "On " + between + "wrote:\n" + rest, r)
      || Collapsed(pre + "-----" + "Original Message" + "-----" + rest, r)
      || Collapsed(pre + "__________" + "\n" + rest, r)
    ensures r <= pre
  {
    var a, i := pre + ">" + rest, |pre|;
    if Collapsed(a, r) {
      assert MatchAt(AngleLine, a, i);
      KeptBefore(pre, a, r);
    } else if Collapsed(pre + "On " + between + "wrote:\n" + rest, r) {
      var b := pre + "On " + between + "wrote:\n" + rest;
      OnWroteFound(pre, between, rest);
      KeptBefore(pre, b, r);
    } else if Collapsed(pre + "-----" + "Original Message" + "-----" + rest, r) {
      OriginalFound(pre, rest);
      KeptBefore(pre, pre + "-----" + "Original Message" + "-----" + rest, r);
    } else {
      var d := pre + "__________" + "\n" + rest;
      UnderscoresFound(pre, rest);
      KeptBefore(pre, d, r);
    }
  }

  lemma KeptBefore(pre: string, t: string, r: string)
    requires pre <= t && Collapsed(t, r) && MarkerAt(t, |pre|)
    ensures r <= pre
  {
    assert |r| <= |pre|;
  }

  lemma SameStart(pre: string, t: string)
    requires LineStart(pre, |pre|) && pre <= t
    ensures LineStart(t, |pre|)
  {
    if pre != [] {
      assert t[|pre| - 1] == pre[|pre| - 1];
    }
  }

  /** A piece of the text, read in place. */
  lemma PieceAt(pre: string, piece: string, rest: string, t: string, i: nat, folded: string, c: char)
    requires t == pre + piece + rest && i == |pre|
    ensures |piece| == |folded| && (forall k | 0 <= k < |piece| :: Fold(piece[k]) == folded[k]) ==>
              FoldedAt(t, i, folded)
    ensures (forall k | 0 <= k < |piece| :: piece[k] == c) ==> AllOf(t, i, i + |piece|, c)
    ensures (forall k | 0 <= k < |piece| :: piece[k] != '\n') ==> NoNewline(t, i, i + |piece|)
    ensures rest != "" ==> t[i + |piece|] == rest[0]
  {
    assert forall k | 0 <= k < |piece| :: t[i + k] == piece[k];
    assert forall k | i <= k < i + |piece| :: t[k] == piece[k - i];
  }

  lemma OnWroteFound(pre: string, between: string, rest: string)
    requires LineStart(pre, |pre|) && |between| <= 120 && NoNewline(between, 0, |between|)
    ensures MarkerAt(pre + "On " + between + "wrote:\n" + rest, |pre|)
  {
    var on, wrote, end := "On ", "wrote:", "\n" + rest;
    var t, i := pre + on + between + wrote + end, |pre|;
    assert wrote + end == "wrote:\n" + rest && t == pre + "On " + between + "wrote:\n" + rest;
    OnWroteInPieces(pre, on, between, wrote, end, t);
  }

  lemma OnWroteInPieces(pre: string, on: string, between: string, wrote: string, end: string, t: string)
    requires t == pre + on + between + wrote + end && LineStart(pre, |pre|)
    requires |between| <= 120 && NoNewline(between, 0, |between|) && end != "" && end[0] == '\n'
    requires |on| == 3 && forall k | 0 <= k < 3 :: Fold(on[k]) == "on "[k]
    requires |wrote| == 6 && forall k | 0 <= k < 6 :: Fold(wrote[k]) == "wrote:"[k]
    ensures MarkerAt(t, |pre|)
  {
    var i := |pre|;
    var n := i + 3 + |between|;
    SameStart(pre, t);
    assert t == pre + on + (between + wrote + end) == pre + on + between + (wrote + end);
    PieceAt(pre, on, between + wrote + end, t, i, "on ", ' ');
    PieceAt(pre + on, between, wrote + end, t, i + 3, "", ' ');
    PieceAt(pre + on + between, wrote, end, t, n, "wrote:", ' ');
    hide FoldedAt, NoNewline, LineStart;
    assert BlankToLineEnd(t, n + 6) by { assert AllSpace(t, n + 6, n + 6); }
    hide BlankToLineEnd;
    assert MatchAt(OnWrote, t, i);
  }

  lemma OriginalFound(pre: string, rest: string)
    requires LineStart(pre, |pre|)
    ensures MarkerAt(pre + "-----" + "Original Message" + "-----" + rest, |pre|)
  {
    OriginalInPieces(pre, "-----", "Original Message", rest, pre + "-----" + "Original Message" + "-----" + rest);
  }

  lemma OriginalInPieces(pre: string, dashes: string, title: string, rest: string, t: string)
    requires t == pre + dashes + title + dashes + rest && LineStart(pre, |pre|)
    requires |dashes| == 5 && forall k | 0 <= k < 5 :: dashes[k] == '-'
    requires |title| == 16 && forall k | 0 <= k < 16 :: Fold(title[k]) == "original message"[k]
    ensures MarkerAt(t, |pre|)
  {
    var i := |pre|;
    SameStart(pre, t);
    assert t == pre + dashes + (title + dashes + rest) == pre + dashes + title + (dashes + rest);
    PieceAt(pre, dashes, title + dashes + rest, t, i, "", '-');
    PieceAt(pre + dashes, title, dashes + rest, t, i + 5, "original message", ' ');
    PieceAt(pre + dashes + title, dashes, rest, t, i + 21, "", '-');
    hide FoldedAt, LineStart;
    assert DashesAt(t, i + 21) && AllSpace(t, i + 21, i + 21) && OriginalTail(t, i + 21);
    assert AllSpace(t, i + 5, i + 5) && OriginalBody(t, i + 5);
    hide AllOf, OriginalBody;
    assert MatchAt(OriginalMessage, t, i);
  }

  lemma UnderscoresFound(pre: string, rest: string)
    requires LineStart(pre, |pre|)
    ensures MarkerAt(pre + "__________" + "\n" + rest, |pre|)
  {
    UnderscoresInPieces(pre, "__________", "\n", rest, pre + "__________" + "\n" + rest);
  }

  lemma UnderscoresInPieces(pre: string, line: string, end: string, rest: string, t: string)
    requires t == pre + line + end + rest && LineStart(pre, |pre|) && end != "" && end[0] == '\n'
    requires |line| == 10 && forall k | 0 <= k < 10 :: line[k] == '_'
    ensures MarkerAt(t, |pre|)
  {
    var i := |pre|;
    SameStart(pre, t);
    assert t == pre + line + (end + rest);
    PieceAt(pre, line, end + rest, t, i, "", '_');
    hide LineStart;
    assert AllSpace(t, i + 10, i + 10) && BlankToLineEnd(t, i + 10);
    hide AllOf, BlankToLineEnd;
    assert MatchAt(Underscores, t, i);
  }

  /** Cuts at the earliest start of any marker. */
  method CollapseQuoteChain(t: string) returns (r: string)
    ensures Collapsed(t, r)
  {
    var earliest: Option<nat> := None;
    for k := 0 to |MARKERS|
      invariant earliest.Some? ==> earliest.value < |t| && MarkerAt(t, earliest.value)
      invariant forall j, i: nat | 0 <= j < k && i <= |t| && (earliest.Some? ==> i < earliest.value) ::
                  !MatchAt(MARKERS[j], t, i)
    {
      var found := Search(MARKERS[k], t, 0);
      if found.Some? && (earliest.None? || found.value < earliest.value) {
        assert MatchAt(MARKERS[k], t, found.value);
        NotAtTheEnd(MARKERS[k], t, found.value);
        earliest := found;
      }
    }
    forall i: nat | i <= |t| && (earliest.Some? ==> i < earliest.value) ensures !MarkerAt(t, i) {
      forall m: Marker ensures !MatchAt(m, t, i) {
        var k := match m case AngleLine => 0 case OnWrote => 1 case OriginalMessage => 2 case Underscores => 3;
        assert m == MARKERS[k];
      }
    }
    r := if earliest.None? then t else t[..earliest.value];
  }

  /** The same cut, found line by line instead of pattern by pattern. */
  function FirstMarker(t: string, from: nat): (r: nat)
    requires from <= |t|
    ensures from <= r <= |t| && forall i: nat | from <= i < r :: !MarkerAt(t, i)
    ensures r < |t| ==> MarkerAt(t, r)
    decreases |t| - from
  {
    if from == |t| then from
    else if MatchAt(AngleLine, t, from) || MatchAt(OnWrote, t, from)
         || MatchAt(OriginalMessage, t, from) || MatchAt(Underscores, t, from) then from
    else
      FirstMarker(t, from + 1)
  }

  function Collapse(t: string): string {
    t[..FirstMarker(t, 0)]
  }

  /** Collapsing is a function of the text, and `Collapse` is that function. */
  lemma CollapsedIsCollapse(t: string, r: string)
    ensures Collapsed(t, r) <==> r == Collapse(t)
  {
    var n := FirstMarker(t, 0);
    forall m: Marker ensures !MatchAt(m, t, |t|) {
      if MatchAt(m, t, |t|) { NotAtTheEnd(m, t, |t|); }
    }
    if Collapsed(t, r) {
      assert r == t[..|r|];
    }
    if n < |t| {
      var m: Marker :| MatchAt(m, t, n);
    }
  }

  lemma NotAtTheEnd(m: Marker, t: string, i: nat)
    requires MatchAt(m, t, i)
    ensures i < |t|
  {}

  // ----- Cutting at a line start creates no new marker -----

  lemma BlankExtends(t: string, n: nat, from: nat)
    requires 0 < n <= |t| && LineStart(t, n) && from <= n && BlankToLineEnd(t[..n], from)
    requires from == n ==> t[n - 1] != '\n'
    ensures BlankToLineEnd(t, from)
  {
    var s := t[..n];
    var j :| from <= j <= |s| && AllSpace(s, from, j) && (j == |s| || s[j] == '\n');
    if j == n {
      assert t[n - 1] == '\n' && AllSpace(t, from, n - 1);
    } else {
      assert AllSpace(t, from, j) && t[j] == '\n';
    }
  }

  lemma OriginalExtends(t: string, n: nat, i: nat)
    requires n <= |t| && OriginalAt(t[..n], i)
    ensures OriginalAt(t, i)
  {
    var s := t[..n];
    var j :| i + 3 <= j <= |s| && AllOf(s, i, j, '-') && OriginalBody(s, j);
    var k :| j <= k <= |s| && AllSpace(s, j, k) && FoldedAt(s, k, "original message") && OriginalTail(s, k + 16);
    var l :| k + 16 <= l <= |s| && AllSpace(s, k + 16, l) && DashesAt(s, l);
    assert AllSpace(t, k + 16, l) && DashesAt(t, l);
    assert OriginalTail(t, k + 16);
    assert FoldedAt(t, k, "original message") by {
      forall x | 0 <= x < 16 ensures Fold(t[k + x]) == "original message"[x] { assert s[k + x] == t[k + x]; }
    }
    assert AllSpace(t, j, k) && AllOf(t, i, j, '-') && OriginalBody(t, j);
  }

  lemma FoldedExtends(t: string, n: nat, i: nat, w: string)
    requires n <= |t| && FoldedAt(t[..n], i, w)
    ensures FoldedAt(t, i, w)
  {
    forall x | 0 <= x < |w| ensures Fold(t[i + x]) == w[x] { assert t[..n][i + x] == t[i + x]; }
  }

  lemma MatchExtends(m: Marker, t: string, n: nat, i: nat)
    requires n <= |t| && LineStart(t, n) && MatchAt(m, t[..n], i)
    ensures MatchAt(m, t, i)
  {
    var s := t[..n];
    match m
    case AngleLine =>
    case OriginalMessage => OriginalExtends(t, n, i);
    case OnWrote =>
      var k :| i + 3 <= k <= i + 123 && NoNewline(s, i + 3, k) && FoldedAt(s, k, "wrote:") && BlankToLineEnd(s, k + 6);
      FoldedExtends(t, n, i, "on ");
      FoldedExtends(t, n, k, "wrote:");
      assert Fold(t[k + 5]) == "wrote:"[5] == ':';
      BlankExtends(t, n, k + 6);
      assert NoNewline(t, i + 3, k);
    case Underscores =>
      var j :| i + 10 <= j <= |s| && AllOf(s, i, j, '_') && BlankToLineEnd(s, j);
      assert t[j - 1] == s[j - 1] == '_';
      BlankExtends(t, n, j);
      assert AllOf(t, i, j, '_');
  }

  /** What is left holds no marker, so collapsing it again changes nothing. */
  lemma CollapseIsClean(t: string)
    ensures forall i: nat | i <= |Collapse(t)| :: !MarkerAt(Collapse(t), i)
    ensures Collapse(Collapse(t)) == Collapse(t)
  {
    var r := Collapse(t);
    CollapsedIsCollapse(t, r);
    forall i: nat | i <= |r| ensures !MarkerAt(r, i) {
      if MarkerAt(r, i) {
        var m: Marker :| MatchAt(m, r, i);
        NotAtTheEnd(m, r, i);
        if r != t {
          MatchExtends(m, t, |r|, i);
          assert MarkerAt(t, i);
        }
      }
    }
    CollapsedIsCollapse(r, r);
  }

  // ----- Truncation -----

  /** `t[:max]`, which counts from the end when `max` is negative. */
  function Slice(t: string, max: int): string {
    if max >= 0 then (if |t| <= max then t else t[..max])
    else if |t| + max <= 0 then "" else t[..|t| + max]
  }

  /** `t` up to its last blank, or all of `t` if it has none. */
  function BeforeLastBlank(t: string): (r: string)
    ensures r <= t
    ensures if ' ' in t then |r| < |t| && t[|r|] == ' ' && ' ' !in t[|r| + 1..] else r == t
  {
    if ' ' !in t then t
    else if t[|t| - 1] == ' ' then t[..|t| - 1]
    else
      var r := BeforeLastBlank(t[..|t| - 1]);
      assert t[|r| + 1..] == t[..|t| - 1][|r| + 1..] + [t[|t| - 1]];
      r
  }

  const CUT := " ... [truncated]"

  function Truncate(t: string, max: int): string {
    if |t| <= max then t else BeforeLastBlank(Slice(t, max)) + CUT
  }

  /** `stem` is what is kept of `head`: all before its last blank, or all of it if it has none. */
  predicate KeptOf(head: string, stem: string) {
    if ' ' in head then stem < head && head[|stem|] == ' ' && ' ' !in head[|stem| + 1..] else stem == head
  }

  /** A text is bounded by its limit plus the marker exactly when the limit is not negative. Within the limit it is
      left as it is; beyond it the notice stands after the words that fit in whole, or after the limit if these are
      none. A negative limit counts from the end. */
  lemma TruncationBound(t: string, max: int)
    ensures |Truncate(t, max)| <= max + |CUT| <==> max >= 0
    ensures |t| <= max ==> Truncate(t, max) == t
    ensures |t| > max ==>
              var upTo := if max >= 0 then max else if |t| + max > 0 then |t| + max else 0;
              exists stem :: KeptOf(t[..upTo], stem) && Truncate(t, max) == stem + " ... [truncated]"
  {
    if |t| > max {
      var upTo := if max >= 0 then max else if |t| + max > 0 then |t| + max else 0;
      assert Slice(t, max) == t[..upTo];
      var stem := BeforeLastBlank(Slice(t, max));
      assert KeptOf(t[..upTo], stem) && Truncate(t, max) == stem + CUT;
    }
  }

  // ----- Blank lines and stripping -----

  predicate ThreeNewlines(t: string, i: nat) {
    i + 3 <= |t| && t[i] == '\n' && t[i + 1] == '\n' && t[i + 2] == '\n'
  }

  /** Runs of three or more newlines become two. */
  function Squeeze(t: string): string {
    if t == "" then "" else if ThreeNewlines(t, 0) then Squeeze(t[1..]) else [t[0]] + Squeeze(t[1..])
  }

  function Printed(t: string): string {
    if t == "" then "" else if t[0] == '\n' then Printed(t[1..]) else [t[0]] + Printed(t[1..])
  }

  /** Only newlines are dropped, no run of three is left, and a text without one is untouched. */
  lemma {:induction false} SqueezeSpec(t: string)
    ensures forall i: nat :: !ThreeNewlines(Squeeze(t), i)
    ensures Printed(Squeeze(t)) == Printed(t) && |Squeeze(t)| <= |t|
    ensures (forall i: nat :: !ThreeNewlines(t, i)) ==> Squeeze(t) == t
    ensures t != "" ==> Squeeze(t) != "" && Squeeze(t)[0] == t[0]
    ensures |t| >= 2 && t[0] == '\n' && |Squeeze(t)| >= 2 && Squeeze(t)[1] == '\n' ==> t[1] == '\n'
  {
    if t != "" {
      var tail := t[1..];
      SqueezeSpec(tail);
      if !ThreeNewlines(t, 0) {
        var s := Squeeze(t);
        assert s[1..] == Squeeze(tail);
        forall i: nat ensures !ThreeNewlines(s, i) {
          if i > 0 {
            assert !ThreeNewlines(Squeeze(tail), i - 1);
          }
        }
        if forall i: nat :: !ThreeNewlines(t, i) {
          forall i: nat ensures !ThreeNewlines(tail, i) { assert !ThreeNewlines(t, i + 1); }
        }
      }
    }
  }

  /** One of three newlines in a row may as well not be there. So every run is cut down to two, and nothing else is. */
  lemma {:induction false} SqueezeDropsOne(a: string, b: string)
    ensures Squeeze(a + "\n\n\n" + b) == Squeeze(a + "\n\n" + b)
  {
    var t, s := a + "\n\n\n" + b, a + "\n\n" + b;
    if a == "" {
      assert ThreeNewlines(t, 0) && t[1..] == s;
    } else {
      assert t[1..] == a[1..] + "\n\n\n" + b && s[1..] == a[1..] + "\n\n" + b;
      SqueezeDropsOne(a[1..], b);
      if |a| <= 2 {
        assert t[1] == if |a| == 1 then '\n' else a[1];
        assert t[2] == '\n' && s[1] == t[1] && s[2] == t[2];
      } else {
        assert t[1] == s[1] == a[1] && t[2] == s[2] == a[2];
      }
    }
  }

  function StripLeft(t: string): string {
    if t != "" && IsSpace(t[0]) then StripLeft(t[1..]) else t
  }

  function StripRight(t: string): (r: string)
    ensures r <= t
  {
    if t != "" && IsSpace(t[|t| - 1]) then StripRight(t[..|t| - 1]) else t
  }

  /** `stripHtml` stands for the markup stripper, a library parser. */
  function CleanBody(stripHtml: string -> string, body: string, max: int): string {
    StripRight(StripLeft(Squeeze(Truncate(Collapse(stripHtml(body)), max))))
  }

  /** A text with three newlines in a row still has them with something put before or after it. */
  lemma StretchIsClean(u: string, r: string, v: string)
    requires forall i: nat :: !ThreeNewlines(u + r + v, i)
    ensures forall i: nat :: !ThreeNewlines(r, i)
  {
    forall i: nat ensures !ThreeNewlines(r, i) {
      assert !ThreeNewlines(u + r + v, i + |u|);
      assert i + 3 <= |r| ==> (u + r + v)[i + |u|..i + |u| + 3] == r[i..i + 3];
    }
  }

  /** Stripping takes away blanks, and all that it meets. */
  lemma {:induction false} LeftIsAStretch(s: string) returns (u: string)
    ensures s == u + StripLeft(s) && (forall i | 0 <= i < |u| :: IsSpace(u[i]))
    ensures StripLeft(s) != "" ==> !IsSpace(StripLeft(s)[0])
  {
    hide IsSpace;
    if s != "" && IsSpace(s[0]) {
      var w := LeftIsAStretch(s[1..]);
      u := [s[0]] + w;
      assert s == [s[0]] + s[1..];
    } else {
      u := "";
    }
  }

  lemma {:induction false} RightIsAStretch(s: string) returns (v: string)
    ensures s == StripRight(s) + v && (forall i | 0 <= i < |v| :: IsSpace(v[i]))
    ensures StripRight(s) != "" ==> !IsSpace(StripRight(s)[|StripRight(s)| - 1])
  {
    hide IsSpace;
    if s != "" && IsSpace(s[|s| - 1]) {
      var w := RightIsAStretch(s[..|s| - 1]);
      v := w + [s[|s| - 1]];
      assert s == s[..|s| - 1] + [s[|s| - 1]];
    } else {
      v := "";
    }
  }

  /** A cleaned body never holds three newlines in a row, and is bounded by its limit, if that is not
      negative. */
  lemma CleanBodyBounds(stripHtml: string -> string, body: string, max: int)
    ensures forall i: nat :: !ThreeNewlines(CleanBody(stripHtml, body, max), i)
    ensures max >= 0 ==> |CleanBody(stripHtml, body, max)| <= max + |CUT|
  {
    var c := Collapse(stripHtml(body));
    SqueezeSpec(Truncate(c, max));
    var s := Squeeze(Truncate(c, max));
    var u := LeftIsAStretch(s);
    var v := RightIsAStretch(StripLeft(s));
    TruncationBound(c, max);
    hide IsSpace, Squeeze, StripLeft, StripRight, Truncate, ThreeNewlines;
    assert s == u + StripRight(StripLeft(s)) + v;
    StretchIsClean(u, StripRight(StripLeft(s)), v);
  }

  lemma IndentedIsNoMarker(t: string)
    requires |t| == 2 && t[0] == ' ' && t[1] != '\n'
    ensures Collapse(t) == t
  {
    forall i: nat | i <= |t| ensures !MarkerAt(t, i) {
      forall m: Marker ensures !MatchAt(m, t, i) {
        if MatchAt(m, t, i) {
          NotAtTheEnd(m, t, i);
        }
      }
    }
    CollapsedIsCollapse(t, t);
  }

  lemma StripIndent(t: string)
    requires |t| == 2 && t[0] == ' ' && !IsSpace(t[1])
    ensures StripRight(StripLeft(t)) == t[1..]
  {
    assert StripLeft(t) == StripLeft(t[1..]) == t[1..];
  }

  /** Stripping runs last, so a quoted line indented by a blank becomes a marker again. */
  lemma CleanBodyMayUncoverAMarker(stripHtml: string -> string)
    requires stripHtml(" >") == " >"
    ensures MarkerAt(CleanBody(stripHtml, " >", 100), 0)
  {
    var t := " >";
    IndentedIsNoMarker(t);
    SqueezeSpec(t);
    StripIndent(t);
    var r := CleanBody(stripHtml, t, 100);
    assert r == t[1..];
    assert MatchAt(AngleLine, r, 0);
  }
}
