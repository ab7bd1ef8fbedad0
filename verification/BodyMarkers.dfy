/** When a cleaned body holds a quote marker. The markers are read again as recursions over the rest of
    a text, and each step of the cleaning after the cut is followed through them. */
module BodyMarkers {
  import opened BodyCleaning

  // ----- The markers, from the front of a text -----

  predicate Blank(u: string) {
    u == "" || u[0] == '\n' || (IsSpace(u[0]) && Blank(u[1..]))
  }

  predicate Wrote(u: string, room: nat) {
    || (FoldedAt(u, 0, "wrote:") && Blank(u[6..]))
    || (room > 0 && u != "" && u[0] != '\n' && Wrote(u[1..], room - 1))
  }

  predicate Tail(u: string) {
    DashesAt(u, 0) || (u != "" && IsSpace(u[0]) && Tail(u[1..]))
  }

  predicate Body(u: string) {
    || (FoldedAt(u, 0, "original message") && Tail(u[16..]))
    || (u != "" && IsSpace(u[0]) && Body(u[1..]))
  }

  predicate Dashed(u: string, need: nat) {
    (need == 0 && Body(u)) || (u != "" && u[0] == '-' && Dashed(u[1..], if need > 0 then need - 1 else 0))
  }

  predicate Under(u: string, need: nat) {
    (need == 0 && Blank(u)) || (u != "" && u[0] == '_' && Under(u[1..], if need > 0 then need - 1 else 0))
  }

  predicate Begins(m: Marker, u: string) {
    match m
    case AngleLine => u != "" && u[0] == '>'
    case OnWrote => FoldedAt(u, 0, "on ") && Wrote(u[3..], 120)
    case OriginalMessage => Dashed(u, 3)
    case Underscores => Under(u, 10)
  }

  predicate BeginsAny(u: string) {
    Begins(AngleLine, u) || Begins(OnWrote, u) || Begins(OriginalMessage, u) || Begins(Underscores, u)
  }

  /** A marker begins somewhere in `u`; `start` says whether `u` begins a line. */
  predicate Somewhere(u: string, start: bool) {
    (start && BeginsAny(u)) || (u != "" && Somewhere(u[1..], u[0] == '\n'))
  }

  // ----- The same as before -----

  lemma {:induction false} BlankIsBlank(t: string, from: nat)
    requires from <= |t|
    ensures BlankToLineEnd(t, from) <==> Blank(t[from..])
    decreases |t| - from
  {
    if from < |t| {
      assert t[from..][1..] == t[from + 1..];
      BlankIsBlank(t, from + 1);
      if BlankToLineEnd(t, from) && t[from] != '\n' {
        var j :| from <= j <= |t| && AllSpace(t, from, j) && (j == |t| || t[j] == '\n');
        assert AllSpace(t, from + 1, j);
      }
      if IsSpace(t[from]) && BlankToLineEnd(t, from + 1) {
        var j :| from + 1 <= j <= |t| && AllSpace(t, from + 1, j) && (j == |t| || t[j] == '\n');
        assert AllSpace(t, from, j);
      }
      if t[from] == '\n' {
        assert AllSpace(t, from, from);
      }
    } else {
      assert AllSpace(t, from, from);
    }
  }

  lemma FoldedFrom(t: string, i: nat, w: string)
    requires i <= |t|
    ensures FoldedAt(t, i, w) <==> FoldedAt(t[i..], 0, w)
  {
    var u := t[i..];
    if i + |w| <= |t| {
      assert forall k | 0 <= k < |w| :: u[k] == t[i + k];
    }
  }

  ghost predicate WroteFrom(t: string, i: nat, room: nat) {
    exists n | i <= n <= i + room :: NoNewline(t, i, n) && FoldedAt(t, n, "wrote:") && BlankToLineEnd(t, n + 6)
  }

  lemma WroteSteps(t: string, i: nat, room: nat)
    ensures WroteFrom(t, i, room) <==>
              || (FoldedAt(t, i, "wrote:") && BlankToLineEnd(t, i + 6))
              || (room > 0 && i < |t| && t[i] != '\n' && WroteFrom(t, i + 1, room - 1))
  {
    assert FoldedAt(t, i, "wrote:") ==> NoNewline(t, i, i);
    hide FoldedAt, BlankToLineEnd;
    if WroteFrom(t, i, room) {
      var n :| i <= n <= i + room && NoNewline(t, i, n) && FoldedAt(t, n, "wrote:") && BlankToLineEnd(t, n + 6);
      assert n > i ==> NoNewline(t, i + 1, n) && t[i] != '\n';
    }
    if room > 0 && i < |t| && t[i] != '\n' && WroteFrom(t, i + 1, room - 1) {
      var n :| i + 1 <= n <= i + room && NoNewline(t, i + 1, n) && FoldedAt(t, n, "wrote:") && BlankToLineEnd(t, n + 6);
      assert NoNewline(t, i, n);
    }
  }

  lemma {:induction false} WroteIsWrote(t: string, i: nat, room: nat)
    requires i <= |t|
    ensures WroteFrom(t, i, room) <==> Wrote(t[i..], room)
    decreases room
  {
    WroteSteps(t, i, room);
    FoldedFrom(t, i, "wrote:");
    assert FoldedAt(t, i, "wrote:") ==> i + 6 <= |t|;
    if i + 6 <= |t| {
      BlankIsBlank(t, i + 6);
      assert t[i..][6..] == t[i + 6..];
    }
    if room > 0 && i < |t| {
      assert t[i..][1..] == t[i + 1..];
      WroteIsWrote(t, i + 1, room - 1);
    }
    hide WroteFrom, FoldedAt, BlankToLineEnd, Blank;
  }

  lemma DashesFrom(t: string, i: nat)
    requires i <= |t|
    ensures DashesAt(t, i) <==> DashesAt(t[i..], 0)
  {
    var u := t[i..];
    if i + 3 <= |t| {
      assert forall k | 0 <= k < 3 :: u[k] == t[i + k];
      assert u[0] == t[i] && u[1] == t[i + 1] && u[2] == t[i + 2];
    }
  }

  lemma {:induction false} TailIsTail(t: string, i: nat)
    requires i <= |t|
    ensures OriginalTail(t, i) <==> Tail(t[i..])
    decreases |t| - i
  {
    var u := t[i..];
    DashesFrom(t, i);
    assert AllSpace(t, i, i);
    if i < |t| {
      assert u[1..] == t[i + 1..];
      TailIsTail(t, i + 1);
      if OriginalTail(t, i) && !DashesAt(t, i) {
        var k :| i <= k <= |t| && AllSpace(t, i, k) && DashesAt(t, k);
        assert AllSpace(t, i + 1, k);
      }
      if IsSpace(t[i]) && OriginalTail(t, i + 1) {
        var k :| i + 1 <= k <= |t| && AllSpace(t, i + 1, k) && DashesAt(t, k);
        assert AllSpace(t, i, k);
      }
    }
  }

  lemma BodySteps(t: string, i: nat)
    ensures OriginalBody(t, i) <==>
              || (FoldedAt(t, i, "original message") && OriginalTail(t, i + 16))
              || (i < |t| && IsSpace(t[i]) && OriginalBody(t, i + 1))
  {
    assert FoldedAt(t, i, "original message") ==> AllSpace(t, i, i);
    hide IsSpace, FoldedAt, OriginalTail;
    if OriginalBody(t, i) {
      var k :| i <= k <= |t| && AllSpace(t, i, k) && FoldedAt(t, k, "original message") && OriginalTail(t, k + 16);
      assert k > i ==> AllSpace(t, i + 1, k);
    }
    if i < |t| && IsSpace(t[i]) && OriginalBody(t, i + 1) {
      var k :| i + 1 <= k <= |t| && AllSpace(t, i + 1, k)
               && FoldedAt(t, k, "original message") && OriginalTail(t, k + 16);
      assert AllSpace(t, i, k);
    }
  }

  lemma {:induction false} BodyIsBody(t: string, i: nat)
    requires i <= |t|
    ensures OriginalBody(t, i) <==> Body(t[i..])
    decreases |t| - i
  {
    BodySteps(t, i);
    FoldedFrom(t, i, "original message");
    assert FoldedAt(t, i, "original message") ==> i + 16 <= |t|;
    if i + 16 <= |t| {
      TailIsTail(t, i + 16);
      assert t[i..][16..] == t[i + 16..];
    }
    if i < |t| {
      assert t[i..][1..] == t[i + 1..];
      BodyIsBody(t, i + 1);
    }
    hide OriginalBody, IsSpace, FoldedAt, OriginalTail, Tail;
  }

  ghost predicate DashedFrom(t: string, i: nat, need: nat) {
    exists j | i + need <= j <= |t| :: AllOf(t, i, j, '-') && OriginalBody(t, j)
  }

  lemma {:induction false} DashedIsDashed(t: string, i: nat, need: nat)
    requires i <= |t|
    ensures DashedFrom(t, i, need) <==> Dashed(t[i..], need)
    decreases |t| - i
  {
    var u, less := t[i..], if need > 0 then need - 1 else 0;
    BodyIsBody(t, i);
    assert AllOf(t, i, i, '-');
    hide OriginalBody, Body;
    if i < |t| {
      assert u[1..] == t[i + 1..];
      DashedIsDashed(t, i + 1, less);
      if DashedFrom(t, i, need) {
        var j :| i + need <= j <= |t| && AllOf(t, i, j, '-') && OriginalBody(t, j);
        if j > i {
          assert AllOf(t, i + 1, j, '-');
        }
      }
      if t[i] == '-' && DashedFrom(t, i + 1, less) {
        var j :| i + 1 + less <= j <= |t| && AllOf(t, i + 1, j, '-') && OriginalBody(t, j);
        assert AllOf(t, i, j, '-');
      }
    }
  }

  ghost predicate UnderFrom(t: string, i: nat, need: nat) {
    exists j | i + need <= j <= |t| :: AllOf(t, i, j, '_') && BlankToLineEnd(t, j)
  }

  lemma {:induction false} UnderIsUnder(t: string, i: nat, need: nat)
    requires i <= |t|
    ensures UnderFrom(t, i, need) <==> Under(t[i..], need)
    decreases |t| - i
  {
    var u, less := t[i..], if need > 0 then need - 1 else 0;
    BlankIsBlank(t, i);
    assert AllOf(t, i, i, '_');
    hide BlankToLineEnd, Blank;
    if i < |t| {
      assert u[1..] == t[i + 1..];
      UnderIsUnder(t, i + 1, less);
      if UnderFrom(t, i, need) {
        var j :| i + need <= j <= |t| && AllOf(t, i, j, '_') && BlankToLineEnd(t, j);
        if j > i {
          assert AllOf(t, i + 1, j, '_');
        }
      }
      if t[i] == '_' && UnderFrom(t, i + 1, less) {
        var j :| i + 1 + less <= j <= |t| && AllOf(t, i + 1, j, '_') && BlankToLineEnd(t, j);
        assert AllOf(t, i, j, '_');
      }
    }
  }

  lemma BeginsIsMatch(m: Marker, t: string, i: nat)
    requires i <= |t|
    ensures MatchAt(m, t, i) <==> LineStart(t, i) && Begins(m, t[i..])
  {
    match m
    case AngleLine =>
    case OnWrote =>
      FoldedFrom(t, i, "on ");
      if i + 3 <= |t| {
        WroteIsWrote(t, i + 3, 120);
        assert t[i..][3..] == t[i + 3..];
      }
    case OriginalMessage => DashedIsDashed(t, i, 3);
    case Underscores => UnderIsUnder(t, i, 10);
  }

  lemma MarkerIsBegin(t: string, i: nat)
    ensures MarkerAt(t, i) <==> LineStart(t, i) && BeginsAny(t[i..])
  {
    if i <= |t| {
      forall m: Marker ensures MatchAt(m, t, i) <==> LineStart(t, i) && Begins(m, t[i..]) {
        BeginsIsMatch(m, t, i);
      }
    }
  }

  /** `Somewhere` is: at some position from `i` on. */
  lemma {:induction false} SomewhereIsSome(t: string, i: nat)
    requires i <= |t|
    ensures Somewhere(t[i..], LineStart(t, i)) <==> exists k: nat :: i <= k && MarkerAt(t, k)
    decreases |t| - i
  {
    MarkerIsBegin(t, i);
    if i < |t| {
      assert t[i..][1..] == t[i + 1..];
      SomewhereIsSome(t, i + 1);
      if k: nat :| i <= k && MarkerAt(t, k) {
        assert k == i || i + 1 <= k;
      }
    }
  }

  // ----- Collapsing blank lines -----

  lemma {:induction false} SqueezeBlank(u: string)
    ensures Blank(Squeeze(u)) <==> Blank(u)
  {
    if u != "" {
      SqueezeBlank(u[1..]);
    }
  }

  lemma {:induction false} SqueezePrefix(u: string, n: nat)
    requires n <= |u| && forall k | 0 <= k < n :: u[k] != '\n'
    ensures |Squeeze(u)| >= n && Squeeze(u)[..n] == u[..n] && Squeeze(u)[n..] == Squeeze(u[n..])
  {
    if n > 0 {
      assert forall k | 0 <= k < n - 1 :: u[1..][k] == u[k + 1];
      SqueezePrefix(u[1..], n - 1);
      var s, r := Squeeze(u), Squeeze(u[1..]);
      assert s == [u[0]] + r;
      assert s[..n] == [u[0]] + r[..n - 1] && u[..n] == [u[0]] + u[1..][..n - 1];
      assert s[n..] == r[n - 1..] && u[n..] == u[1..][n - 1..];
    } else {
      assert u[0..] == u && Squeeze(u)[0..] == Squeeze(u);
    }
  }

  /** A squeezed text that begins without newlines has the same beginning as before. */
  lemma {:induction false} SqueezedPrefix(u: string, n: nat)
    requires n <= |Squeeze(u)| && forall k | 0 <= k < n :: Squeeze(u)[k] != '\n'
    ensures n <= |u| && forall k | 0 <= k < n :: u[k] == Squeeze(u)[k]
  {
    if n > 0 {
      SqueezeSpec(u);
      var s, r := Squeeze(u), Squeeze(u[1..]);
      assert s == [u[0]] + r;
      assert forall k | 0 <= k < n - 1 :: r[k] == s[k + 1];
      SqueezedPrefix(u[1..], n - 1);
      assert forall k | 0 < k < n :: u[k] == u[1..][k - 1] && s[k] == r[k - 1];
    }
  }

  predicate OneLine(w: string) {
    forall k | 0 <= k < |w| :: w[k] != '\n'
  }

  lemma SqueezeFolded(u: string, w: string)
    requires OneLine(w)
    ensures FoldedAt(Squeeze(u), 0, w) <==> FoldedAt(u, 0, w)
    ensures FoldedAt(u, 0, w) ==> Squeeze(u)[|w|..] == Squeeze(u[|w|..])
  {
    if FoldedAt(u, 0, w) {
      forall k | 0 <= k < |w| ensures u[k] != '\n' { assert Fold(u[0 + k]) == w[k]; }
      SqueezePrefix(u, |w|);
      assert forall k | 0 <= k < |w| :: Squeeze(u)[k] == Squeeze(u)[..|w|][k] == u[..|w|][k];
    }
    if FoldedAt(Squeeze(u), 0, w) {
      var s := Squeeze(u);
      forall k | 0 <= k < |w| ensures s[k] != '\n' { assert Fold(s[0 + k]) == w[k]; }
      SqueezedPrefix(u, |w|);
      assert forall k | 0 <= k < |w| :: Fold(u[0 + k]) == w[k];
    }
  }

  lemma {:induction false} SqueezeWrote(u: string, room: nat)
    ensures Wrote(Squeeze(u), room) <==> Wrote(u, room)
    decreases room
  {
    SqueezeFolded(u, "wrote:");
    SqueezeSpec(u);
    if FoldedAt(u, 0, "wrote:") {
      SqueezeBlank(u[6..]);
    }
    if room > 0 && u != "" && u[0] != '\n' {
      SqueezePrefix(u, 1);
      SqueezeWrote(u[1..], room - 1);
    }
  }

  lemma SqueezeDashes(u: string)
    ensures DashesAt(Squeeze(u), 0) <==> DashesAt(u, 0)
  {
    if DashesAt(u, 0) {
      SqueezePrefix(u, 3);
      assert forall k | 0 <= k < 3 :: Squeeze(u)[k] == Squeeze(u)[..3][k] == u[..3][k];
    }
    if DashesAt(Squeeze(u), 0) {
      SqueezedPrefix(u, 3);
    }
  }

  lemma {:induction false} SqueezeTail(u: string)
    ensures Tail(Squeeze(u)) <==> Tail(u)
  {
    SqueezeDashes(u);
    if u != "" {
      SqueezeTail(u[1..]);
    }
  }

  lemma {:induction false} SqueezeBody(u: string)
    ensures Body(Squeeze(u)) <==> Body(u)
  {
    SqueezeFolded(u, "original message");
    if FoldedAt(u, 0, "original message") {
      SqueezeTail(u[16..]);
    }
    if u != "" {
      SqueezeBody(u[1..]);
    }
  }

  lemma {:induction false} SqueezeDashed(u: string, need: nat)
    ensures Dashed(Squeeze(u), need) <==> Dashed(u, need)
  {
    SqueezeBody(u);
    SqueezeSpec(u);
    if u != "" && u[0] == '-' {
      SqueezePrefix(u, 1);
      SqueezeDashed(u[1..], if need > 0 then need - 1 else 0);
    }
  }

  lemma {:induction false} SqueezeUnder(u: string, need: nat)
    ensures Under(Squeeze(u), need) <==> Under(u, need)
  {
    SqueezeBlank(u);
    SqueezeSpec(u);
    if u != "" && u[0] == '_' {
      SqueezePrefix(u, 1);
      SqueezeUnder(u[1..], if need > 0 then need - 1 else 0);
    }
  }

  lemma SqueezeBegins(u: string)
    ensures BeginsAny(Squeeze(u)) <==> BeginsAny(u)
  {
    SqueezeSpec(u);
    SqueezeFolded(u, "on ");
    if FoldedAt(u, 0, "on ") {
      SqueezeWrote(u[3..], 120);
    }
    SqueezeDashed(u, 3);
    SqueezeUnder(u, 10);
  }

  /** Collapsing blank lines neither makes nor destroys a marker. */
  lemma {:induction false} SqueezeSomewhere(u: string, start: bool)
    ensures Somewhere(Squeeze(u), start) <==> Somewhere(u, start)
    decreases |u|
  {
    SqueezeBegins(u);
    if u != "" {
      if ThreeNewlines(u, 0) {
        NewlineBeginsNothing(u);
        NewlineBeginsNothing(Squeeze(u));
        SqueezeSpec(u);
        SqueezeSomewhere(u[1..], start);
        SqueezeSomewhere(u[1..], true);
        NewlineBeginsNothing(u[1..]);
      } else {
        SqueezeSomewhere(u[1..], u[0] == '\n');
        assert Squeeze(u)[1..] == Squeeze(u[1..]);
      }
    }
  }

  lemma FoldedFirst(u: string, w: string)
    requires FoldedAt(u, 0, w) && w != ""
    ensures Fold(u[0]) == w[0]
  {
    assert Fold(u[0 + 0]) == w[0];
  }

  lemma NewlineBeginsNothing(u: string)
    ensures u != "" && u[0] == '\n' ==> !BeginsAny(u)
  {
    if FoldedAt(u, 0, "on ") {
      FoldedFirst(u, "on ");
    }
  }

  // ----- Another ending -----

  /** An ending that no marker reaches into: it begins with a blank, and has no dash, no underscore and
      neither of the letters w and m. */
  predicate Dull(x: string) {
    && (x != "" ==> IsSpace(x[0]))
    && forall k | 0 <= k < |x| :: Fold(x[k]) != 'w' && Fold(x[k]) != 'm' && x[k] != '-' && x[k] != '_'
  }

  predicate Solid(w: string) {
    forall k | 0 <= k < |w| :: !IsSpace(w[k])
  }

  lemma SpaceIsItself(c: char)
    requires IsSpace(c)
    ensures Fold(c) == c
  {}

  /** A word without blanks lies before the ending. */
  lemma WordBefore(v: string, x: string, w: string)
    requires Dull(x) && Solid(w) && FoldedAt(v + x, 0, w)
    ensures |w| <= |v|
  {
    if |v| < |w| {
      assert Fold((v + x)[0 + |v|]) == w[|v|] && (v + x)[|v|] == x[0];
      SpaceIsItself(x[0]);
    }
  }

  lemma SameWord(v: string, x: string, y: string, w: string)
    requires FoldedAt(v + x, 0, w) && |w| <= |v|
    ensures FoldedAt(v + y, 0, w) && (v + x)[|w|..] == v[|w|..] + x && (v + y)[|w|..] == v[|w|..] + y
  {
    forall k | 0 <= k < |w| ensures Fold((v + y)[0 + k]) == w[k] {
      assert Fold((v + x)[0 + k]) == w[k] && (v + x)[k] == v[k] == (v + y)[k];
    }
  }

  lemma Rest(v: string, x: string)
    requires v != ""
    ensures (v + x)[0] == v[0] && (v + x)[1..] == v[1..] + x
  {}

  lemma {:induction false} BlankSwaps(v: string, x: string, y: string)
    requires (Blank(x) ==> Blank(y)) && Blank(v + x)
    ensures Blank(v + y)
  {
    if v == "" {
      assert v + x == x && v + y == y;
    } else {
      Rest(v, x);
      Rest(v, y);
      if v[0] != '\n' {
        BlankSwaps(v[1..], x, y);
      }
    }
  }

  lemma {:induction false} WroteHasW(u: string, room: nat)
    requires Wrote(u, room)
    ensures exists k :: 0 <= k < |u| && Fold(u[k]) == 'w'
    decreases room
  {
    if FoldedAt(u, 0, "wrote:") {
      FoldedFirst(u, "wrote:");
    } else {
      WroteHasW(u[1..], room - 1);
      var k :| 0 <= k < |u| - 1 && Fold(u[1..][k]) == 'w';
      assert u[k + 1] == u[1..][k];
    }
  }

  lemma NothingWritten(u: string, room: nat)
    requires forall k | 0 <= k < |u| :: Fold(u[k]) != 'w'
    ensures !Wrote(u, room)
  {
    if Wrote(u, room) {
      WroteHasW(u, room);
    }
  }

  lemma {:induction false} TailHasDash(u: string)
    requires Tail(u)
    ensures '-' in u
  {
    if DashesAt(u, 0) {
      assert u[0] == '-';
    } else {
      TailHasDash(u[1..]);
    }
  }

  lemma {:induction false} BodyHasM(u: string)
    requires Body(u)
    ensures exists k :: 0 <= k < |u| && Fold(u[k]) == 'm'
  {
    if FoldedAt(u, 0, "original message") {
      assert Fold(u[0 + 9]) == "original message"[9];
    } else {
      BodyHasM(u[1..]);
      var k :| 0 <= k < |u| - 1 && Fold(u[1..][k]) == 'm';
      assert u[k + 1] == u[1..][k];
    }
  }

  lemma {:induction false} WroteSwaps(v: string, x: string, y: string, room: nat)
    requires Dull(x) && (Blank(x) ==> Blank(y)) && Wrote(v + x, room)
    ensures Wrote(v + y, room)
    decreases room
  {
    if FoldedAt(v + x, 0, "wrote:") && Blank((v + x)[6..]) {
      WordBefore(v, x, "wrote:");
      SameWord(v, x, y, "wrote:");
      BlankSwaps(v[6..], x, y);
    } else if v == "" {
      assert v + x == x;
      WroteHasW(x, room);
    } else {
      Rest(v, x);
      Rest(v, y);
      WroteSwaps(v[1..], x, y, room - 1);
    }
  }

  lemma DashesBefore(v: string, x: string, y: string)
    requires Dull(x)
    ensures DashesAt(v + x, 0) ==> DashesAt(v + y, 0)
  {
    assert x != "" ==> (v + x)[|v|] == x[0];
    assert forall k | 0 <= k < |v| :: (v + x)[k] == v[k] == (v + y)[k];
  }

  lemma {:induction false} TailSwaps(v: string, x: string, y: string)
    requires Dull(x) && Tail(v + x)
    ensures Tail(v + y)
  {
    if DashesAt(v + x, 0) {
      DashesBefore(v, x, y);
    } else if v == "" {
      assert v + x == x;
      TailHasDash(x);
    } else {
      Rest(v, x);
      Rest(v, y);
      TailSwaps(v[1..], x, y);
    }
  }

  lemma FoldedSays(t: string, w: string, k: nat)
    requires k < |w| && k < |t|
    ensures FoldedAt(t, 0, w) ==> Fold(t[k]) == w[k]
  {
    if FoldedAt(t, 0, w) {
      assert Fold(t[0 + k]) == w[k];
    }
  }

  lemma MessageBefore(v: string, x: string)
    requires Dull(x)
    ensures FoldedAt(v + x, 0, "original message") ==> 16 <= |v|
  {
    var t, w := v + x, "original message";
    if |v| < 16 <= |t| {
      SpaceIsItself(x[0]);
      assert t[|v|] == x[0] && (IsSpace(w[|v|]) ==> |v| == 8);
      if |v| == 8 {
        assert t[9] == x[1] && w[9] == 'm';
        FoldedSays(t, w, 9);
      } else {
        FoldedSays(t, w, |v|);
      }
    }
  }

  lemma {:induction false} BodySwaps(v: string, x: string, y: string)
    requires Dull(x) && Body(v + x)
    ensures Body(v + y)
  {
    if FoldedAt(v + x, 0, "original message") && Tail((v + x)[16..]) {
      MessageBefore(v, x);
      SameWord(v, x, y, "original message");
      TailSwaps(v[16..], x, y);
    } else if v == "" {
      assert v + x == x;
      BodyHasM(x);
    } else {
      Rest(v, x);
      Rest(v, y);
      BodySwaps(v[1..], x, y);
    }
  }

  lemma {:induction false} DashedSwaps(v: string, x: string, y: string, need: nat)
    requires Dull(x) && Dashed(v + x, need)
    ensures Dashed(v + y, need)
  {
    assert v == "" ==> v + x == x;
    if need == 0 && Body(v + x) {
      BodySwaps(v, x, y);
    } else if v != "" {
      Rest(v, x);
      Rest(v, y);
      DashedSwaps(v[1..], x, y, if need > 0 then need - 1 else 0);
    }
  }

  lemma {:induction false} UnderSwaps(v: string, x: string, y: string, need: nat)
    requires Dull(x) && (Blank(x) ==> Blank(y)) && Under(v + x, need)
    ensures Under(v + y, need)
  {
    assert v == "" ==> v + x == x;
    if need == 0 && Blank(v + x) {
      BlankSwaps(v, x, y);
    } else if v != "" {
      Rest(v, x);
      Rest(v, y);
      UnderSwaps(v[1..], x, y, if need > 0 then need - 1 else 0);
    }
  }

  lemma OnWroteSwaps(v: string, x: string, y: string)
    requires Dull(x) && (Blank(x) ==> Blank(y)) && Begins(OnWrote, v + x)
    ensures Begins(OnWrote, v + y)
  {
    if |v| < 3 {
      FoldedSays(v + x, "on ", |v|);
      SpaceIsItself(x[0]);
      assert |v| == 2 && (v + x)[3..] == x[1..];
      assert forall k | 0 <= k < |x[1..]| :: x[1..][k] == x[k + 1];
      NothingWritten(x[1..], 120);
    } else {
      SameWord(v, x, y, "on ");
      WroteSwaps(v[3..], x, y, 120);
    }
  }

  /** A marker before a dull ending is a marker before any other ending that is blank if that one is. */
  lemma BeginsSwaps(v: string, x: string, y: string)
    requires Dull(x) && (Blank(x) ==> Blank(y)) && BeginsAny(v + x)
    ensures BeginsAny(v + y)
  {
    assert v == "" ==> v + x == x;
    if Begins(AngleLine, v + x) {
      assert v != "" ==> (v + y)[0] == v[0] == (v + x)[0];
    } else if Begins(OnWrote, v + x) {
      OnWroteSwaps(v, x, y);
    } else if Begins(OriginalMessage, v + x) {
      DashedSwaps(v, x, y, 3);
    } else {
      UnderSwaps(v, x, y, 10);
    }
  }

  lemma {:induction false} SomewhereSwaps(v: string, x: string, y: string, start: bool)
    requires Dull(x) && (Blank(x) ==> Blank(y)) && !Somewhere(x, true) && Somewhere(v + x, start)
    ensures Somewhere(v + y, start)
    decreases |v|
  {
    assert v == "" ==> v + x == x;
    if start && BeginsAny(v + x) {
      BeginsSwaps(v, x, y);
    } else if v != "" {
      Rest(v, x);
      Rest(v, y);
      SomewhereSwaps(v[1..], x, y, v[0] == '\n');
    }
  }

  // ----- The steps of the cleaning -----

  lemma {:induction false} QuietWithoutBegin(x: string, start: bool)
    requires Dull(x) && ('\n' !in x || forall k | 0 <= k < |x| :: IsSpace(x[k]))
    ensures !Somewhere(x, start)
  {
    if x != "" {
      DullBeginsNothing(x);
      if '\n' !in x {
        LaterLinesOnly(x[1..]);
      } else {
        QuietWithoutBegin(x[1..], x[0] == '\n');
      }
    }
  }

  lemma DullBeginsNothing(x: string)
    requires Dull(x)
    ensures !BeginsAny(x)
  {
    if x != "" {
      SpaceIsItself(x[0]);
      FoldedSays(x, "on ", 0);
    }
  }

  lemma {:induction false} LaterLinesOnly(u: string)
    requires '\n' !in u
    ensures !Somewhere(u, false)
  {
    if u != "" {
      LaterLinesOnly(u[1..]);
    }
  }

  lemma CutIsDull()
    ensures Dull(CUT) && '\n' !in CUT && |CUT| > 1 && CUT[0] == ' ' && CUT[1] == '.'
  {
    hide Blank, Somewhere;
    forall k | 0 <= k < |CUT|
      ensures 'a' <= CUT[k] <= 'u' || CUT[k] == '.' || CUT[k] == ' ' || CUT[k] == '[' || CUT[k] == ']'
    {}
    forall k | 0 <= k < |CUT| ensures CUT[k] != 'm' {}
  }

  /** An ending like the truncation notice is not blank and holds no marker. */
  lemma NoticeIsQuiet(x: string)
    requires Dull(x) && '\n' !in x && |x| > 1 && x[0] == ' ' && x[1] == '.'
    ensures !Blank(x) && !Somewhere(x, true)
  {
    assert !Blank(x[1..]);
    QuietWithoutBegin(x, true);
  }

  lemma NoticeMakesNone(t: string, stem: string, x: string)
    requires Dull(x) && '\n' !in x && |x| > 1 && x[0] == ' ' && x[1] == '.'
    requires stem <= t && !Somewhere(t, true)
    ensures !Somewhere(stem + x, true)
  {
    NoticeIsQuiet(x);
    assert t == stem + t[|stem|..];
    if Somewhere(stem + x, true) {
      SomewhereSwaps(stem, x, t[|stem|..], true);
    }
  }

  /** Truncation makes no marker: what it appends takes no part in one. */
  lemma TruncationMakesNone(t: string, max: int)
    requires !Somewhere(t, true)
    ensures !Somewhere(Truncate(t, max), true)
  {
    hide Somewhere, Dull;
    if |t| > max {
      CutIsDull();
      NoticeMakesNone(t, BeforeLastBlank(Slice(t, max)), CUT);
    }
  }

  predicate AllBlank(x: string) {
    forall k | 0 <= k < |x| :: IsSpace(x[k])
  }

  lemma {:induction false} AllBlankIsBlank(x: string)
    requires AllBlank(x)
    ensures Blank(x) && Dull(x)
  {
    forall k | 0 <= k < |x| ensures Fold(x[k]) == x[k] { SpaceIsItself(x[k]); }
    if x != "" {
      AllBlankIsBlank(x[1..]);
    }
  }

  lemma {:induction false} RightIsBlank(t: string)
    ensures AllBlank(t[|StripRight(t)|..])
  {
    if t != "" && IsSpace(t[|t| - 1]) {
      var u := t[..|t| - 1];
      RightIsBlank(u);
      assert t[|StripRight(t)|..] == u[|StripRight(u)|..] + [t[|t| - 1]];
    } else {
      assert t[|t|..] == "";
    }
  }

  /** Stripping the right end neither makes nor destroys a marker. */
  lemma RightKeepsMarkers(t: string, start: bool)
    ensures Somewhere(StripRight(t), start) <==> Somewhere(t, start)
  {
    var r := StripRight(t);
    var x := t[|r|..];
    RightIsBlank(t);
    AllBlankIsBlank(x);
    AllBlankIsBlank("");
    QuietWithoutBegin(x, true);
    QuietWithoutBegin("", true);
    assert t == r + x && r + "" == r;
    if Somewhere(t, start) {
      SomewhereSwaps(r, x, "", start);
    }
    if Somewhere(r, start) {
      SomewhereSwaps(r, "", x, start);
    }
  }

  /** Stripping the left end can only uncover a marker that begins where the text now begins. */
  lemma {:induction false} LeftUncoversOne(t: string, start: bool)
    requires !Somewhere(t, start)
    ensures var l := StripLeft(t);
            (Somewhere(l, true) <==> BeginsAny(l)) && (l != "" ==> !Somewhere(l[1..], l[0] == '\n'))
  {
    if t != "" && IsSpace(t[0]) {
      LeftUncoversOne(t[1..], t[0] == '\n');
    }
  }

  lemma {:induction false} LeftAndSqueeze(t: string)
    ensures StripLeft(Squeeze(t)) == Squeeze(StripLeft(t))
  {
    if t != "" {
      LeftAndSqueeze(t[1..]);
      if !ThreeNewlines(t, 0) {
        assert Squeeze(t)[1..] == Squeeze(t[1..]);
      }
    }
  }

  /** What the cleaning begins with, once the quoted mail is cut off and the length bounded: the text from
      its first character that is not blank. */
  function FirstText(stripHtml: string -> string, body: string, max: int): string {
    StripLeft(Truncate(Collapse(stripHtml(body)), max))
  }

  /** A cleaned body holds a quote marker if and only if, after cutting and truncating, the text from its
      first character that is not blank begins one; and then only there, at its very start. */
  lemma CleanBodyMarkers(stripHtml: string -> string, body: string, max: int)
    ensures var r := CleanBody(stripHtml, body, max);
            && ((exists i: nat :: MarkerAt(r, i)) <==> MarkerAt(FirstText(stripHtml, body, max), 0))
            && forall i: nat | i > 0 :: !MarkerAt(r, i)
  {
    var c := Collapse(stripHtml(body));
    var t := Truncate(c, max);
    var s, l, r := Squeeze(t), StripLeft(Squeeze(t)), CleanBody(stripHtml, body, max);
    CollapseIsClean(stripHtml(body));
    NoMarkerIsNowhere(c);
    TruncationMakesNone(c, max);
    SqueezeSomewhere(t, true);
    LeftUncoversOne(s, true);
    RightKeepsMarkers(l, true);
    LeftAndSqueeze(t);
    SqueezeBegins(StripLeft(t));
    MarkersOf(r, l);
    MarkerIsBegin(StripLeft(t), 0);
    assert StripLeft(t)[0..] == StripLeft(t);
  }

  lemma NoMarkerIsNowhere(c: string)
    requires forall i: nat | i <= |c| :: !MarkerAt(c, i)
    ensures !Somewhere(c, true)
  {
    SomewhereIsSome(c, 0);
    assert c[0..] == c;
    if k: nat :| MarkerAt(c, k) {
      MarkerIsBegin(c, k);
    }
  }

  /** The markers of a text whose right end has been stripped, if without its first character it has none. */
  lemma MarkersOf(r: string, l: string)
    requires r == StripRight(l) && (Somewhere(l, true) <==> BeginsAny(l))
    requires l != "" ==> !Somewhere(l[1..], l[0] == '\n')
    ensures (exists i: nat :: MarkerAt(r, i)) <==> BeginsAny(l)
    ensures forall i: nat | i > 0 :: !MarkerAt(r, i)
  {
    RightKeepsMarkers(l, true);
    SomewhereIsSome(r, 0);
    assert r[0..] == r;
    if r != "" {
      RightOfTail(l);
      RightKeepsMarkers(l[1..], l[0] == '\n');
      SomewhereIsSome(r, 1);
    } else {
      forall i: nat | i > 0 ensures !MarkerAt(r, i) { MarkerIsBegin(r, i); }
    }
  }

  lemma {:induction false} RightOfTail(l: string)
    requires StripRight(l) != ""
    ensures l != "" && StripRight(l)[0] == l[0] && StripRight(l)[1..] == StripRight(l[1..])
  {
    if IsSpace(l[|l| - 1]) {
      RightOfTail(l[..|l| - 1]);
      assert l[..|l| - 1][1..] == l[1..][..|l[1..]| - 1];
    }
  }
}
