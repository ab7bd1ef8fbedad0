/** What a backfill passes over because of its own moves. It pages by position through the ids in the
    mailbox, and the messages it moves away leave that result, so those behind them move up. */
module BackfillSkips {
  import Backfill

  /** The query's current result, the position of the next page, the ids requested so far, and how many
      of those have left the result. */
  datatype Paging = Paging(ids: seq<string>, position: nat, asked: set<string>, gone: nat)

  datatype Turn =
    | Request(limit: nat)
    | Leave(ids: set<string>)

  function Min(a: nat, b: nat): nat {
    if a < b then a else b
  }

  /** How much of the result lies before the position. */
  function Passed(s: Paging): (n: nat)
    ensures n <= |s.ids|
  {
    Min(s.position, |s.ids|)
  }

  function Without(ids: seq<string>, out: set<string>): seq<string> {
    if ids == [] then [] else (if ids[0] in out then [] else [ids[0]]) + Without(ids[1..], out)
  }

  function Elements(ids: seq<string>): set<string> {
    set id | id in ids
  }

  function Take(s: Paging, turn: Turn): Paging {
    match turn
    case Request(limit) =>
      var n := Min(limit, |s.ids| - Passed(s));
      s.(position := s.position + n, asked := s.asked + Elements(s.ids[Passed(s)..Passed(s) + n]))
    case Leave(out) =>
      s.(ids := Without(s.ids, out), gone := s.gone + |out|)
  }

  function TakeAll(s: Paging, turns: seq<Turn>): Paging
    decreases |turns|
  {
    if turns == [] then s else TakeAll(Take(s, turns[0]), turns[1..])
  }

  /** A sweep moves only messages that it has requested, and that are still there. */
  ghost predicate OwnMoves(s: Paging, turns: seq<Turn>)
    decreases |turns|
  {
    turns != [] ==>
      && (turns[0].Leave? ==> turns[0].ids <= s.asked * Elements(s.ids))
      && OwnMoves(Take(s, turns[0]), turns[1..])
  }

  ghost predicate Distinct(ids: seq<string>) {
    forall i, j | 0 <= i < j < |ids| :: ids[i] != ids[j]
  }

  /** The ids before the position that were never requested. */
  function Skipped(s: Paging): seq<string> {
    Without(s.ids[..Passed(s)], s.asked)
  }

  /** The result is `pre`, already passed, then `post`, of which nothing was requested. */
  ghost predicate Parted(pre: seq<string>, post: seq<string>, asked: set<string>, gone: nat) {
    && Distinct(pre + post)
    && (forall i | 0 <= i < |post| :: post[i] !in asked)
    && |Without(pre, asked)| == Min(gone, |Without(pre, asked)| + |post|)
  }

  ghost predicate Inv(s: Paging) {
    Parted(s.ids[..Passed(s)], s.ids[Passed(s)..], s.asked, s.gone)
  }

  lemma {:induction false} WithoutJoin(a: seq<string>, b: seq<string>, out: set<string>)
    ensures Without(a + b, out) == Without(a, out) + Without(b, out)
  {
    if a == [] {
      assert a + b == b;
    } else {
      assert (a + b)[1..] == a[1..] + b;
      WithoutJoin(a[1..], b, out);
    }
  }

  lemma {:induction false} WithoutNone(a: seq<string>, out: set<string>)
    requires forall i | 0 <= i < |a| :: a[i] !in out
    ensures Without(a, out) == a
  {
    if a != [] {
      WithoutNone(a[1..], out);
    }
  }

  lemma {:induction false} WithoutKeeps(a: seq<string>, out: set<string>)
    ensures |Without(a, out)| <= |a|
    ensures forall x :: x in Without(a, out) <==> x in a && x !in out
    ensures Distinct(a) ==> Distinct(Without(a, out))
  {
    if a != [] {
      WithoutKeeps(a[1..], out);
      assert a == [a[0]] + a[1..];
    }
  }

  /** Removing requested ids does not change which were not requested. */
  lemma {:induction false} WithoutTwice(a: seq<string>, out: set<string>, asked: set<string>)
    requires out <= asked
    ensures Without(Without(a, out), asked) == Without(a, asked)
  {
    if a != [] {
      WithoutTwice(a[1..], out, asked);
      if a[0] !in out {
        var w := Without(a, out);
        assert w[0] == a[0] && w[1..] == Without(a[1..], out);
      } else {
        assert Without(a, out) == Without(a[1..], out) && Without(a, asked) == Without(a[1..], asked);
      }
    }
  }

  lemma {:induction false} WithoutCounts(a: seq<string>, out: set<string>)
    requires Distinct(a) && out <= Elements(a)
    ensures |Without(a, out)| == |a| - |out|
  {
    if a == [] {
      assert out == {};
    } else {
      assert a == [a[0]] + a[1..];
      if a[0] in out {
        WithoutCounts(a[1..], out - {a[0]});
        WithoutOther(a[1..], out, a[0]);
      } else {
        WithoutCounts(a[1..], out);
      }
    }
  }

  lemma {:induction false} WithoutOther(a: seq<string>, out: set<string>, x: string)
    requires x !in a
    ensures Without(a, out) == Without(a, out - {x})
  {
    if a != [] {
      WithoutOther(a[1..], out, x);
    }
  }

  lemma {:induction false} WithoutAll(a: seq<string>, out: set<string>)
    requires forall i | 0 <= i < |a| :: a[i] in out
    ensures Without(a, out) == []
  {
    if a != [] {
      WithoutAll(a[1..], out);
    }
  }

  lemma {:induction false} WithoutSame(a: seq<string>, x: set<string>, y: set<string>)
    requires forall i | 0 <= i < |a| :: a[i] in x <==> a[i] in y
    ensures Without(a, x) == Without(a, y)
  {
    if a != [] {
      WithoutSame(a[1..], x, y);
    }
  }

  /** A page moves from what is to come to what is passed. */
  lemma PageParted(pre: seq<string>, page: seq<string>, post: seq<string>, asked: set<string>, gone: nat)
    requires Parted(pre, page + post, asked, gone)
    ensures Parted(pre + page, post, asked + Elements(page), gone)
  {
    var all, more := pre + page + post, asked + Elements(page);
    assert all == pre + (page + post);
    forall i | 0 <= i < |pre| ensures pre[i] !in page {
      forall j | 0 <= j < |page| ensures pre[i] != page[j] { assert all[i] != all[|pre| + j]; }
    }
    forall i | 0 <= i < |post| ensures post[i] !in more {
      assert (page + post)[|page| + i] == post[i];
      forall j | 0 <= j < |page| ensures post[i] != page[j] { assert all[|pre| + j] != all[|pre| + |page| + i]; }
    }
    WithoutJoin(pre, page, more);
    WithoutAll(page, more);
    WithoutSame(pre, asked, more);
  }

  lemma RequestKeeps(s: Paging, limit: nat)
    requires Inv(s)
    ensures Inv(Take(s, Request(limit)))
  {
    hide Parted, Elements, Distinct;
    var q, n := Passed(s), Min(limit, |s.ids| - Passed(s));
    var pre, page, post, t := s.ids[..q], s.ids[q..q + n], s.ids[q + n..], Take(s, Request(limit));
    assert s.ids[q..] == page + post;
    PageParted(pre, page, post, s.asked, s.gone);
    assert t.ids[..Passed(t)] == pre + page && t.ids[Passed(t)..] == post;
  }

  lemma LeaveSplits(pre: seq<string>, post: seq<string>, asked: set<string>, out: set<string>)
    requires Distinct(pre + post) && (forall i | 0 <= i < |post| :: post[i] !in asked)
    requires out <= asked * Elements(pre)
    ensures Without(pre + post, out) == Without(pre, out) + post && |Without(pre, out)| == |pre| - |out|
    ensures Distinct(Without(pre, out) + post)
  {
    WithoutJoin(pre, post, out);
    WithoutNone(post, out);
    WithoutKeeps(pre + post, out);
    assert Distinct(pre) by {
      forall i, j | 0 <= i < j < |pre| ensures pre[i] != pre[j] { assert (pre + post)[i] != (pre + post)[j]; }
    }
    WithoutCounts(pre, out);
  }

  /** Requested messages leave, and as many of those to come move up. */
  lemma LeaveParted(pre: seq<string>, post: seq<string>, asked: set<string>, gone: nat, out: set<string>, k: nat)
    requires Parted(pre, post, asked, gone) && out <= asked * Elements(pre) && k == Min(|out|, |post|)
    ensures Parted(Without(pre, out) + post[..k], post[k..], asked, gone + |out|)
  {
    hide Distinct, Elements;
    var kept := Without(pre, out);
    LeaveSplits(pre, post, asked, out);
    assert kept + post[..k] + post[k..] == kept + post;
    WithoutJoin(kept, post[..k], asked);
    WithoutTwice(pre, out, asked);
    WithoutNone(post[..k], asked);
  }

  lemma LeaveKeeps(s: Paging, out: set<string>)
    requires Inv(s) && out <= s.asked * Elements(s.ids)
    ensures Inv(Take(s, Leave(out)))
  {
    var q, t := Passed(s), Take(s, Leave(out));
    var pre, post := s.ids[..q], s.ids[q..];
    assert s.ids == pre + post;
    assert out <= Elements(pre);
    var k := Min(|out|, |post|);
    LeaveSplits(pre, post, s.asked, out);
    LeaveParted(pre, post, s.asked, s.gone, out, k);
    assert t.ids[..Passed(t)] == Without(pre, out) + post[..k] && t.ids[Passed(t)..] == post[k..];
  }

  lemma {:induction false} PagingKeeps(s: Paging, turns: seq<Turn>)
    requires Inv(s) && OwnMoves(s, turns)
    ensures Inv(TakeAll(s, turns))
    decreases |turns|
  {
    if turns != [] {
      match turns[0] {
        case Request(limit) => RequestKeeps(s, limit);
        case Leave(out) => LeaveKeeps(s, out);
      }
      PagingKeeps(Take(s, turns[0]), turns[1..]);
    }
  }

  /** However requests and moves alternate, the sweep has passed over as many messages as it has moved
      away, or over every message it has not requested, whichever is less; the next page starts behind
      them, and no later page gives them. */
  lemma SkipsWhatItMoves(ids: seq<string>, turns: seq<Turn>)
    requires Distinct(ids) && OwnMoves(Paging(ids, 0, {}, 0), turns)
    ensures var s := TakeAll(Paging(ids, 0, {}, 0), turns);
            && |Skipped(s)| == Min(s.gone, |Without(s.ids, s.asked)|)
            && Without(s.ids, s.asked) == Skipped(s) + s.ids[Passed(s)..]
  {
    var start := Paging(ids, 0, {}, 0);
    assert ids[..0] == [];
    PagingKeeps(start, turns);
    var s := TakeAll(start, turns);
    assert s.ids == s.ids[..Passed(s)] + s.ids[Passed(s)..];
    WithoutJoin(s.ids[..Passed(s)], s.ids[Passed(s)..], s.asked);
    WithoutNone(s.ids[Passed(s)..], s.asked);
  }

  // ----- The provider's requests as such a run -----

  function Requests(windows: seq<(nat, nat)>): seq<Turn> {
    seq(|windows|, i requires 0 <= i < |windows| =>
      Request(if windows[i].0 <= windows[i].1 then windows[i].1 - windows[i].0 else 0))
  }

  lemma {:induction false} TakeOneMore(s: Paging, turns: seq<Turn>, turn: Turn)
    ensures TakeAll(s, turns + [turn]) == Take(TakeAll(s, turns), turn)
    decreases |turns|
  {
    if turns == [] {
      assert ([turn])[1..] == [] && turns + [turn] == [turn];
    } else {
      assert (turns + [turn])[0] == turns[0] && (turns + [turn])[1..] == turns[1..] + [turn];
      TakeOneMore(Take(s, turns[0]), turns[1..], turn);
    }
  }

  lemma PageTaken(ids: seq<string>, a: nat, b: nat)
    requires a <= b <= |ids|
    ensures Take(Paging(ids, a, Elements(ids[..a]), 0), Request(b - a)) == Paging(ids, b, Elements(ids[..b]), 0)
  {
    assert ids[..b] == ids[..a] + ids[a..b];
    assert Elements(ids[..b]) == Elements(ids[..a]) + Elements(ids[a..b]);
  }

  /** The last window, and those before it. */
  lemma LastWindow(windows: seq<(nat, nat)>, upTo: nat)
    requires Backfill.Tiled(windows, upTo) && windows != []
    ensures var n := |windows| - 1;
            var before, w := windows[..n], windows[n];
            && Backfill.Tiled(before, w.0) && w.0 <= w.1 == upTo
            && Requests(windows) == Requests(before) + [Request(w.1 - w.0)]
  {
    var n := |windows| - 1;
    assert n > 0 ==> windows[..n][n - 1] == windows[n - 1];
  }

  lemma {:induction false} WindowsArePages(ids: seq<string>, windows: seq<(nat, nat)>, upTo: nat)
    requires Backfill.Tiled(windows, upTo) && upTo <= |ids|
    ensures TakeAll(Paging(ids, 0, {}, 0), Requests(windows)) == Paging(ids, upTo, Elements(ids[..upTo]), 0)
    decreases |windows|
  {
    if windows == [] {
      assert Elements(ids[..0]) == {};
    } else {
      var n := |windows| - 1;
      var before, w := windows[..n], windows[n];
      LastWindow(windows, upTo);
      hide Requests, Backfill.Tiled, Elements, Take, TakeAll;
      WindowsArePages(ids, before, w.0);
      TakeOneMore(Paging(ids, 0, {}, 0), Requests(before), Request(w.1 - w.0));
      PageTaken(ids, w.0, w.1);
    }
  }

  /** What a provider has requested from a result that stays as it is, is such a run without moves: the same
      position, the same ids requested, and nothing passed over. */
  lemma ProviderPages(p: Backfill.Provider, requested: nat)
    requires Backfill.Covers(p, requested)
    ensures var s := TakeAll(Paging(Backfill.Ids(Backfill.Matches(p.backend)), 0, {}, 0), Requests(p.windows));
            s.position == requested && s.asked == Elements(p.asked) && Skipped(s) == []
  {
    var ids := Backfill.Ids(Backfill.Matches(p.backend));
    WindowsArePages(ids, p.windows, requested);
    assert p.asked == ids[..requested];
    WithoutAll(ids[..requested], Elements(ids[..requested]));
  }
}
