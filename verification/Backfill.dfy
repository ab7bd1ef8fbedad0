/** Backfill: paging through mail that is already there, and sending it through the same tiers. */
module Backfill {
  import opened Model
  import opened StateDb
  import opened Pipelines
  import opened Tracing
  import opened Escalate
  import RuleEngine
  import RunFacts
  import Tier1
  import Tier2

  // ----- One page after another -----

  /** One entry of a query's result, and what a fetch of its id gives: nothing if it is gone. */
  datatype Match = Match(id: string, mail: Option<Message>)

  function Survivors(matches: seq<Match>): seq<Message> {
    if matches == [] then []
    else (if matches[0].mail.Some? then [matches[0].mail.value] else []) + Survivors(matches[1..])
  }

  lemma {:induction false} SurvivorsJoin(a: seq<Match>, b: seq<Match>)
    ensures Survivors(a + b) == Survivors(a) + Survivors(b)
  {
    if a == [] {
      assert a + b == b;
    } else {
      assert (a + b)[0] == a[0] && (a + b)[1..] == a[1..] + b;
      SurvivorsJoin(a[1..], b);
      var first := if a[0].mail.Some? then [a[0].mail.value] else [];
      assert Survivors(a + b) == first + (Survivors(a[1..]) + Survivors(b));
    }
  }

  lemma {:induction false} SurvivorsAreFew(a: seq<Match>)
    ensures |Survivors(a)| <= |a|
  {
    if a != [] {
      SurvivorsAreFew(a[1..]);
    }
  }

  function Ids(matches: seq<Match>): seq<string> {
    seq(|matches|, i requires 0 <= i < |matches| => matches[i].id)
  }

  ghost predicate Distinct(ids: seq<string>) {
    forall i, j | 0 <= i < j < |ids| :: ids[i] != ids[j]
  }

  function Present(messages: seq<Message>): seq<Match> {
    seq(|messages|, i requires 0 <= i < |messages| => Match(messages[i].id, Some(messages[i])))
  }

  lemma {:induction false} PresentSurvive(messages: seq<Message>, a: nat, b: nat)
    requires a <= b <= |messages|
    ensures Survivors(Present(messages)[a..b]) == messages[a..b]
    decreases b - a
  {
    if a < b {
      PresentSurvive(messages, a + 1, b);
      assert Present(messages)[a..b][1..] == Present(messages)[a + 1..b];
      assert messages[a..b] == [messages[a]] + messages[a + 1..b];
    }
  }

  datatype Page = Page(messages: seq<Message>, position: nat, nextPosition: nat, total: Option<nat>, hasMore: bool)

  /** A JMAP account, whose server may cap a page (`serverMax` more than one id) and may not report a
      total; or a file of messages. */
  datatype Backend =
    | JmapBackend(matches: seq<Match>, serverMax: nat -> nat, reportsTotal: bool)
    | FileBackend(messages: seq<Message>)

  function Matches(b: Backend): seq<Match> {
    match b
    case JmapBackend(matches, _, _) => matches
    case FileBackend(messages) => Present(messages)
  }

  /** No more can be known to follow: the query is exhausted, or the server never gives a total. */
  ghost predicate AtEnd(b: Backend, reached: nat) {
    reached >= |Matches(b)| || (b.JmapBackend? && !b.reportsTotal)
  }

  /** The entries from `a` to `b`; none if `a` is past the end. */
  function Slice<T>(all: seq<T>, a: nat, b: nat): seq<T> {
    if a <= b <= |all| then all[a..b] else []
  }

  /** Where a page of at most `limit` entries from `position` ends. */
  function PageEnd(position: nat, limit: nat, size: nat): (n: nat)
    ensures position <= n && (n <= size || n == position) && n - position <= limit
    ensures position < size && limit > 0 ==> position < n
  {
    if position >= size then position else position + Min(limit, size - position)
  }

  function Min(a: nat, b: nat): nat {
    if a < b then a else b
  }

  /** The windows requested so far start at 0, and each starts where the one before it ended. */
  ghost predicate Tiled(windows: seq<(nat, nat)>, upTo: nat) {
    && (windows == [] ==> upTo == 0)
    && (windows != [] ==> windows[0].0 == 0 && windows[|windows| - 1].1 == upTo)
    && (forall i | 0 <= i < |windows| :: windows[i].0 <= windows[i].1)
    && (forall i | 0 < i < |windows| :: windows[i].0 == windows[i - 1].1)
  }

  class Provider {
    const backend: Backend
    const fails: nat -> bool
    var requests: nat
    ghost var windows: seq<(nat, nat)>
    ghost var asked: seq<string>

    constructor (backend: Backend, fails: nat -> bool)
      ensures this.backend == backend && this.fails == fails && windows == [] && asked == []
    {
      this.backend, this.fails, requests := backend, fails, 0;
      windows, asked := [], [];
    }

    /** Email/query, then Email/get of the ids it gave. The next position counts ids, not messages. */
    method QueryJmap(position: nat, limit: nat) returns (r: Outcome<Page>, ghost next: Option<nat>)
      requires backend.JmapBackend?
      modifies this
      ensures Asked(old(windows), old(asked), position, limit, next, r)
      ensures r.Raised? ==> LastFailed()
      ensures r.Ok? ==> forall k | old(requests) <= k < requests :: !fails(k)
    {
      var all := backend.matches;
      var failed := fails(requests);
      var cap := backend.serverMax(requests) + 1;
      requests := requests + 1;
      if failed {
        return Raised(JmapError), None;
      }
      var nextPosition := PageEnd(position, Min(limit, cap), |all|);
      var ids := Slice(all, position, nextPosition);
      windows, asked := windows + [(position, nextPosition)], asked + Ids(ids);
      next := Some(nextPosition);
      var messages: seq<Message> := [];
      if ids != [] {
        failed := fails(requests);
        requests := requests + 1;
        if failed {
          return Raised(JmapError), next;
        }
        messages := Survivors(ids);
      }
      var total := if backend.reportsTotal then Some(|all|) else None;
      r := Ok(Page(messages, position, nextPosition, total, total.Some? && nextPosition < total.value));
    }

    /** The same over a file: a slice, with a total. */
    method QueryFile(position: nat, limit: nat) returns (r: Outcome<Page>, ghost next: Option<nat>)
      requires backend.FileBackend?
      modifies this
      ensures Asked(old(windows), old(asked), position, limit, next, r)
      ensures r.Ok? && requests == old(requests)
    {
      var all := backend.messages;
      var nextPosition := PageEnd(position, limit, |all|);
      var page := Slice(all, position, nextPosition);
      if nextPosition <= |all| {
        PresentSurvive(all, position, nextPosition);
      }
      windows := windows + [(position, nextPosition)];
      asked := asked + Ids(Slice(Present(all), position, nextPosition));
      next := Some(nextPosition);
      r := Ok(Page(page, position, nextPosition, Some(|all|), nextPosition < |all|));
    }

    /** The last request that was made failed. */
    ghost predicate LastFailed()
      reads this
    {
      requests > 0 && fails(requests - 1)
    }

    /** What either query promises the caller that walks through the pages. */
    ghost predicate Asked(was: seq<(nat, nat)>, before: seq<string>, position: nat, limit: nat,
      next: Option<nat>, r: Outcome<Page>)
      reads this
    {
      var all := Matches(backend);
      && (r.Raised? ==> r.exn == JmapError)
      && (next.None? ==> windows == was && asked == before && r.Raised?)
      && (next.Some? ==>
            var n := next.value;
            && position <= n && (n <= |all| || n == position) && n - position <= limit
            && (position < |all| && limit > 0 ==> position < n)
            && windows == was + [(position, n)] && asked == before + Ids(Slice(all, position, n))
            && (r.Ok? ==>
                  && r.value.nextPosition == n && r.value.messages == Survivors(Slice(all, position, n))
                  && (r.value.hasMore <==> !AtEnd(backend, n))))
    }

    method QueryMessages(position: nat, limit: nat) returns (r: Outcome<Page>, ghost next: Option<nat>)
      modifies this
      ensures Asked(old(windows), old(asked), position, limit, next, r)
      ensures r.Raised? ==> LastFailed()
      ensures r.Ok? ==> forall k | old(requests) <= k < requests :: !fails(k)
    {
      if backend.JmapBackend? {
        r, next := QueryJmap(position, limit);
      } else {
        r, next := QueryFile(position, limit);
      }
    }
  }

  // ----- One message after another -----

  /** The fixed parts of a backfill, and what the collaborators answer for the k-th message. */
  datatype Around = Around(
    rules: seq<Rule>, unmatched: Action, config: Tier2.Config,
    tier1: nat -> Tier1.Env, classifier: nat -> Option<Outcome<string>>, tier2: nat -> Env3)

  /** A backfill does not observe, and is built without receipt components. */
  function Tier1At(a: Around, k: nat): Tier1.Env {
    a.tier1(k).(observe := false, receipts := None)
  }

  function Tier2At(a: Around, k: nat): Env3 {
    a.tier2(k).(tier2 := a.tier2(k).tier2.(config := a.config))
  }

  datatype Tally = Tally(processed: nat, acted: nat, verdicts: nat, quarantined: nat)

  const ZERO := Tally(0, 0, 0, 0)

  function Plus(a: Tally, b: Tally): Tally {
    Tally(a.processed + b.processed, a.acted + b.acted, a.verdicts + b.verdicts, a.quarantined + b.quarantined)
  }

  datatype End = Going | Exhausted | Failed(exn: Exn)

  datatype Sweep = Sweep(effects: seq<Effect>, tally: Tally, end: End)

  function Tier2Sweep(before: seq<Effect>, y: Step<Escalated>): Sweep {
    match y.out
    case Raised(e) => Sweep(before + y.effects, Tally(1, 1, 0, 0), Failed(e))
    case Ok(BudgetExhausted) => Sweep(before + y.effects, Tally(1, 1, 0, 0), Exhausted)
    case Ok(Quarantined(_)) => Sweep(before + y.effects, Tally(1, 1, 0, 1), Going)
    case Ok(Decided(_)) => Sweep(before + y.effects, Tally(1, 1, 1, 0), Going)
  }

  function HandleOne(a: Around, k: nat, db: Db, m: Message): Sweep {
    var x := Tier1.Process(Tier1At(a, k), false, db, m, a.rules, a.unmatched, a.classifier(k));
    match x.out
    case Raised(e) => Sweep(x.effects, ZERO, Failed(e))
    case Ok(None) => Sweep(x.effects, Tally(1, 0, 0, 0), Going)
    case Ok(Some(v)) =>
      if v.action.kind != Escalate then Sweep(x.effects, Tally(1, 1, 0, 0), Going)
      else Tier2Sweep(x.effects, EscalateMessage(Tier2At(a, k), Replay(db, x.effects), m))
  }

  /** A backfill acts: for a message that is not yet processed, a rule's move or tag with its mailbox is carried out
      first of all. A rule that archives receipts ends it, for want of the components. */
  lemma BackfillActs(a: Around, k: nat, db: Db, m: Message, v: RuleVerdict)
    requires m.id !in db.processed && RuleEngine.Evaluate(m, a.rules, a.unmatched, a.classifier(k)) == Ok(v)
    ensures RunFacts.Applies(v.action) ==>
              var es := HandleOne(a, k, db, m).effects; es != [] && es[0] == ActionCalled(m.id, v.action)
    ensures v.action.kind == ArchiveReceipt ==>
              HandleOne(a, k, db, m) == Sweep([], ZERO, Failed(UnknownBranch("archive_receipt")))
  {
    hide RuleEngine.Evaluate, EscalateMessage;
    var x := Tier1.Process(Tier1At(a, k), false, db, m, a.rules, a.unmatched, a.classifier(k));
    RunFacts.AppliesExactly(Tier1At(a, k), false, db, m, a.rules, a.unmatched, a.classifier(k));
    if RunFacts.Applies(v.action) {
      assert x.effects[0] == ActionCalled(m.id, v.action);
    }
  }

  function Then(s: Sweep, t: Sweep): Sweep {
    Sweep(s.effects + t.effects, Plus(s.tally, t.tally), t.end)
  }

  type Handler = (nat, Db, Message) -> Sweep

  function Handling(a: Around): Handler {
    (k: nat, db: Db, m: Message) => HandleOne(a, k, db, m)
  }

  /** The messages in order, until one fails or finds the budget exhausted. */
  function HandleAll(h: Handler, k: nat, db: Db, ms: seq<Message>): Sweep
    decreases |ms|
  {
    if ms == [] then Sweep([], ZERO, Going)
    else
      var one := h(k, db, ms[0]);
      if one.end.Going? then Then(one, HandleAll(h, k + 1, Replay(db, one.effects), ms[1..])) else one
  }

  lemma {:induction false} HandledInTwo(h: Handler, k: nat, db: Db, x: seq<Message>, y: seq<Message>)
    ensures var s := HandleAll(h, k, db, x);
            HandleAll(h, k, db, x + y) ==
              if s.end.Going? then Then(s, HandleAll(h, k + |x|, Replay(db, s.effects), y)) else s
    decreases |x|
  {
    if x == [] {
      assert x + y == y;
      ThenNothing(HandleAll(h, k, db, y));
    } else {
      assert (x + y)[0] == x[0] && (x + y)[1..] == x[1..] + y;
      var one := h(k, db, x[0]);
      var next := Replay(db, one.effects);
      var s := HandleAll(h, k + 1, next, x[1..]);
      HandledInTwo(h, k + 1, next, x[1..], y);
      if one.end.Going? && s.end.Going? {
        ReplayConcat(db, one.effects, s.effects);
        ThenThen(one, s, HandleAll(h, k + |x|, Replay(next, s.effects), y));
      }
    }
  }

  lemma ThenNothing(t: Sweep)
    ensures Then(Sweep([], ZERO, Going), t) == t
  {
    assert [] + t.effects == t.effects;
  }

  lemma ThenThen(s: Sweep, t: Sweep, u: Sweep)
    ensures Then(Then(s, t), u) == Then(s, Then(t, u))
  {
    assert s.effects + t.effects + u.effects == s.effects + (t.effects + u.effects);
  }

  /** Every message is counted once, unless the sweep ends early; outcomes of Tier 2 are among the
      messages acted on. */
  lemma {:induction false} AllCounted(a: Around, k: nat, db: Db, ms: seq<Message>)
    ensures var s := HandleAll(Handling(a), k, db, ms);
            && s.tally.processed <= |ms| && (s.end.Going? ==> s.tally.processed == |ms|)
            && s.tally.verdicts + s.tally.quarantined <= s.tally.acted <= s.tally.processed
    decreases |ms|
  {
    if ms != [] {
      var one := Handling(a)(k, db, ms[0]);
      OneCounted(a, k, db, ms[0]);
      if one.end.Going? {
        AllCounted(a, k + 1, Replay(db, one.effects), ms[1..]);
      }
    }
  }

  lemma OneCounted(a: Around, k: nat, db: Db, m: Message)
    ensures var t := HandleOne(a, k, db, m).tally;
            && t.processed <= 1 && (HandleOne(a, k, db, m).end.Going? ==> t.processed == 1)
            && t.verdicts + t.quarantined <= t.acted <= t.processed
  {}

  // ----- A second sweep -----

  ghost predicate AllAbout(es: seq<Effect>, id: string) {
    forall i | 0 <= i < |es| :: RunFacts.About(es[i], id)
  }

  /** A message handled without an exception is marked, all that is done is about it, and if it was
      marked before, nothing is done. */
  lemma HandledIsMarked(a: Around, k: nat, db: Db, m: Message)
    ensures var s := HandleOne(a, k, db, m);
            && (!s.end.Failed? ==> m.id in Replay(db, s.effects).processed && s.tally.processed == 1)
            && (m.id in db.processed ==> s == Sweep([], Tally(1, 0, 0, 0), Going))
            && AllAbout(s.effects, m.id)
  {
    var x := Tier1.Process(Tier1At(a, k), false, db, m, a.rules, a.unmatched, a.classifier(k));
    RunFacts.Tier1Facts(Tier1At(a, k), db, m, a.rules, a.unmatched, a.classifier(k));
    if x.out.Ok? && x.out.value.Some? {
      if x.out.value.value.action.kind == Escalate {
        var mid := Replay(db, x.effects);
        var y := EscalateMessage(Tier2At(a, k), mid, m);
        RunFacts.EscalateFacts(Tier2At(a, k), mid, m);
        Tier2IsMarked(db, x.effects, y, m.id);
      } else {
        RunFacts.MarkedIsIn(db, x.effects, m.id);
      }
    }
  }

  lemma Tier2IsMarked(db: Db, before: seq<Effect>, y: Step<Escalated>, id: string)
    requires AllAbout(before, id) && RunFacts.Disciplined(y.effects, id)
    requires y.out.Ok? ==> RunFacts.Marks(y.effects, id)
    ensures var s := Tier2Sweep(before, y);
            AllAbout(s.effects, id) && (!s.end.Failed? ==> id in Replay(db, s.effects).processed)
  {
    ReplayConcat(db, before, y.effects);
    if y.out.Ok? {
      RunFacts.MarkedIsIn(Replay(db, before), y.effects, id);
    }
  }

  /** A handler marks its message, unless it fails. */
  ghost predicate Marking(h: Handler) {
    forall k, db, m | !h(k, db, m).end.Failed? ::
      m.id in Replay(db, h(k, db, m).effects).processed && h(k, db, m).tally.processed == 1
  }

  lemma BackfillIsMarking(a: Around)
    ensures Marking(Handling(a))
  {
    forall k, db, m | !Handling(a)(k, db, m).end.Failed?
      ensures m.id in Replay(db, Handling(a)(k, db, m).effects).processed
      ensures Handling(a)(k, db, m).tally.processed == 1
    {
      HandledIsMarked(a, k, db, m);
    }
  }

  lemma {:induction false} SweptIsMarked(h: Handler, k: nat, db: Db, ms: seq<Message>)
    requires Marking(h)
    ensures var s := HandleAll(h, k, db, ms);
            !s.end.Failed? ==>
              && s.tally.processed <= |ms|
              && forall i | 0 <= i < s.tally.processed :: ms[i].id in Replay(db, s.effects).processed
    decreases |ms|
  {
    if ms != [] {
      var one := h(k, db, ms[0]);
      if one.end.Going? {
        var next := Replay(db, one.effects);
        var rest := HandleAll(h, k + 1, next, ms[1..]);
        SweptIsMarked(h, k + 1, next, ms[1..]);
        ReplayConcat(db, one.effects, rest.effects);
        ProcessedGrows(next, rest.effects);
        assert forall i | 0 < i < |ms| :: ms[i] == ms[1..][i - 1];
      }
    }
  }

  /** A sweep over messages that are all marked does nothing but count them. */
  lemma {:induction false} MarkedMailIsSkipped(a: Around, k: nat, db: Db, ms: seq<Message>)
    requires forall m | m in ms :: m.id in db.processed
    ensures HandleAll(Handling(a), k, db, ms) == Sweep([], Tally(|ms|, 0, 0, 0), Going)
    decreases |ms|
  {
    if ms != [] {
      assert ms[0] in ms;
      HandledIsMarked(a, k, db, ms[0]);
      MarkedMailIsSkipped(a, k + 1, db, ms[1..]);
    }
  }

  /** What a handler does is about its message, and nothing if that is already marked. */
  ghost predicate Tidy(h: Handler) {
    forall k, db, m :: AllAbout(h(k, db, m).effects, m.id) && (m.id in db.processed ==> h(k, db, m).effects == [])
  }

  lemma BackfillIsTidy(a: Around)
    ensures Tidy(Handling(a))
  {
    forall k, db, m
      ensures AllAbout(Handling(a)(k, db, m).effects, m.id)
      ensures m.id in db.processed ==> Handling(a)(k, db, m).effects == []
    {
      HandledIsMarked(a, k, db, m);
    }
  }

  /** `e` is about one of `ms` that is not marked in `db`. */
  ghost predicate Concerns(e: Effect, ms: seq<Message>, db: Db) {
    exists m :: m in ms && m.id !in db.processed && RunFacts.About(e, m.id)
  }

  ghost predicate AllConcern(es: seq<Effect>, ms: seq<Message>, db: Db) {
    forall i | 0 <= i < |es| :: Concerns(es[i], ms, db)
  }

  lemma {:induction false} TidySweep(h: Handler, k: nat, db: Db, ms: seq<Message>)
    requires Tidy(h)
    ensures AllConcern(HandleAll(h, k, db, ms).effects, ms, db)
    decreases |ms|
  {
    if ms != [] {
      var one := h(k, db, ms[0]);
      assert ms[0] in ms && AllAbout(one.effects, ms[0].id);
      if one.end.Going? {
        var next := Replay(db, one.effects);
        var rest := HandleAll(h, k + 1, next, ms[1..]);
        TidySweep(h, k + 1, next, ms[1..]);
        ProcessedGrows(db, one.effects);
        forall i | 0 <= i < |rest.effects| ensures Concerns(rest.effects[i], ms, db) {
          var m :| m in ms[1..] && m.id !in next.processed && RunFacts.About(rest.effects[i], m.id);
          assert m in ms;
        }
      }
    }
  }

  /** Every effect of a sweep is about one of its messages that was not marked before the sweep. */
  lemma SweepSparesMarkedMail(a: Around, db: Db, ms: seq<Message>)
    ensures AllConcern(HandleAll(Handling(a), 0, db, ms).effects, ms, db)
  {
    BackfillIsTidy(a);
    TidySweep(Handling(a), 0, db, ms);
  }

  /** Two runs over the same mail, with any rules and any collaborators: the second does nothing with
      what the first has handled. */
  lemma SecondSweepIsIdle(
    a: Around, b: Around, db: Db, first: seq<Message>, second: seq<Message>, later: seq<Effect>)
    requires var s := HandleAll(Handling(a), 0, db, first);
             && !s.end.Failed?
             && forall m | m in second :: exists i | 0 <= i < s.tally.processed <= |first| :: first[i].id == m.id
    ensures var s := HandleAll(Handling(a), 0, db, first);
            HandleAll(Handling(b), 0, Replay(Replay(db, s.effects), later), second)
              == Sweep([], Tally(|second|, 0, 0, 0), Going)
  {
    var s := HandleAll(Handling(a), 0, db, first);
    BackfillIsMarking(a);
    SweptIsMarked(Handling(a), 0, db, first);
    ProcessedGrows(Replay(db, s.effects), later);
    MarkedMailIsSkipped(b, 0, Replay(Replay(db, s.effects), later), second);
  }

  // ----- The command -----

  method HandleMessage(a: Around, k: nat, db: StateDB, m: Message) returns (tally: Tally, end: End)
    requires db.Valid()
    modifies db
    ensures var s := HandleOne(a, k, old(db.View()), m); tally == s.tally && end == s.end
    ensures Did(db, old(db.history), old(db.View()), HandleOne(a, k, old(db.View()), m).effects)
  {
    ghost var log, was := db.history, db.View();
    var verdict := ProcessMessage(Tier1At(a, k), false, db, m, a.rules, a.unmatched, a.classifier(k));
    if verdict.Raised? {
      return ZERO, Failed(verdict.exn);
    }
    if verdict.value.None? {
      return Tally(1, 0, 0, 0), Going;
    }
    if verdict.value.value.action.kind != Escalate {
      return Tally(1, 1, 0, 0), Going;
    }
    ghost var x := Tier1.Process(Tier1At(a, k), false, was, m, a.rules, a.unmatched, a.classifier(k)).effects;
    tally, end := HandleEscalated(a, k, db, m, log, was, x);
  }

  method HandleEscalated(
    a: Around, k: nat, db: StateDB, m: Message, ghost log: seq<Effect>, ghost was: Db, ghost x: seq<Effect>)
    returns (tally: Tally, end: End)
    requires Did(db, log, was, x)
    modifies db
    ensures var s := Tier2Sweep(x, EscalateMessage(Tier2At(a, k), Replay(was, x), m));
            tally == s.tally && end == s.end && Did(db, log, was, s.effects)
  {
    ghost var mid, y := db.history, EscalateMessage(Tier2At(a, k), db.View(), m);
    var out := EscalateOrQuarantine(Tier2At(a, k), db, m);
    DidMore(db, log, mid, was, x, y.effects);
    match out
    case Raised(e) => return Tally(1, 1, 0, 0), Failed(e);
    case Ok(BudgetExhausted) => return Tally(1, 1, 0, 0), Exhausted;
    case Ok(Quarantined(_)) => return Tally(1, 1, 0, 1), Going;
    case Ok(Decided(_)) => return Tally(1, 1, 1, 0), Going;
  }

  lemma OneIsAll(h: Handler, k: nat, db: Db, m: Message)
    ensures HandleAll(h, k, db, [m]) == h(k, db, m)
  {
    var one := h(k, db, m);
    assert [m][1..] == [] && one.effects + [] == one.effects;
  }

  /** `db` has performed the sweep over `done`, and it is still going. */
  ghost predicate Swept(a: Around, db: StateDB, log: seq<Effect>, was: Db, done: seq<Message>, tally: Tally, end: End)
    reads db
  {
    var s := HandleAll(Handling(a), 0, was, done);
    s.tally == tally && s.end == end && Did(db, log, was, s.effects)
  }

  lemma NextMessage(h: Handler, was: Db, done: seq<Message>, m: Message)
    requires HandleAll(h, 0, was, done).end.Going?
    ensures var s := HandleAll(h, 0, was, done);
            HandleAll(h, 0, was, done + [m]) == Then(s, h(|done|, Replay(was, s.effects), m))
  {
    var s := HandleAll(h, 0, was, done);
    HandledInTwo(h, 0, was, done, [m]);
    OneIsAll(h, |done|, Replay(was, s.effects), m);
  }

  method HandleNext(
    a: Around, k: nat, db: StateDB, m: Message, ghost log: seq<Effect>, ghost was: Db, ghost done: seq<Message>,
    tally: Tally) returns (t: Tally, end: End)
    requires Swept(a, db, log, was, done, tally, Going) && k == |done|
    modifies db
    ensures Swept(a, db, log, was, done + [m], t, end) && (end.Going? ==> t.processed == tally.processed + 1)
  {
    OneCounted(a, k, db.View(), m);
    ghost var mid, view, s := db.history, db.View(), HandleAll(Handling(a), 0, was, done);
    NextMessage(Handling(a), was, done, m);
    var one: Tally;
    one, end := HandleMessage(a, k, db, m);
    DidMore(db, log, mid, was, s.effects, Handling(a)(k, view, m).effects);
    t := Plus(tally, one);
  }

  /** The messages of one page, up to the limit; it stops at a failure or an exhausted budget. */
  method HandlePage(
    a: Around, db: StateDB, page: seq<Message>, limit: nat, tally: Tally, ghost log: seq<Effect>, ghost was: Db,
    ghost done: seq<Message>) returns (t: Tally, end: End)
    requires Swept(a, db, log, was, done, tally, Going) && tally.processed == |done| && |done| + |page| <= limit
    modifies db
    ensures Swept(a, db, log, was, done + page, t, end)
  {
    t, end := tally, Going;
    var i := 0;
    ghost var sofar := done;
    while i < |page| && t.processed < limit && end.Going?
      invariant i <= |page| && Parted(done + page, sofar, page[i..])
      invariant Swept(a, db, log, was, sofar, t, end)
      invariant end.Going? ==> t.processed == |sofar| == |done| + i
    {
      Moved(done + page, sofar, page, i);
      t, end := HandleNext(a, t.processed, db, page[i], log, was, sofar, t);
      sofar, i := sofar + [page[i]], i + 1;
    }
    SweptWhole(a, db, log, was, sofar, page[i..], done + page, t, end);
  }

  ghost predicate Parted(all: seq<Message>, sofar: seq<Message>, rest: seq<Message>) {
    all == sofar + rest
  }

  lemma Moved(all: seq<Message>, sofar: seq<Message>, page: seq<Message>, i: nat)
    requires i < |page| && Parted(all, sofar, page[i..])
    ensures Parted(all, sofar + [page[i]], page[i + 1..])
  {
    assert page[i..] == [page[i]] + page[i + 1..];
  }

  /** A sweep that ended early, or has nothing left to do, is the sweep over the whole page. */
  lemma SweptWhole(
    a: Around, db: StateDB, log: seq<Effect>, was: Db, sofar: seq<Message>, rest: seq<Message>, all: seq<Message>,
    t: Tally, end: End)
    requires Swept(a, db, log, was, sofar, t, end) && Parted(all, sofar, rest) && (end.Going? ==> rest == [])
    ensures Swept(a, db, log, was, all, t, end)
  {
    HandledInTwo(Handling(a), 0, was, sofar, rest);
    if rest == [] {
      assert all == sofar;
    }
  }

  datatype Stop = LimitReached | BudgetGone | NothingFetched | NoMore | Aborted(exn: Exn)

  datatype Report = Report(tally: Tally, stop: Stop)

  /** What a fetch of the window `w` finds. */
  ghost function Window(matches: seq<Match>, w: (nat, nat)): seq<Message> {
    Survivors(Slice(matches, w.0, w.1))
  }

  /** Every window but the last has found something; so has the last, if `full`. */
  ghost predicate Fruitful(matches: seq<Match>, windows: seq<(nat, nat)>, full: bool) {
    && (forall i | 0 <= i < |windows| - 1 :: Window(matches, windows[i]) != [])
    && (windows != [] ==> (full <==> Window(matches, windows[|windows| - 1]) != []))
  }

  /** The provider's requests so far: adjacent windows from the start up to `reached`. */
  ghost predicate Covers(p: Provider, reached: nat)
    reads p
  {
    var all := Matches(p.backend);
    reached <= |all| && Tiled(p.windows, reached) && p.asked == Ids(all[..reached])
  }

  ghost predicate StopsFor(stop: Stop, end: End, found: nat, limit: nat, atEnd: bool, failed: bool) {
    match stop
    case LimitReached => end.Going? && found == limit
    case BudgetGone => end.Exhausted?
    case NothingFetched => end.Going?
    case NoMore => end.Going? && atEnd
    case Aborted(e) => end == Failed(e) || (end.Going? && e == JmapError && failed)
  }

  /** After no window but the last was the end known to be reached. */
  ghost predicate Onward(backend: Backend, windows: seq<(nat, nat)>) {
    forall i | 0 <= i < |windows| - 1 :: !AtEnd(backend, windows[i].1)
  }

  lemma OnwardMore(backend: Backend, windows: seq<(nat, nat)>, position: nat, next: nat)
    requires Onward(backend, windows) && Tiled(windows, position)
    requires windows != [] ==> !AtEnd(backend, position)
    ensures Onward(backend, windows + [(position, next)])
  {
    hide AtEnd;
    var more, n := windows + [(position, next)], |windows|;
    assert forall i | 0 <= i < n :: more[i] == windows[i];
  }

  lemma NextWindow(all: seq<Match>, position: nat, next: nat)
    requires position <= next <= |all|
    ensures Survivors(all[..next]) == Survivors(all[..position]) + Survivors(all[position..next])
    ensures Ids(all[..next]) == Ids(all[..position]) + Ids(all[position..next])
    ensures |Survivors(all[position..next])| <= next - position
  {
    assert all[..next] == all[..position] + all[position..next];
    SurvivorsJoin(all[..position], all[position..next]);
    SurvivorsAreFew(all[position..next]);
  }

  ghost predicate Requested(p: Provider, reached: nat, requested: nat, stop: Option<Stop>)
    reads p
  {
    && Covers(p, requested) && reached <= requested
    && (stop.Some? && !stop.value.Aborted? ==> p.windows != [])
    && Onward(p.backend, p.windows) && (stop.None? && p.windows != [] ==> !AtEnd(p.backend, reached))
    && (stop != Some(Aborted(JmapError)) ==>
          reached == requested && Fruitful(Matches(p.backend), p.windows, stop != Some(NothingFetched)))
  }

  lemma TiledMore(windows: seq<(nat, nat)>, position: nat, next: nat)
    requires Tiled(windows, position) && position <= next
    ensures Tiled(windows + [(position, next)], next)
  {
    var more, n := windows + [(position, next)], |windows|;
    assert more[n] == (position, next) && forall i | 0 <= i < n :: more[i] == windows[i];
  }

  lemma FruitfulMore(matches: seq<Match>, windows: seq<(nat, nat)>, w: (nat, nat))
    requires Fruitful(matches, windows, true)
    ensures Fruitful(matches, windows + [w], Window(matches, w) != [])
  {
    hide Window;
    var more, n := windows + [w], |windows|;
    assert more[n] == w && forall i | 0 <= i < n :: more[i] == windows[i];
  }

  lemma WindowAdded(p: Provider, windows: seq<(nat, nat)>, position: nat, next: nat)
    requires position <= next <= |Matches(p.backend)| && Tiled(windows, position)
    requires Fruitful(Matches(p.backend), windows, true) && p.windows == windows + [(position, next)]
    requires p.asked == Ids(Matches(p.backend)[..next])
    ensures Covers(p, next)
    ensures Fruitful(Matches(p.backend), p.windows, Survivors(Matches(p.backend)[position..next]) != [])
  {
    hide Tiled, Fruitful, Survivors;
    TiledMore(windows, position, next);
    FruitfulMore(Matches(p.backend), windows, (position, next));
  }

  /** Windows that tile a result without repetitions never ask for an id twice. */
  lemma NoIdAskedTwice(p: Provider, requested: nat)
    requires Covers(p, requested) && Distinct(Ids(Matches(p.backend)))
    ensures Distinct(p.asked)
  {
    var all := Matches(p.backend);
    forall i, j | 0 <= i < j < |p.asked| ensures p.asked[i] != p.asked[j] {
      assert p.asked[i] == Ids(all)[i] && p.asked[j] == Ids(all)[j];
    }
  }

  /** One request: the survivors of the next window, which is adjacent to those before it. */
  method FetchPage(provider: Provider, position: nat, limit: nat)
    returns (page: Outcome<Page>, ghost requested: nat)
    requires Covers(provider, position) && Fruitful(Matches(provider.backend), provider.windows, true)
    requires Onward(provider.backend, provider.windows)
    requires provider.windows != [] ==> !AtEnd(provider.backend, position)
    modifies provider
    ensures Onward(provider.backend, provider.windows)
    ensures Covers(provider, requested) && position <= requested
    ensures page.Raised? ==> page.exn == JmapError && provider.LastFailed()
    ensures page.Ok? ==> provider.windows != []
    ensures page.Ok? ==>
              var all, p := Matches(provider.backend), page.value;
              && p.nextPosition == requested && |p.messages| <= limit && |p.messages| <= requested - position
              && Survivors(all[..requested]) == Survivors(all[..position]) + p.messages
              && Fruitful(all, provider.windows, p.messages != [])
              && (p.hasMore <==> !AtEnd(provider.backend, requested))
  {
    ghost var windows := provider.windows;
    ghost var next: Option<nat>;
    page, next := provider.QueryMessages(position, limit);
    requested := position;
    if next.Some? {
      requested := next.value;
      NextWindow(Matches(provider.backend), position, requested);
      WindowAdded(provider, windows, position, requested);
      OnwardMore(provider.backend, windows, position, requested);
    }
  }

  /** One round: request the next window and, if it finds anything, handle that. */
  method NextPage(
    a: Around, provider: Provider, db: StateDB, limit: nat, pageSize: nat, position: nat, tally: Tally,
    ghost log: seq<Effect>, ghost was: Db)
    returns (t: Tally, end: End, reached: nat, stop: Option<Stop>, ghost requested: nat)
    requires Requested(provider, position, position, None) && pageSize >= 1
    requires Swept(a, db, log, was, Survivors(Matches(provider.backend)[..position]), tally, Going)
    requires tally.processed == |Survivors(Matches(provider.backend)[..position])| < limit
    modifies provider, db
    ensures Requested(provider, reached, requested, stop) && position <= reached
    ensures var found := Survivors(Matches(provider.backend)[..reached]);
            && Swept(a, db, log, was, found, t, end) && |found| <= limit
            && (stop.None? ==> end.Going? && t.processed == |found| && position < reached)
            && (stop.Some? ==>
                  StopsFor(stop.value, end, |found|, limit, AtEnd(provider.backend, reached), provider.LastFailed()))
  {
    hide HandleOne, HandleAll, Survivors, Tiled, Fruitful, Ids, Did;
    ghost var before := Survivors(Matches(provider.backend)[..position]);
    var page: Outcome<Page>;
    page, requested := FetchPage(provider, position, Min(pageSize, limit - tally.processed));
    t, end, reached, stop := tally, Going, position, None;
    if page.Raised? {
      stop := Some(Aborted(page.exn));
      return;
    }
    reached := page.value.nextPosition;
    if page.value.messages == [] {
      stop := Some(NothingFetched);
      assert before + [] == before;
      return;
    }
    t, end := HandlePage(a, db, page.value.messages, limit, tally, log, was, before);
    AllCounted(a, 0, was, before + page.value.messages);
    stop := match end
            case Failed(e) => Some(Aborted(e))
            case Exhausted => Some(BudgetGone)
            case Going => if page.value.hasMore then None else Some(NoMore);
  }

  /** Pages through the query until the limit, an exhausted budget, a page without messages, or the
      end. It performs exactly one sweep, over the survivors of the windows it requested; the windows
      tile the query's result from its start; it stops for the reason it reports; and it stops at the
      first window without survivors. */
  method RunBackfill(
    a: Around, backend: Backend, fails: nat -> bool, db: StateDB, limit: nat, pageSize: nat, ts: string, detail: string)
    returns (r: Report, provider: Provider, ghost reached: nat, ghost requested: nat)
    requires db.Valid() && limit >= 1 && pageSize >= 1
    modifies db
    ensures provider.backend == backend && provider.fails == fails
    ensures Requested(provider, reached, requested, Some(r.stop))
    ensures var found := Survivors(Matches(backend)[..reached]);
            var was := Commit(old(db.View()), AuditWritten(ts, "", "backfill_triggered", Some(detail)));
            var s := HandleAll(Handling(a), 0, was, found);
            && r.tally == s.tally && |found| <= limit && r.tally.processed <= limit
            && db.Valid() && db.View() == Replay(was, s.effects)
            && StopsFor(r.stop, s.end, |found|, limit, AtEnd(backend, reached), provider.LastFailed())
  {
    provider := new Provider(backend, fails);
    db.WriteControlPlaneAuditEntry(ts, "backfill_triggered", Some(detail));
    ghost var log, was, all := db.history, db.View(), Matches(backend);
    var tally, end, position := ZERO, Going, 0;
    assert all[..0] == [];
    NothingSwept(a, db, log, was);
    reached, requested := 0, 0;
    while tally.processed < limit
      invariant provider.backend == backend && provider.fails == fails && end.Going?
      invariant Requested(provider, position, position, None)
      invariant Swept(a, db, log, was, Survivors(all[..position]), tally, end)
      invariant tally.processed == |Survivors(all[..position])| <= limit
      invariant reached == requested == position
      decreases |all| - position
    {
      var stop: Option<Stop>;
      tally, end, position, stop, requested := NextPage(a, provider, db, limit, pageSize, position, tally, log, was);
      reached := position;
      if stop.Some? {
        AllCounted(a, 0, was, Survivors(all[..position]));
        return Report(tally, stop.value), provider, reached, requested;
      }
    }
    SurvivorsAreFew(all[..position]);
    r := Report(tally, LimitReached);
  }

  lemma NothingSwept(a: Around, db: StateDB, log: seq<Effect>, was: Db)
    requires db.Valid() && db.View() == was && db.history == log
    ensures Swept(a, db, log, was, [], ZERO, Going)
  {
    assert Untraced(log) + [] == Untraced(log);
  }
}
