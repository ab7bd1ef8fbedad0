/** Bounds that hold over whole runs with crashes: applier calls per message, and audit before mark. */
module BoundedEffects {
  import opened Model
  import opened StateDb
  import opened RunFacts
  import opened Daemon
  import opened DaemonRuns
  import opened RunHistory
  import Tier1

  // ----- Counting -----

  function Calls(es: seq<Effect>, id: string): nat {
    if es == [] then 0
    else (if es[0].ActionCalled? && es[0].jmapId == id then 1 else 0) + Calls(es[1..], id)
  }

  function Returned(es: seq<Effect>, date: string): nat {
    if es == [] then 0
    else (if es[0].LlmReturned? && es[0].date == date then 1 else 0) + Returned(es[1..], date)
  }

  function Recorded(es: seq<Effect>, date: string): nat {
    if es == [] then 0
    else (if es[0].CallRecorded? && es[0].date == date then 1 else 0) + Recorded(es[1..], date)
  }

  lemma {:induction false} CountsConcat(a: seq<Effect>, b: seq<Effect>, k: string)
    ensures Calls(a + b, k) == Calls(a, k) + Calls(b, k)
    ensures Returned(a + b, k) == Returned(a, k) + Returned(b, k)
    ensures Recorded(a + b, k) == Recorded(a, k) + Recorded(b, k)
  {
    if a == [] {
      assert a + b == b;
    } else {
      assert (a + b)[0] == a[0] && (a + b)[1..] == a[1..] + b;
      CountsConcat(a[1..], b, k);
    }
  }

  /** One run calls the applier at most once, and never for another message. */
  lemma {:induction false} RunCallsOnce(es: seq<Effect>, id: string, other: string)
    requires forall i | 0 <= i < |es| :: About(es[i], id)
    requires forall i, j | 0 <= i < j < |es| && es[i].ActionCalled? :: !es[j].ActionCalled?
    ensures Calls(es, other) <= 1 && (Calls(es, other) > 0 ==> other == id && CallsApplier(es))
  {
    if es != [] {
      var t := es[1..];
      assert forall i | 0 <= i < |t| :: t[i] == es[i + 1];
      RunCallsOnce(t, id, other);
      if Calls(t, other) > 0 {
        var i :| 0 <= i < |t| && t[i].ActionCalled?;
        assert es[i + 1].ActionCalled?;
      }
    }
  }

  // ----- Applier calls -----

  /** The runs of the message that have called the applier; */
  function Acted(hist: seq<Past>, id: string): nat {
    if hist == [] then 0
    else
      var p := hist[|hist| - 1];
      Acted(hist[..|hist| - 1], id) + if p.id == id && CallsApplier(p.done) then 1 else 0
  }

  /** those of them that have not committed their mark. */
  function ActedUnmarked(hist: seq<Past>, id: string): nat {
    if hist == [] then 0
    else
      var p := hist[|hist| - 1];
      ActedUnmarked(hist[..|hist| - 1], id) + if p.id == id && CallsApplier(p.done) && !Marks(p.done, id) then 1 else 0
  }

  ghost predicate ActedAndMarked(hist: seq<Past>, id: string) {
    exists k | 0 <= k < |hist| :: hist[k].id == id && CallsApplier(hist[k].done) && Marks(hist[k].done, id)
  }

  lemma OneMorePast(hist: seq<Past>, p: Past, id: string)
    ensures Acted(hist + [p], id) == Acted(hist, id) + if p.id == id && CallsApplier(p.done) then 1 else 0
    ensures ActedUnmarked(hist + [p], id)
         == ActedUnmarked(hist, id) + if p.id == id && CallsApplier(p.done) && !Marks(p.done, id) then 1 else 0
  {
    assert (hist + [p])[..|hist|] == hist;
  }

  /** Every applier call is one run's. */
  ghost predicate ActLaw(log: seq<Effect>, hist: seq<Past>) {
    forall id :: Calls(log, id) == Acted(hist, id)
  }

  /** After a run that marked its message, no run of the message does anything. */
  ghost predicate MarksOnce(hist: seq<Past>) {
    forall j, k | 0 <= j < k < |hist| && hist[j].id == hist[k].id && Marks(hist[j].done, hist[j].id) ::
      hist[k].done == []
  }

  /** What earlier runs marked was processed when the run in hand began. */
  ghost predicate Started(setup: Setup, s: State) {
    s.proc.Some? && s.proc.value.pc.Running? ==>
      var began := s.proc.value.pc.run.began;
      && began <= |s.log|
      && forall id | MarkedIn(Pasts(s.runs), id) :: id in Replay(setup.found, s.log[..began]).processed
  }

  ghost predicate ActInv(setup: Setup, s: State) {
    && ActLaw(s.log, History(s)) && MarksOnce(History(s)) && Started(setup, s)
    && MarkLaw(setup.found, s.log, History(s))
  }

  lemma CommitKeepsActLaw(log: seq<Effect>, hist: seq<Past>, p: Past, e: Effect)
    requires ActLaw(log, hist + [p]) && About(e, p.id) && (e.ActionCalled? ==> !CallsApplier(p.done))
    ensures ActLaw(log + [e], hist + [Past(p.id, p.done + [e])])
  {
    var q := Past(p.id, p.done + [e]);
    assert q.done[|p.done|] == e && forall i | 0 <= i < |p.done| :: q.done[i] == p.done[i];
    assert CallsApplier(q.done) <==> CallsApplier(p.done) || e.ActionCalled?;
    forall id ensures Calls(log + [e], id) == Acted(hist + [q], id) {
      CountsConcat(log, [e], id);
      OneMorePast(hist, p, id);
      OneMorePast(hist, q, id);
    }
  }

  lemma QuietKeepsActLaw(log: seq<Effect>, hist: seq<Past>, e: Effect)
    requires ActLaw(log, hist) && !e.ActionCalled?
    ensures ActLaw(log + [e], hist)
  {
    forall id ensures Calls(log + [e], id) == Acted(hist, id) {
      CountsConcat(log, [e], id);
    }
  }

  lemma OpenKeepsActLaw(log: seq<Effect>, hist: seq<Past>, id: string)
    requires ActLaw(log, hist) && MarksOnce(hist)
    ensures ActLaw(log, hist + [Past(id, [])]) && MarksOnce(hist + [Past(id, [])])
  {
    var more := hist + [Past(id, [])];
    forall x ensures Calls(log, x) == Acted(more, x) {
      OneMorePast(hist, Past(id, []), x);
    }
    assert forall k | 0 <= k < |hist| :: more[k] == hist[k];
  }

  /** The next effect of the run in hand is its first applier call, if it is one. */
  lemma NextActs(setup: Setup, s: State, run: MessageRun)
    requires RunFits(setup, s, run) && run.rest != []
    ensures About(run.rest[0], run.message.id)
    ensures run.rest[0].ActionCalled? ==> !CallsApplier(Committed(s, run))
  {
    var whole, done := Whole(s, run), Committed(s, run);
    assert whole[|done|] == run.rest[0] && forall i | 0 <= i < |done| :: whole[i] == done[i];
  }

  /** Nor does the run in hand commit anything if an earlier one marked the message. */
  lemma NoneMarkedBefore(setup: Setup, s: State, run: MessageRun)
    requires RunFits(setup, s, run) && run.rest != []
    requires s.proc.Some? && s.proc.value.pc.Running? && s.proc.value.pc.run == run && Started(setup, s)
    ensures !MarkedIn(Pasts(s.runs), run.message.id)
  {
    assert Whole(s, run) != [];
  }

  lemma CommitKeepsOnce(hist: seq<Past>, p: Past, e: Effect)
    requires MarksOnce(hist + [p]) && !MarkedIn(hist, p.id)
    ensures MarksOnce(hist + [Past(p.id, p.done + [e])])
  {
    var was, now := hist + [p], hist + [Past(p.id, p.done + [e])];
    assert forall k | 0 <= k < |hist| :: now[k] == hist[k] == was[k];
  }

  ghost predicate SameRun(s: State, t: State) {
    t.proc.Some? && t.proc.value.pc.Running? ==>
      && s.proc.Some? && s.proc.value.pc.Running? && t.runs == s.runs && s.log <= t.log
      && t.proc.value.pc.run.began == s.proc.value.pc.run.began
  }

  /** The turns that may leave a run in hand: those of the run itself, and the handlers. */
  predicate KeepsRun(turn: Turn) {
    turn.Finish? || turn.BeginTier2? || turn.CommitNext? || turn.RequestStop? || turn.CallPause? || turn.CallResume?
    || turn.CallReload?
  }

  lemma RunTurn(setup: Setup, s: State, p: Proc, turn: Turn)
    requires s.proc == Some(p) && CanTake(setup, s, p, turn) && KeepsRun(turn)
    ensures SameRun(s, After(setup, s, p, turn))
  {
    hide InHand, DbOf, StartRun, AfterCheck, Acknowledge, Capture, PollResult;
  }

  lemma OtherTurn(setup: Setup, s: State, p: Proc, turn: Turn)
    requires s.proc == Some(p) && CanTake(setup, s, p, turn) && !KeepsRun(turn) && !turn.Begin?
    ensures SameRun(s, After(setup, s, p, turn))
  {
    hide InHand, DbOf, StartRun, StartTier2, AfterRun, PollResult, BudgetSpent;
  }

  /** A run that is in hand after a step, if it did not begin with it, was in hand before. */
  lemma RunStays(setup: Setup, s: State, a: Act)
    requires Enabled(setup, s, a) && !(a.Take? && a.turn.Begin?)
    ensures SameRun(s, Next(setup, s, a))
  {
    if a.Take? {
      hide CanTake, After, SameRun;
      if KeepsRun(a.turn) {
        RunTurn(setup, s, s.proc.value, a.turn);
      } else {
        OtherTurn(setup, s, s.proc.value, a.turn);
      }
    }
  }

  lemma StartedKept(setup: Setup, s: State, a: Act)
    requires Started(setup, s) && MarkLaw(setup.found, s.log, History(s)) && Enabled(setup, s, a)
    ensures Started(setup, Next(setup, s, a))
  {
    if a.Take? && a.turn.Begin? {
      BeginStarted(setup, s, s.proc.value, s.proc.value.pc.work, a.turn.env, a.turn.classifier);
    } else {
      RunStays(setup, s, a);
      hide Next, Enabled, Replay, MarkedIn, Pasts;
      var t := Next(setup, s, a);
      if t.proc.Some? && t.proc.value.pc.Running? {
        assert t.log[..t.proc.value.pc.run.began] == s.log[..t.proc.value.pc.run.began];
      }
    }
  }

  lemma BeginStarted(
    setup: Setup, s: State, p: Proc, work: Work, env: Tier1.Env, classifier: Option<Outcome<string>>)
    requires MarkLaw(setup.found, s.log, History(s))
    requires s.proc == Some(p) && p.pc == Handling(work) && work.todo != []
    ensures Started(setup, StartRun(setup, s, p, work, env, classifier))
  {
    NothingInHand(s);
    StartsSettled(setup, s);
    assert s.log[..|s.log|] == s.log;
    hide Replay, MarkedIn, Pasts, MarkLaw;
  }

  lemma StartsSettled(setup: Setup, s: State)
    requires MarkLaw(setup.found, s.log, History(s)) && History(s) == Pasts(s.runs)
    ensures forall id | MarkedIn(Pasts(s.runs), id) :: id in Replay(setup.found, s.log).processed
  {}

  lemma ActInvKept(setup: Setup, s: State, a: Act)
    requires ActInv(setup, s) && RunInv(setup, s) && Enabled(setup, s, a)
    ensures ActInv(setup, Next(setup, s, a))
  {
    var t := Next(setup, s, a);
    StepMoves(setup, s, a);
    MarkLawKept(setup, s, a);
    StartedKept(setup, s, a);
    hide Next, Enabled, MarkLaw, MarksOnce, ActLaw;
    if StaysPut(s, t) {
      if t.log != s.log {
        var e :| Outside(e) && t.log == s.log + [e];
        QuietKeepsActLaw(s.log, History(s), e);
      }
    } else if Opens(s, t) {
      var id :| History(t) == History(s) + [Past(id, [])];
      OpenKeepsActLaw(s.log, History(s), id);
    } else {
      var run := s.proc.value.pc.run;
      var p := Past(run.message.id, Committed(s, run));
      NextActs(setup, s, run);
      NoneMarkedBefore(setup, s, run);
      CommitKeepsActLaw(s.log, Pasts(s.runs), p, run.rest[0]);
      CommitKeepsOnce(Pasts(s.runs), p, run.rest[0]);
    }
  }

  lemma {:induction false} ActInvHolds(setup: Setup, from: State, acts: seq<Act>, s: State)
    requires ActInv(setup, from) && RunInv(setup, from) && Reaches(setup, from, acts, s)
    ensures ActInv(setup, s) && RunInv(setup, s)
    decreases |acts|
  {
    if acts != [] {
      ActInvKept(setup, from, acts[0]);
      RunInvKept(setup, from, acts[0]);
      ActInvHolds(setup, Next(setup, from, acts[0]), acts[1..], s);
    }
  }

  /** At most one run of a message calls the applier and marks the message. */
  lemma {:induction false} OneMarked(hist: seq<Past>, id: string)
    requires MarksOnce(hist)
    ensures Acted(hist, id) == ActedUnmarked(hist, id) + if ActedAndMarked(hist, id) then 1 else 0
  {
    if hist != [] {
      var n := |hist| - 1;
      var before, p := hist[..n], hist[n];
      assert hist == before + [p] && forall k | 0 <= k < n :: before[k] == hist[k];
      OneMarked(before, id);
      OneMorePast(before, p, id);
      if ActedAndMarked(before, id) {
        var k :| 0 <= k < n && before[k].id == id && CallsApplier(before[k].done) && Marks(before[k].done, id);
        assert hist[k].id == id && CallsApplier(hist[k].done) && Marks(hist[k].done, id);
      }
    }
  }

  /** In every reachable state the applier has been called for a message exactly once for each of its runs
      that called it and was cut short before the mark, or is in hand before it; and once more if a run
      called it and marked the message. So it is at most one call more than such runs that are over. */
  lemma ApplierCallsBounded(setup: Setup, s: State, id: string)
    requires Reachable(setup, s)
    ensures Calls(s.log, id) == ActedUnmarked(History(s), id) + if ActedAndMarked(History(s), id) then 1 else 0
    ensures Calls(s.log, id) <= 1 + ActedUnmarked(Pasts(s.runs), id)
  {
    var from, acts :| Initial(setup, from) && Reaches(setup, from, acts, s);
    assert History(from) == [];
    ActInvHolds(setup, from, acts, s);
    OneMarked(History(s), id);
    if s.proc.Some? && s.proc.value.pc.Running? {
      var run := s.proc.value.pc.run;
      var p := Past(run.message.id, Committed(s, run));
      InHandIsLast(s, s.proc.value, run, s.proc.value.pc.work);
      OneMorePast(Pasts(s.runs), p, id);
      NoneMarkedYet(Pasts(s.runs), p, id);
    } else {
      NothingInHand(s);
    }
  }

  /** And a run that is over, called the applier and did not mark the message was cut short. */
  lemma OnlyCutRunsActUnmarked(setup: Setup, s: State, r: EndedRun)
    requires Reachable(setup, s) && r in s.runs && CallsApplier(r.done) && !Marks(r.done, r.id)
    ensures !r.finished
  {
    FinishedRuns(setup, s, r);
  }

  lemma NoneMarkedYet(hist: seq<Past>, p: Past, id: string)
    requires MarksOnce(hist + [p])
    ensures p.id == id && CallsApplier(p.done) && !Marks(p.done, id) ==> !ActedAndMarked(hist + [p], id)
  {
    var more := hist + [p];
    assert more[|hist|] == p;
  }

  // ----- Audit before mark -----

  /** Every mark in the log stands after an audit entry for the same message. */
  ghost predicate MarksAudited(log: seq<Effect>) {
    forall k | 0 <= k < |log| && log[k].Marked? :: AuditedBefore(log, log[k].jmapId, k)
  }

  lemma AppendAudited(log: seq<Effect>, e: Effect)
    requires MarksAudited(log) && (e.Marked? ==> AuditedBefore(log, e.jmapId, |log|))
    ensures MarksAudited(log + [e])
  {
    var t := log + [e];
    forall k | 0 <= k < |t| && t[k].Marked? ensures AuditedBefore(t, t[k].jmapId, k) {
      assert AuditedBefore(log, t[k].jmapId, k) by { if k < |log| { assert log[k] == t[k]; } }
      var j :| 0 <= j < k <= |log| && log[j].AuditWritten? && log[j].jmapId == t[k].jmapId;
      assert t[j] == log[j];
    }
  }

  lemma CommitAudited(setup: Setup, s: State, run: MessageRun)
    requires RunFits(setup, s, run) && run.rest != [] && MarksAudited(s.log)
    ensures MarksAudited(s.log + [run.rest[0]])
  {
    var e, whole, n := run.rest[0], Whole(s, run), |s.log| - run.began;
    assert whole[n] == e;
    if e.Marked? {
      assert About(e, run.message.id) && AuditedBefore(whole, run.message.id, n);
      var j :| 0 <= j < n && whole[j].AuditWritten? && whole[j].jmapId == run.message.id;
      assert s.log[run.began + j] == whole[j];
      assert AuditedBefore(s.log, e.jmapId, |s.log|);
    }
    AppendAudited(s.log, e);
  }

  lemma TurnAudited(setup: Setup, s: State, p: Proc, turn: Turn)
    requires MarksAudited(s.log) && RunInv(setup, s) && s.proc == Some(p) && CanTake(setup, s, p, turn)
    ensures MarksAudited(After(setup, s, p, turn).log)
  {
    match turn
    case CommitNext => CommitAudited(setup, s, p.pc.run);
    case WriteEvent(ts) => AppendAudited(s.log, AuditWritten(ts, "", EventName(p.pc.captured[0]), None));
    case CheckBudget(_, id, _) => AppendAudited(s.log, Alerted(id, "Daily LLM budget exhausted", Critical));
    case Ack =>
      AppendAudited(s.log,
        CursorSet(setup.account, if p.pc.Acking? then p.pc.checkpoint else p.pc.work.checkpoint));
    case _ =>
  }

  lemma {:induction false} MarksAuditedHolds(setup: Setup, from: State, acts: seq<Act>, s: State)
    requires MarksAudited(from.log) && RunInv(setup, from) && Reaches(setup, from, acts, s)
    ensures MarksAudited(s.log)
    decreases |acts|
  {
    if acts != [] {
      if acts[0].Take? {
        TurnAudited(setup, from, from.proc.value, acts[0].turn);
      }
      RunInvKept(setup, from, acts[0]);
      MarksAuditedHolds(setup, Next(setup, from, acts[0]), acts[1..], s);
    }
  }

  lemma {:induction false} ProcessedWasMarked(db: Db, log: seq<Effect>, id: string)
    requires id in Replay(db, log).processed && id !in db.processed
    ensures exists k :: 0 <= k < |log| && log[k].Marked? && log[k].jmapId == id
    decreases |log|
  {
    if log[0].Marked? && log[0].jmapId == id {
    } else {
      ProcessedWasMarked(Commit(db, log[0]), log[1..], id);
      var k :| 0 <= k < |log| - 1 && log[1..][k].Marked? && log[1..][k].jmapId == id;
      assert log[k + 1] == log[1..][k];
    }
  }

  function Processed(setup: Setup, log: seq<Effect>, id: string): bool {
    id in Replay(setup.found, log).processed
  }

  /** In every reachable state, each message that has become processed has an audit entry, written
      before its mark. */
  lemma ProcessedIsAudited(setup: Setup, s: State, id: string)
    requires Reachable(setup, s) && Processed(setup, s.log, id) && id !in setup.found.processed
    ensures exists k: nat :: k < |s.log| && s.log[k].Marked? && s.log[k].jmapId == id && AuditedBefore(s.log, id, k)
  {
    var from, acts :| Initial(setup, from) && Reaches(setup, from, acts, s);
    MarksAuditedHolds(setup, from, acts, s);
    ProcessedWasMarked(setup.found, s.log, id);
  }
}
