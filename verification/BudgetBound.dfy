/** The daily budget of Tier 2 calls over whole runs, and the account of those calls. */
module BudgetBound {
  import opened Model
  import opened StateDb
  import opened RunFacts
  import opened Daemon
  import opened DaemonRuns
  import opened BoundedEffects
  import opened RunHistory
  import Escalate

  function CallsOn(db: Db, date: string): nat {
    UsageOn(db, date).calls
  }

  /** The recorded calls of a date are those found at first plus those recorded since. */
  lemma {:induction false} CallsAreRecords(db: Db, log: seq<Effect>, date: string)
    ensures CallsOn(Replay(db, log), date) == CallsOn(db, date) + Recorded(log, date)
    decreases |log|
  {
    if log != [] {
      CallsAreRecords(Commit(db, log[0]), log[1..], date);
    }
  }

  function Limit(setup: Setup, date: string): int {
    if CallsOn(setup.found, date) >= setup.config.budget then CallsOn(setup.found, date) else setup.config.budget
  }

  /** No date is over its limit, and a run in hand that has yet to record a call has room for it. */
  ghost predicate WithinBudget(setup: Setup, s: State) {
    && (forall d :: CallsOn(DbOf(setup, s), d) <= Limit(setup, d))
    && (s.proc.Some? && s.proc.value.pc.Running? ==>
          forall d :: Records(s.proc.value.pc.run.rest, d) ==>
            CallsOn(DbOf(setup, s), d) < setup.config.budget)
  }

  lemma LogsNoRecord(setup: Setup, s: State, e: Effect)
    requires !e.CallRecorded?
    ensures forall d :: CallsOn(DbOf(setup, Log1(s, e)), d) == CallsOn(DbOf(setup, s), d)
  {
    ReplayAppend(setup.found, s.log, e);
  }

  lemma AfterCommit(setup: Setup, s: State, p: Proc)
    requires s.proc == Some(p) && CanTake(setup, s, p, CommitNext)
    ensures After(setup, s, p, CommitNext)
         == At(Log1(s, p.pc.run.rest[0]), p, Running(p.pc.run.(rest := p.pc.run.rest[1..]), p.pc.work))
  {}

  /** Committing a recorded call uses the room the gate saw; nothing else of the run uses any. */
  lemma CommitWithin(setup: Setup, s: State, p: Proc)
    requires WithinBudget(setup, s) && RunInv(setup, s) && s.proc == Some(p) && CanTake(setup, s, p, CommitNext)
    ensures WithinBudget(setup, After(setup, s, p, CommitNext))
  {
    var e := p.pc.run.rest[0];
    OneRecord(s, p.pc.run);
    AfterCommit(setup, s, p);
    hide RunFits, Disciplined, Whole, Replay, After;
    if e.CallRecorded? {
      assert Records(p.pc.run.rest, e.date);
      ReplayAppend(setup.found, s.log, e);
    } else {
      LogsNoRecord(setup, s, e);
    }
  }

  /** A run records at most one call: what comes after a record records nothing. */
  lemma OneRecord(s: State, run: MessageRun)
    requires run.began <= |s.log| && run.rest != [] && Disciplined(Whole(s, run), run.message.id)
    ensures forall d | Records(run.rest[1..], d) :: Records(run.rest, d) && !run.rest[0].CallRecorded?
  {
    var rest, whole, n := run.rest[1..], Whole(s, run), |s.log| - run.began;
    assert whole[n] == run.rest[0] && (whole[n].CallRecorded? ==> n > 0 && Settles(whole[n - 1], whole[n]));
    forall d | Records(rest, d) ensures Records(run.rest, d) && !run.rest[0].CallRecorded? {
      var i :| 0 <= i < |rest| && rest[i].CallRecorded? && rest[i].date == d;
      assert run.rest[i + 1] == rest[i] == whole[n + 1 + i];
      assert Settles(whole[n + i], whole[n + 1 + i]);
    }
  }

  lemma EscalatesWithin(setup: Setup, s: State, p: Proc, env3: Escalate.Env3)
    requires WithinBudget(setup, s) && s.proc == Some(p) && CanTake(setup, s, p, BeginTier2(env3))
    ensures WithinBudget(setup, After(setup, s, p, BeginTier2(env3)))
  {
    EscalateFacts(env3, DbOf(setup, s), p.pc.run.message);
  }

  lemma BeginsWithin(setup: Setup, s: State, p: Proc, turn: Turn)
    requires WithinBudget(setup, s) && s.proc == Some(p) && CanTake(setup, s, p, turn) && turn.Begin?
    ensures WithinBudget(setup, After(setup, s, p, turn))
  {
    var work := p.pc.work;
    var m := work.todo[0];
    Tier1Facts(turn.env, DbOf(setup, s), m, work.rules, setup.unmatched, turn.classifier);
    Tier1NeverRecords(turn.env, DbOf(setup, s), m, work.rules, setup.unmatched, turn.classifier);
  }

  lemma TurnWithin(setup: Setup, s: State, p: Proc, turn: Turn)
    requires WithinBudget(setup, s) && RunInv(setup, s) && s.proc == Some(p) && CanTake(setup, s, p, turn)
    ensures WithinBudget(setup, After(setup, s, p, turn))
  {
    hide StartRun, StartTier2, PollResult, BudgetSpent, InHand, RunFits, Replay, CallsOn;
    match turn
    case CommitNext => CommitWithin(setup, s, p);
    case BeginTier2(env3) => EscalatesWithin(setup, s, p, env3);
    case Begin(_, _) => BeginsWithin(setup, s, p, turn);
    case WriteEvent(ts) => LogsNoRecord(setup, s, AuditWritten(ts, "", EventName(p.pc.captured[0]), None));
    case CheckBudget(_, id, _) => LogsNoRecord(setup, s, Alerted(id, "Daily LLM budget exhausted", Critical));
    case Ack =>
      LogsNoRecord(setup, s,
        CursorSet(setup.account, if p.pc.Acking? then p.pc.checkpoint else p.pc.work.checkpoint));
    case _ =>
  }

  lemma {:induction false} WithinBudgetHolds(setup: Setup, from: State, acts: seq<Act>, s: State)
    requires WithinBudget(setup, from) && RunInv(setup, from) && Reaches(setup, from, acts, s)
    ensures WithinBudget(setup, s)
    decreases |acts|
  {
    if acts != [] {
      if acts[0].Take? {
        TurnWithin(setup, from, from.proc.value, acts[0].turn);
      }
      RunInvKept(setup, from, acts[0]);
      WithinBudgetHolds(setup, Next(setup, from, acts[0]), acts[1..], s);
    }
  }

  /** In every reachable state each date's recorded calls are those found at first plus those
      recorded since, and never exceed the larger of that first count and the budget. */
  lemma DailyBudgetBound(setup: Setup, s: State, date: string)
    requires Reachable(setup, s)
    ensures CallsOn(DbOf(setup, s), date) == CallsOn(setup.found, date) + Recorded(s.log, date)
    ensures CallsOn(DbOf(setup, s), date) <= Limit(setup, date)
  {
    var from, acts :| Initial(setup, from) && Reaches(setup, from, acts, s);
    CallsAreRecords(setup.found, s.log, date);
    WithinBudgetHolds(setup, from, acts, s);
  }

  // ----- Model calls against records -----

  /** The run's last committed effect is a call that the model answered on `date`. */
  predicate EndsInCall(done: seq<Effect>, date: string) {
    Unsettled(done) && done[|done| - 1].date == date
  }

  /** How many runs have an answered call on `date` as their last effect. */
  function Cut(hist: seq<Past>, date: string): nat {
    if hist == [] then 0
    else Cut(hist[..|hist| - 1], date) + if EndsInCall(hist[|hist| - 1].done, date) then 1 else 0
  }

  lemma CutMore(hist: seq<Past>, p: Past, date: string)
    ensures Cut(hist + [p], date) == Cut(hist, date) + if EndsInCall(p.done, date) then 1 else 0
  {
    assert (hist + [p])[..|hist|] == hist;
  }

  /** Every answered call is recorded, or is the last effect of its run. */
  ghost predicate CallLaw(log: seq<Effect>, hist: seq<Past>) {
    forall d :: Returned(log, d) == Recorded(log, d) + Cut(hist, d)
  }

  /** What the next effect of the run in hand is, after what it has committed. */
  ghost predicate Follows(done: seq<Effect>, e: Effect) {
    && (e.CallRecorded? ==> EndsInCall(done, e.date))
    && (!e.CallRecorded? ==> !Unsettled(done))
  }

  lemma NextFollows(setup: Setup, s: State, run: MessageRun)
    requires RunFits(setup, s, run) && run.rest != []
    ensures Follows(Committed(s, run), run.rest[0])
  {
    var done, whole, n := Committed(s, run), Whole(s, run), |s.log| - run.began;
    assert whole[n] == run.rest[0] && forall i | 0 <= i < n :: whole[i] == done[i];
    if n > 0 && whole[n - 1].LlmReturned? {
      assert Settles(whole[n - 1], whole[n]);
    }
    assert whole[n].CallRecorded? ==> n > 0 && Settles(whole[n - 1], whole[n]);
  }

  lemma CommitKeepsCallLaw(log: seq<Effect>, hist: seq<Past>, p: Past, e: Effect)
    requires CallLaw(log, hist + [p]) && Follows(p.done, e)
    ensures CallLaw(log + [e], hist + [Past(p.id, p.done + [e])])
  {
    forall d ensures Returned(log + [e], d) == Recorded(log + [e], d) + Cut(hist + [Past(p.id, p.done + [e])], d) {
      CountsConcat(log, [e], d);
      CutMore(hist, p, d);
      CutMore(hist, Past(p.id, p.done + [e]), d);
    }
  }

  lemma QuietKeepsCallLaw(log: seq<Effect>, hist: seq<Past>, e: Effect)
    requires CallLaw(log, hist) && !e.LlmReturned? && !e.CallRecorded?
    ensures CallLaw(log + [e], hist)
  {
    forall d ensures Returned(log + [e], d) == Recorded(log + [e], d) + Cut(hist, d) {
      CountsConcat(log, [e], d);
    }
  }

  lemma CallLawKept(setup: Setup, s: State, a: Act)
    requires CallLaw(s.log, History(s)) && RunInv(setup, s) && Enabled(setup, s, a)
    ensures CallLaw(Next(setup, s, a).log, History(Next(setup, s, a)))
  {
    var t := Next(setup, s, a);
    StepMoves(setup, s, a);
    if StaysPut(s, t) {
      if t.log != s.log {
        var e :| Outside(e) && t.log == s.log + [e];
        QuietKeepsCallLaw(s.log, History(s), e);
      }
    } else if Opens(s, t) {
      var id :| History(t) == History(s) + [Past(id, [])];
      forall d ensures Cut(History(t), d) == Cut(History(s), d) { CutMore(History(s), Past(id, []), d); }
    } else {
      var run := s.proc.value.pc.run;
      NextFollows(setup, s, run);
      CommitKeepsCallLaw(s.log, Pasts(s.runs), Past(run.message.id, Committed(s, run)), run.rest[0]);
    }
  }

  lemma {:induction false} CallLawHolds(setup: Setup, from: State, acts: seq<Act>, s: State)
    requires CallLaw(from.log, History(from)) && RunInv(setup, from) && Reaches(setup, from, acts, s)
    ensures CallLaw(s.log, History(s))
    decreases |acts|
  {
    if acts != [] {
      CallLawKept(setup, from, acts[0]);
      RunInvKept(setup, from, acts[0]);
      CallLawHolds(setup, Next(setup, from, acts[0]), acts[1..], s);
    }
  }

  /** In every reachable state the calls the model answered on a date are exactly those recorded under
      it, plus one for each run whose last committed effect is such a call; */
  lemma CallsAreAccountedFor(setup: Setup, s: State, date: string)
    requires Reachable(setup, s)
    ensures Returned(s.log, date) == Recorded(s.log, date) + Cut(History(s), date)
  {
    var from, acts :| Initial(setup, from) && Reaches(setup, from, acts, s);
    assert History(from) == [];
    CallLawHolds(setup, from, acts, s);
  }

  /** and such a run is one that was cut short: no finished run ends in a call. */
  lemma OnlyCutRunsLoseCalls(setup: Setup, s: State, r: EndedRun, date: string)
    requires Reachable(setup, s) && r in s.runs && EndsInCall(r.done, date)
    ensures !r.finished
  {
    FinishedRuns(setup, s, r);
  }
}
