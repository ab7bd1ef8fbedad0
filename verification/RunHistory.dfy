/** The history of all messages' runs, ended or in hand, and what it says about the log and the
    database. */
module RunHistory {
  import opened Model
  import opened StateDb
  import opened RunFacts
  import opened Daemon
  import opened DaemonRuns
  import Tier1
  import Escalate

  /** A run's message and what it has committed. */
  datatype Past = Past(id: string, done: seq<Effect>)

  function PastOf(r: EndedRun): Past {
    Past(r.id, r.done)
  }

  function Pasts(runs: seq<EndedRun>): (ps: seq<Past>)
    ensures |ps| == |runs| && forall i | 0 <= i < |runs| :: ps[i] == PastOf(runs[i])
  {
    seq(|runs|, i requires 0 <= i < |runs| => PastOf(runs[i]))
  }

  /** The pasts of all runs so far, the one in hand last. */
  function History(s: State): seq<Past> {
    Pasts(AllRuns(s))
  }

  // ----- How a step moves the history -----

  /** Nothing of a run is in effect `e`. */
  predicate Outside(e: Effect) {
    (e.AuditWritten? && e.jmapId == "") || e.Alerted? || e.CursorSet?
  }

  /** The log grows by effects of no run, the history not at all. */
  ghost predicate StaysPut(s: State, t: State) {
    && History(t) == History(s)
    && (t.log == s.log || exists e :: Outside(e) && t.log == s.log + [e])
  }

  /** The run in hand commits one effect. */
  ghost predicate Commits(s: State, t: State, run: MessageRun) {
    && s.runs == t.runs && run.rest != [] && t.log == s.log + [run.rest[0]]
    && History(s) == Pasts(s.runs) + [Past(run.message.id, Committed(s, run))]
    && History(t) == Pasts(s.runs) + [Past(run.message.id, Committed(s, run) + [run.rest[0]])]
  }

  lemma PastsJoin(a: seq<EndedRun>, b: seq<EndedRun>)
    ensures Pasts(a + b) == Pasts(a) + Pasts(b)
  {}

  lemma InHandIsLast(s: State, p: Proc, run: MessageRun, work: Work)
    requires s.proc == Some(p) && p.pc == Running(run, work)
    ensures History(s) == Pasts(s.runs) + [Past(run.message.id, Committed(s, run))]
  {
    PastsJoin(s.runs, InHand(s, false));
  }

  lemma CommitMoves(setup: Setup, s: State, p: Proc, run: MessageRun, work: Work)
    requires s.proc == Some(p) && p.pc == Running(run, work) && run.rest != [] && run.began <= |s.log|
    ensures Commits(s, After(setup, s, p, CommitNext), run)
  {
    var t := After(setup, s, p, CommitNext);
    InHandIsLast(s, p, run, work);
    InHandIsLast(t, t.proc.value, run.(rest := run.rest[1..]), work);
    assert (s.log + [run.rest[0]])[run.began..] == s.log[run.began..] + [run.rest[0]];
  }

  lemma NothingInHand(s: State)
    requires s.proc.Some? ==> !s.proc.value.pc.Running?
    ensures History(s) == Pasts(s.runs)
  {
    assert s.runs + [] == s.runs;
  }

  lemma EndMoves(s: State, t: State, finished: bool)
    requires t.runs == s.runs + InHand(s, finished) && (t.proc.Some? ==> !t.proc.value.pc.Running?)
    ensures History(t) == History(s)
  {
    PastsJoin(s.runs, InHand(s, false));
    PastsJoin(s.runs, InHand(s, finished));
    NothingInHand(t);
  }

  lemma BeginMoves(
    setup: Setup, s: State, p: Proc, work: Work, env: Tier1.Env, classifier: Option<Outcome<string>>)
    requires s.proc == Some(p) && p.pc.Handling? && work.todo != []
    ensures var t := StartRun(setup, s, p, work, env, classifier);
            t.log == s.log && History(t) == History(s) + if p.stopping then [] else [Past(work.todo[0].id, [])]
  {
    var t := StartRun(setup, s, p, work, env, classifier);
    NothingInHand(s);
    if p.stopping {
      NothingInHand(t);
    } else {
      InHandIsLast(t, t.proc.value, t.proc.value.pc.run, t.proc.value.pc.work);
      assert s.log[|s.log|..] == [];
    }
  }

  ghost predicate Opens(s: State, t: State) {
    t.log == s.log && exists id :: History(t) == History(s) + [Past(id, [])]
  }

  /** The three ways a step can move log and history. */
  ghost predicate Moves(s: State, t: State) {
    || StaysPut(s, t) || Opens(s, t)
    || (s.proc.Some? && s.proc.value.pc.Running? && Commits(s, t, s.proc.value.pc.run))
  }

  lemma FinishMoves(setup: Setup, s: State, p: Proc, run: MessageRun, work: Work)
    requires s.proc == Some(p) && p.pc == Running(run, work)
    ensures History(AfterRun(s, p, run, work)) == History(s)
  {
    var t := AfterRun(s, p, run, work);
    if RaisedIn(run.phase) {
      EndMoves(s, t, false);
    } else if NeedsTier2(run) {
      InHandIsLast(s, p, run, work);
      InHandIsLast(t, t.proc.value, run.(phase := BetweenTiers), work);
    } else {
      EndMoves(s, t, true);
    }
  }

  lemma EscalateMoves(setup: Setup, s: State, p: Proc, run: MessageRun, work: Work, env3: Escalate.Env3)
    requires s.proc == Some(p) && p.pc == Running(run, work)
    ensures History(StartTier2(setup, s, p, run, work, env3)) == History(s)
  {
    var t := StartTier2(setup, s, p, run, work, env3);
    InHandIsLast(s, p, run, work);
    InHandIsLast(t, t.proc.value, t.proc.value.pc.run, work);
  }

  /** A step outside runs: nothing in hand before or after. */
  lemma IdleMoves(s: State, t: State)
    requires s.proc.Some? ==> !s.proc.value.pc.Running?
    requires t.proc.Some? ==> !t.proc.value.pc.Running?
    requires t.runs == s.runs
    ensures History(t) == History(s)
  {
    NothingInHand(s);
    NothingInHand(t);
  }

  /** A handler's step: the run in hand, if any, stays in hand. */
  lemma HandlerMoves(s: State, t: State)
    requires s.proc.Some? && t.proc.Some? && s.proc.value.pc == t.proc.value.pc && t.runs == s.runs && t.log == s.log
    ensures History(t) == History(s)
  {
    assert AllRuns(t) == AllRuns(s);
  }

  lemma LoggedMoves(setup: Setup, s: State, p: Proc, turn: Turn, e: Effect)
    requires s.proc == Some(p) && CanTake(setup, s, p, turn)
    requires match turn
             case WriteEvent(ts) => e == AuditWritten(ts, "", EventName(p.pc.captured[0]), None)
             case CheckBudget(_, id, _) => e == Alerted(id, "Daily LLM budget exhausted", Critical)
             case Ack => e == CursorSet(setup.account, if p.pc.Acking? then p.pc.checkpoint else p.pc.work.checkpoint)
             case _ => false
    ensures StaysPut(s, After(setup, s, p, turn))
  {
    var t := After(setup, s, p, turn);
    assert Outside(e);
    match turn
    case CheckBudget(_, _, _) =>
      CheckMoves(setup, s, p, turn);
    case _ => IdleMoves(s, t);
  }

  lemma CheckMoves(setup: Setup, s: State, p: Proc, turn: Turn)
    requires s.proc == Some(p) && CanTake(setup, s, p, turn) && turn.CheckBudget?
    ensures var t := After(setup, s, p, turn);
            && History(t) == History(s)
            && (t.log == s.log || t.log == s.log + [Alerted(turn.id, "Daily LLM budget exhausted", Critical)])
  {
    var t := After(setup, s, p, turn);
    NothingInHand(s);
    assert t.runs + [] == t.runs && s.runs + [] == s.runs;
    NothingInHand(t);
  }

  lemma TurnMoves(setup: Setup, s: State, p: Proc, turn: Turn)
    requires RunInv(setup, s) && s.proc == Some(p) && CanTake(setup, s, p, turn)
    ensures Moves(s, After(setup, s, p, turn))
  {
    var t := After(setup, s, p, turn);
    match turn
    case Crash => EndMoves(s, t, false);
    case PollFails => EndMoves(s, t, false);
    case Begin(env, classifier) => BeginMoves(setup, s, p, p.pc.work, env, classifier);
    case CommitNext => CommitMoves(setup, s, p, p.pc.run, p.pc.work);
    case Finish => FinishMoves(setup, s, p, p.pc.run, p.pc.work);
    case BeginTier2(env3) => EscalateMoves(setup, s, p, p.pc.run, p.pc.work, env3);
    case WriteEvent(ts) => LoggedMoves(setup, s, p, turn, AuditWritten(ts, "", EventName(p.pc.captured[0]), None));
    case CheckBudget(_, id, _) => LoggedMoves(setup, s, p, turn, Alerted(id, "Daily LLM budget exhausted", Critical));
    case Ack =>
      LoggedMoves(setup, s, p, turn,
        CursorSet(setup.account, if p.pc.Acking? then p.pc.checkpoint else p.pc.work.checkpoint));
    case RequestStop => HandlerMoves(s, t);
    case CallPause => HandlerMoves(s, t);
    case CallResume => HandlerMoves(s, t);
    case CallReload(_) => HandlerMoves(s, t);
    case _ => IdleMoves(s, t);
  }

  /** Every step moves log and history in one of these three ways. */
  lemma StepMoves(setup: Setup, s: State, a: Act)
    requires RunInv(setup, s) && Enabled(setup, s, a)
    ensures Moves(s, Next(setup, s, a))
  {
    match a
    case Start(_, _) => IdleMoves(s, Next(setup, s, a));
    case Arrive(_) => assert AllRuns(Next(setup, s, a)) == AllRuns(s);
    case Take(turn) => TurnMoves(setup, s, s.proc.value, turn);
  }

  // ----- Who is processed -----

  /** Some run of the message has committed its mark. */
  ghost predicate MarkedIn(hist: seq<Past>, id: string) {
    exists k | 0 <= k < |hist| :: hist[k].id == id && Marks(hist[k].done, id)
  }

  /** Processed is what was processed at first, or was marked by one of its own runs. */
  ghost predicate MarkLaw(found: Db, log: seq<Effect>, hist: seq<Past>) {
    forall id :: id in Replay(found, log).processed <==> id in found.processed || MarkedIn(hist, id)
  }

  lemma MarkedInMore(hist: seq<Past>, p: Past, id: string)
    ensures MarkedIn(hist + [p], id) <==> MarkedIn(hist, id) || (p.id == id && Marks(p.done, id))
  {
    var more := hist + [p];
    assert more[|hist|] == p && forall k | 0 <= k < |hist| :: more[k] == hist[k];
  }

  lemma MarksMore(done: seq<Effect>, e: Effect, id: string)
    ensures Marks(done + [e], id) <==> Marks(done, id) || (e.Marked? && e.jmapId == id)
  {
    var more := done + [e];
    assert more[|done|] == e && forall k | 0 <= k < |done| :: more[k] == done[k];
  }

  lemma CommitKeepsMarkLaw(found: Db, log: seq<Effect>, hist: seq<Past>, p: Past, e: Effect)
    requires MarkLaw(found, log, hist + [p]) && About(e, p.id)
    ensures MarkLaw(found, log + [e], hist + [Past(p.id, p.done + [e])])
  {
    ReplayAppend(found, log, e);
    forall id
      ensures id in Replay(found, log + [e]).processed
              <==> id in found.processed || MarkedIn(hist + [Past(p.id, p.done + [e])], id)
    {
      MarkedInMore(hist, p, id);
      MarkedInMore(hist, Past(p.id, p.done + [e]), id);
      MarksMore(p.done, e, id);
    }
  }

  lemma OpenKeepsMarkLaw(found: Db, log: seq<Effect>, hist: seq<Past>, id: string)
    requires MarkLaw(found, log, hist)
    ensures MarkLaw(found, log, hist + [Past(id, [])])
  {
    forall x ensures MarkedIn(hist + [Past(id, [])], x) <==> MarkedIn(hist, x) {
      MarkedInMore(hist, Past(id, []), x);
    }
  }

  /** The next effect of the run in hand is about its message. */
  lemma NextIsAbout(setup: Setup, s: State, run: MessageRun)
    requires RunFits(setup, s, run) && run.rest != []
    ensures About(run.rest[0], run.message.id)
  {
    assert Whole(s, run)[|s.log| - run.began] == run.rest[0];
  }

  lemma MarkLawKept(setup: Setup, s: State, a: Act)
    requires MarkLaw(setup.found, s.log, History(s)) && RunInv(setup, s) && Enabled(setup, s, a)
    ensures MarkLaw(setup.found, Next(setup, s, a).log, History(Next(setup, s, a)))
  {
    var t := Next(setup, s, a);
    StepMoves(setup, s, a);
    if StaysPut(s, t) {
      if t.log != s.log {
        var e :| Outside(e) && t.log == s.log + [e];
        ReplayAppend(setup.found, s.log, e);
      }
    } else if Opens(s, t) {
      var id :| History(t) == History(s) + [Past(id, [])];
      OpenKeepsMarkLaw(setup.found, s.log, History(s), id);
    } else {
      var run := s.proc.value.pc.run;
      NextIsAbout(setup, s, run);
      CommitKeepsMarkLaw(setup.found, s.log, Pasts(s.runs), Past(run.message.id, Committed(s, run)), run.rest[0]);
    }
  }

  lemma {:induction false} MarkLawHolds(setup: Setup, from: State, acts: seq<Act>, s: State)
    requires MarkLaw(setup.found, from.log, History(from)) && RunInv(setup, from) && Reaches(setup, from, acts, s)
    ensures MarkLaw(setup.found, s.log, History(s)) && RunInv(setup, s)
    decreases |acts|
  {
    if acts != [] {
      MarkLawKept(setup, from, acts[0]);
      RunInvKept(setup, from, acts[0]);
      MarkLawHolds(setup, Next(setup, from, acts[0]), acts[1..], s);
    }
  }

  /** In every reachable state: a message is processed exactly if it was at first, or one of its own
      runs, finished, cut short or in hand, has committed its mark. */
  lemma ProcessedIsMarked(setup: Setup, s: State, id: string)
    requires Reachable(setup, s)
    ensures id in DbOf(setup, s).processed <==> id in setup.found.processed || MarkedIn(History(s), id)
  {
    var from, acts :| Initial(setup, from) && Reaches(setup, from, acts, s);
    assert History(from) == [];
    MarkLawHolds(setup, from, acts, s);
  }

  // ----- How runs end -----

  /** The run came to its end with an escalation, in a process that only observed. */
  predicate HeldBack(r: EndedRun) {
    r.finished && r.escalated && r.observed
  }

  /** A finished run has marked its message, or found it processed, or was held back; it leaves no model
      call unrecorded, and held back it has at most alerted and audited. */
  ghost predicate EndedWell(setup: Setup, s: State, r: EndedRun) {
    r.finished ==>
      && (Marks(r.done, r.id) || HeldBack(r) || (r.done == [] && r.id in DbOf(setup, s).processed))
      && !Unsettled(r.done)
      && (HeldBack(r) ==> Quiet(r.done) && AuditedBefore(r.done, r.id, |r.done|))
  }

  ghost predicate EndsWell(setup: Setup, s: State) {
    forall r | r in s.runs :: EndedWell(setup, s, r)
  }

  lemma FinishedEndsWell(setup: Setup, s: State, run: MessageRun)
    requires RunFits(setup, s, run) && run.rest == [] && !run.phase.BetweenTiers?
    requires !RaisedIn(run.phase) && !NeedsTier2(run)
    ensures EndedWell(setup, s, EndOf(s, run, true))
  {
    assert Whole(s, run) == s.log[run.began..] == Committed(s, run);
    hide Disciplined, Marks, Quiet, AuditedBefore;
  }

  /** A step ends at most the run in hand, and as finished only at its finish. */
  lemma NewlyEnded(setup: Setup, s: State, a: Act, r: EndedRun)
    requires Enabled(setup, s, a) && r in Next(setup, s, a).runs && r !in s.runs && r.finished
    ensures s.proc.Some? && s.proc.value.pc.Running? && a == Take(Finish) && r == EndOf(s, s.proc.value.pc.run, true)
    ensures !RaisedIn(s.proc.value.pc.run.phase) && !NeedsTier2(s.proc.value.pc.run)
  {}

  lemma ProcessedStays(setup: Setup, s: State, t: State, id: string)
    requires s.log <= t.log && id in DbOf(setup, s).processed
    ensures id in DbOf(setup, t).processed
  {
    var more := t.log[|s.log|..];
    assert t.log == s.log + more;
    ReplayConcat(setup.found, s.log, more);
    ProcessedGrows(DbOf(setup, s), more);
  }

  lemma LogGrows(setup: Setup, s: State, a: Act)
    requires RunInv(setup, s) && Enabled(setup, s, a)
    ensures s.log <= Next(setup, s, a).log
  {
    StepMoves(setup, s, a);
    hide Next, Enabled, RunInv, History, Pasts;
  }

  lemma EndsWellKept(setup: Setup, s: State, a: Act)
    requires EndsWell(setup, s) && RunInv(setup, s) && Enabled(setup, s, a)
    ensures EndsWell(setup, Next(setup, s, a))
  {
    var t := Next(setup, s, a);
    LogGrows(setup, s, a);
    forall r | r in t.runs && r.finished ensures EndedWell(setup, t, r) {
      if r !in s.runs {
        NewlyEnded(setup, s, a, r);
        FinishedEndsWell(setup, s, s.proc.value.pc.run);
      }
      hide Next, Enabled, RunInv;
      if r.id in DbOf(setup, s).processed {
        ProcessedStays(setup, s, t, r.id);
      }
    }
  }

  lemma {:induction false} EndsWellHolds(setup: Setup, from: State, acts: seq<Act>, s: State)
    requires EndsWell(setup, from) && RunInv(setup, from) && Reaches(setup, from, acts, s)
    ensures EndsWell(setup, s)
    decreases |acts|
  {
    if acts != [] {
      EndsWellKept(setup, from, acts[0]);
      RunInvKept(setup, from, acts[0]);
      EndsWellHolds(setup, Next(setup, from, acts[0]), acts[1..], s);
    }
  }

  /** In every reachable state every finished run has ended well: it marked its message, found it
      processed, or was held back after alerts and audits alone. */
  lemma FinishedRuns(setup: Setup, s: State, r: EndedRun)
    requires Reachable(setup, s) && r in s.runs
    ensures EndedWell(setup, s, r)
  {
    var from, acts :| Initial(setup, from) && Reaches(setup, from, acts, s);
    EndsWellHolds(setup, from, acts, s);
  }
}
