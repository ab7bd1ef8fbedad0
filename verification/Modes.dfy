/** What a process life may do outside the database is decided by its mode: one that observes changes
    nothing, one that acts does what the rules say. */
module Modes {
  import opened Model
  import opened RunFacts
  import opened Daemon
  import opened DaemonRuns
  import Tier1
  import RuleEngine
  import Escalate
  import StateDb

  /** A stretch of the log in which nothing was changed outside. */
  ghost predicate HarmlessIn(log: seq<Effect>, a: nat, b: nat) {
    a <= b <= |log| && Harmless(log[a..b])
  }

  /** The life has changed nothing, if it observed. */
  ghost predicate LifeKept(log: seq<Effect>, l: Life) {
    l.observe ==> HarmlessIn(log, l.born, l.died)
  }

  /** What a Tier 1 run that acts has to do: call the applier with the rules' action, if that is one to be
      applied. */
  ghost predicate DoesAsTold(whole: seq<Effect>, run: MessageRun) {
    run.phase.InTier1? && run.phase.verdict.Ok? && run.phase.verdict.value.Some? && !run.observed ==>
      var action := run.phase.verdict.value.value.action;
      Applies(action) ==> whole != [] && whole[0] == ActionCalled(run.message.id, action)
  }

  ghost predicate RunKept(s: State, p: Proc, run: MessageRun) {
    && p.born <= run.began <= |s.log| && run.observed == p.observe
    && (p.observe ==> Harmless(run.rest)) && DoesAsTold(Whole(s, run), run)
  }

  ghost predicate ProcKept(s: State, p: Proc) {
    && p.born <= |s.log| && (p.observe ==> HarmlessIn(s.log, p.born, |s.log|))
    && (p.pc.Running? ==> RunKept(s, p, p.pc.run))
  }

  ghost predicate RunsKept(runs: seq<EndedRun>) {
    forall r | r in runs && r.observed :: Harmless(r.done)
  }

  ghost predicate ModeInv(s: State) {
    && (forall l | l in s.lives :: LifeKept(s.log, l)) && RunsKept(s.runs)
    && (s.proc.Some? ==> ProcKept(s, s.proc.value))
  }

  // ----- Stretches of the log -----

  lemma StretchStays(log: seq<Effect>, more: seq<Effect>, a: nat, b: nat)
    requires HarmlessIn(log, a, b) && log <= more
    ensures HarmlessIn(more, a, b)
  {
    assert more[a..b] == log[a..b];
  }

  lemma StretchShrinks(log: seq<Effect>, a: nat, b: nat, c: nat)
    requires HarmlessIn(log, a, c) && a <= b <= c
    ensures HarmlessIn(log, b, c)
  {
    assert forall i | 0 <= i < c - b :: log[b..c][i] == log[a..c][b - a + i];
  }

  lemma StretchGrows(log: seq<Effect>, a: nat, e: Effect)
    requires HarmlessIn(log, a, |log|) && !Mutates(e)
    ensures HarmlessIn(log + [e], a, |log| + 1)
  {
    assert (log + [e])[a..|log| + 1] == log[a..|log|] + [e];
  }

  lemma LivesStay(s: State, log: seq<Effect>)
    requires (forall l | l in s.lives :: LifeKept(s.log, l)) && s.log <= log
    ensures forall l | l in s.lives :: LifeKept(log, l)
  {
    forall l | l in s.lives && l.observe ensures HarmlessIn(log, l.born, l.died) {
      StretchStays(s.log, log, l.born, l.died);
    }
  }

  // ----- Steps -----

  /** The run in hand, if it ends here, has changed nothing if it observed. */
  lemma InHandKept(s: State, p: Proc, finished: bool)
    requires s.proc == Some(p) && ProcKept(s, p)
    ensures RunsKept(InHand(s, finished))
  {
    if p.pc.Running? && p.observe {
      StretchShrinks(s.log, p.born, p.pc.run.began, |s.log|);
      assert s.log[p.pc.run.began..] == s.log[p.pc.run.began..|s.log|];
    }
  }

  lemma GoneKept(s: State, p: Proc)
    requires ModeInv(s) && s.proc == Some(p)
    ensures ModeInv(Gone(s))
  {
    hide HarmlessIn, RunsKept, RunKept;
  }

  lemma DownKept(s: State, p: Proc)
    requires ModeInv(s) && s.proc == Some(p)
    ensures ModeInv(Down(s))
  {
    InHandKept(s, p, false);
    GoneKept(s, p);
    hide HarmlessIn, RunKept;
  }

  /** One harmless effect more, by a process that then runs no message. */
  lemma LogKept(s: State, p: Proc, e: Effect, q: Proc)
    requires ModeInv(s) && s.proc == Some(p) && !Mutates(e)
    requires q.born == p.born && q.observe == p.observe && !q.pc.Running?
    ensures ModeInv(Log1(s, e).(proc := Some(q)))
  {
    LivesStay(s, s.log + [e]);
    if p.observe {
      StretchGrows(s.log, p.born, e);
    }
    hide RunsKept, LifeKept, HarmlessIn;
  }

  lemma CommitKept(setup: Setup, s: State, p: Proc)
    requires ModeInv(s) && s.proc == Some(p) && p.pc.Running? && p.pc.run.rest != []
    ensures ModeInv(After(setup, s, p, CommitNext))
  {
    var run, t := p.pc.run, After(setup, s, p, CommitNext);
    LivesStay(s, t.log);
    CommitKeepsWhole(s, run);
    if p.observe {
      StretchGrows(s.log, p.born, run.rest[0]);
    }
    hide RunsKept, LifeKept, HarmlessIn, Whole, Mutates;
  }

  lemma BeginKept(setup: Setup, s: State, p: Proc, env: Tier1.Env, classifier: Option<Outcome<string>>)
    requires ModeInv(s) && s.proc == Some(p) && CanTake(setup, s, p, Begin(env, classifier))
    ensures ModeInv(After(setup, s, p, Begin(env, classifier)))
  {
    if p.stopping {
      GoneKept(s, p);
    } else {
      var m, rules, db := p.pc.work.todo[0], p.pc.work.rules, DbOf(setup, s);
      var x := Tier1.Process(env, false, db, m, rules, setup.unmatched, classifier);
      AppliesExactly(env, false, db, m, rules, setup.unmatched, classifier);
      if p.observe {
        ObserversAreHarmless(env, false, db, m, rules, setup.unmatched, classifier);
      }
      VerdictIsTheRules(env, db, m, rules, setup.unmatched, classifier);
      hide Tier1.Process, RuleEngine.Evaluate, DbOf, Harmless, CallsApplier, RunsKept, LifeKept, HarmlessIn, Applies;
      assert s.log[|s.log|..] + x.effects == x.effects;
    }
  }

  lemma VerdictIsTheRules(
    env: Tier1.Env, db: StateDb.Db, m: Message, rules: seq<Rule>, unmatched: Action,
    classifier: Option<Outcome<string>>)
    ensures var out := Tier1.Process(env, false, db, m, rules, unmatched, classifier).out;
            out.Ok? && out.value.Some? ==>
              m.id !in db.processed && RuleEngine.Evaluate(m, rules, unmatched, classifier) == Ok(out.value.value)
  {}

  lemma FinishKept(setup: Setup, s: State, p: Proc, run: MessageRun, work: Work)
    requires ModeInv(s) && s.proc == Some(p) && p.pc == Running(run, work)
    ensures ModeInv(AfterRun(s, p, run, work))
  {
    if RaisedIn(run.phase) {
      DownKept(s, p);
    } else if !NeedsTier2(run) {
      InHandKept(s, p, true);
    }
    hide RunsKept, LifeKept, HarmlessIn, Whole, Harmless, Down;
  }

  lemma EscalateKept(setup: Setup, s: State, p: Proc, env3: Escalate.Env3)
    requires ModeInv(s) && RunInv(setup, s) && s.proc == Some(p) && CanTake(setup, s, p, BeginTier2(env3))
    ensures ModeInv(After(setup, s, p, BeginTier2(env3)))
  {
    hide RunsKept, LifeKept, HarmlessIn, Whole, Harmless, Escalate.EscalateMessage, Disciplined, AuditedBefore, Quiet;
  }

  lemma CheckKept(setup: Setup, s: State, p: Proc, turn: Turn)
    requires ModeInv(s) && s.proc == Some(p) && CanTake(setup, s, p, turn) && turn.CheckBudget?
    ensures ModeInv(After(setup, s, p, turn))
  {
    hide BudgetSpent, ModeInv;
    var t := After(setup, s, p, turn);
    if t.log != s.log {
      var e, today := Alerted(turn.id, "Daily LLM budget exhausted", Critical), DateOf(turn.now);
      var q := p.(pc := Handling(p.pc.work), alertDate := Some(today), spent := p.spent + [today],
                  alerted := p.alerted + [|p.spent|]);
      LogKept(s, p, e, q);
      DownKept(Log1(s, e).(proc := Some(q)), q);
    } else {
      IdleKept(s, t);
    }
  }

  /** A step that leaves log, runs and lives alone, and no message in hand or the same as before. */
  lemma IdleKept(s: State, t: State)
    requires ModeInv(s) && t.log == s.log && t.runs == s.runs && t.lives == s.lives
    requires s.proc.Some? && t.proc.Some? ==>
               var p, q := s.proc.value, t.proc.value;
               q.born == p.born && q.observe == p.observe && (q.pc.Running? ==> q.pc == p.pc)
    requires t.proc.Some? && s.proc.None? ==> t.proc.value.born == |s.log| && !t.proc.value.pc.Running?
    ensures ModeInv(t)
  {
    hide RunsKept, LifeKept;
  }

  lemma TurnKept(setup: Setup, s: State, p: Proc, turn: Turn)
    requires ModeInv(s) && RunInv(setup, s) && s.proc == Some(p) && CanTake(setup, s, p, turn)
    ensures ModeInv(After(setup, s, p, turn))
  {
    hide ModeInv, RunInv, BudgetSpent, DbOf, StartRun, AfterRun, AfterCheck, StartTier2, PollResult;
    match turn
    case Crash => DownKept(s, p);
    case PollFails => DownKept(s, p);
    case EnterLoop => if p.stopping { GoneKept(s, p); } else { IdleKept(s, After(setup, s, p, turn)); }
    case WriteEvent(ts) =>
      LogKept(s, p, AuditWritten(ts, "", EventName(p.pc.captured[0]), None), p.(pc := Draining(p.pc.captured[1..])));
    case Begin(env, classifier) => BeginKept(setup, s, p, env, classifier);
    case CommitNext => CommitKept(setup, s, p);
    case Finish => FinishKept(setup, s, p, p.pc.run, p.pc.work);
    case BeginTier2(env3) => EscalateKept(setup, s, p, env3);
    case CheckBudget(_, _, _) => CheckKept(setup, s, p, turn);
    case Ack =>
      var c := if p.pc.Acking? then p.pc.checkpoint else p.pc.work.checkpoint;
      LogKept(s, p, CursorSet(setup.account, c), p.(pc := if p.pc.Acking? then Sleeping else Head));
      IdleKept(Log1(s, CursorSet(setup.account, c)).(proc := After(setup, s, p, turn).proc), After(setup, s, p, turn));
    case _ => IdleKept(s, After(setup, s, p, turn));
  }

  lemma ModeInvKept(setup: Setup, s: State, a: Act)
    requires ModeInv(s) && RunInv(setup, s) && Enabled(setup, s, a)
    ensures ModeInv(Next(setup, s, a))
  {
    hide ModeInv, RunInv;
    match a
    case Take(turn) => TurnKept(setup, s, s.proc.value, turn);
    case Arrive(_) => IdleKept(s, Next(setup, s, a));
    case Start(_, _) => BornKept(setup, s, a);
  }

  lemma BornKept(setup: Setup, s: State, a: Act)
    requires ModeInv(s) && Enabled(setup, s, a) && a.Start?
    ensures ModeInv(Next(setup, s, a))
  {
    hide RunsKept, LifeKept, DbOf;
  }

  lemma {:induction false} ModeInvHolds(setup: Setup, from: State, acts: seq<Act>, s: State)
    requires ModeInv(from) && RunInv(setup, from) && Reaches(setup, from, acts, s)
    ensures ModeInv(s)
    decreases |acts|
  {
    if acts != [] {
      ModeInvKept(setup, from, acts[0]);
      RunInvKept(setup, from, acts[0]);
      ModeInvHolds(setup, Next(setup, from, acts[0]), acts[1..], s);
    }
  }

  // ----- In every reachable state -----

  /** No run of a message in a life that observes, over or in hand, has called the applier, written a keyword,
      created a draft or saved a receipt; nor has anything else in all that such a life has logged. */
  lemma ObservingLivesAreHarmless(setup: Setup, s: State)
    requires Reachable(setup, s)
    ensures forall r | r in AllRuns(s) && r.observed :: Harmless(r.done)
    ensures forall l | l in s.lives && l.observe :: HarmlessIn(s.log, l.born, l.died)
    ensures s.proc.Some? && s.proc.value.observe ==> HarmlessIn(s.log, s.proc.value.born, |s.log|)
  {
    var from, acts :| Initial(setup, from) && Reaches(setup, from, acts, s);
    ModeInvHolds(setup, from, acts, s);
    if s.proc.Some? {
      InHandKept(s, s.proc.value, false);
    }
  }

  /** Whenever the Tier 1 run of a message in a life that acts has come to its end with a verdict to move or
      tag it, with the mailbox named, the first thing it has done is to call the applier with just that. */
  lemma ActingRunsDoAsTold(setup: Setup, s: State, run: MessageRun, work: Work, v: RuleVerdict)
    requires Reachable(setup, s) && s.proc.Some? && s.proc.value.pc == Running(run, work) && run.rest == []
    requires run.phase == InTier1(Ok(Some(v))) && !run.observed && Applies(v.action)
    ensures Committed(s, run) != [] && Committed(s, run)[0] == ActionCalled(run.message.id, v.action)
  {
    var from, acts :| Initial(setup, from) && Reaches(setup, from, acts, s);
    ModeInvHolds(setup, from, acts, s);
    assert Whole(s, run) == Committed(s, run);
  }
}
