/** The invariant of the message in hand: whatever has been committed of its run, together with what
    is still to come, is one disciplined run. */
module DaemonRuns {
  import opened Model
  import opened StateDb
  import opened Pipelines
  import opened RunFacts
  import opened Daemon
  import Tier1
  import Escalate

  /** All effects of the run in hand, committed or not. */
  function Whole(s: State, run: MessageRun): seq<Effect> {
    Committed(s, run) + run.rest
  }

  ghost predicate RunFits(setup: Setup, s: State, run: MessageRun) {
    var whole, id := Whole(s, run), run.message.id;
    && run.began <= |s.log| && Disciplined(whole, id)
    && (id in Replay(setup.found, s.log[..run.began]).processed ==> whole == [])
    && match run.phase
       case InTier1(Raised(_)) => true
       case InTier1(Ok(None)) => whole == [] && id in DbOf(setup, s).processed
       case InTier1(Ok(Some(v))) =>
         if v.action.kind == Escalate then Quiet(whole) && AuditedBefore(whole, id, |whole|)
         else Marks(whole, id) && !Unsettled(whole)
       case BetweenTiers => run.rest == [] && !run.observed && Quiet(whole) && AuditedBefore(whole, id, |whole|)
       case InTier2(r) => !run.observed && (r.Ok? ==> Marks(whole, id) && !Unsettled(whole))
  }

  ghost predicate RunInv(setup: Setup, s: State) {
    s.proc.Some? && s.proc.value.pc.Running? ==> RunFits(setup, s, s.proc.value.pc.run)
  }

  lemma DisciplinedJoin(a: seq<Effect>, b: seq<Effect>, id: string)
    requires Disciplined(a, id) && Quiet(a) && Disciplined(b, id)
    ensures Disciplined(a + b, id)
    ensures Marks(b, id) ==> Marks(a + b, id)
    ensures Unsettled(a + b) ==> Unsettled(b)
  {
    var n, c := |a|, a + b;
    forall i | 0 <= i < |c| ensures c[i] == if i < n then a[i] else b[i - n] {}
    MarksJoin(a, b, id);
  }

  lemma MarksJoin(a: seq<Effect>, b: seq<Effect>, id: string)
    requires Quiet(a) && forall i | 0 <= i < |b| && b[i].Marked? :: AuditedBefore(b, id, i)
    ensures forall i | 0 <= i < |a + b| && (a + b)[i].Marked? :: AuditedBefore(a + b, id, i)
    ensures Marks(b, id) ==> Marks(a + b, id)
  {
    var n, c := |a|, a + b;
    forall i | 0 <= i < |c| && c[i].Marked? ensures AuditedBefore(c, id, i) {
      assert i >= n && c[i] == b[i - n];
      var j :| 0 <= j < i - n && b[j].AuditWritten? && b[j].jmapId == id;
      assert c[n + j] == b[j];
    }
    if Marks(b, id) {
      var i :| 0 <= i < |b| && b[i].Marked? && b[i].jmapId == id;
      assert c[n + i] == b[i];
    }
  }

  lemma CommitKeepsWhole(s: State, run: MessageRun)
    requires run.began <= |s.log| && run.rest != []
    ensures Whole(Log1(s, run.rest[0]), run.(rest := run.rest[1..])) == Whole(s, run)
    ensures (s.log + [run.rest[0]])[..run.began] == s.log[..run.began]
  {}

  lemma BegunFits(setup: Setup, s: State, m: Message, observed: bool, x: Step<Option<RuleVerdict>>)
    requires Tier1Ran(x, DbOf(setup, s), m.id)
    ensures RunFits(setup, s, MessageRun(m, observed, InTier1(x.out), x.effects, |s.log|))
  {
    hide Disciplined, Quiet, AuditedBefore, Marks, Unsettled;
    assert s.log[|s.log|..] == [] && s.log[..|s.log|] == s.log && [] + x.effects == x.effects;
  }

  lemma RunInvBegins(
    setup: Setup, s: State, p: Proc, work: Work, env: Tier1.Env, classifier: Option<Outcome<string>>)
    requires s.proc == Some(p) && work.todo != []
    ensures RunInv(setup, StartRun(setup, s, p, work, env, classifier))
  {
    var m := work.todo[0];
    var x := Tier1.Process(env, false, DbOf(setup, s), m, work.rules, setup.unmatched, classifier);
    Tier1Facts(env, DbOf(setup, s), m, work.rules, setup.unmatched, classifier);
    BegunFits(setup, s, m, p.observe, x);
    var next := StartRun(setup, s, p, work, env, classifier);
    if !p.stopping {
      SameLogFits(setup, s, next, next.proc.value.pc.run);
    }
  }

  lemma SameLogFits(setup: Setup, s: State, t: State, run: MessageRun)
    requires RunFits(setup, s, run) && s.log == t.log
    ensures RunFits(setup, t, run)
  {}

  lemma RunInvEscalates(setup: Setup, s: State, p: Proc, run: MessageRun, work: Work, env3: Escalate.Env3)
    requires s.proc == Some(p) && p.pc == Running(run, work) && RunInv(setup, s) && run.phase.BetweenTiers?
    ensures RunInv(setup, StartTier2(setup, s, p, run, work, env3))
  {
    EscalateFacts(env3, DbOf(setup, s), run.message);
    var y := Escalate.EscalateMessage(env3, DbOf(setup, s), run.message);
    var done := s.log[run.began..];
    assert Whole(s, run) == done;
    DisciplinedJoin(done, y.effects, run.message.id);
  }

  lemma RunInvCommits(setup: Setup, s: State, p: Proc, run: MessageRun, work: Work)
    requires s.proc == Some(p) && p.pc == Running(run, work) && RunInv(setup, s) && run.rest != []
    ensures RunInv(setup, Daemon.After(setup, s, p, CommitNext))
  {
    CommitKeepsWhole(s, run);
    ReplayConcat(setup.found, s.log, [run.rest[0]]);
    ProcessedGrows(DbOf(setup, s), [run.rest[0]]);
  }

  /** Every step keeps the invariant of the run in hand. */
  lemma RunInvKept(setup: Setup, s: State, a: Act)
    requires RunInv(setup, s) && Enabled(setup, s, a)
    ensures RunInv(setup, Next(setup, s, a))
  {
    hide StartRun, StartTier2, BudgetSpent, Disciplined, PollResult, InHand, Tier1Ran;
    if a.Take? {
      var p := s.proc.value;
      match a.turn
      case Begin(env, classifier) => RunInvBegins(setup, s, p, p.pc.work, env, classifier);
      case BeginTier2(env3) => RunInvEscalates(setup, s, p, p.pc.run, p.pc.work, env3);
      case CommitNext => RunInvCommits(setup, s, p, p.pc.run, p.pc.work);
      case _ =>
    }
  }

  lemma {:induction false} RunInvHolds(setup: Setup, from: State, acts: seq<Act>, s: State)
    requires RunInv(setup, from) && Reaches(setup, from, acts, s)
    ensures RunInv(setup, s)
    decreases |acts|
  {
    if acts != [] {
      RunInvKept(setup, from, acts[0]);
      RunInvHolds(setup, Next(setup, from, acts[0]), acts[1..], s);
    }
  }

  /** A run that ends well has dealt with its message. */
  lemma MarkedIsProcessed(setup: Setup, s: State, run: MessageRun)
    requires run.began <= |s.log| && run.rest == [] && Marks(Whole(s, run), run.message.id)
    ensures run.message.id in DbOf(setup, s).processed
  {
    var done := s.log[run.began..];
    assert Whole(s, run) == done;
    var i :| 0 <= i < |done| && done[i].Marked? && done[i].jmapId == run.message.id;
    hide Marks, Whole;
    var k := run.began + i;
    assert s.log == s.log[..k] + ([s.log[k]] + s.log[k + 1..]);
    ReplayConcat(setup.found, s.log[..k], [s.log[k]] + s.log[k + 1..]);
    var db := Replay(setup.found, s.log[..k]);
    ReplayConcat(db, [s.log[k]], s.log[k + 1..]);
    ProcessedGrows(Replay(db, [s.log[k]]), s.log[k + 1..]);
  }
}
