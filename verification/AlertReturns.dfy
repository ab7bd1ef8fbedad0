/** A run of the daemon in which the date of the budget checks returns to one it has left, so that the
    once-a-day alert goes out twice for one date. */
module AlertReturns {
  import opened Model
  import opened StateDb
  import opened Daemon
  import opened DaemonLoop
  import opened Mailbox
  import opened Scenarios
  import CursorGaps
  import DailyAlert
  import Escalate
  import Tier1
  import Tier2

  /** Collaborators that all answer, at a time of the date. */
  function SkipEnv(setup: Setup, date: string): Escalate.Env3 {
    Escalate.Env3(
      Tier2.Env2(setup.config, date, "", Ok([]), Raised(LlmClientError), None, None, None),
      Ok((None, false)), Ok([]), "", "", None)
  }

  /** A run that finds the budget used up alerts, audits and marks. */
  lemma SkippedRun(setup: Setup, db: Db, m: Message, date: string)
    requires DateOf(date) == date && !Tier2.HasBudget(db, date, setup.config.budget)
    ensures var y := Escalate.EscalateMessage(SkipEnv(setup, date), db, m);
            && y.out == Ok(Escalate.BudgetExhausted) && |y.effects| == 3
            && y.effects[0].Alerted? && y.effects[1].AuditWritten? && y.effects[2].Marked?
            && y.effects[2].jmapId == m.id
  {
    var s := Tier2.Skip(SkipEnv(setup, date).tier2, m);
    assert |s.effects| == 3 && s.out == Ok(());
  }

  /** The run of the message up to the point between the tiers. */
  lemma EscalationBegun(setup: Setup, s: State, m: Message, c: Cursor) returns (t: State)
    requires Reachable(setup, s) && s.proc.Some? && !s.proc.value.stopping && !s.proc.value.observe
    requires s.proc.value.pc == Handling(Work([m], Always(ESCALATION), c)) && m.id !in DbOf(setup, s).processed
    ensures Reachable(setup, t) && t == s.(proc := t.proc) && t.proc.Some?
    ensures var p := t.proc.value;
            && p.pc.Running? && p == s.proc.value.(pc := p.pc) && p.pc.work == Work([], Always(ESCALATION), c)
            && var run := p.pc.run;
               && run.message == m && NeedsTier2(run) && !RaisedIn(run.phase)
               && |run.rest| == 1 && run.rest[0].AuditWritten?
  {
    CursorGaps.EscalatedAndAudited(CursorGaps.MOVER, setup, DbOf(setup, s), m);
    hide Initial, Tier1.Process, PollResult, AfterRun, AfterCheck, StartTier2, Acknowledge, Capture;
    Onward(setup, s, Take(Begin(CursorGaps.MOVER, None)));
    t := Next(setup, s, Take(Begin(CursorGaps.MOVER, None)));
  }

  /** A run in hand with nothing left to commit: on to Tier 2, or to the budget check. */
  lemma Finished(setup: Setup, s: State) returns (t: State)
    requires Reachable(setup, s) && s.proc.Some? && s.proc.value.pc.Running?
    requires var run := s.proc.value.pc.run; run.rest == [] && !run.phase.BetweenTiers? && !RaisedIn(run.phase)
    ensures Reachable(setup, t) && t == s.(proc := t.proc, runs := t.runs)
    ensures var p, run := s.proc.value, s.proc.value.pc.run;
            t.proc == Some(p.(pc :=
              if NeedsTier2(run) then Running(run.(phase := BetweenTiers), p.pc.work)
              else if run.phase.InTier2? then Checking(p.pc.work) else Handling(p.pc.work)))
  {
    hide Initial, InHand;
    Onward(setup, s, Take(Finish));
    t := Next(setup, s, Take(Finish));
  }

  /** Tier 2 finds the budget used up. */
  lemma SkipBegun(setup: Setup, s: State, date: string) returns (t: State)
    requires Reachable(setup, s) && s.proc.Some? && s.proc.value.pc.Running? && s.proc.value.pc.run.phase.BetweenTiers?
    requires DateOf(date) == date && BudgetSpent(setup, s, date)
    ensures Reachable(setup, t) && t == s.(proc := t.proc) && t.proc.Some?
    ensures var p, q := s.proc.value, t.proc.value;
            && q.pc.Running? && q == p.(pc := q.pc) && q.pc.work == p.pc.work
            && q.pc.run.phase == InTier2(Ok(Escalate.BudgetExhausted)) && |q.pc.run.rest| == 3
            && var es := q.pc.run.rest;
               es[0].Alerted? && es[1].AuditWritten? && es[2].Marked? && es[2].jmapId == p.pc.run.message.id
  {
    SkippedRun(setup, DbOf(setup, s), s.proc.value.pc.run.message, date);
    hide Initial, Escalate.EscalateMessage, SkipEnv;
    assert SkipEnv(setup, date).tier2.config == setup.config by { SkipConfig(setup, date); }
    Onward(setup, s, Take(BeginTier2(SkipEnv(setup, date))));
    t := Next(setup, s, Take(BeginTier2(SkipEnv(setup, date))));
  }

  lemma SkipConfig(setup: Setup, date: string)
    ensures SkipEnv(setup, date).tier2.config == setup.config
  {}

  lemma AllCommitted(setup: Setup, s: State) returns (t: State)
    requires Reachable(setup, s) && s.proc.Some? && s.proc.value.pc.Running?
    ensures Reachable(setup, t)
    ensures var p, run := s.proc.value, s.proc.value.pc.run;
            t == At(s.(log := s.log + run.rest), p, Running(run.(rest := []), p.pc.work))
  {
    var p := s.proc.value;
    var acts := CommitsReach(setup, s, p, p.pc.run, p.pc.work);
    t := At(s.(log := s.log + p.pc.run.rest), p, Running(p.pc.run.(rest := []), p.pc.work));
    OnwardAll(setup, s, acts, t);
  }

  /** What audits, alerts and one mark leave. */
  lemma {:induction false} QuietReplay(db: Db, es: seq<Effect>, id: string)
    requires forall i | 0 <= i < |es| ::
               es[i].Alerted? || es[i].AuditWritten? || es[i].CursorSet? || (es[i].Marked? && es[i].jmapId == id)
    ensures Replay(db, es).usage == db.usage
    ensures Replay(db, es).processed.Keys <= db.processed.Keys + {id}
    decreases |es|
  {
    if es != [] {
      QuietReplay(Commit(db, es[0]), es[1..], id);
    }
  }

  /** The check at a date whose budget is used up, with an alerter that answers. */
  lemma Checked(setup: Setup, s: State, date: string) returns (t: State)
    requires Reachable(setup, s) && s.proc.Some? && s.proc.value.pc.Checking?
    requires DateOf(date) == date && BudgetSpent(setup, s, date)
    ensures Reachable(setup, t) && t == s.(log := t.log, proc := t.proc) && t.proc.Some?
    ensures t.log == s.log || (|t.log| == |s.log| + 1 && s.log <= t.log && t.log[|s.log|].Alerted?)
    ensures var p := s.proc.value;
            t.proc.value == p.(pc := Handling(p.pc.work), spent := p.spent + [date], alertDate := Some(date),
              alerted := p.alerted + if p.alertDate == Some(date) then [] else [|p.spent|])
  {
    hide Initial, BudgetSpent;
    Onward(setup, s, Take(CheckBudget(date, "", None)));
    t := Next(setup, s, Take(CheckBudget(date, "", None)));
    assert s.proc.value.alerted + [] == s.proc.value.alerted;
  }

  /** The first half of a round: one message is delivered, escalated and skipped. */
  lemma RoundBegun(setup: Setup, s: State, m: Message, date: string) returns (t: State)
    requires Ready(setup, s, Always(ESCALATION), false) && FreshChange(s.mail, Created(m, true))
    requires m.id !in DbOf(setup, s).processed && DateOf(date) == date && BudgetSpent(setup, s, date)
    ensures Reachable(setup, t) && t.mail == s.mail + [Created(m, true)] && t.first == s.first && t.proc.Some?
    ensures var p, q := s.proc.value, t.proc.value;
            && q.pc == Checking(Work([], Always(ESCALATION), |s.mail| + 1)) && q.fetch.Some?
            && q == p.(cursor := Some(|s.mail| + 1), fetch := q.fetch, pc := q.pc)
    ensures s.log <= t.log && BudgetSpent(setup, t, date)
    ensures DbOf(setup, t).usage == DbOf(setup, s).usage
    ensures DbOf(setup, t).processed.Keys <= DbOf(setup, s).processed.Keys + {m.id}
  {
    hide Initial, CanTake, After, Enabled, Next, Replay, Commit, FreshChange;
    var a := Delivered(setup, s, Always(ESCALATION), false, m);
    var b := EscalationBegun(setup, a, m, |s.mail| + 1);
    var c := AllCommitted(setup, b);
    var d := Finished(setup, c);
    var first := b.proc.value.pc.run.rest;
    QuietReplay(DbOf(setup, s), first, m.id);
    ReplayConcat(setup.found, s.log, first);
    SpentAsBefore(setup, s, d, date);
    var e := SkipBegun(setup, d, date);
    var f := AllCommitted(setup, e);
    t := Finished(setup, f);
    var second := e.proc.value.pc.run.rest;
    QuietReplay(DbOf(setup, d), second, m.id);
    ReplayConcat(setup.found, d.log, second);
    SpentAsBefore(setup, s, t, date);
  }

  lemma SpentAsBefore(setup: Setup, s: State, t: State, date: string)
    requires BudgetSpent(setup, s, date) && DbOf(setup, t).usage == DbOf(setup, s).usage
    ensures BudgetSpent(setup, t, date)
  {}

  /** One round at a date whose budget is used up: a message is delivered, escalated, skipped, and the
      budget check alerts unless the last exhausted check was on that date too. */
  lemma Round(setup: Setup, s: State, m: Message, date: string) returns (t: State)
    requires Ready(setup, s, Always(ESCALATION), false) && FreshChange(s.mail, Created(m, true))
    requires m.id !in DbOf(setup, s).processed && DateOf(date) == date && BudgetSpent(setup, s, date)
    ensures Ready(setup, t, Always(ESCALATION), false) && t.mail == s.mail + [Created(m, true)]
    ensures DbOf(setup, t).usage == DbOf(setup, s).usage
    ensures DbOf(setup, t).processed.Keys <= DbOf(setup, s).processed.Keys + {m.id}
    ensures var p, q := s.proc.value, t.proc.value;
            && q.spent == p.spent + [date] && q.alertDate == Some(date)
            && q.alerted == p.alerted + if p.alertDate == Some(date) then [] else [|p.spent|]
  {
    hide Initial, CanTake, After, Enabled, Next, Replay, Commit, FreshChange, BudgetSpent;
    var u := RoundBegun(setup, s, m, date);
    var v := Checked(setup, u, date);
    AlertedOnly(setup, u, v, m.id);
    t := Passed(setup, v, Always(ESCALATION), |s.mail| + 1);
  }

  lemma AlertedOnly(setup: Setup, s: State, t: State, id: string)
    requires t.log == s.log || (|t.log| == |s.log| + 1 && s.log <= t.log && t.log[|s.log|].Alerted?)
    ensures DbOf(setup, t) == DbOf(setup, s)
  {
    if t.log != s.log {
      var e := t.log[|s.log|];
      assert t.log == s.log + [e];
      ReplayAppend(setup.found, s.log, e);
    }
  }

  /** Three messages that no database knows. */
  lemma ThreeMessages(used: set<string>) returns (a: Message, b: Message, c: Message)
    ensures a.id !in used && b.id !in used && c.id !in used && a.id != "" && b.id != "" && c.id != ""
    ensures a.id != b.id && b.id != c.id && a.id != c.id
  {
    a := UnknownMessage(used);
    b := UnknownMessage(used + {a.id});
    c := UnknownMessage(used + {a.id, b.id});
  }

  /** Whatever the setup, if two dates have their budget used up: the checks of one life can go from the
      one to the other and back, and then the first date is alerted twice. */
  lemma AlertComesBack(setup: Setup, one: string, other: string) returns (s: State)
    requires one != other && DateOf(one) == one && DateOf(other) == other
    requires !Tier2.HasBudget(setup.found, one, setup.config.budget)
    requires !Tier2.HasBudget(setup.found, other, setup.config.budget)
    ensures Reachable(setup, s) && s.proc.Some?
    ensures s.proc.value.spent == [one, other, one] && s.proc.value.alerted == [0, 1, 2]
    ensures !DailyAlert.OnceEach(s.proc.value.spent, s.proc.value.alerted)
  {
    hide Initial, Next, After, CanTake, Replay;
    var a, b, c := ThreeMessages(setup.found.processed.Keys);
    var t := CaughtUpDaemon(setup, Always(ESCALATION), false);
    SpentAtFirst(setup, t, one);
    var u := Round(setup, t, a, one);
    SpentAtFirst(setup, u, other);
    var v := Round(setup, u, b, other);
    SpentAtFirst(setup, v, one);
    s := Round(setup, v, c, one);
    var spent, alerted := s.proc.value.spent, s.proc.value.alerted;
    assert spent == [one, other, one] && alerted == [0, 1, 2];
    assert spent[alerted[0]] == spent[alerted[2]];
  }

  lemma SpentAtFirst(setup: Setup, s: State, date: string)
    requires !Tier2.HasBudget(setup.found, date, setup.config.budget) && DbOf(setup, s).usage == setup.found.usage
    ensures BudgetSpent(setup, s, date)
  {}
}
