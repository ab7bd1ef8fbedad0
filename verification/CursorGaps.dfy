/** The two ways in which a message can be left unprocessed behind the cursor, each as a run that every
    setup admits. */
module CursorGaps {
  import opened Model
  import opened StateDb
  import opened Mailbox
  import opened Daemon
  import opened Cursors = CursorSafety
  import opened RunHistory
  import opened Scenarios
  import Tier1

  // ----- Observing: escalated, audited, passed by -----

  const OBSERVER: Tier1.Env := Tier1.Env(true, "", "", None, None, None)

  lemma EscalatedAndAudited(env: Tier1.Env, setup: Setup, db: Db, m: Message)
    requires m.id !in db.processed
    ensures var x := Tier1.Process(env, false, db, m, Always(ESCALATION), setup.unmatched, None);
            && x.out.Ok? && x.out.value.Some? && x.out.value.value.action.kind == Escalate
            && |x.effects| == 1 && x.effects[0].AuditWritten?
  {}

  lemma EscalationBegun(setup: Setup, s: State, m: Message, c: Cursor) returns (t: State)
    requires Reachable(setup, s) && s.proc.Some? && !s.proc.value.stopping && s.proc.value.observe
    requires s.proc.value.pc == Handling(Work([m], Always(ESCALATION), c)) && m.id !in DbOf(setup, s).processed
    ensures Reachable(setup, t) && t == s.(proc := t.proc) && t.proc.Some?
    ensures var p := t.proc.value;
            && p.pc.Running? && p == s.proc.value.(pc := p.pc) && p.pc.work == Work([], Always(ESCALATION), c)
            && var run := p.pc.run;
               && run.observed && run.phase.InTier1? && run.phase.verdict.Ok?
               && |run.rest| == 1 && run.rest[0].AuditWritten?
  {
    EscalatedAndAudited(OBSERVER, setup, DbOf(setup, s), m);
    hide Initial, Tier1.Process, PollResult, AfterRun, AfterCheck, StartTier2, Acknowledge, Capture;
    Onward(setup, s, Take(Begin(OBSERVER, None)));
    t := Next(setup, s, Take(Begin(OBSERVER, None)));
  }

  /** It is escalated and audited. */
  lemma Escalated(setup: Setup, s: State, m: Message, c: Cursor) returns (t: State)
    requires Reachable(setup, s) && s.proc.Some? && !s.proc.value.stopping && s.proc.value.observe && s.runs == []
    requires s.proc.value.pc == Handling(Work([m], Always(ESCALATION), c)) && m.id !in DbOf(setup, s).processed
    ensures Reachable(setup, t) && t.mail == s.mail && t.first == s.first && |t.runs| == 1 && t.runs[0].observed
    ensures t.proc == Some(s.proc.value.(pc := Handling(Work([], Always(ESCALATION), c))))
    ensures DbOf(setup, t).processed == DbOf(setup, s).processed
  {
    var u := EscalationBegun(setup, s, m, c);
    t := AuditCommitted(setup, u);
    t := HeldAtTheEnd(setup, t);
  }

  lemma AuditCommitted(setup: Setup, s: State) returns (t: State)
    requires Reachable(setup, s) && s.proc.Some? && s.proc.value.pc.Running?
    requires var rest := s.proc.value.pc.run.rest; |rest| == 1 && rest[0].AuditWritten?
    ensures Reachable(setup, t) && DbOf(setup, t).processed == DbOf(setup, s).processed
    ensures var p := s.proc.value;
            t == s.(log := t.log, proc := Some(p.(pc := Running(p.pc.run.(rest := []), p.pc.work))))
  {
    ReplayAppend(setup.found, s.log, s.proc.value.pc.run.rest[0]);
    assert s.proc.value.pc.run.rest[1..] == [];
    Onward(setup, s, Take(CommitNext));
    t := Next(setup, s, Take(CommitNext));
  }

  lemma HeldAtTheEnd(setup: Setup, s: State) returns (t: State)
    requires Reachable(setup, s) && s.proc.Some? && s.proc.value.pc.Running?
    requires var run := s.proc.value.pc.run;
             run.observed && run.rest == [] && run.phase.InTier1? && run.phase.verdict.Ok?
    ensures Reachable(setup, t) && t.mail == s.mail && t.first == s.first && t.log == s.log
    ensures t.proc == Some(s.proc.value.(pc := Handling(s.proc.value.pc.work)))
    ensures t.runs == s.runs + [EndOf(s, s.proc.value.pc.run, true)]
  {
    Onward(setup, s, Take(Finish));
    t := Next(setup, s, Take(Finish));
  }

  /** All runs so far observed, or none did. */
  ghost predicate AllIn(s: State, observe: bool) {
    forall r | r in s.runs :: r.observed == observe
  }

  /** Whatever the setup: a life that observes leaves a message of an acknowledged batch unprocessed; and
      the life after it, which acts, has its cursor behind it. */
  lemma ObserveLeavesOneBehind(setup: Setup) returns (t: State, i: nat)
    ensures Reachable(setup, t) && Between(setup, t, i) && t.mail[i].inInbox && AllIn(t, true)
    ensures exists f :: f in t.acked && t.mail[i].message in f.batch
    ensures t.mail[i].message.id !in DbOf(setup, t).processed
    ensures t.proc.Some? && !t.proc.value.observe && t.proc.value.cursor == Durable(setup, t)
  {
    var u := CaughtUpDaemon(setup, Always(ESCALATION), true);
    var m := UnknownMessage(setup.found.processed.Keys);
    var v := Delivered(setup, u, Always(ESCALATION), true, m);
    var w := Escalated(setup, v, m, |u.mail| + 1);
    t := Passed(setup, w, Always(ESCALATION), |u.mail| + 1);
    i := |u.mail|;
    assert v.proc.value.fetch.value in t.acked && t.mail[i].message in v.proc.value.fetch.value.batch;
    t := Restarted(setup, t, [], false);
  }

  /** A process between two messages crashes, and another is started. */
  lemma Restarted(setup: Setup, s: State, rules: seq<Rule>, observe: bool) returns (t: State)
    requires Reachable(setup, s) && s.proc.Some? && s.proc.value.pc.Head?
    ensures Reachable(setup, t) && t.log == s.log && t.mail == s.mail && t.first == s.first && t.acked == s.acked
    ensures t.runs == s.runs && t.proc == Some(Born(setup, s, rules, observe))
  {
    Onward(setup, s, Take(Crash));
    t := Next(setup, s, Take(Crash));
    assert s.runs + [] == s.runs;
    Onward(setup, t, Start(rules, observe));
    t := Next(setup, t, Start(rules, observe));
  }

  // ----- Acting: moved, not yet marked, gone -----

  const MOVER: Tier1.Env := OBSERVER.(observe := false)

  lemma MovedFirst(setup: Setup, db: Db, m: Message)
    requires m.id !in db.processed
    ensures var x := Tier1.Process(MOVER, false, db, m, Always(MOVING), setup.unmatched, None);
            |x.effects| == 3 && x.effects[0] == ActionCalled(m.id, MOVING)
  {}

  /** The run of the message begins. */
  lemma MoveBegun(setup: Setup, s: State, m: Message, c: Cursor) returns (t: State)
    requires Reachable(setup, s) && s.proc.Some? && !s.proc.value.stopping && !s.proc.value.observe
    requires s.proc.value.pc == Handling(Work([m], Always(MOVING), c)) && m.id !in DbOf(setup, s).processed
    ensures Reachable(setup, t) && t.proc.Some? && t.first == s.first && t.mail == s.mail && t.log == s.log
    ensures t.proc.value.pc.Running? && !t.proc.value.pc.run.observed && t.runs == s.runs
    ensures var rest := t.proc.value.pc.run.rest; rest != [] && rest[0] == ActionCalled(m.id, MOVING)
  {
    MovedFirst(setup, DbOf(setup, s), m);
    var begin := Take(Begin(MOVER, None));
    Onward(setup, s, begin);
    t := Next(setup, s, begin);
  }

  /** The action is applied. */
  lemma ActedOn(setup: Setup, s: State, m: Message, c: Cursor) returns (t: State)
    requires Reachable(setup, s) && s.proc.Some? && !s.proc.value.stopping && !s.proc.value.observe
    requires s.proc.value.pc == Handling(Work([m], Always(MOVING), c)) && m.id !in DbOf(setup, s).processed
    ensures Reachable(setup, t) && t.proc.Some? && t.first == s.first && t.mail == s.mail && t.runs == s.runs
    ensures t.log == s.log + [ActionCalled(m.id, MOVING)] && DbOf(setup, t) == DbOf(setup, s)
    ensures t.proc.value.pc.Running? && !t.proc.value.pc.run.observed
  {
    t := MoveBegun(setup, s, m, c);
    ReplayAppend(setup.found, t.log, ActionCalled(m.id, MOVING));
    Onward(setup, t, Take(CommitNext));
    t := Next(setup, t, Take(CommitNext));
  }

  /** The action is applied, the server moves the message out of the Inbox, and the process crashes. */
  lemma MovedAndCrashed(setup: Setup, s: State, m: Message, c: Cursor) returns (t: State)
    requires Reachable(setup, s) && s.proc.Some? && !s.proc.value.stopping && !s.proc.value.observe && s.runs == []
    requires s.proc.value.pc == Handling(Work([m], Always(MOVING), c)) && m.id !in DbOf(setup, s).processed
    ensures Reachable(setup, t) && t.proc.None? && t.first == s.first && AllIn(t, false)
    ensures t.mail == s.mail + [Moved(m.id, false)] && t.log == s.log + [ActionCalled(m.id, MOVING)]
    ensures DbOf(setup, t) == DbOf(setup, s)
  {
    t := ActedOn(setup, s, m, c);
    Onward(setup, t, Arrive(Moved(m.id, false)));
    t := Next(setup, t, Arrive(Moved(m.id, false)));
    Onward(setup, t, Take(Crash));
    t := Next(setup, t, Take(Crash));
  }

  /** The page that holds a message created in the Inbox and moved out of it since. */
  lemma GoneWhenRead(mail: Log, m: Message)
    ensures var more, n := mail + [Created(m, true)] + [Moved(m.id, false)], |mail|;
            var legs := [Leg(n + 2, n + 2)];
            Path(more, n, legs, n + 2) && Collected(more, n, legs, n + 2) == []
  {
    var more, n := mail + [Created(m, true)] + [Moved(m.id, false)], |mail|;
    var legs := [Leg(n + 2, n + 2)];
    assert legs[1..] == [];
    assert CreatedIn(more, n, n + 1) == CreatedIn(more, n, n) + [m] == [m];
    assert CreatedIn(more, n, n + 2) == [m] + [];
    assert [m][1..] == [] && StillInbox(more, [], n + 2) == [];
    assert StillInbox(more, [m], n + 2) == [];
  }

  /** The restarted process no longer finds the message, and acknowledges past it. */
  lemma RestartedAndPassed(setup: Setup, s: State, m: Message, mail: Log) returns (t: State)
    requires Reachable(setup, s) && s.proc.None? && s.mail == mail + [Created(m, true)] + [Moved(m.id, false)]
    requires Durable(setup, s) == Some(|mail|)
    ensures Reachable(setup, t) && t.mail == s.mail && (s.first.Some? ==> t.first == s.first) && t.runs == s.runs
    ensures Durable(setup, t) == Some(|mail| + 2) && DbOf(setup, t).processed == DbOf(setup, s).processed
    ensures t.log == s.log + [CursorSet(setup.account, |mail| + 2)]
  {
    GoneWhenRead(mail, m);
    Onward(setup, s, Start([], false));
    t := Next(setup, s, Start([], false));
    t := ToPolling(setup, t);
    var poll := Take(Poll(|mail| + 2, [Leg(|mail| + 2, |mail| + 2)], []));
    Onward(setup, t, poll);
    t := Next(setup, t, poll);
    t := AckNothing(setup, t, |mail| + 2);
  }

  /** Whatever the setup, with no life that observes: a message has been acted on, and yet lies behind the
      cursor neither processed nor audited. */
  lemma MoveLeavesOneBehind(setup: Setup) returns (t: State, i: nat)
    ensures Reachable(setup, t) && Between(setup, t, i) && t.mail[i].inInbox && AllIn(t, false)
    ensures t.mail[i].message.id !in DbOf(setup, t).processed
    ensures ActionCalled(t.mail[i].message.id, MOVING) in t.log
    ensures forall e | e in t.log :: !e.AuditWritten?
  {
    hide Initial, Next, After, CanTake, Commit;
    var u := CaughtUpDaemon(setup, Always(MOVING), false);
    var m := UnknownMessage(setup.found.processed.Keys);
    var v := Delivered(setup, u, Always(MOVING), false, m);
    var w := MovedAndCrashed(setup, v, m, |u.mail| + 1);
    t := RestartedAndPassed(setup, w, m, u.mail);
    i := |u.mail|;
    assert t.log[|u.log|] == ActionCalled(m.id, MOVING);
  }

  // ----- Exactly -----

  /** Every message of every acknowledged batch is processed. */
  ghost predicate DeliveredProcessed(setup: Setup, s: State) {
    forall f, m | f in s.acked && m in f.batch :: m.id in DbOf(setup, s).processed
  }

  /** As long as no run has held its message back, all delivered and acknowledged messages are processed. */
  lemma DeliveredUnlessHeldBack(setup: Setup, s: State)
    requires Reachable(setup, s) && forall r | r in s.runs :: !HeldBack(r)
    ensures DeliveredProcessed(setup, s)
  {
    Cursors.CursorSafety(setup, s);
    forall f, m | f in s.acked && m in f.batch ensures m.id in DbOf(setup, s).processed {
      assert Dealt(setup, s, m.id);
    }
  }

  /** Lives of one mode keep all delivered and acknowledged messages processed in all their states, exactly
      if they are not lives that observe. */
  lemma DeliveredProcessedExactlyWhenNotObserving(setup: Setup, observe: bool)
    ensures (forall s | Reachable(setup, s) && AllIn(s, observe) :: DeliveredProcessed(setup, s)) <==> !observe
  {
    if observe {
      var s, i := ObserveLeavesOneBehind(setup);
      assert !DeliveredProcessed(setup, s);
    } else {
      forall s | Reachable(setup, s) && AllIn(s, false) ensures DeliveredProcessed(setup, s) {
        DeliveredUnlessHeldBack(setup, s);
      }
    }
  }

  /** Every message created in the Inbox between the cursors is processed. */
  ghost predicate NothingLeftBehind(setup: Setup, s: State) {
    forall i: nat | Between(setup, s, i) && s.mail[i].inInbox :: s.mail[i].message.id in DbOf(setup, s).processed
  }

  /** The message was not processed at first, and each of its runs was cut before its mark or held back. */
  ghost predicate Slipped(setup: Setup, s: State, id: string) {
    && id !in setup.found.processed
    && forall r | r in AllRuns(s) && r.id == id :: CutBeforeMark(r) || HeldBack(r)
  }

  /** In every reachable state: nothing is left behind exactly if nothing slipped; and what slipped was held
      back by a life that observed, or was gone from the Inbox when its page was last read. */
  lemma NothingLeftExactly(setup: Setup, s: State)
    requires Reachable(setup, s)
    ensures NothingLeftBehind(setup, s) <==>
              forall i: nat | Between(setup, s, i) && s.mail[i].inInbox :: !Slipped(setup, s, s.mail[i].message.id)
    ensures forall i: nat | Between(setup, s, i) && Slipped(setup, s, s.mail[i].message.id) ::
              !SeenInInbox(s, i) || exists r :: r in s.runs && r.id == s.mail[i].message.id && HeldBack(r)
  {
    forall i: nat | Between(setup, s, i)
      ensures s.mail[i].message.id !in DbOf(setup, s).processed <==> Slipped(setup, s, s.mail[i].message.id)
      ensures Slipped(setup, s, s.mail[i].message.id) ==>
                !SeenInInbox(s, i) || exists r :: r in s.runs && r.id == s.mail[i].message.id && HeldBack(r)
    {
      LeftBehindExactly(setup, s, i);
    }
  }
}
