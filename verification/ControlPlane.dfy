/** Conservation of control-plane events: pause and resume calls are audited, each once, in order. */
module ControlPlane {
  import opened Model
  import opened Mailbox
  import opened Daemon
  import opened DaemonRuns
  import opened CursorSafety
  import opened Scenarios

  /** The control-plane rows among `es`: audit entries under the empty message id. */
  function Plane(es: seq<Effect>): seq<string> {
    if es == [] then []
    else (if es[0].AuditWritten? && es[0].jmapId == "" then [es[0].event] else []) + Plane(es[1..])
  }

  function Names(es: seq<PlaneEvent>): seq<string> {
    if es == [] then [] else [EventName(es[0])] + Names(es[1..])
  }

  /** What a sequence of pause and resume calls leaves the flag at. */
  function PausedAfter(es: seq<PlaneEvent>): bool {
    es != [] && es[|es| - 1] == DaemonPaused
  }

  /** Written, captured and pending events, in this order, are all that was ever enqueued in this
      process life; and the flag is what those calls make it. */
  ghost predicate Conserved(s: State) {
    s.proc.Some? ==>
      var p := s.proc.value;
      && p.born <= |s.log|
      && Plane(s.log[p.born..]) + Names(Captured(p.pc)) + Names(p.pending) == Names(p.enqueued)
      && p.paused == PausedAfter(p.enqueued)
  }

  /** Message ids are never empty: not in the mail, so not in a batch. */
  ghost predicate NamedMail(s: State) {
    && (forall i | 0 <= i < |s.mail| && s.mail[i].Created? :: s.mail[i].message.id != "")
    && (s.proc.Some? && Pending(s.proc.value.pc).Some? ==>
          forall m | m in Pending(s.proc.value.pc).value.1 :: m.id != "")
  }

  lemma {:induction false} PlaneConcat(a: seq<Effect>, b: seq<Effect>)
    ensures Plane(a + b) == Plane(a) + Plane(b)
  {
    if a == [] {
      assert a + b == b;
    } else {
      assert (a + b)[0] == a[0] && (a + b)[1..] == a[1..] + b;
      PlaneConcat(a[1..], b);
    }
  }

  lemma {:induction false} NamesConcat(a: seq<PlaneEvent>, b: seq<PlaneEvent>)
    ensures Names(a + b) == Names(a) + Names(b)
  {
    if a == [] {
      assert a + b == b;
    } else {
      assert (a + b)[0] == a[0] && (a + b)[1..] == a[1..] + b;
      NamesConcat(a[1..], b);
    }
  }

  lemma PlaneAppend(log: seq<Effect>, born: nat, e: Effect)
    requires born <= |log|
    ensures Plane((log + [e])[born..])
         == Plane(log[born..]) + if e.AuditWritten? && e.jmapId == "" then [e.event] else []
  {
    assert (log + [e])[born..] == log[born..] + [e];
    PlaneConcat(log[born..], [e]);
  }

  lemma {:induction false} SubsequenceHas(xs: seq<Message>, ys: seq<Message>, m: Message)
    requires Subsequence(xs, ys) && m in xs
    ensures m in ys
    decreases |ys|
  {
    if xs[0] == ys[0] && Subsequence(xs[1..], ys[1..]) {
      if m != xs[0] { SubsequenceHas(xs[1..], ys[1..], m); }
    } else {
      SubsequenceHas(xs, ys[1..], m);
    }
  }

  lemma {:induction false} CreatedInNamed(mail: Log, a: nat, b: nat)
    requires a <= b <= |mail|
    requires forall i | 0 <= i < |mail| && mail[i].Created? :: mail[i].message.id != ""
    ensures forall m | m in CreatedIn(mail, a, b) :: m.id != ""
    decreases b
  {
    if a < b {
      CreatedInNamed(mail, a, b - 1);
    }
  }

  lemma PolledNamed(s: State, c: Cursor, upTo: Cursor, batch: seq<Message>)
    requires NamedMail(s) && Delivery(s.mail, c, upTo, batch)
    ensures forall m | m in batch :: m.id != ""
  {
    DeliveryIsInOrder(s.mail, c, upTo, batch);
    CreatedInNamed(s.mail, c, upTo);
    forall m | m in batch ensures m.id != "" {
      SubsequenceHas(batch, CreatedIn(s.mail, c, upTo), m);
    }
  }

  lemma PollTurnNamed(setup: Setup, s: State, p: Proc, turn: Turn)
    requires NamedMail(s) && s.proc == Some(p) && CanTake(setup, s, p, turn) && turn.Poll?
    ensures NamedMail(After(setup, s, p, turn))
  {
    if p.cursor.Some? {
      assert Path(s.mail, p.cursor.value, turn.legs, turn.upTo);
      PolledNamed(s, p.cursor.value, turn.upTo, turn.batch);
    }
  }

  lemma BeginNamed(setup: Setup, s: State, p: Proc, turn: Turn)
    requires NamedMail(s) && s.proc == Some(p) && CanTake(setup, s, p, turn) && turn.Begin?
    ensures NamedMail(After(setup, s, p, turn))
  {
    hide DbOf;
    assert [p.pc.work.todo[0]] + p.pc.work.todo[1..] == p.pc.work.todo;
  }

  lemma FinishNamed(setup: Setup, s: State, p: Proc, run: MessageRun, work: Work)
    requires NamedMail(s) && s.proc == Some(p) && p.pc == Running(run, work)
    ensures NamedMail(AfterRun(s, p, run, work))
  {
    hide InHand;
    assert Pending(p.pc).value.1 == [run.message] + work.todo;
    assert forall m | m in work.todo :: m in Pending(p.pc).value.1;
  }

  lemma FinishTurnNamed(setup: Setup, s: State, p: Proc, turn: Turn)
    requires NamedMail(s) && s.proc == Some(p) && CanTake(setup, s, p, turn) && turn.Finish?
    ensures NamedMail(After(setup, s, p, turn))
  {
    FinishNamed(setup, s, p, p.pc.run, p.pc.work);
  }

  lemma PlainNamed(setup: Setup, s: State, p: Proc, turn: Turn)
    requires NamedMail(s) && s.proc == Some(p) && CanTake(setup, s, p, turn)
    requires !turn.Poll? && !turn.Begin? && !turn.Finish?
    ensures NamedMail(After(setup, s, p, turn))
  {
    hide PollResult, AfterRun, StartRun, InHand, BudgetSpent, DbOf;
  }

  lemma TurnNamed(setup: Setup, s: State, p: Proc, turn: Turn)
    requires NamedMail(s) && s.proc == Some(p) && CanTake(setup, s, p, turn)
    ensures NamedMail(After(setup, s, p, turn))
  {
    hide NamedMail, CanTake, After;
    match turn
    case Poll(_, _, _) => PollTurnNamed(setup, s, p, turn);
    case Begin(_, _) => BeginNamed(setup, s, p, turn);
    case Finish => FinishTurnNamed(setup, s, p, turn);
    case _ => PlainNamed(setup, s, p, turn);
  }

  lemma NamedMailKept(setup: Setup, s: State, a: Act)
    requires NamedMail(s) && Enabled(setup, s, a)
    ensures NamedMail(Next(setup, s, a))
  {
    if a.Take? {
      TurnNamed(setup, s, s.proc.value, a.turn);
    }
  }

  lemma EnqueueConserves(s: State, p: Proc, paused: bool, e: PlaneEvent)
    requires Conserved(s) && s.proc == Some(p) && paused == (e == DaemonPaused)
    ensures Conserved(s.(proc := Some(Enqueue(p, paused, e))))
  {
    NamesConcat(p.pending, [e]);
    NamesConcat(p.enqueued, [e]);
  }

  /** Capturing and resetting the list is one step, so nothing falls in between. */
  lemma CaptureConserves(s: State, p: Proc)
    requires Conserved(s) && s.proc == Some(p) && p.pc.Head?
    ensures Conserved(Capture(s, p))
  {
    assert Names([]) == [];
    hide Plane, Names, PausedAfter;
    var written, pending := Plane(s.log[p.born..]), Names(p.pending);
    assert written + [] + pending == written + pending + [];
  }

  lemma WriteConserves(setup: Setup, s: State, p: Proc, ts: string)
    requires Conserved(s) && s.proc == Some(p) && CanTake(setup, s, p, WriteEvent(ts))
    ensures Conserved(After(setup, s, p, WriteEvent(ts)))
  {
    hide StartTier2, StartRun, AfterRun, AfterCheck, Acknowledge, Capture, InHand, PollResult, DbOf, Plane, BudgetSpent;
    var e := AuditWritten(ts, "", EventName(p.pc.captured[0]), None);
    PlaneAppend(s.log, p.born, e);
  }

  /** A step that logs an effect that is no control-plane row, and touches no event list. */
  lemma LogConserves(s: State, t: State, e: Effect)
    requires Conserved(s) && s.proc.Some? && t.log == s.log + [e]
    requires e.AuditWritten? ==> e.jmapId != ""
    requires t.proc.Some? ==>
               var p, q := s.proc.value, t.proc.value;
               && q.born == p.born && q.pending == p.pending && q.enqueued == p.enqueued && q.paused == p.paused
               && Captured(q.pc) == Captured(p.pc)
    ensures Conserved(t)
  {
    PlaneAppend(s.log, s.proc.value.born, e);
  }

  lemma CommitConserves(setup: Setup, s: State, p: Proc)
    requires Conserved(s) && NamedMail(s) && RunInv(setup, s) && s.proc == Some(p) && CanTake(setup, s, p, CommitNext)
    ensures Conserved(After(setup, s, p, CommitNext))
  {
    var run := p.pc.run;
    assert Whole(s, run)[|s.log| - run.began] == run.rest[0];
    assert run.message in Pending(p.pc).value.1;
    LogConserves(s, After(setup, s, p, CommitNext), run.rest[0]);
  }

  lemma CheckConserves(setup: Setup, s: State, p: Proc, turn: Turn)
    requires Conserved(s) && s.proc == Some(p) && CanTake(setup, s, p, turn) && turn.CheckBudget?
    ensures Conserved(After(setup, s, p, turn))
  {
    hide BudgetSpent, InHand, StartTier2, StartRun, AfterRun, Acknowledge, Capture, PollResult, DbOf, Plane, Names;
    var t := After(setup, s, p, turn);
    if t.log != s.log {
      LogConserves(s, t, Alerted(turn.id, "Daily LLM budget exhausted", Critical));
    }
  }

  lemma AckConserves(setup: Setup, s: State, p: Proc)
    requires Conserved(s) && s.proc == Some(p) && CanTake(setup, s, p, Ack)
    ensures Conserved(After(setup, s, p, Ack))
  {
    LogConserves(s, After(setup, s, p, Ack), CursorSet(setup.account, Pending(p.pc).value.0));
  }

  lemma TurnConserves(setup: Setup, s: State, p: Proc, turn: Turn)
    requires Conserved(s) && NamedMail(s) && RunInv(setup, s) && s.proc == Some(p) && CanTake(setup, s, p, turn)
    ensures Conserved(After(setup, s, p, turn))
  {
    hide RunFits, DbOf, BudgetSpent, PollResult, NamedMail, Acknowledge, Plane, Names, PausedAfter, InHand;
    match turn
    case CallPause => EnqueueConserves(s, p, true, DaemonPaused);
    case CallResume => EnqueueConserves(s, p, false, DaemonResumed);
    case EnterLoop => CaptureConserves(s, p);
    case WriteEvent(ts) => WriteConserves(setup, s, p, ts);
    case CommitNext => CommitConserves(setup, s, p);
    case CheckBudget(_, _, _) => CheckConserves(setup, s, p, turn);
    case Ack => AckConserves(setup, s, p);
    case _ =>
  }

  lemma ConservedKept(setup: Setup, s: State, a: Act)
    requires Conserved(s) && NamedMail(s) && RunInv(setup, s) && Enabled(setup, s, a)
    ensures Conserved(Next(setup, s, a))
  {
    match a
    case Take(turn) => TurnConserves(setup, s, s.proc.value, turn);
    case Arrive(_) =>
    case Start(_, _) => assert s.log[|s.log|..] == [];
  }

  lemma {:induction false} ConservedHolds(setup: Setup, from: State, acts: seq<Act>, s: State)
    requires Conserved(from) && NamedMail(from) && RunInv(setup, from) && Reaches(setup, from, acts, s)
    ensures Conserved(s)
    decreases |acts|
  {
    if acts != [] {
      ConservedKept(setup, from, acts[0]);
      NamedMailKept(setup, from, acts[0]);
      RunInvKept(setup, from, acts[0]);
      ConservedHolds(setup, Next(setup, from, acts[0]), acts[1..], s);
    }
  }

  /** Conservation, for any number of pause and resume calls interleaved anywhere: in every
      reachable state the control-plane rows written in this process life, then the captured events,
      then the pending ones, are exactly the calls made, in order, and the flag agrees with them. */
  lemma ControlPlaneConservation(setup: Setup, s: State)
    requires Reachable(setup, s) && s.proc.Some?
    ensures var p := s.proc.value;
            && p.born <= |s.log|
            && Plane(s.log[p.born..]) + Names(Captured(p.pc)) + Names(p.pending) == Names(p.enqueued)
            && p.paused == PausedAfter(p.enqueued)
  {
    var from, acts :| Initial(setup, from) && Reaches(setup, from, acts, s);
    ConservedHolds(setup, from, acts, s);
  }

  // ----- Over all lives -----

  /** What a life has written: its calls but for those it had not written when it ended. */
  function WrittenIn(l: Life): seq<string> {
    if |l.unwritten| <= |l.calls| then Names(l.calls[..|l.calls| - |l.unwritten|]) else []
  }

  function Written(lives: seq<Life>): seq<string> {
    if lives == [] then [] else Written(lives[..|lives| - 1]) + WrittenIn(lives[|lives| - 1])
  }

  /** What a life had not written are its last calls. */
  predicate EndsUnwritten(l: Life) {
    |l.unwritten| <= |l.calls| && l.calls[|l.calls| - |l.unwritten|..] == l.unwritten
  }

  function LifeOf(s: State): Life
    requires s.proc.Some?
  {
    var p := s.proc.value;
    Life(p.born, |s.log|, p.observe, p.enqueued, Captured(p.pc) + p.pending)
  }

  /** The log up to the birth of the process, or all of it, holds what the lives before have written. */
  ghost predicate LivesWritten(s: State) {
    && (forall k | 0 <= k < |s.lives| :: EndsUnwritten(s.lives[k]))
    && var upTo := if s.proc.Some? then s.proc.value.born else |s.log|;
       upTo <= |s.log| && Plane(s.log[..upTo]) == Written(s.lives)
  }

  lemma {:induction false} NamesAreMany(es: seq<PlaneEvent>)
    ensures |Names(es)| == |es|
  {
    if es != [] {
      NamesAreMany(es[1..]);
    }
  }

  lemma {:induction false} NamesTell(a: seq<PlaneEvent>, b: seq<PlaneEvent>)
    requires Names(a) == Names(b)
    ensures a == b
  {
    NamesAreMany(a);
    NamesAreMany(b);
    if a != [] {
      assert Names(a)[0] == EventName(a[0]) && Names(b)[0] == EventName(b[0]);
      assert Names(a)[1..] == Names(a[1..]) && Names(b)[1..] == Names(b[1..]);
      NamesTell(a[1..], b[1..]);
    }
  }

  /** `written` and the names of `rest` are all names of `calls`. */
  lemma SplitCalls(written: seq<string>, rest: seq<PlaneEvent>, calls: seq<PlaneEvent>)
    requires written + Names(rest) == Names(calls)
    ensures |rest| <= |calls| && calls[|calls| - |rest|..] == rest && Names(calls[..|calls| - |rest|]) == written
  {
    hide Names;
    NamesAreMany(rest);
    NamesAreMany(calls);
    var k := |calls| - |rest|;
    NamesConcat(calls[..k], calls[k..]);
    assert calls == calls[..k] + calls[k..];
    NamesAreMany(calls[k..]);
    SameParts(written, Names(rest), Names(calls[..k]), Names(calls[k..]));
    NamesTell(calls[k..], rest);
  }

  lemma SameParts(a: seq<string>, b: seq<string>, c: seq<string>, d: seq<string>)
    requires a + b == c + d && |b| == |d|
    ensures a == c && b == d
  {
    assert |a| == |c| && a == (a + b)[..|a|] && c == (c + d)[..|c|];
    assert b == (a + b)[|a|..] && d == (c + d)[|c|..];
  }

  lemma LifeSplits(s: State)
    requires Conserved(s) && s.proc.Some?
    ensures EndsUnwritten(LifeOf(s)) && WrittenIn(LifeOf(s)) == Plane(s.log[s.proc.value.born..])
  {
    hide Plane, Names, PausedAfter;
    var p := s.proc.value;
    var written := Plane(s.log[p.born..]);
    NamesConcat(Captured(p.pc), p.pending);
    assert written + Names(Captured(p.pc)) + Names(p.pending) == written + (Names(Captured(p.pc)) + Names(p.pending));
    SplitCalls(written, Captured(p.pc) + p.pending, p.enqueued);
  }

  /** The process goes on, or a life that conserved its calls ends. */
  ghost predicate GoesOn(s: State, t: State) {
    && s.proc.Some? && t.proc.Some? && t.proc.value.born == s.proc.value.born
    && t.lives == s.lives && s.log <= t.log
  }

  ghost predicate LifeEnds(s: State, t: State) {
    s.proc.Some? && t.proc.None? && t.log == s.log && t.lives == s.lives + [LifeOf(s)]
  }

  lemma GoingOnKeepsLives(s: State, t: State)
    requires LivesWritten(s) && GoesOn(s, t)
    ensures LivesWritten(t)
  {
    assert t.log[..t.proc.value.born] == s.log[..s.proc.value.born];
  }

  lemma PlaneSplits(log: seq<Effect>, at: nat)
    requires at <= |log|
    ensures Plane(log) == Plane(log[..at]) + Plane(log[at..])
  {
    hide Plane;
    PlaneConcat(log[..at], log[at..]);
    assert log == log[..at] + log[at..];
  }

  lemma OneMoreLife(lives: seq<Life>, l: Life)
    requires (forall k | 0 <= k < |lives| :: EndsUnwritten(lives[k])) && EndsUnwritten(l)
    ensures forall k | 0 <= k < |lives + [l]| :: EndsUnwritten((lives + [l])[k])
    ensures Written(lives + [l]) == Written(lives) + WrittenIn(l)
  {
    hide EndsUnwritten, WrittenIn;
    assert (lives + [l])[..|lives|] == lives;
  }

  lemma EndKeepsLives(s: State, t: State)
    requires LivesWritten(s) && Conserved(s) && LifeEnds(s, t)
    ensures LivesWritten(t)
  {
    LifeSplits(s);
    OneMoreLife(s.lives, LifeOf(s));
    PlaneSplits(s.log, s.proc.value.born);
    hide Plane, Written, WrittenIn, EndsUnwritten, Conserved, LifeOf;
    assert t.log[..|t.log|] == t.log;
  }

  /** The turns that can end the process. */
  predicate MayEnd(turn: Turn) {
    turn.Crash? || turn.PollFails? || turn.EnterLoop? || turn.Begin? || turn.Finish? || turn.CheckBudget?
  }

  lemma OnwardTurn(setup: Setup, s: State, p: Proc, turn: Turn)
    requires s.proc == Some(p) && CanTake(setup, s, p, turn) && !MayEnd(turn)
    ensures GoesOn(s, After(setup, s, p, turn))
  {
    hide DbOf, InHand, PollResult, StartRun, AfterRun, AfterCheck, Capture, BudgetSpent;
  }

  lemma EndingTurn(setup: Setup, s: State, p: Proc, turn: Turn)
    requires s.proc == Some(p) && CanTake(setup, s, p, turn) && MayEnd(turn) && !turn.CheckBudget?
    ensures GoesOn(s, After(setup, s, p, turn)) || LifeEnds(s, After(setup, s, p, turn))
  {
    hide DbOf, InHand, PollResult, AfterCheck, StartTier2, Acknowledge, BudgetSpent;
  }

  lemma CheckKeepsLives(setup: Setup, s: State, p: Proc, turn: Turn)
    requires LivesWritten(s) && Conserved(s) && s.proc == Some(p) && CanTake(setup, s, p, turn) && turn.CheckBudget?
    ensures LivesWritten(After(setup, s, p, turn))
  {
    hide DbOf, BudgetSpent, Plane, Written, LivesWritten, Conserved;
    var t := After(setup, s, p, turn);
    var e := Alerted(turn.id, "Daily LLM budget exhausted", Critical);
    if t.proc.Some? {
      GoingOnKeepsLives(s, t);
    } else {
      var u := s.(log := t.log, proc := Some(p.(pc := Handling(p.pc.work))));
      LogConserves(s, u, e);
      GoingOnKeepsLives(s, u);
      EndKeepsLives(u, t);
    }
  }

  lemma LivesWrittenKept(setup: Setup, s: State, a: Act)
    requires LivesWritten(s) && Conserved(s) && Enabled(setup, s, a)
    ensures LivesWritten(Next(setup, s, a))
  {
    hide LivesWritten, Conserved, CanTake, After;
    match a
    case Take(turn) =>
      var p := s.proc.value;
      if turn.CheckBudget? {
        CheckKeepsLives(setup, s, p, turn);
      } else if MayEnd(turn) {
        EndingTurn(setup, s, p, turn);
        if GoesOn(s, After(setup, s, p, turn)) {
          GoingOnKeepsLives(s, After(setup, s, p, turn));
        } else {
          EndKeepsLives(s, After(setup, s, p, turn));
        }
      } else {
        OnwardTurn(setup, s, p, turn);
        GoingOnKeepsLives(s, After(setup, s, p, turn));
      }
    case Arrive(c) => SameLives(s, Next(setup, s, a));
    case Start(_, _) => SameLives(s, Next(setup, s, a));
  }

  /** A start has the whole log before its birth; mail that arrives changes nothing here. */
  lemma SameLives(s: State, t: State)
    requires LivesWritten(s) && t.log == s.log && t.lives == s.lives
    requires t.proc == s.proc || (s.proc.None? && t.proc.Some? && t.proc.value.born == |s.log|)
    ensures LivesWritten(t)
  {}

  lemma {:induction false} LivesWrittenHolds(setup: Setup, from: State, acts: seq<Act>, s: State)
    requires LivesWritten(from) && Conserved(from) && NamedMail(from) && RunInv(setup, from)
    requires Reaches(setup, from, acts, s)
    ensures LivesWritten(s) && Conserved(s)
    decreases |acts|
  {
    if acts != [] {
      LivesWrittenKept(setup, from, acts[0]);
      ConservedKept(setup, from, acts[0]);
      NamedMailKept(setup, from, acts[0]);
      RunInvKept(setup, from, acts[0]);
      LivesWrittenHolds(setup, Next(setup, from, acts[0]), acts[1..], s);
    }
  }

  lemma LivesAccount(s: State)
    requires LivesWritten(s) && Conserved(s)
    ensures forall k | 0 <= k < |s.lives| :: EndsUnwritten(s.lives[k])
    ensures Plane(s.log) == Written(s.lives) + if s.proc.Some? then WrittenIn(LifeOf(s)) else []
    ensures s.proc.Some? ==> EndsUnwritten(LifeOf(s))
  {
    if s.proc.Some? {
      LifeSplits(s);
      PlaneSplits(s.log, s.proc.value.born);
    }
    hide Plane, Written, WrittenIn, EndsUnwritten, Conserved, LifeOf;
    assert s.log[..|s.log|] == s.log;
  }

  /** Over all process lives, however each ended: the control-plane rows of the whole log are, in order, the
      calls of each life but for its last ones, which it had captured or taken in and not written when it
      ended; and of the running process, those it has written so far. */
  lemma ControlPlaneOverLives(setup: Setup, s: State)
    requires Reachable(setup, s)
    ensures forall k | 0 <= k < |s.lives| :: EndsUnwritten(s.lives[k])
    ensures Plane(s.log) == Written(s.lives) + if s.proc.Some? then WrittenIn(LifeOf(s)) else []
    ensures s.proc.Some? ==> EndsUnwritten(LifeOf(s))
  {
    var from, acts :| Initial(setup, from) && Reaches(setup, from, acts, s);
    LivesWrittenHolds(setup, from, acts, s);
    LivesAccount(s);
  }

  /** A call just before a clean stop is never audited: the loop is left at its head, without draining. */
  lemma CleanStopLosesACall(setup: Setup) returns (t: State)
    ensures Reachable(setup, t) && t.proc.None? && |t.lives| > 0
    ensures t.lives[|t.lives| - 1].calls == t.lives[|t.lives| - 1].unwritten == [DaemonPaused]
  {
    var s := CaughtUpDaemon(setup, [], false);
    t := StoppedAfterCall(setup, s);
  }

  lemma StoppedAfterCall(setup: Setup, s: State) returns (t: State)
    requires Reachable(setup, s) && s.proc.Some? && Idle(s.proc.value) && s.proc.value.enqueued == []
    ensures Reachable(setup, t) && t.proc.None?
    ensures var p := s.proc.value;
            t.lives == s.lives + [Life(p.born, |s.log|, p.observe, [DaemonPaused], [DaemonPaused])]
  {
    Onward(setup, s, Take(CallPause));
    t := Next(setup, s, Take(CallPause));
    Onward(setup, t, Take(RequestStop));
    t := Next(setup, t, Take(RequestStop));
    assert t.proc.value.pending == [DaemonPaused] && t.proc.value.enqueued == [DaemonPaused];
    Onward(setup, t, Take(EnterLoop));
    t := Next(setup, t, Take(EnterLoop));
  }

  // ----- The variant that captures and resets in two steps -----

  function CaptureOnly(p: Proc): Proc {
    p.(pc := Draining(p.pending))
  }

  function ResetOnly(p: Proc): Proc {
    p.(pending := [])
  }

  /** A handler that runs between the two steps loses its event, whatever came before. */
  lemma SplitCaptureLosesEvents(s: State, p: Proc, paused: bool, e: PlaneEvent)
    requires Conserved(s) && s.proc == Some(p) && p.pc.Head? && paused == (e == DaemonPaused)
    ensures !Conserved(s.(proc := Some(ResetOnly(Enqueue(CaptureOnly(p), paused, e)))))
  {
    NamesConcat(p.enqueued, [e]);
    var q := ResetOnly(Enqueue(CaptureOnly(p), paused, e));
    assert |Names(q.enqueued)| == |Names(p.enqueued)| + 1;
  }
}
