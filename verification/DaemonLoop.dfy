/** The message loop as the daemon runs it, on its mutable state, its database and its source. Every
    run of it is a run of the state machine: each method takes the machine along. */
module DaemonLoop {
  import opened Model
  import opened StateDb
  import opened Tracing
  import opened Mailbox
  import opened Jmap
  import opened Daemon
  import opened RunFacts
  import opened LoopSpec
  import Tier1
  import Escalate

  /** State shared by the loop and the handlers; touched only between awaits. */
  class DaemonState {
    var paused: bool
    var pending: seq<PlaneEvent>
    var alertDate: Option<string>
    var stopping: bool

    constructor ()
      ensures !paused && pending == [] && alertDate.None? && !stopping
    {
      paused, pending, alertDate, stopping := false, [], None, false;
    }

    method Pause()
      modifies this
      ensures paused && pending == old(pending) + [DaemonPaused]
      ensures alertDate == old(alertDate) && stopping == old(stopping)
    {
      paused := true;
      pending := pending + [DaemonPaused];
    }

    method Resume()
      modifies this
      ensures !paused && pending == old(pending) + [DaemonResumed]
      ensures alertDate == old(alertDate) && stopping == old(stopping)
    {
      paused := false;
      pending := pending + [DaemonResumed];
    }
  }

  class RulesState {
    var rules: seq<Rule>

    constructor (rules: seq<Rule>)
      ensures this.rules == rules
    {
      this.rules := rules;
    }

    /** A failed load leaves the last good rules in place. */
    method Reload(loaded: Option<seq<Rule>>)
      modifies this
      ensures rules == if loaded.Some? then loaded.value else old(rules)
    {
      if loaded.Some? {
        rules := loaded.value;
      }
    }
  }

  lemma {:induction false} ReachesOn(setup: Setup, from: State, x: seq<Act>, s: State, y: seq<Act>, t: State)
    requires Reaches(setup, from, x, s) && Reaches(setup, s, y, t)
    ensures Reaches(setup, from, x + y, t)
    decreases |x|
  {
    hide Enabled, Next;
    if x == [] {
      assert x + y == y;
    } else {
      assert (x + y)[0] == x[0] && (x + y)[1..] == x[1..] + y;
      ReachesOn(setup, Next(setup, from, x[0]), x[1..], s, y, t);
    }
  }

  lemma CommitReaches(setup: Setup, s: State, p: Proc, run: MessageRun, work: Work)
    requires s.proc == Some(p) && p.pc == Running(run, work) && run.rest != []
    ensures Enabled(setup, s, Take(CommitNext))
    ensures Next(setup, s, Take(CommitNext))
         == At(Log1(s, run.rest[0]), p, Running(run.(rest := run.rest[1..]), work))
  {
    hide StartRun, StartTier2, AfterRun, AfterCheck, PollResult;
  }

  /** All that is left of a run is committed, one effect per step. */
  lemma {:induction false} CommitsReach(setup: Setup, s: State, p: Proc, run: MessageRun, work: Work)
    returns (acts: seq<Act>)
    requires s.proc == Some(p) && p.pc == Running(run, work)
    ensures Reaches(setup, s, acts, At(s.(log := s.log + run.rest), p, Running(run.(rest := []), work)))
    decreases |run.rest|
  {
    hide Enabled, Next;
    if run.rest == [] {
      acts := [];
      assert s.log + [] == s.log;
    } else {
      var a := Take(CommitNext);
      CommitReaches(setup, s, p, run, work);
      var t := Next(setup, s, a);
      var more := CommitsReach(setup, t, t.proc.value, run.(rest := run.rest[1..]), work);
      assert t.log + run.rest[1..] == s.log + run.rest;
      acts := [a] + more;
    }
  }

  /** Mail that arrives does so one change at a time. */
  lemma {:induction false} ArrivalsReach(setup: Setup, s: State, mail: Log) returns (acts: seq<Act>)
    requires s.mail <= mail && ProperIds(mail)
    ensures Reaches(setup, s, acts, s.(mail := mail))
    decreases |mail| - |s.mail|
  {
    if s.mail == mail {
      acts := [];
    } else {
      var c := mail[|s.mail|];
      assert forall i | 0 <= i < |s.mail| :: s.mail[i] == mail[i];
      var t := Next(setup, s, Arrive(c));
      assert t.mail == mail[..|s.mail| + 1];
      var more := ArrivalsReach(setup, t, mail);
      acts := [Arrive(c)] + more;
    }
  }

  lemma {:induction false} NoTraceLines(es: seq<Effect>)
    requires forall i | 0 <= i < |es| :: !es[i].Traced?
    ensures Untraced(es) == es
  {
    if es != [] {
      NoTraceLines(es[1..]);
    }
  }

  lemma RunHasNoTraceLines(es: seq<Effect>, id: string)
    requires Disciplined(es, id)
    ensures Untraced(es) == es
  {
    forall i | 0 <= i < |es| ensures !es[i].Traced? { assert About(es[i], id); }
    NoTraceLines(es);
  }

  lemma LogsJoin(birth: seq<Effect>, was: seq<Effect>, es: seq<Effect>, now: seq<Effect>)
    requires Untraced(es) == es && Untraced(now) == Untraced(was) + Untraced(es)
    ensures birth + Untraced(was) + es == birth + Untraced(now)
  {}

  /** One more effect, on the machine's log and on the store's. */
  lemma OneMore(setup: Setup, birth: seq<Effect>, log: seq<Effect>, was: seq<Effect>, e: Effect)
    requires log == birth + Untraced(was) && !e.Traced?
    ensures log + [e] == birth + Untraced(was + [e])
    ensures Replay(setup.found, log + [e]) == Commit(Replay(setup.found, log), e)
  {
    assert [e][1..] == [];
    UntracedConcat(was, [e]);
    assert birth + Untraced(was) + [e] == birth + (Untraced(was) + [e]);
    ReplayAppend(setup.found, log, e);
  }

  // ----- What the polls of several iterations have brought -----

  /** The polls since the source was at the cursor `at` and the log had length `t` have brought `handled`, by the
      pages `legs`, from the cursor `from` to the source's; which is past all that was there. */
  ghost predicate Gathered(
    source: FallbackSource, at: Option<Cursor>, t: nat, from: Cursor, legs: seq<Leg>, handled: seq<Message>)
    reads source.server, source.cursor
  {
    GatheredUpTo(source.server.mail, source.cursor.value, at, t, from, legs, handled)
  }

  ghost predicate GatheredUpTo(
    mail: Log, cursor: Option<Cursor>, at: Option<Cursor>, t: nat, from: Cursor, legs: seq<Leg>, handled: seq<Message>)
  {
    && cursor.Some? && t <= cursor.value && ByPages(mail, from, legs, cursor.value, handled)
    && (if at.Some? then from == at.value else t <= from)
  }

  /** One more poll, from `cursor`, which is `at` if it is the first. */
  lemma Gather(
    source: FallbackSource, at: Option<Cursor>, t: nat, more: bool, from: Cursor, legs: seq<Leg>, handled: seq<Message>,
    mail: Log, cursor: Option<Cursor>, b: Batch, pages: seq<Leg>)
    returns (newFrom: Cursor, newLegs: seq<Leg>, all: seq<Message>)
    requires source.Returned(cursor, b, pages, |mail|) && mail <= source.server.mail && t <= |mail|
    requires if more then GatheredUpTo(mail, cursor, at, t, from, legs, handled) else cursor == at
    ensures Gathered(source, at, t, newFrom, newLegs, all)
    ensures forall m | m in all :: m in b.messages || (more && m in handled)
  {
    hide ByPages, NoneMissed;
    if cursor.None? {
      newFrom, newLegs, all := b.checkpoint, [], [];
      NoPages(source.server.mail, newFrom);
    } else if !more {
      newFrom, newLegs, all := cursor.value, pages, b.messages;
    } else {
      ByPagesGrow(mail, source.server.mail, from, legs, cursor.value, handled);
      ByPagesJoin(source.server.mail, from, legs, cursor.value, handled, pages, b.checkpoint, b.messages);
      newFrom, newLegs, all := from, legs + pages, handled + b.messages;
    }
  }

  lemma GatheredMissesNone(
    source: FallbackSource, at: Option<Cursor>, t: nat, from: Cursor, legs: seq<Leg>, handled: seq<Message>)
    requires Gathered(source, at, t, from, legs, handled)
    ensures var mail := source.server.mail;
            forall i: nat | from <= i < t && LeftUntilRead(mail, legs, i) :: mail[i].message in handled
  {
    hide ByPages;
    DeliveryMissesNone(source.server.mail, from, legs, source.cursor.value.value, handled);
  }

  /** The process has ended, and its life has been added to `lives`. */
  ghost predicate Buried(lives: seq<Life>, s: State, born: nat, observe: bool, calls: seq<PlaneEvent>) {
    && s.proc.None? && |s.lives| == |lives| + 1 && s.lives[..|lives|] == lives
    && var l := s.lives[|lives|];
       l.born == born && l.died == |s.log| && l.observe == observe && l.calls == calls
  }

  class Loop {
    const setup: Setup
    const observe: bool
    const around: Surroundings
    const state: DaemonState
    const rulesState: RulesState
    const db: StateDB
    const source: FallbackSource
    var awaits: nat
    ghost const atFirst: seq<Rule>
    ghost const birth: State
    ghost var machine: State
    ghost var acts: seq<Act>
    ghost var heard: seq<IpcCall>

    ghost function Given(): LoopSpec.Given {
      LoopSpec.Given(setup, around, observe)
    }

    ghost function SharedState(): Shared
      reads state, rulesState
    {
      Shared(state.paused, state.pending, rulesState.rules, state.stopping)
    }

    /** The machine has come from `birth` to where the database and the mail are. */
    ghost predicate Tracked()
      reads this`machine, this`acts, db, source, source.server, source.push
    {
      && db.Valid() && source.Valid()
      && Reaches(setup, birth, acts, machine)
      && machine.log == birth.log + Untraced(db.history)
      && DbOf(setup, machine) == db.View()
      && machine.mail == source.server.mail
    }

    /** The process is as the calls heard so far have left it, the events they queued all counted. */
    ghost predicate Told(p: Proc)
      reads this`heard
    {
      AnswerAll(heard, Fresh(atFirst)) == Shared(p.paused, p.enqueued, p.rules, p.stopping)
    }

    /** The process is up, the machine's memory is the process's memory, and it stands at `pc`. */
    ghost predicate Holds(pc: Pc)
      reads this`machine, this`acts, this`heard, db, state, rulesState
      reads source, source.server, source.push, source.cursor
    {
      && Tracked() && machine.proc.Some? && machine.lives == birth.lives
      && var p := machine.proc.value;
      && p.pc == pc && p.observe == observe && p.born == |birth.log| && Told(p)
      && p.paused == state.paused && p.pending == state.pending && p.alertDate == state.alertDate
      && p.stopping == state.stopping && p.rules == rulesState.rules && p.cursor == source.cursor.value
    }

    /** The same, and the calls heard are all that were made at the awaits so far. */
    ghost predicate Stands(pc: Pc)
      reads this, db, state, rulesState, source, source.server, source.push, source.cursor
    {
      Holds(pc) && heard == CallsAt(around.calls, 0, awaits)
    }

    /** The machine stands where the process did when the database was `was`, after `log`; the worker thread has
        gone on with the database since. */
    ghost predicate Behind(pc: Pc, log: seq<Effect>, was: Db)
      reads this, state, rulesState, source, source.server, source.push, source.cursor
    {
      && source.Valid() && Reaches(setup, birth, acts, machine) && machine.mail == source.server.mail
      && machine.log == birth.log + Untraced(log) && DbOf(setup, machine) == was
      && machine.proc.Some? && machine.lives == birth.lives
      && var p := machine.proc.value;
      && p.pc == pc && p.observe == observe && p.born == |birth.log| && Told(p)
      && p.paused == state.paused && p.pending == state.pending && p.alertDate == state.alertDate
      && p.stopping == state.stopping && p.rules == rulesState.rules && p.cursor == source.cursor.value
      && heard == CallsAt(around.calls, 0, awaits)
    }

    /** The loop has ended, and with it the process, having heard all calls made at the awaits so far. */
    ghost predicate Ended()
      reads this, db, source, source.server, source.push
    {
      && Tracked() && Buried(birth.lives, machine, |birth.log|, observe, AnswerAll(heard, Fresh(atFirst)).pending)
      && heard == CallsAt(around.calls, 0, awaits)
    }

    /** The message is processed; or, if the process observes, audited as an escalation. */
    ghost predicate Settled(id: string)
      reads db
    {
      SettledIn(db.View(), id, observe)
    }

    ghost method Advance(a: Act)
      requires Reaches(setup, birth, acts, machine) && Enabled(setup, machine, a)
      modifies this`machine, this`acts
      ensures Reaches(setup, birth, acts, machine) && machine == Next(setup, old(machine), a)
    {
      assert [a][1..] == [];
      ReachesOn(setup, birth, acts, machine, [a], Next(setup, machine, a));
      machine, acts := Next(setup, machine, a), acts + [a];
    }

    ghost method AdvanceTo(more: seq<Act>, t: State)
      requires Reaches(setup, birth, acts, machine) && Reaches(setup, machine, more, t)
      modifies this`machine, this`acts
      ensures Reaches(setup, birth, acts, machine) && machine == t
    {
      ReachesOn(setup, birth, acts, machine, more, t);
      machine, acts := t, acts + more;
    }

    /** A process starts on a database that is as the machine left it, and a source at its cursor. */
    constructor (
      setup: Setup, around: Surroundings, rules: seq<Rule>, observe: bool, db: StateDB, source: FallbackSource,
      ghost before: State)
      requires db.Valid() && db.history == [] && source.Valid()
      requires before.proc.None? && DbOf(setup, before) == db.View() && before.mail == source.server.mail
      requires source.cursor.value == CursorOf(db.View(), setup.account)
      ensures Stands(Head) && birth == before && this.db == db && this.source == source && this.setup == setup
      ensures this.observe == observe && this.around == around
      ensures fresh(state) && fresh(rulesState) && SharedState() == Fresh(rules)
    {
      this.setup, this.observe, this.around, this.db, this.source := setup, observe, around, db, source;
      state := new DaemonState();
      rulesState := new RulesState(rules);
      awaits, atFirst := 0, rules;
      birth, machine, acts, heard := before, before, [], [];
      new;
      hide Stands, Reaches, AnswerAll, CallsAt, Replay, Untraced, Enabled, Next;
      ProcessBegins(rules);
    }

    ghost method ProcessBegins(rules: seq<Rule>)
      requires db.Valid() && source.Valid() && db.history == [] && machine == birth && acts == [] && heard == []
      requires birth.proc.None? && DbOf(setup, birth) == db.View() && birth.mail == source.server.mail
      requires source.cursor.value == CursorOf(db.View(), setup.account) && awaits == 0 && atFirst == rules
      requires SharedState() == Fresh(rules) && state.alertDate.None?
      modifies this`machine, this`acts
      ensures Stands(Head)
    {
      hide Reaches, AnswerAll, CallsAt, Replay, Untraced, Enabled, Next;
      NobodyAnswered(Fresh(rules));
      NoAwaitsYet(around.calls);
      MachineStarts(rules);
    }

    ghost method MachineStarts(rules: seq<Rule>)
      requires db.Valid() && source.Valid() && db.history == [] && machine == birth && acts == []
      requires birth.proc.None? && DbOf(setup, birth) == db.View() && birth.mail == source.server.mail
      modifies this`machine, this`acts
      ensures Tracked() && machine == birth.(proc := Some(Born(setup, birth, rules, observe)))
    {
      hide After, CanTake, Replay, PollResult;
      assert birth.log + Untraced([]) == birth.log;
      Advance(Start(rules, observe));
    }

    /** The machine's step for a call. */
    ghost method CallTaken(turn: Turn)
      requires Tracked() && machine.proc.Some?
      requires turn.CallPause? || turn.CallResume? || turn.CallReload? || turn.RequestStop?
      modifies this`machine, this`acts
      ensures Tracked() && machine.lives == old(machine).lives
      ensures var p := old(machine).proc.value;
              machine.proc == Some(
                match turn
                case CallPause => Enqueue(p, true, DaemonPaused)
                case CallResume => Enqueue(p, false, DaemonResumed)
                case CallReload(rules) => p.(rules := rules)
                case _ => p.(stopping := true))
    {
      hide Reaches, StartRun, StartTier2, AfterRun, AfterCheck, PollResult, Replay, Untraced, AnswerAll, CallsAt;
      Advance(Take(turn));
    }

    /** One handler runs: a pause or a resume sets the flag and queues its event in the same step, a reload that
        loaded sets the rules, a stop is noted; nothing else changes. */
    method Handle(call: IpcCall, ghost pc: Pc)
      requires Holds(pc)
      modifies this`machine, this`acts, this`heard, state, rulesState
      ensures Holds(pc) && heard == old(heard) + [call]
      ensures call.PauseCall? ==> state.paused && state.pending == old(state.pending) + [DaemonPaused]
      ensures call.ResumeCall? ==> !state.paused && state.pending == old(state.pending) + [DaemonResumed]
      ensures !call.PauseCall? && !call.ResumeCall? ==>
                state.paused == old(state.paused) && state.pending == old(state.pending)
      ensures rulesState.rules
           == if call.ReloadCall? && call.loaded.Some? then call.loaded.value else old(rulesState.rules)
      ensures state.stopping == (old(state.stopping) || call.StopSignal?) && state.alertDate == old(state.alertDate)
    {
      hide Reaches, AnswerAll, CallsAt, Replay, Untraced, Enabled, Next;
      OneMoreCall(heard, call, Fresh(atFirst));
      heard := heard + [call];
      match call
      case PauseCall =>
        state.Pause();
        CallTaken(CallPause);
      case ResumeCall =>
        state.Resume();
        CallTaken(CallResume);
      case ReloadCall(loaded) =>
        rulesState.Reload(loaded);
        if loaded.Some? {
          CallTaken(CallReload(loaded.value));
        }
      case StatusCall =>
      case StopSignal =>
        state.stopping := true;
        CallTaken(RequestStop);
    }

    /** At an await the event loop runs whatever handlers are due: just those, in order. */
    method Await(ghost pc: Pc)
      requires Stands(pc)
      modifies this, state, rulesState
      ensures Stands(pc) && awaits == old(awaits) + 1
      ensures SharedState() == AnswerAll(around.calls(old(awaits)), old(SharedState()))
      ensures state.alertDate == old(state.alertDate)
    {
      hide Reaches, AnswerAll, Answer, CallsAt, Replay, Untraced, Commit;
      var calls := around.calls(awaits);
      NobodyAnswered(SharedState());
      MoreAwaits(around.calls, awaits);
      ghost var was, before := SharedState(), heard;
      for i := 0 to |calls|
        invariant Holds(pc) && awaits == old(awaits) && heard == before + calls[..i]
        invariant SharedState() == AnswerAll(calls[..i], was) && state.alertDate == old(state.alertDate)
      {
        ghost var shared := SharedState();
        Handle(calls[i], pc);
        Follows(calls[i], shared, SharedState());
        OneMoreCall(calls[..i], calls[i], was);
        assert calls[..i + 1] == calls[..i] + [calls[i]];
      }
      assert calls[..|calls|] == calls;
      awaits := awaits + 1;
    }

    method WriteEventEntry(e: PlaneEvent, ts: string, ghost rest: seq<PlaneEvent>)
      requires Stands(Draining([e] + rest))
      modifies this`machine, this`acts, db
      ensures Stands(Draining(rest))
      ensures db.history == old(db.history) + [EntryAt(ts, e)] && db.View() == Commit(old(db.View()), EntryAt(ts, e))
    {
      hide Reaches, AnswerAll, CallsAt, Replay, Untraced;
      ghost var entry := AuditWritten(ts, "", EventName(e), None);
      ghost var was, log := machine, db.history;
      db.WriteControlPlaneAuditEntry(ts, EventName(e), None);
      Advance(Take(WriteEvent(ts)));
      OneMore(setup, birth.log, was.log, log, entry);
    }

    /** The machine captures what is pending, or passes on when nothing is. */
    ghost method MachineCaptures() returns (pc: Pc)
      requires Tracked() && machine.proc.Some? && machine.proc.value.pc.Head? && !machine.proc.value.stopping
      modifies this`machine, this`acts
      ensures Tracked() && machine.lives == old(machine).lives
      ensures var p := old(machine).proc.value;
              && pc == (if p.pending == [] then Gate else Draining(p.pending))
              && machine.proc == Some(p.(pending := [], pc := pc))
    {
      pc := if machine.proc.value.pending == [] then Gate else Draining(machine.proc.value.pending);
      Advance(Take(EnterLoop));
    }

    /** The list is reset in the same step. */
    method Capture() returns (captured: seq<PlaneEvent>)
      requires Stands(Head) && !state.stopping
      modifies this`machine, this`acts, state
      ensures captured == old(state.pending) && SharedState() == old(SharedState()).(pending := [])
      ensures Stands(if captured == [] then Gate else Draining(captured)) && state.alertDate == old(state.alertDate)
    {
      hide Reaches, AnswerAll, CallsAt, Replay, Untraced, Enabled, Next;
      captured := state.pending;
      ghost var _ := MachineCaptures();
      state.pending := [];
    }

    /** The pending events are captured and reset in one step, then written one by one; what arrives
        meanwhile waits for the next round. */
    method Drain() returns (ghost pc: Pc)
      requires Stands(Head) && !state.stopping
      modifies this, state, rulesState, db
      ensures Stands(pc) && (pc.Gate? || pc == Draining([]))
      ensures awaits == old(awaits) + |old(state.pending)| && SharedState() == old(AfterDrain())
      ensures state.alertDate == old(state.alertDate)
      ensures var rows := EntriesAt(around.now, old(awaits), old(state.pending));
              db.history == old(db.history) + rows && db.View() == Replay(old(db.View()), rows)
    {
      hide Stands, Ended, Reaches, AnswerAll, CallsAt, Replay, Untraced, Enabled, Next;
      NoCallsYet(around.calls, awaits, SharedState().(pending := []));
      NoEntriesYet(around.now, awaits, db.View());
      assert db.history + [] == db.history;
      var captured := Capture();
      pc := Gate;
      if captured != [] {
        WriteCaptured(captured);
        pc := Draining([]);
      }
    }

    /** What handlers will have made of the shared state when all pending events are captured and written. */
    ghost function AfterDrain(): Shared
      reads this, state, rulesState
    {
      AnswerAll(CallsAt(around.calls, awaits, |state.pending|), SharedState().(pending := []))
    }

    /** One of them, in a worker thread. */
    method WriteNext(e: PlaneEvent, ghost rest: seq<PlaneEvent>)
      requires Stands(Draining([e] + rest))
      modifies this, state, rulesState, db
      ensures Stands(Draining(rest)) && awaits == old(awaits) + 1 && state.alertDate == old(state.alertDate)
      ensures SharedState() == AnswerAll(around.calls(old(awaits)), old(SharedState()))
      ensures var row := EntryAt(around.now(old(awaits)), e);
              db.history == old(db.history) + [row] && db.View() == Commit(old(db.View()), row)
    {
      hide Stands, Ended, Reaches, AnswerAll, CallsAt, Replay, Untraced, Commit;
      var ts := around.now(awaits);
      Await(Draining([e] + rest));
      WriteEventEntry(e, ts, rest);
    }

    method WriteCaptured(captured: seq<PlaneEvent>)
      requires Stands(Draining(captured))
      modifies this, state, rulesState, db
      ensures Stands(Draining([])) && awaits == old(awaits) + |captured|
      ensures SharedState() == AnswerAll(CallsAt(around.calls, old(awaits), |captured|), old(SharedState()))
      ensures state.alertDate == old(state.alertDate)
      ensures var rows := EntriesAt(around.now, old(awaits), captured);
              db.history == old(db.history) + rows && db.View() == Replay(old(db.View()), rows)
    {
      hide Stands, Ended, Reaches, AnswerAll, CallsAt, Replay, Untraced, Commit, EntriesAt, EntryAt;
      ghost var k, was, log, view := awaits, SharedState(), db.history, db.View();
      assert captured[0..] == captured && captured[..0] == [];
      NoCallsYet(around.calls, k, was);
      NoEntriesYet(around.now, k, view);
      assert log + [] == log;
      for i := 0 to |captured|
        invariant Stands(Draining(captured[i..])) && awaits == k + i && state.alertDate == old(state.alertDate)
        invariant SharedState() == AnswerAll(CallsAt(around.calls, k, i), was)
        invariant db.history == log + EntriesAt(around.now, k, captured[..i])
        invariant db.View() == Replay(view, EntriesAt(around.now, k, captured[..i]))
      {
        MoreCalls(around.calls, k, i, was);
        MoreEntries(around.now, k, captured[..i], captured[i], view);
        assert captured[i..] == [captured[i]] + captured[i + 1..];
        WriteNext(captured[i], captured[i + 1..]);
        assert captured[..i + 1] == captured[..i] + [captured[i]];
      }
      assert captured[..|captured|] == captured && captured[|captured|..] == [];
    }

    /** The machine sees the mail that has arrived. */
    ghost method MailArrives()
      requires Reaches(setup, birth, acts, machine) && machine.mail <= source.server.mail
      requires ProperIds(source.server.mail)
      modifies this`machine, this`acts
      ensures Reaches(setup, birth, acts, machine) && machine == old(machine).(mail := source.server.mail)
    {
      var more := ArrivalsReach(setup, machine, source.server.mail);
      AdvanceTo(more, machine.(mail := source.server.mail));
    }

    ghost method PollFailed()
      requires Tracked() && machine.proc.Some? && machine.proc.value.pc.Polling?
      modifies this`machine, this`acts
      ensures Tracked()
      ensures var p := old(machine).proc.value; Buried(old(machine).lives, machine, p.born, p.observe, p.enqueued)
    {
      Advance(Take(PollFails));
    }

    ghost method PollReturned(b: Batch, legs: seq<Leg>)
      requires Tracked() && machine.proc.Some? && machine.proc.value.pc.Polling?
      requires match machine.proc.value.cursor
               case None => b.messages == [] && b.checkpoint == |machine.mail|
               case Some(c) => ByPages(machine.mail, c, legs, b.checkpoint, b.messages)
      modifies this`machine, this`acts
      ensures Tracked() && machine.proc.Some? && machine.lives == old(machine).lives
      ensures var p, q := old(machine).proc.value, machine.proc.value;
              && q.pc == (if b.messages == [] then Acking(b.checkpoint)
                          else Handling(Work(b.messages, p.rules, b.checkpoint)))
              && q == p.(cursor := Some(b.checkpoint), pc := q.pc, fetch := q.fetch)
    {
      Advance(Take(Poll(b.checkpoint, legs, b.messages)));
    }

    /** One poll, off the event loop; the rules for the batch are read once it has come back. */
    method PollOnce() returns (r: Outcome<Batch>, ghost legs: seq<Leg>)
      requires Stands(Polling)
      modifies this, state, rulesState, source.server, source.cursor, source.push, source.timer
      ensures r.Raised? ==> Ended() && r.exn == JmapError
      ensures r.Ok? && r.value.messages == [] ==> Stands(Acking(r.value.checkpoint))
      ensures r.Ok? && r.value.messages != [] ==>
                Stands(Handling(Work(r.value.messages, rulesState.rules, r.value.checkpoint)))
      ensures old(source.server.mail) <= source.server.mail && source.server.requests > old(source.server.requests)
      ensures r.Raised? ==>
                source.Unanswered(old(source.server.requests)) && source.cursor.value == old(source.cursor.value)
      ensures r.Ok? ==> source.Returned(old(source.cursor.value), r.value, legs, |old(source.server.mail)|)
      ensures awaits == old(awaits) + 1
      ensures SharedState() == AnswerAll(around.calls(old(awaits)), old(SharedState()))
      ensures var woken := exists e :: e in around.push(old(awaits)) && Relevant(source.push.account, e);
              source.timer.waits == old(source.timer.waits) + if woken then 0 else 1
    {
      hide Reaches, Enabled, Next, Replay, ByPages, NoneMissed, AnswerAll, CallsAt, Untraced, ReadSince;
      var events := around.push(awaits);
      Await(Polling);
      r, legs := source.PollBatch(events);
      PollSeen(r, legs);
    }

    /** The machine sees what has arrived, and what the poll from its cursor has given. */
    ghost method PollSeen(r: Outcome<Batch>, legs: seq<Leg>)
      requires db.Valid() && source.Valid() && Reaches(setup, birth, acts, machine)
      requires machine.log == birth.log + Untraced(db.history) && DbOf(setup, machine) == db.View()
      requires machine.mail <= source.server.mail && machine.proc.Some? && machine.proc.value.pc.Polling?
      requires r.Ok? ==> source.Returned(machine.proc.value.cursor, r.value, legs, |machine.mail|)
      modifies this`machine, this`acts
      ensures Tracked()
      ensures var p := old(machine).proc.value;
              if r.Raised? then Buried(old(machine).lives, machine, p.born, p.observe, p.enqueued)
              else
                && machine.proc.Some? && machine.lives == old(machine).lives
                && var q := machine.proc.value;
                   && q.pc == (if r.value.messages == [] then Acking(r.value.checkpoint)
                               else Handling(Work(r.value.messages, p.rules, r.value.checkpoint)))
                   && q == p.(cursor := Some(r.value.checkpoint), pc := q.pc, fetch := q.fetch)
    {
      hide Reaches, Enabled, Next, Replay, ByPages, NoneMissed, Untraced, ReadSince;
      MailArrives();
      if r.Raised? {
        PollFailed();
      } else {
        PollReturned(r.value, legs);
      }
    }

    /** The machine commits the rest of the run in hand. */
    ghost method CommitRest(run: MessageRun, work: Work)
      requires Reaches(setup, birth, acts, machine)
      requires machine.proc.Some? && machine.proc.value.pc == Running(run, work)
      modifies this`machine, this`acts
      ensures Reaches(setup, birth, acts, machine)
      ensures var was := old(machine);
              machine == At(was.(log := was.log + run.rest), was.proc.value, Running(run.(rest := []), work))
    {
      var p := machine.proc.value;
      var more := CommitsReach(setup, machine, p, run, work);
      AdvanceTo(more, At(machine.(log := machine.log + run.rest), p, Running(run.(rest := []), work)));
    }

    ghost method MachineBegins(env: Tier1.Env, classifier: Option<Outcome<string>>, work: Work)
      returns (run: MessageRun)
      requires Reaches(setup, birth, acts, machine)
      requires machine.proc.Some? && machine.proc.value.pc == Handling(work) && !machine.proc.value.stopping
      requires work.todo != [] && InMode(env, observe) && machine.proc.value.observe == observe
      modifies this`machine, this`acts
      ensures Reaches(setup, birth, acts, machine)
      ensures var was, m := old(machine), work.todo[0];
              var x := Tier1.Process(env, false, DbOf(setup, was), m, work.rules, setup.unmatched, classifier);
              && run == MessageRun(m, observe, InTier1(x.out), x.effects, |was.log|)
              && machine == At(was, was.proc.value, Running(run, work.(todo := work.todo[1..])))
    {
      Advance(Take(Begin(env, classifier)));
      run := machine.proc.value.pc.run;
    }

    ghost method Tier1Began(env: Tier1.Env, classifier: Option<Outcome<string>>, work: Work) returns (run: MessageRun)
      requires Stands(Handling(work)) && !state.stopping && work.todo != [] && InMode(env, observe)
      modifies this`machine, this`acts
      ensures var m := work.todo[0];
              var x := Tier1.Process(env, false, db.View(), m, work.rules, setup.unmatched, classifier);
              && run.message == m && run.observed == observe && run.phase == InTier1(x.out) && run.rest == x.effects
              && Behind(Running(run, work.(todo := work.todo[1..])), db.history, db.View())
      ensures db.Valid()
    {
      hide Reaches, AnswerAll, CallsAt, Replay, Untraced, Enabled, Next, Tier1.Process;
      run := MachineBegins(env, classifier, work);
    }

    /** The machine catches up with a run that the worker thread has performed on the database. */
    ghost method MachineCommits(run: MessageRun, work: Work, log: seq<Effect>, was: Db)
      requires source.Valid() && Reaches(setup, birth, acts, machine) && machine.mail == source.server.mail
      requires machine.proc.Some? && machine.proc.value.pc == Running(run, work)
      requires machine.log == birth.log + Untraced(log) && DbOf(setup, machine) == was
      requires Escalate.Did(db, log, was, run.rest) && Disciplined(run.rest, run.message.id)
      modifies this`machine, this`acts
      ensures Tracked() && machine.lives == old(machine).lives
      ensures machine.proc == Some(old(machine).proc.value.(pc := Running(run.(rest := []), work)))
    {
      RunHasNoTraceLines(run.rest, run.message.id);
      LogsJoin(birth.log, log, run.rest, db.history);
      ReplayConcat(setup.found, machine.log, run.rest);
      CommitRest(run, work);
    }

    ghost method RunPerformed(run: MessageRun, work: Work, log: seq<Effect>, was: Db)
      requires Behind(Running(run, work), log, was)
      requires Escalate.Did(db, log, was, run.rest) && Disciplined(run.rest, run.message.id)
      modifies this`machine, this`acts
      ensures Stands(Running(run.(rest := []), work))
    {
      hide Reaches, AnswerAll, CallsAt, Replay, Untraced, Enabled, Next, Disciplined;
      MachineCommits(run, work, log, was);
    }

    /** One message through Tier 1, in a worker thread, while handlers may run. */
    method RunTier1(m: Message, rules: seq<Rule>, ghost work: Work)
      returns (verdict: Outcome<Option<RuleVerdict>>, ghost run: MessageRun, ghost left: Work)
      requires Stands(Handling(work)) && !state.stopping
      requires work.todo != [] && work.todo[0] == m && work.rules == rules
      modifies this, state, rulesState, db
      ensures Stands(Running(run, left)) && left == work.(todo := work.todo[1..])
      ensures run.message == m && run.observed == observe && run.rest == [] && run.phase == InTier1(verdict)
      ensures var x := Tier1At(Given(), old(awaits), old(db.View()), m, rules);
              verdict == x.out && Escalate.Did(db, old(db.history), old(db.View()), x.effects)
      ensures awaits == old(awaits) + 1 && state.alertDate == old(state.alertDate)
    {
      hide Stands, Behind, Reaches, AnswerAll, CallsAt, Replay, Untraced, Commit, Tier1.Process, Disciplined;
      var env, classifier := ForMode(around.tier1(awaits), observe), around.classifier(awaits);
      ghost var was, log := db.View(), db.history;
      left := work.(todo := work.todo[1..]);
      run := Tier1Began(env, classifier, work);
      Tier1Facts(env, was, m, rules, setup.unmatched, classifier);
      verdict := Escalate.ProcessMessage(env, false, db, m, rules, setup.unmatched, classifier);
      RunPerformed(run, left, log, was);
      run := run.(rest := []);
      Await(Running(run, left));
    }

    ghost method MachineFinishes(run: MessageRun, work: Work)
      requires Tracked() && machine.proc.Some? && machine.proc.value.pc == Running(run, work)
      requires run.rest == [] && !run.phase.BetweenTiers?
      modifies this`machine, this`acts
      ensures Tracked()
      ensures RaisedIn(run.phase) ==>
                var p := old(machine).proc.value; Buried(old(machine).lives, machine, p.born, p.observe, p.enqueued)
      ensures !RaisedIn(run.phase) ==>
                && machine.lives == old(machine).lives
                && machine.proc == Some(old(machine).proc.value.(pc :=
                     if NeedsTier2(run) then Running(run.(phase := BetweenTiers), work)
                     else if run.phase.InTier2? then Checking(work) else Handling(work)))
    {
      Advance(Take(Finish));
    }

    ghost method RunFinished(run: MessageRun, work: Work)
      requires Stands(Running(run, work)) && run.rest == [] && !run.phase.BetweenTiers?
      modifies this`machine, this`acts
      ensures RaisedIn(run.phase) ==> Ended()
      ensures !RaisedIn(run.phase) ==>
                Stands(
                  if NeedsTier2(run) then Running(run.(phase := BetweenTiers), work)
                  else if run.phase.InTier2? then Checking(work) else Handling(work))
    {
      hide Reaches, AnswerAll, CallsAt, Replay, Untraced, Enabled, Next;
      MachineFinishes(run, work);
    }

    ghost method MachineEscalates(env: Escalate.Env3, run: MessageRun, work: Work) returns (next: MessageRun)
      requires Reaches(setup, birth, acts, machine) && env.tier2.config == setup.config
      requires machine.proc.Some? && machine.proc.value.pc == Running(run, work) && run.phase.BetweenTiers?
      modifies this`machine, this`acts
      ensures Reaches(setup, birth, acts, machine)
      ensures var was := old(machine);
              var y := Escalate.EscalateMessage(env, DbOf(setup, was), run.message);
              && next == run.(phase := InTier2(y.out), rest := y.effects)
              && machine == At(was, was.proc.value, Running(next, work))
    {
      Advance(Take(BeginTier2(env)));
      next := machine.proc.value.pc.run;
    }

    ghost method Tier2Began(env: Escalate.Env3, run: MessageRun, work: Work) returns (next: MessageRun)
      requires Stands(Running(run, work)) && run.phase.BetweenTiers? && env.tier2.config == setup.config
      modifies this`machine, this`acts
      ensures var y := Escalate.EscalateMessage(env, db.View(), run.message);
              && next == run.(phase := InTier2(y.out), rest := y.effects)
              && Behind(Running(next, work), db.history, db.View())
      ensures db.Valid()
    {
      hide Reaches, AnswerAll, CallsAt, Replay, Untraced, Enabled, Next, Escalate.EscalateMessage;
      next := MachineEscalates(env, run, work);
    }

    /** An escalated message through Tier 2, in a worker thread, while handlers may run. */
    method RunTier2(m: Message, ghost run: MessageRun, ghost work: Work)
      returns (out: Outcome<Escalate.Escalated>, ghost next: MessageRun)
      requires Stands(Running(run, work)) && run.phase.BetweenTiers? && run.message == m
      modifies this, state, rulesState, db
      ensures Stands(Running(next, work)) && next.rest == [] && next.phase == InTier2(out)
      ensures var y := Tier2At(Given(), old(awaits), old(db.View()), m);
              out == y.out && Escalate.Did(db, old(db.history), old(db.View()), y.effects)
      ensures awaits == old(awaits) + 1 && state.alertDate == old(state.alertDate)
    {
      hide Stands, Behind, Reaches, AnswerAll, CallsAt, Replay, Untraced, Commit, Escalate.EscalateMessage, Disciplined;
      var given := around.tier2(awaits);
      var env := given.(tier2 := given.tier2.(config := setup.config));
      ghost var was, log := db.View(), db.history;
      next := Tier2Began(env, run, work);
      EscalateFacts(env, was, m);
      out := Escalate.EscalateOrQuarantine(env, db, m);
      RunPerformed(next, work, log, was);
      next := next.(rest := []);
      Await(Running(next, work));
    }

    ghost method BudgetAlerted(now: string, id: string, alerter: Option<Exn>, work: Work)
      requires Reaches(setup, birth, acts, machine)
      requires machine.proc.Some? && machine.proc.value.pc == Checking(work)
      requires machine.proc.value.alertDate != Some(DateOf(now)) && BudgetSpent(setup, machine, DateOf(now))
      modifies this`machine, this`acts
      ensures Reaches(setup, birth, acts, machine)
      ensures machine.log == old(machine).log + [Alerted(id, "Daily LLM budget exhausted", Critical)]
      ensures machine.mail == old(machine).mail
      ensures alerter.Some? ==>
                var p := old(machine).proc.value; Buried(old(machine).lives, machine, p.born, p.observe, p.enqueued)
      ensures alerter.None? ==>
                var p := old(machine).proc.value;
                && machine.lives == old(machine).lives
                && machine.proc == Some(p.(spent := p.spent + [DateOf(now)], pc := Handling(work),
                     alertDate := Some(DateOf(now)), alerted := p.alerted + [|p.spent|]))
    {
      Advance(Take(CheckBudget(now, id, alerter)));
    }

    ghost method MachineGoesOn(now: string, id: string, alerter: Option<Exn>, work: Work)
      requires Tracked() && machine.proc.Some? && machine.proc.value.pc == Checking(work)
      requires machine.proc.value.alertDate == Some(DateOf(now)) || !BudgetSpent(setup, machine, DateOf(now))
      modifies this`machine, this`acts
      ensures Tracked() && machine.lives == old(machine).lives
      ensures var p := old(machine).proc.value;
              machine.proc.Some? && machine.proc.value == p.(spent := machine.proc.value.spent, pc := Handling(work))
    {
      Advance(Take(CheckBudget(now, id, alerter)));
    }

    ghost method NothingToAlert(now: string, id: string, alerter: Option<Exn>, work: Work)
      requires Stands(Checking(work))
      requires state.alertDate == Some(DateOf(now)) || !BudgetSpent(setup, machine, DateOf(now))
      modifies this`machine, this`acts
      ensures Stands(Handling(work))
    {
      hide Reaches, AnswerAll, CallsAt, Replay, Untraced, Enabled, Next, BudgetSpent;
      MachineGoesOn(now, id, alerter, work);
    }

    /** The day's count, read from the database. */
    method HasRoom(today: string) returns (room: bool)
      requires Tracked()
      ensures room <==> !BudgetSpent(setup, machine, today)
      ensures room <==> UsageOn(db.View(), today).calls < setup.config.budget
    {
      hide Reaches, Replay;
      var usage := db.GetLlmUsage(today);
      room := usage.calls < setup.config.budget;
    }

    /** The date is noted, then the alert goes out. */
    method SendBudgetAlert(now: string, id: string, alerter: Option<Exn>, ghost work: Work) returns (r: Outcome<()>)
      requires Stands(Checking(work)) && state.alertDate != Some(DateOf(now))
      requires BudgetSpent(setup, machine, DateOf(now))
      modifies this`machine, this`acts, state, db
      ensures r == if alerter.Some? then Raised(alerter.value) else Ok(())
      ensures if r.Ok? then Stands(Handling(work)) else Ended()
      ensures var e := Alerted(id, "Daily LLM budget exhausted", Critical);
              db.history == old(db.history) + [e] && db.View() == Commit(old(db.View()), e)
      ensures state.alertDate == Some(DateOf(now)) && SharedState() == old(SharedState())
    {
      hide Reaches, Initial, Enabled, CanTake, Next, After, AfterCheck, Replay, Commit, BudgetSpent;
      state.alertDate := Some(DateOf(now));
      ghost var log, was := db.history, machine;
      BudgetAlerted(now, id, alerter, work);
      db.Perform(Alerted(id, "Daily LLM budget exhausted", Critical));
      OneMore(setup, birth.log, was.log, log, Alerted(id, "Daily LLM budget exhausted", Critical));
      r := if alerter.Some? then Raised(alerter.value) else Ok(());
    }

    /** No await in here: the alert, at most once for each date this process life has seen. */
    method CheckDailyBudgetAlert(ghost work: Work) returns (r: Outcome<()>)
      requires Stands(Checking(work))
      modifies this`machine, this`acts, state, db
      ensures if r.Ok? then Stands(Handling(work)) else Ended()
      ensures var c := CheckAt(Given(), awaits, old(db.View()), old(state.alertDate));
              && r == c.out
              && db.history == old(db.history) + c.effects && db.View() == Replay(old(db.View()), c.effects)
      ensures SharedState() == old(SharedState()) && db.Valid()
    {
      hide Reaches, BudgetSpent, Replay, AnswerAll, CallsAt, Untraced, Commit;
      var now, id, alerter := around.now(awaits), around.newId(awaits), around.alerter(awaits);
      var today := DateOf(now);
      assert db.history + [] == db.history && Replay(db.View(), []) == db.View() by { NoEffects(db.View()); }
      if state.alertDate == Some(today) {
        NothingToAlert(now, id, alerter, work);
        return Ok(());
      }
      var room := HasRoom(today);
      if room {
        NothingToAlert(now, id, alerter, work);
        return Ok(());
      }
      ReplayAppend(db.View(), [], Alerted(id, "Daily LLM budget exhausted", Critical));
      assert [] + [Alerted(id, "Daily LLM budget exhausted", Critical)]
          == [Alerted(id, "Daily LLM budget exhausted", Critical)];
      r := SendBudgetAlert(now, id, alerter, work);
    }

    ghost method MachineStops(work: Work)
      requires Tracked() && machine.proc.Some? && machine.proc.value.pc == Handling(work)
      requires work.todo != [] && machine.proc.value.stopping && machine.proc.value.observe == observe
      modifies this`machine, this`acts
      ensures Tracked()
      ensures var p := old(machine).proc.value; Buried(old(machine).lives, machine, p.born, p.observe, p.enqueued)
    {
      Advance(Take(Begin(ForMode(around.tier1(0), observe), None)));
    }

    ghost method StopNoticed(work: Work)
      requires Stands(Handling(work)) && work.todo != [] && state.stopping
      modifies this`machine, this`acts
      ensures Ended()
    {
      hide Reaches, AnswerAll, CallsAt, Replay, Untraced, Enabled, Next;
      MachineStops(work);
    }

    /** One message of a batch: Tier 1; if that escalates, and not in observe mode, Tier 2 and the
        budget check. It is not begun when a stop has been called for; otherwise what happens is decided by
        what the surroundings answer. */
    method HandleMessage(m: Message, rules: seq<Rule>, ghost work: Work) returns (r: Outcome<bool>)
      requires Stands(Handling(work)) && work.todo != [] && work.todo[0] == m && work.rules == rules
      modifies this, state, rulesState, db
      ensures if r == Ok(true) then Stands(Handling(work.(todo := work.todo[1..]))) else Ended()
      ensures old(state.stopping) ==> r == Ok(false) && state.stopping && db.View() == old(db.View())
      ensures !old(state.stopping) ==>
                var t := Treated(Given(), old(awaits), old(db.View()), m, rules, old(state.alertDate));
                && r == (if t.out.Ok? then Ok(true) else Raised(t.out.exn))
                && Escalate.Did(db, old(db.history), old(db.View()), t.effects)
      ensures awaits >= old(awaits)
    {
      hide Stands, Ended, Reaches, Treated, AnswerAll, CallsAt, Untraced, Replay;
      if state.stopping {
        StopNoticed(work);
        return Ok(false);
      }
      r := TreatMessage(m, rules, work);
    }

    method TreatMessage(m: Message, rules: seq<Rule>, ghost work: Work) returns (r: Outcome<bool>)
      requires Stands(Handling(work)) && work.todo != [] && work.todo[0] == m && work.rules == rules
      requires !state.stopping
      modifies this, state, rulesState, db
      ensures if r == Ok(true) then Stands(Handling(work.(todo := work.todo[1..]))) else Ended()
      ensures var t := Treated(Given(), old(awaits), old(db.View()), m, rules, old(state.alertDate));
              && r == (if t.out.Ok? then Ok(true) else Raised(t.out.exn))
              && Escalate.Did(db, old(db.history), old(db.View()), t.effects)
      ensures awaits >= old(awaits)
    {
      hide Stands, Ended, Reaches, Treated, Tier1At, Tier2At, CheckAt, AnswerAll, CallsAt, Untraced, Commit, Replay;
      ghost var log, was, k := db.history, db.View(), awaits;
      TreatedInParts(Given(), k, was, m, rules, state.alertDate);
      var verdict, run, left := RunTier1(m, rules, work);
      RunFinished(run, left);
      if verdict.Raised? {
        return Raised(verdict.exn);
      }
      if !observe && verdict.value.Some? && verdict.value.value.action.kind == Escalate {
        r := Tier2AndCheck(m, run.(phase := BetweenTiers), left, log, was, Tier1At(Given(), k, was, m, rules).effects);
      } else {
        r := Ok(true);
      }
    }

    /** The second half of that, after the Tier 1 effects `done`. */
    method Tier2AndCheck(
      m: Message, ghost run: MessageRun, ghost work: Work, ghost log: seq<Effect>, ghost was: Db,
      ghost done: seq<Effect>)
      returns (r: Outcome<bool>)
      requires Stands(Running(run, work)) && run.phase.BetweenTiers? && run.message == m
      requires Escalate.Did(db, log, was, done)
      modifies this, state, rulesState, db
      ensures if r == Ok(true) then Stands(Handling(work)) else Ended()
      ensures var y := Tier2At(Given(), old(awaits), Replay(was, done), m);
              var c := CheckAt(Given(), old(awaits) + 1, Replay(was, done + y.effects), old(state.alertDate));
              && r == (if y.out.Raised? then Raised(y.out.exn)
                       else if c.out.Raised? then Raised(c.out.exn) else Ok(true))
              && Escalate.Did(db, log, was, if y.out.Raised? then done + y.effects else done + y.effects + c.effects)
      ensures awaits >= old(awaits)
    {
      hide Stands, Ended, Reaches, Tier2At, CheckAt, Replay, AnswerAll, CallsAt, Untraced, Commit;
      ghost var mid, y := db.history, Tier2At(Given(), awaits, Replay(was, done), m);
      var out, next := RunTier2(m, run, work);
      Escalate.DidMore(db, log, mid, was, done, y.effects);
      RunFinished(next, work);
      if out.Raised? {
        return Raised(out.exn);
      }
      ghost var so, c := db.history, CheckAt(Given(), awaits, db.View(), state.alertDate);
      var checked := CheckDailyBudgetAlert(work);
      Escalate.PerformedIsDone(db, so, Replay(was, done + y.effects), c.effects, c.effects);
      Escalate.DidMore(db, log, so, was, done + y.effects, c.effects);
      r := if checked.Raised? then Raised(checked.exn) else Ok(true);
    }

    ghost method Acked(c: Cursor, next: Pc)
      requires Reaches(setup, birth, acts, machine) && machine.proc.Some?
      requires var pc := machine.proc.value.pc;
               || (pc == Acking(c) && next == Sleeping)
               || (pc.Handling? && pc.work.todo == [] && pc.work.checkpoint == c && next == Head)
      modifies this`machine, this`acts
      ensures Reaches(setup, birth, acts, machine) && machine.mail == old(machine).mail
      ensures machine.log == old(machine).log + [CursorSet(setup.account, c)] && machine.lives == old(machine).lives
      ensures machine.proc == Some(old(machine).proc.value.(pc := next))
    {
      Advance(Take(Ack));
    }

    /** The cursor is acknowledged once the whole batch has been dealt with. */
    method Acknowledge(c: Cursor, ghost pc: Pc, ghost next: Pc)
      requires Stands(pc)
      requires (pc == Acking(c) && next == Sleeping)
            || (pc.Handling? && pc.work.todo == [] && pc.work.checkpoint == c && next == Head)
      modifies this, state, rulesState, db
      ensures Stands(next) && awaits == old(awaits) + 1
      ensures db.history == old(db.history) + [CursorSet(setup.account, c)]
      ensures db.View() == old(db.View()).(cursors := old(db.View()).cursors[setup.account := c])
    {
      hide Reaches, AnswerAll, CallsAt, Replay, Untraced, Enabled, Next;
      Await(pc);
      ghost var log, was := db.history, machine;
      db.SetCursor(setup.account, c);
      Acked(c, next);
      OneMore(setup, birth.log, was.log, log, CursorSet(setup.account, c));
    }

    method Sleep()
      requires Stands(Sleeping)
      modifies this, state, rulesState
      ensures Stands(Head) && awaits == old(awaits) + 1
    {
      hide Reaches, AnswerAll, CallsAt, Replay, Untraced;
      Await(Sleeping);
      Advance(Take(Wake));
    }

    /** Some answer of the surroundings makes the message's treatment raise that. */
    ghost predicate RaisedFor(m: Message, rules: seq<Rule>, e: Exn) {
      exists k: nat, was, alerted :: Treated(Given(), k, was, m, rules, alerted).out == Raised(e)
    }

    /** The messages of a batch, one after another and each settled before the next, then the acknowledgement.
        The stored cursor does not move unless the whole batch has been gone through. `done` messages have. */
    method HandleBatch(b: Batch, rules: seq<Rule>) returns (r: Outcome<bool>, ghost done: nat)
      requires Stands(Handling(Work(b.messages, rules, b.checkpoint)))
      modifies this, state, rulesState, db
      ensures done <= |b.messages| && forall i | 0 <= i < done :: Settled(b.messages[i].id)
      ensures r == Ok(true) ==> Stands(Head) && done == |b.messages| && CursorIs(b.checkpoint)
      ensures r != Ok(true) ==> Ended() && done < |b.messages| && db.View().cursors == old(db.View().cursors)
      ensures r == Ok(false) ==> state.stopping
      ensures r.Raised? ==> RaisedFor(b.messages[done], rules, r.exn)
      ensures awaits >= old(awaits)
      ensures Grown(old(db.View()), db.View())
    {
      hide Stands, Ended, Reaches, Treated, SettledIn, Grown, AnswerAll, CallsAt, Untraced, Commit, Replay;
      done := 0;
      ghost var first := db.View();
      GrownAtFirst(first);
      assert b.messages[0..] == b.messages;
      for i := 0 to |b.messages|
        invariant Stands(Handling(Work(b.messages[i..], rules, b.checkpoint))) && done == i
        invariant forall j | 0 <= j < i :: Settled(b.messages[j].id)
        invariant awaits >= old(awaits)
        invariant Grown(first, db.View()) && db.View().cursors == first.cursors
      {
        ghost var k, was, alerted := awaits, db.View(), state.alertDate;
        r := HandleMessage(b.messages[i], rules, Work(b.messages[i..], rules, b.checkpoint));
        ghost var t := Treated(Given(), k, was, b.messages[i], rules, alerted);
        TreatedSettles(Given(), k, was, b.messages[i], rules, alerted);
        ReplayGrows(was, t.effects);
        ReplayKeepsCursors(was, t.effects);
        StaysGrown(first, was, db.View());
        assert r == Ok(false) ==> db.View() == was;
        forall j | 0 <= j < i ensures Settled(b.messages[j].id) {
          StaysSettled(was, db.View(), b.messages[j].id, observe);
        }
        if r != Ok(true) {
          return;
        }
        done := i + 1;
      }
      ghost var was := db.View();
      assert b.messages[|b.messages|..] == [];
      Acknowledge(b.checkpoint, Handling(Work([], rules, b.checkpoint)), Head);
      CursorsAside(was, db.View());
      forall j | 0 <= j < |b.messages| ensures Settled(b.messages[j].id) {
        StaysSettled(was, db.View(), b.messages[j].id, observe);
      }
      StaysGrown(first, was, db.View());
      r := Ok(true);
    }

    /** The stored cursor is `c`. */
    ghost predicate CursorIs(c: Cursor)
      reads db
    {
      CursorOf(db.View(), setup.account) == Some(c)
    }

    ghost method MachinePassesGate(pc: Pc)
      requires Tracked() && machine.proc.Some? && machine.proc.value.pc == pc && (pc.Gate? || pc == Draining([]))
      modifies this`machine, this`acts
      ensures Tracked() && machine.lives == old(machine).lives
      ensures var p := old(machine).proc.value;
              machine.proc == Some(p.(pc := if p.paused then Sleeping else Polling))
    {
      Advance(Take(PassGate));
    }

    ghost method GatePassed(pc: Pc)
      requires Stands(pc) && (pc.Gate? || pc == Draining([]))
      modifies this`machine, this`acts
      ensures Stands(if state.paused then Sleeping else Polling)
    {
      hide Reaches, AnswerAll, CallsAt, Replay, Untraced, Enabled, Next;
      MachinePassesGate(pc);
    }

    ghost method MachineLeaves()
      requires Tracked() && machine.proc.Some? && machine.proc.value.pc.Head? && machine.proc.value.stopping
      modifies this`machine, this`acts
      ensures Tracked()
      ensures var p := old(machine).proc.value; Buried(old(machine).lives, machine, p.born, p.observe, p.enqueued)
    {
      Advance(Take(EnterLoop));
    }

    ghost method LoopLeft()
      requires Stands(Head) && state.stopping
      modifies this`machine, this`acts
      ensures Ended()
    {
      hide Reaches, AnswerAll, CallsAt, Replay, Untraced, Enabled, Next;
      MachineLeaves();
    }

    /** One iteration of the loop. Paused, once what is pending has been written, it leaves the server alone.
        Otherwise it polls; and if the poll returns, `polled`, it settles every message of the batch and then
        stores the checkpoint, unless it stops or a message's treatment raises in between. */
    method Iterate() returns (r: Outcome<bool>, ghost polled: Option<Batch>, ghost legs: seq<Leg>)
      requires Stands(Head) && !state.stopping
      modifies this, state, rulesState, db, source.server, source.cursor, source.push, source.timer
      ensures if r == Ok(true) then Stands(Head) else Ended()
      ensures awaits > old(awaits) + |old(state.pending)|
      ensures old(AfterDrain()).paused ==>
                && r == Ok(true) && polled.None? && source.server.mail == old(source.server.mail)
                && source.server.requests == old(source.server.requests)
                && source.cursor.value == old(source.cursor.value)
      ensures !old(AfterDrain()).paused ==> source.server.requests > old(source.server.requests)
      ensures !old(AfterDrain()).paused && polled.None? ==>
                && r == Raised(JmapError) && source.Unanswered(old(source.server.requests))
                && source.cursor.value == old(source.cursor.value)
      ensures old(source.server.mail) <= source.server.mail
      ensures polled.Some? ==>
                source.Returned(old(source.cursor.value), polled.value, legs, |old(source.server.mail)|)
      ensures polled.Some? && r == Ok(true) ==>
                CursorIs(polled.value.checkpoint) && forall m | m in polled.value.messages :: Settled(m.id)
      ensures polled.None? || r != Ok(true) ==> db.View().cursors == old(db.View().cursors)
      ensures r == Ok(false) ==> state.stopping
      ensures polled.Some? && r.Raised? ==>
                exists m, rules :: m in polled.value.messages && RaisedFor(m, rules, r.exn)
      ensures Grown(old(db.View()), db.View())
    {
      hide Stands, Ended, Reaches, AnswerAll, CallsAt, ByPages, NoneMissed, SettledIn, Grown, Treated;
      hide Untraced, Commit, Replay;
      polled, legs := None, [];
      ghost var first := db.View();
      ghost var pc := Drain();
      DrainedOnly(around.now, old(awaits), old(state.pending), first);
      GatePassed(pc);
      if state.paused {
        Sleep();
        r := Ok(true);
        return;
      }
      ghost var drained := db.View();
      r, polled, legs := PollAndHandle();
      StaysGrown(first, drained, db.View());
    }

    /** The part of an iteration that is left out while paused. */
    method PollAndHandle() returns (r: Outcome<bool>, ghost polled: Option<Batch>, ghost legs: seq<Leg>)
      requires Stands(Polling)
      modifies this, state, rulesState, db, source.server, source.cursor, source.push, source.timer
      ensures if r == Ok(true) then Stands(Head) else Ended()
      ensures source.server.requests > old(source.server.requests) && old(source.server.mail) <= source.server.mail
      ensures awaits > old(awaits)
      ensures polled.None? ==>
                && r == Raised(JmapError) && source.Unanswered(old(source.server.requests))
                && source.cursor.value == old(source.cursor.value)
      ensures polled.Some? ==>
                source.Returned(old(source.cursor.value), polled.value, legs, |old(source.server.mail)|)
      ensures polled.Some? && r == Ok(true) ==>
                CursorIs(polled.value.checkpoint) && forall m | m in polled.value.messages :: Settled(m.id)
      ensures r != Ok(true) ==> db.View().cursors == old(db.View().cursors)
      ensures r == Ok(false) ==> state.stopping
      ensures polled.Some? && r.Raised? ==>
                exists m, rules :: m in polled.value.messages && RaisedFor(m, rules, r.exn)
      ensures Grown(old(db.View()), db.View())
    {
      hide Stands, Ended, Reaches, AnswerAll, CallsAt, ByPages, NoneMissed, SettledIn, Grown, Treated;
      hide Untraced, Commit, Replay;
      polled := None;
      GrownAtFirst(db.View());
      var batch: Outcome<Batch>;
      batch, legs := PollOnce();
      if batch.Raised? {
        r := Raised(batch.exn);
        return;
      }
      polled := Some(batch.value);
      if batch.value.messages == [] {
        ghost var was := db.View();
        Acknowledge(batch.value.checkpoint, Acking(batch.value.checkpoint), Sleeping);
        CursorsAside(was, db.View());
        Sleep();
        r := Ok(true);
        return;
      }
      ghost var done: nat;
      r, done := HandleBatch(batch.value, rulesState.rules);
    }

    /** At no await from number `k` up to number `n` is the call made. */
    ghost predicate NoCall(call: IpcCall, k: nat, n: nat) {
      forall j | k <= j < n :: call !in around.calls(j)
    }

    /** The loop, until it is told to stop, an exception ends it, or `rounds` iterations are done. `polls` of
        them have polled. All batches together, `handled`, are one delivery by the pages `legs` from the cursor
        `from` at which the first poll began; each of their messages is settled. So when the rounds are done and
        one of them has polled, then every message that was there when the loop began, in the Inbox, created
        from that cursor on and left alone until its page was read, is settled, and the stored cursor is past it. */
    method RunMessageLoop(rounds: nat)
      returns (r: Outcome<bool>, ghost polls: nat, ghost handled: seq<Message>, ghost legs: seq<Leg>,
        ghost from: Cursor)
      requires Stands(Head)
      modifies this, state, rulesState, db, source.server, source.cursor, source.push, source.timer
      ensures if r == Ok(true) then Stands(Head) else Ended()
      ensures r == Ok(false) ==> state.stopping
      ensures r == Ok(true) ==> awaits >= old(awaits) + rounds
      ensures polls <= rounds
      ensures r == Ok(true) && !old(state.paused) && NoCall(PauseCall, old(awaits), awaits) ==> polls == rounds
      ensures old(state.paused) && NoCall(ResumeCall, old(awaits), awaits) ==> polls == 0
      ensures source.server.requests >= old(source.server.requests) + polls
      ensures polls == 0 ==> source.server.requests == old(source.server.requests)
      ensures r == Ok(true) && polls > 0 ==>
                && Gathered(source, old(source.cursor.value), |old(source.server.mail)|, from, legs, handled)
                && CursorOf(db.View(), setup.account) == source.cursor.value
                && forall m | m in handled :: Settled(m.id)
      ensures r == Ok(true) && polls > 0 ==>
                var mail := source.server.mail;
                forall i: nat | from <= i < |old(source.server.mail)| && LeftUntilRead(mail, legs, i) ::
                  Settled(mail[i].message.id)
      ensures Grown(old(db.View()), db.View())
    {
      hide Stands, Ended, Reaches, GatheredUpTo, ByPages, SettledIn, Grown, AnswerAll, CallsAt, Treated;
      hide Untraced, Commit, Replay;
      polls, handled, legs, from := 0, [], [], 0;
      ghost var first, at, t := db.View(), source.cursor.value, |source.server.mail|;
      ghost var began, paused := awaits, state.paused;
      FlagIsAsTold();
      GrownAtFirst(first);
      r := Ok(true);
      for i := 0 to rounds
        invariant Stands(Head) && r == Ok(true) && Grown(first, db.View())
        invariant polls <= i && awaits >= began + i
        invariant !paused && NoCall(PauseCall, began, awaits) ==> polls == i
        invariant paused && NoCall(ResumeCall, began, awaits) ==> polls == 0
        invariant paused == AnswerAll(CallsAt(around.calls, 0, began), Fresh(atFirst)).paused
        invariant source.server.requests >= old(source.server.requests) + polls
        invariant polls == 0 ==>
                    && source.server.requests == old(source.server.requests)
                    && source.cursor.value == at && t == |source.server.mail|
        invariant old(source.server.mail) <= source.server.mail
        invariant polls > 0 ==>
                    && Gathered(source, at, t, from, legs, handled)
                    && CursorOf(db.View(), setup.account) == source.cursor.value
        invariant forall m | m in handled :: Settled(m.id)
      {
        if state.stopping {
          LoopLeft();
          r := Ok(false);
          return;
        }
        ghost var was, mail, cursor := db.View(), source.server.mail, source.cursor.value;
        ghost var now := awaits;
        ghost var pausedNext := AfterDrain().paused;
        FlagUnlessCalled(began, paused);
        ghost var b: Option<Batch>;
        ghost var pages: seq<Leg>;
        r, b, pages := Iterate();
        StaysGrown(first, was, db.View());
        assert pausedNext <==> b.None? && r == Ok(true);
        if b.Some? || r.Raised? {
          polls := polls + 1;
        }
        if r != Ok(true) {
          return;
        }
        forall m | m in handled ensures Settled(m.id) {
          StaysSettled(was, db.View(), m.id, observe);
        }
        if b.Some? {
          from, legs, handled := Gather(source, at, t, polls > 1, from, legs, handled, mail, cursor, b.value, pages);
        }
      }
      if polls > 0 {
        GatheredMissesNone(source, at, t, from, legs, handled);
      }
    }

    lemma FlagIsAsTold()
      requires Stands(Head)
      ensures state.paused == AnswerAll(CallsAt(around.calls, 0, awaits), Fresh(atFirst)).paused
    {
      hide Reaches, AnswerAll, CallsAt;
    }

    /** The flag is what it was at await `began`, and will be so after the drain, unless somebody has called for
        the other, or does. */
    lemma FlagUnlessCalled(began: nat, paused: bool)
      requires Stands(Head) && began <= awaits
      requires paused == AnswerAll(CallsAt(around.calls, 0, began), Fresh(atFirst)).paused
      ensures var call, next := if paused then ResumeCall else PauseCall, awaits + |state.pending|;
              && (NoCall(call, began, awaits) ==> state.paused == paused)
              && (NoCall(call, began, next) ==> AfterDrain().paused == paused)
    {
      hide Reaches, AnswerAll, CallsAt;
      var call, next := if paused then ResumeCall else PauseCall, awaits + |state.pending|;
      if NoCall(call, began, awaits) {
        FlagLater(around.calls, began, awaits, Fresh(atFirst));
      }
      if NoCall(call, began, next) {
        FlagStays(around.calls, awaits, |state.pending|, SharedState().(pending := []));
      }
    }
  }

  /** A process is composed: the source is built at the stored cursor, and the loop stands at its head. */
  method StartLoop(
    setup: Setup, around: Surroundings, rules: seq<Rule>, observe: bool, db: StateDB, server: Server, push: PushTrigger,
    ghost before: State) returns (l: Loop)
    requires db.Valid() && db.history == [] && server.Valid() && push.Valid()
    requires before.proc.None? && DbOf(setup, before) == db.View() && before.mail == server.mail
    ensures fresh(l) && l.Stands(Head) && l.setup == setup && l.observe == observe && l.birth == before
    ensures l.around == around && !l.state.stopping && l.rulesState.rules == rules
    ensures l.db == db && l.source.server == server && l.source.push == push
    ensures l.source.cursor.value == CursorOf(db.View(), setup.account)
  {
    var cursor := db.GetCursor(setup.account);
    var source := new FallbackSource(server, push, cursor);
    l := new Loop(setup, around, rules, observe, db, source, before);
  }
}
