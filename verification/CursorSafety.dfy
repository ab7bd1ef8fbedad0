/** Cursor safety: what lies behind the acknowledged cursor, and when a message is left there
    unprocessed. */
module CursorSafety {
  import opened Model
  import opened StateDb
  import opened Mailbox
  import opened RunFacts
  import opened Daemon
  import opened DaemonRuns
  import opened RunHistory

  function Durable(setup: Setup, s: State): Option<Cursor> {
    CursorOf(DbOf(setup, s), setup.account)
  }

  /** A run of the message has come to its end. */
  ghost predicate Handled(s: State, id: string) {
    exists r :: r in s.runs && r.id == id && r.finished
  }

  /** Every message of `ms` has been handled, or is in `todo`. */
  ghost predicate HandledOr(s: State, ms: seq<Message>, todo: seq<Message>) {
    forall m | m in ms :: m in todo || Handled(s, m.id)
  }

  /** The poll is one the mail allows. */
  ghost predicate FetchFits(mail: Log, f: Fetch) {
    match f.from
    case None => f.batch == [] && f.upTo <= |mail|
    case Some(c) => Path(mail, c, f.legs, f.upTo) && f.batch == Collected(mail, c, f.legs, f.upTo)
  }

  /** The acknowledged polls lead without a gap from the cursor found at first to `end`; `first` is that
      cursor, or the baseline of the first poll. */
  ghost predicate Leads(acked: seq<Fetch>, found: Option<Cursor>, first: Option<Cursor>, end: Option<Cursor>)
    decreases |acked|
  {
    if acked == [] then end == found && first == found
    else
      var f := acked[|acked| - 1];
      && end == Some(f.upTo) && first.Some?
      && Leads(acked[..|acked| - 1], found, if f.from.None? then None else first, f.from)
      && (f.from.None? ==> first == Some(f.upTo))
  }

  ghost predicate AckedFit(s: State) {
    forall f | f in s.acked :: FetchFits(s.mail, f) && HandledOr(s, f.batch, [])
  }

  /** The batch in hand: its checkpoint and the messages not yet handled. */
  function Pending(pc: Pc): Option<(Cursor, seq<Message>)> {
    match pc
    case Handling(w) => Some((w.checkpoint, w.todo))
    case Running(run, w) => Some((w.checkpoint, [run.message] + w.todo))
    case Checking(w) => Some((w.checkpoint, w.todo))
    case Acking(c) => Some((c, []))
    case _ => None
  }

  /** The poll in hand starts at the stored cursor, and what it returned is handled or to come. */
  ghost predicate HandFits(setup: Setup, s: State, p: Proc) {
    match Pending(p.pc)
    case None => p.cursor == Durable(setup, s)
    case Some((c, ms)) =>
      && p.fetch.Some? && p.cursor == Some(c)
      && var f := p.fetch.value;
         && FetchFits(s.mail, f) && f.from == Durable(setup, s) && f.upTo == c && HandledOr(s, f.batch, ms)
  }

  ghost predicate CursorInv(setup: Setup, s: State) {
    && Leads(s.acked, CursorOf(setup.found, setup.account), s.first, Durable(setup, s))
    && AckedFit(s) && (s.first.Some? ==> s.first.value <= |s.mail|)
    && (s.proc.Some? ==> HandFits(setup, s, s.proc.value))
  }

  // ----- What a step can only improve -----

  /** `t` has at least the mail and the ended runs of `s`. */
  ghost predicate Later(s: State, t: State) {
    s.mail <= t.mail && s.runs <= t.runs
  }

  lemma HandledOrStays(s: State, t: State, ms: seq<Message>, todo: seq<Message>)
    requires Later(s, t) && HandledOr(s, ms, todo)
    ensures HandledOr(t, ms, todo)
  {
    forall m | m in ms && m !in todo ensures Handled(t, m.id) {
      var r :| r in s.runs && r.id == m.id && r.finished;
      assert r in t.runs;
    }
  }

  lemma FetchStillFits(mail: Log, more: Log, f: Fetch)
    requires mail <= more && FetchFits(mail, f)
    ensures FetchFits(more, f)
  {
    if f.from.Some? {
      PathGrows(mail, more[|mail|..], f.from.value, f.legs, f.upTo);
      assert mail + more[|mail|..] == more;
    }
  }

  lemma AckedStillFit(s: State, t: State)
    requires Later(s, t) && AckedFit(s) && t.acked == s.acked
    ensures AckedFit(t)
  {
    forall f | f in s.acked ensures FetchFits(t.mail, f) && HandledOr(t, f.batch, []) {
      FetchStillFits(s.mail, t.mail, f);
      HandledOrStays(s, t, f.batch, []);
    }
  }

  /** A step that keeps the stored cursor and the batch in hand keeps the invariant. */
  lemma QuietStep(setup: Setup, s: State, t: State)
    requires CursorInv(setup, s) && Later(s, t)
    requires Durable(setup, t) == Durable(setup, s) && t.first == s.first && t.acked == s.acked
    requires t.proc.Some? ==>
               && s.proc.Some? && t.proc.value.cursor == s.proc.value.cursor
               && Pending(t.proc.value.pc) == Pending(s.proc.value.pc) && t.proc.value.fetch == s.proc.value.fetch
    ensures CursorInv(setup, t)
  {
    AckedStillFit(s, t);
    if t.proc.Some? && Pending(t.proc.value.pc).Some? {
      var f := s.proc.value.fetch.value;
      FetchStillFits(s.mail, t.mail, f);
      HandledOrStays(s, t, f.batch, Pending(t.proc.value.pc).value.1);
    }
  }

  lemma LogStep(setup: Setup, s: State, e: Effect)
    ensures DbOf(setup, Log1(s, e)) == Commit(DbOf(setup, s), e)
    ensures !e.CursorSet? ==> Durable(setup, Log1(s, e)) == Durable(setup, s)
  {
    ReplayAppend(setup.found, s.log, e);
  }

  // ----- The steps that move the cursor or the batch -----

  lemma PollKeeps(setup: Setup, s: State, p: Proc, turn: Turn)
    requires CursorInv(setup, s) && s.proc == Some(p) && CanTake(setup, s, p, turn) && turn.Poll?
    ensures CursorInv(setup, After(setup, s, p, turn))
  {
    var t := After(setup, s, p, turn);
    AckedStillFit(s, t);
    if turn.batch == [] {
      assert HandledOr(t, turn.batch, []);
    }
  }

  /** The whole batch is dealt with when its checkpoint is acknowledged. */
  lemma AckKeeps(setup: Setup, s: State, p: Proc, c: Cursor, pc: Pc)
    requires CursorInv(setup, s) && s.proc == Some(p) && Pending(p.pc) == Some((c, [])) && Pending(pc).None?
    ensures CursorInv(setup, Acknowledge(setup, s, p, c, pc))
  {
    var t, f := Acknowledge(setup, s, p, c, pc), p.fetch.value;
    EndsTogether(s.acked, CursorOf(setup.found, setup.account), s.first, Durable(setup, s));
    assert f.from.None? ==> c <= |s.mail|;
    hide Leads, FetchFits, HandledOr, Commit;
    LogStep(setup, s, CursorSet(setup.account, c));
    assert CursorOf(DbOf(setup, Log1(s, CursorSet(setup.account, c))), setup.account) == Some(c);
    assert Later(s, t) && Durable(setup, t) == Some(c);
    assert t.acked == s.acked + [f] && t.acked[..|s.acked|] == s.acked;
    AckedStillFit(s, t.(acked := s.acked));
    FetchStillFits(s.mail, t.mail, f);
    HandledOrStays(s, t, f.batch, []);
    LeadsOn(s.acked, CursorOf(setup.found, setup.account), s.first, Durable(setup, s), f);
  }

  lemma LeadsOn(acked: seq<Fetch>, found: Option<Cursor>, first: Option<Cursor>, end: Option<Cursor>, f: Fetch)
    requires Leads(acked, found, first, end) && f.from == end
    ensures Leads(acked + [f], found, if first.None? then Some(f.upTo) else first, Some(f.upTo))
  {
    EndsTogether(acked, found, first, end);
    assert (acked + [f])[..|acked|] == acked;
  }

  lemma {:induction false} EndsTogether(
    acked: seq<Fetch>, found: Option<Cursor>, first: Option<Cursor>, end: Option<Cursor>)
    requires Leads(acked, found, first, end)
    ensures first.Some? == end.Some?
  {}

  /** A run that neither raised nor goes on to Tier 2 has come to its end, and its message can leave
      the batch. */
  lemma FinishKeeps(setup: Setup, s: State, p: Proc, run: MessageRun, work: Work)
    requires CursorInv(setup, s) && s.proc == Some(p) && p.pc == Running(run, work)
    ensures CursorInv(setup, AfterRun(s, p, run, work))
  {
    hide FetchFits, Leads, Committed;
    var t := AfterRun(s, p, run, work);
    if RaisedIn(run.phase) || NeedsTier2(run) {
      QuietStep(setup, s, t);
    } else {
      AckedStillFit(s, t);
      LeavesBatch(s, t, p.fetch.value.batch, run, work);
    }
  }

  lemma LeavesBatch(s: State, t: State, batch: seq<Message>, run: MessageRun, work: Work)
    requires HandledOr(s, batch, [run.message] + work.todo) && Later(s, t)
    requires s.proc.Some? && s.proc.value.pc == Running(run, work) && t.runs == s.runs + InHand(s, true)
    ensures HandledOr(t, batch, work.todo)
  {
    HandledOrStays(s, t, batch, [run.message] + work.todo);
    assert InHand(s, true)[0] in t.runs;
  }

  lemma WriteKeeps(setup: Setup, s: State, p: Proc, ts: string)
    requires CursorInv(setup, s) && s.proc == Some(p) && CanTake(setup, s, p, WriteEvent(ts))
    ensures CursorInv(setup, After(setup, s, p, WriteEvent(ts)))
  {
    LogStep(setup, s, AuditWritten(ts, "", EventName(p.pc.captured[0]), None));
    QuietStep(setup, s, After(setup, s, p, WriteEvent(ts)));
  }

  lemma CheckKeeps(setup: Setup, s: State, p: Proc, turn: Turn)
    requires CursorInv(setup, s) && s.proc == Some(p) && CanTake(setup, s, p, turn) && turn.CheckBudget?
    ensures CursorInv(setup, After(setup, s, p, turn))
  {
    var t := After(setup, s, p, turn);
    CheckStep(setup, s, p, turn);
    QuietStep(setup, s, t);
  }

  lemma CheckStep(setup: Setup, s: State, p: Proc, turn: Turn)
    requires s.proc == Some(p) && CanTake(setup, s, p, turn) && turn.CheckBudget?
    ensures var t := After(setup, s, p, turn);
            && t.mail == s.mail && t.runs == s.runs && t.first == s.first && t.acked == s.acked
            && Durable(setup, t) == Durable(setup, s)
            && (t.proc.Some? ==>
                  && t.proc.value.cursor == p.cursor && t.proc.value.fetch == p.fetch
                  && t.proc.value.pc == Handling(p.pc.work))
  {
    LogStep(setup, s, Alerted(turn.id, "Daily LLM budget exhausted", Critical));
    assert s.runs + [] == s.runs;
  }

  lemma CommitKeeps(setup: Setup, s: State, p: Proc)
    requires CursorInv(setup, s) && RunInv(setup, s) && s.proc == Some(p) && p.pc.Running? && p.pc.run.rest != []
    ensures CursorInv(setup, After(setup, s, p, CommitNext))
  {
    NextIsAbout(setup, s, p.pc.run);
    LogStep(setup, s, p.pc.run.rest[0]);
    QuietStep(setup, s, After(setup, s, p, CommitNext));
  }

  lemma BeginKeeps(setup: Setup, s: State, p: Proc, turn: Turn)
    requires CursorInv(setup, s) && s.proc == Some(p) && CanTake(setup, s, p, turn) && turn.Begin?
    ensures CursorInv(setup, After(setup, s, p, turn))
  {
    var todo := p.pc.work.todo;
    assert [todo[0]] + todo[1..] == todo;
    QuietStep(setup, s, After(setup, s, p, turn));
  }

  lemma PlainKeeps(setup: Setup, s: State, p: Proc, turn: Turn)
    requires CursorInv(setup, s) && s.proc == Some(p) && CanTake(setup, s, p, turn)
    requires !turn.Poll? && !turn.Finish? && !turn.Ack? && !turn.CommitNext? && !turn.WriteEvent?
    requires !turn.CheckBudget? && !turn.Begin?
    ensures CursorInv(setup, After(setup, s, p, turn))
  {
    QuietStep(setup, s, After(setup, s, p, turn));
  }

  lemma TurnKeeps(setup: Setup, s: State, p: Proc, turn: Turn)
    requires CursorInv(setup, s) && RunInv(setup, s) && s.proc == Some(p) && CanTake(setup, s, p, turn)
    ensures CursorInv(setup, After(setup, s, p, turn))
  {
    hide CursorInv, RunFits, StartRun, PollResult, DbOf;
    match turn
    case Poll(_, _, _) => PollKeeps(setup, s, p, turn);
    case Finish => FinishKeeps(setup, s, p, p.pc.run, p.pc.work);
    case Ack => AckKeeps(setup, s, p, Pending(p.pc).value.0, if p.pc.Acking? then Sleeping else Head);
    case CommitNext => CommitKeeps(setup, s, p);
    case WriteEvent(ts) => WriteKeeps(setup, s, p, ts);
    case CheckBudget(_, _, _) => CheckKeeps(setup, s, p, turn);
    case Begin(_, _) => BeginKeeps(setup, s, p, turn);
    case _ => PlainKeeps(setup, s, p, turn);
  }

  lemma CursorInvKept(setup: Setup, s: State, a: Act)
    requires CursorInv(setup, s) && RunInv(setup, s) && Enabled(setup, s, a)
    ensures CursorInv(setup, Next(setup, s, a))
  {
    match a
    case Take(turn) => TurnKeeps(setup, s, s.proc.value, turn);
    case Arrive(_) => QuietStep(setup, s, Next(setup, s, a));
    case Start(_, _) => AckedStillFit(s, Next(setup, s, a));
  }

  /** In every run of the system: */
  lemma {:induction false} CursorInvHolds(setup: Setup, from: State, acts: seq<Act>, s: State)
    requires CursorInv(setup, from) && RunInv(setup, from) && Reaches(setup, from, acts, s)
    ensures CursorInv(setup, s)
    decreases |acts|
  {
    if acts != [] {
      CursorInvKept(setup, from, acts[0]);
      RunInvKept(setup, from, acts[0]);
      CursorInvHolds(setup, Next(setup, from, acts[0]), acts[1..], s);
    }
  }

  // ----- A finished run has dealt with its message -----

  /** Processed; or held back, and audited, by a run in a process that only observed. */
  ghost predicate Dealt(setup: Setup, s: State, id: string) {
    || id in DbOf(setup, s).processed
    || exists r :: r in s.runs && r.id == id && HeldBack(r) && AuditedBefore(r.done, id, |r.done|)
  }

  lemma HandledIsDealt(setup: Setup, s: State, id: string)
    requires Reachable(setup, s) && Handled(s, id)
    ensures Dealt(setup, s, id)
  {
    var r :| r in s.runs && r.id == id && r.finished;
    FinishedRuns(setup, s, r);
    ProcessedIsMarked(setup, s, id);
    RunsMark(s, id);
    assert r in AllRuns(s);
  }

  lemma RunsMark(s: State, id: string)
    ensures MarkedIn(History(s), id) <==> exists r :: r in AllRuns(s) && r.id == id && Marks(r.done, id)
  {
    var rs := AllRuns(s);
    if MarkedIn(History(s), id) {
      var k :| 0 <= k < |rs| && History(s)[k].id == id && Marks(History(s)[k].done, id);
      assert rs[k] in rs;
    }
    if r :| r in rs && r.id == id && Marks(r.done, id) {
      var k :| 0 <= k < |rs| && rs[k] == r;
      assert History(s)[k] == PastOf(r);
    }
  }

  // ----- Between the cursors -----

  /** The acknowledged poll whose stretch holds change `i`. */
  function Covering(acked: seq<Fetch>, i: nat): Option<Fetch>
    decreases |acked|
  {
    if acked == [] then None
    else
      var f := acked[|acked| - 1];
      if f.from.Some? && f.from.value <= i then Some(f) else Covering(acked[..|acked| - 1], i)
  }

  ghost predicate Covers(f: Fetch, i: nat) {
    f.from.Some? && f.from.value <= i < f.upTo
  }

  lemma {:induction false} CoveringFound(
    acked: seq<Fetch>, found: Option<Cursor>, first: Option<Cursor>, end: Option<Cursor>, i: nat)
    requires Leads(acked, found, first, end) && first.Some? && end.Some? && first.value <= i < end.value
    ensures var c := Covering(acked, i); c.Some? && c.value in acked && Covers(c.value, i)
    decreases |acked|
  {
    var f := acked[|acked| - 1];
    if f.from.None? || i < f.from.value {
      CoveringFound(acked[..|acked| - 1], found, first, f.from, i);
    }
  }

  lemma {:induction false} CursorsOrdered(
    mail: Log, acked: seq<Fetch>, found: Option<Cursor>, first: Option<Cursor>, end: Option<Cursor>)
    requires Leads(acked, found, first, end) && (forall f | f in acked :: FetchFits(mail, f))
    requires first.Some? ==> first.value <= |mail|
    ensures first.Some? == end.Some? && (end.Some? ==> first.value <= end.value <= |mail|)
    decreases |acked|
  {
    if acked != [] {
      var f := acked[|acked| - 1];
      assert f in acked && FetchFits(mail, f);
      if f.from.Some? {
        CursorsOrdered(mail, acked[..|acked| - 1], found, first, f.from);
        PathIsOrdered(mail, f.from.value, f.legs, f.upTo);
      }
    }
  }

  /** Message `i` was in the Inbox when its page was last read before the acknowledgement. */
  ghost predicate SeenInInbox(s: State, i: nat)
    requires i < |s.mail| && s.mail[i].Created?
  {
    var f := Covering(s.acked, i);
    f.Some? && ReadIn(f.value.legs, i) <= |s.mail|
    && InboxAt(s.mail, ReadIn(f.value.legs, i), s.mail[i].message.id)
  }

  /** Change `i` created a message, between the first and the stored cursor. */
  ghost predicate Between(setup: Setup, s: State, i: nat) {
    && Durable(setup, s).Some? && s.first.Some? && s.first.value <= i < Durable(setup, s).value
    && i < |s.mail| && s.mail[i].Created?
  }

  ghost predicate WellAcked(setup: Setup, s: State) {
    CursorInv(setup, s) && RunInv(setup, s) && ProperIds(s.mail)
  }

  lemma {:induction false} ProperIdsHold(setup: Setup, from: State, acts: seq<Act>, s: State)
    requires ProperIds(from.mail) && Reaches(setup, from, acts, s)
    ensures ProperIds(s.mail)
    decreases |acts|
  {
    if acts != [] {
      ProperIdsHold(setup, Next(setup, from, acts[0]), acts[1..], s);
    }
  }

  lemma ReachableIsWellAcked(setup: Setup, s: State)
    requires Reachable(setup, s)
    ensures WellAcked(setup, s)
  {
    var from, acts :| Initial(setup, from) && Reaches(setup, from, acts, s);
    CursorInvHolds(setup, from, acts, s);
    ProperIdsHold(setup, from, acts, s);
    RunInvHolds(setup, from, acts, s);
  }

  /** A message between the cursors is in the acknowledged batch of its stretch exactly if it was in the
      Inbox when its page was read. */
  lemma SeenIsDelivered(setup: Setup, s: State, i: nat)
    requires WellAcked(setup, s) && Between(setup, s, i)
    ensures var c := Covering(s.acked, i);
            c.Some? && c.value in s.acked && (s.mail[i].message in c.value.batch <==> SeenInInbox(s, i))
  {
    CoveringFound(s.acked, CursorOf(setup.found, setup.account), s.first, Durable(setup, s), i);
    var f := Covering(s.acked, i).value;
    PathIsOrdered(s.mail, f.from.value, f.legs, f.upTo);
    DeliveredIfInInbox(s.mail, f.from.value, f.legs, f.upTo, i);
  }

  /** Cursor safety. In every state any run can reach, through any interleaving of polls, pauses,
      reloads, stops in mid-batch, exceptions, crashes between commits and restarts, with mail arriving,
      moving and vanishing at any time, and some lives observing while others act: every message of every
      acknowledged batch has been processed, or audited and held back by a life that observed; and so has
      every message between the first and the stored cursor that was in the Inbox when its page was last
      read before the acknowledgement. */
  lemma CursorSafety(setup: Setup, s: State)
    requires Reachable(setup, s)
    ensures forall f, m | f in s.acked && m in f.batch :: Dealt(setup, s, m.id)
    ensures Durable(setup, s).Some? ==> s.first.Some? && s.first.value <= Durable(setup, s).value <= |s.mail|
    ensures forall i: nat | Between(setup, s, i) && SeenInInbox(s, i) :: Dealt(setup, s, s.mail[i].message.id)
  {
    ReachableIsWellAcked(setup, s);
    CursorsOrdered(s.mail, s.acked, CursorOf(setup.found, setup.account), s.first, Durable(setup, s));
    forall f, m | f in s.acked && m in f.batch ensures Dealt(setup, s, m.id) {
      assert HandledOr(s, f.batch, []);
      HandledIsDealt(setup, s, m.id);
    }
    forall i: nat | Between(setup, s, i) && SeenInInbox(s, i) ensures Dealt(setup, s, s.mail[i].message.id) {
      SeenIsDelivered(setup, s, i);
    }
  }

  /** In particular the messages that nobody has touched since they were created in the Inbox. */
  lemma UntouchedIsDealt(setup: Setup, s: State, i: nat)
    requires Reachable(setup, s) && Between(setup, s, i) && Steady(s.mail, i)
    ensures Dealt(setup, s, s.mail[i].message.id)
  {
    ReachableIsWellAcked(setup, s);
    SeenIsDelivered(setup, s, i);
    CoveringFound(s.acked, CursorOf(setup.found, setup.account), s.first, Durable(setup, s), i);
    var f := Covering(s.acked, i).value;
    ReadAfterChange(s.mail, f.from.value, f.legs, f.upTo, i);
    SteadyInInbox(s.mail, i, ReadIn(f.legs, i));
    CursorSafety(setup, s);
  }

  /** Whenever the source is polled, its cursor in memory is the durable one. */
  lemma PolledFromDurable(setup: Setup, s: State)
    requires Reachable(setup, s) && s.proc.Some? && s.proc.value.pc.Polling?
    ensures s.proc.value.cursor == Durable(setup, s)
  {
    ReachableIsWellAcked(setup, s);
  }

  // ----- When a message is left behind -----

  /** The run was cut short, by a crash or an exception, before it had committed its mark; or it is in hand
      and has not. */
  ghost predicate CutBeforeMark(r: EndedRun) {
    !r.finished && !Marks(r.done, r.id)
  }

  /** In every reachable state a message is unprocessed if and only if it was so at first, and each of its
      runs was cut before its mark, or came to its end with an escalation in a life that only observed. */
  lemma UnprocessedExactly(setup: Setup, s: State, id: string)
    requires Reachable(setup, s)
    ensures id !in DbOf(setup, s).processed <==>
              && id !in setup.found.processed
              && forall r | r in AllRuns(s) && r.id == id :: CutBeforeMark(r) || HeldBack(r)
  {
    ProcessedIsMarked(setup, s, id);
    RunsMark(s, id);
    forall r | r in s.runs ensures EndedWell(setup, s, r) {
      FinishedRuns(setup, s, r);
    }
    hide DbOf, AuditedBefore, Unsettled, MarkedIn;
    forall r | r in AllRuns(s) && r.id == id && HeldBack(r) ensures !Marks(r.done, id) {
      assert r in s.runs && Quiet(r.done);
    }
  }

  /** So a message between the cursors is left behind for one of two causes. Either a life that observed
      held it back; or it was gone from the Inbox when its page was last read, and every run of it that an
      earlier poll had led to was cut before its mark. */
  lemma LeftBehindExactly(setup: Setup, s: State, i: nat)
    requires Reachable(setup, s) && Between(setup, s, i)
    ensures var id := s.mail[i].message.id;
            var held := exists r :: r in s.runs && r.id == id && HeldBack(r);
            && (id !in DbOf(setup, s).processed <==>
                  && id !in setup.found.processed
                  && forall r | r in AllRuns(s) && r.id == id :: CutBeforeMark(r) || HeldBack(r))
            && (id !in DbOf(setup, s).processed ==> held || !SeenInInbox(s, i))
  {
    CursorSafety(setup, s);
    UnprocessedExactly(setup, s, s.mail[i].message.id);
  }

  // ----- What all acknowledged polls together have delivered -----

  function AckedBatches(acked: seq<Fetch>): seq<Message> {
    if acked == [] then [] else AckedBatches(acked[..|acked| - 1]) + acked[|acked| - 1].batch
  }

  /** Their pages; a poll without a cursor takes a baseline and reads none. */
  function AckedLegs(acked: seq<Fetch>): seq<Leg> {
    if acked == [] then []
    else AckedLegs(acked[..|acked| - 1]) + if acked[|acked| - 1].from.None? then [] else acked[|acked| - 1].legs
  }

  lemma {:induction false} AckedJoin(
    mail: Log, acked: seq<Fetch>, found: Option<Cursor>, first: Option<Cursor>, end: Option<Cursor>)
    requires Leads(acked, found, first, end) && (forall f | f in acked :: FetchFits(mail, f))
    requires first.Some? && first.value <= |mail|
    ensures end.Some? && ByPages(mail, first.value, AckedLegs(acked), end.value, AckedBatches(acked))
    decreases |acked|
  {
    if acked != [] {
      var before, f := acked[..|acked| - 1], acked[|acked| - 1];
      assert f in acked;
      if f.from.None? {
        EndsTogether(before, found, None, None);
        assert before == [];
        assert AckedLegs(acked) == [] && AckedBatches(acked) == [];
      } else {
        AckedJoin(mail, before, found, first, f.from);
        ByPagesJoin(mail, first.value, AckedLegs(before), f.from.value, AckedBatches(before), f.legs, f.upTo, f.batch);
      }
    }
  }

  /** Over any run, however many polls, lives and moves it takes: all acknowledged batches together are
      Inbox mail created between the first and the stored cursor, in creation order and each at most once;
      and they are exactly that mail if and only if each message created between them was, when its page was
      read, where it was created. */
  lemma AckedExactly(setup: Setup, s: State)
    requires Reachable(setup, s) && Durable(setup, s).Some?
    ensures s.first.Some? && s.first.value <= Durable(setup, s).value <= |s.mail|
    ensures var first, end := s.first.value, Durable(setup, s).value;
            var all, legs := AckedBatches(s.acked), AckedLegs(s.acked);
            && ByPages(s.mail, first, legs, end, all) && Subsequence(all, CreatedIn(s.mail, first, end))
            && (all == InboxCreated(s.mail, first, end) <==> KeptPlaces(s.mail, first, legs, end))
  {
    ReachableIsWellAcked(setup, s);
    CursorSafety(setup, s);
    var first, end := s.first.value, Durable(setup, s).value;
    AckedJoin(s.mail, s.acked, CursorOf(setup.found, setup.account), s.first, Durable(setup, s));
    CollectedInOrder(s.mail, first, AckedLegs(s.acked), end);
    ExactlyWhenPlacesKept(s.mail, first, AckedLegs(s.acked), end);
  }
}
