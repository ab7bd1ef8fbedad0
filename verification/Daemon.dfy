/** The daemon as a state machine: the message loop, the control-plane handlers that interleave with
    it, the mail server's log, crashes between any two commits, and restarts that keep only the
    database. */
module Daemon {
  import opened Model
  import opened StateDb
  import opened Mailbox
  import Tier1
  import Tier2
  import Escalate

  /** What stays fixed: the account, the configuration, and the database found at first. */
  datatype Setup = Setup(account: string, unmatched: Action, config: Tier2.Config, found: Db)

  datatype PlaneEvent = DaemonPaused | DaemonResumed

  function EventName(e: PlaneEvent): string {
    match e
    case DaemonPaused => "daemon_paused"
    case DaemonResumed => "daemon_resumed"
  }

  /** The messages still to be handled, the rules they are handled with, the cursor to acknowledge. */
  datatype Work = Work(todo: seq<Message>, rules: seq<Rule>, checkpoint: Cursor)

  /** How far the run of one message has come. The worker thread's result is settled when it starts;
      its effects are committed one by one. */
  datatype Phase =
    | InTier1(verdict: Outcome<Option<RuleVerdict>>)
    | BetweenTiers
    | InTier2(result: Outcome<Escalate.Escalated>)

  /** One message's run; it began when the log had length `began`, and `rest` is yet to be committed. */
  datatype MessageRun = MessageRun(message: Message, observed: bool, phase: Phase, rest: seq<Effect>, began: nat)

  datatype Pc =
    | Head
    | Draining(captured: seq<PlaneEvent>)
    | Gate
    | Sleeping
    | Polling
    | Handling(work: Work)
    | Running(run: MessageRun, work: Work)
    | Checking(work: Work)
    | Acking(checkpoint: Cursor)

  /** One poll: from which cursor to which, by which pages, and what it returned. */
  datatype Fetch = Fetch(from: Option<Cursor>, upTo: Cursor, legs: seq<Leg>, batch: seq<Message>)

  /** A message's run that is over: what it has committed; whether it came to its end or was cut short by
      a crash or an exception; whether its Tier 1 verdict was to escalate; and whether its process only
      observed. */
  datatype EndedRun = EndedRun(id: string, done: seq<Effect>, finished: bool, escalated: bool, observed: bool)

  /** A process life that is over, from the log's length `born` to its length `died`: whether it only
      observed, the pause and resume calls it was made, and those of them it had not written when it
      ended. */
  datatype Life = Life(born: nat, died: nat, observe: bool, calls: seq<PlaneEvent>, unwritten: seq<PlaneEvent>)

  /** The memory of one process life, which observes or acts throughout. `fetch`, `enqueued`, `spent`,
      `alerted` and `born` are history: the last poll, all control-plane events so far, the dates of the
      budget checks that found the budget used up, which of these alerted, and the length of the log at
      birth. */
  datatype Proc = Proc(
    observe: bool, paused: bool, pending: seq<PlaneEvent>, rules: seq<Rule>, cursor: Option<Cursor>,
    alertDate: Option<string>, stopping: bool, pc: Pc,
    fetch: Option<Fetch>, enqueued: seq<PlaneEvent>, spent: seq<string>, alerted: seq<nat>, born: nat)

  /** `log` is every effect since the first start; `runs` and `lives` are all runs and process lives that
      are over; `first` is the first cursor ever acknowledged or found, `acked` the polls acknowledged
      since. */
  datatype State = State(
    log: seq<Effect>, mail: Log, proc: Option<Proc>, first: Option<Cursor>, acked: seq<Fetch>,
    runs: seq<EndedRun>, lives: seq<Life>)

  function DbOf(setup: Setup, s: State): Db {
    Replay(setup.found, s.log)
  }

  /** One step of the running process. */
  datatype Turn =
    | Crash
    | RequestStop
    | CallPause
    | CallResume
    | CallReload(rules: seq<Rule>)
    | EnterLoop
    | WriteEvent(ts: string)
    | PassGate
    | Wake
    | PollFails
    | Poll(upTo: Cursor, legs: seq<Leg>, batch: seq<Message>)
    | Begin(env: Tier1.Env, classifier: Option<Outcome<string>>)
    | CommitNext
    | Finish
    | BeginTier2(env3: Escalate.Env3)
    | CheckBudget(now: string, id: string, alerter: Option<Exn>)
    | Ack

  /** A step of the whole system: the process starts, observing or not; mail changes; or the process takes
      a turn. */
  datatype Act = Start(rules: seq<Rule>, observe: bool) | Arrive(change: Change) | Take(turn: Turn)

  /** What a poll may return: at first only a baseline, later a delivery from the cursor. */
  ghost predicate PollResult(mail: Log, f: Fetch) {
    match f.from
    case None => f.batch == [] && f.upTo == |mail|
    case Some(c) => Path(mail, c, f.legs, f.upTo) && f.batch == Collected(mail, c, f.legs, f.upTo)
  }

  /** The collaborators are those of the mode: a process that observes is composed with an applier and a
      keyword writer that do nothing, and archives receipts without saving them; one that acts, with the
      real ones. */
  predicate InMode(env: Tier1.Env, observe: bool) {
    env.observe == observe
    && (env.receipts.Some? ==> env.receipts.value.observe == observe && env.receipts.value.dryRun == observe)
  }

  predicate FreshChange(mail: Log, c: Change) {
    c.Created? ==>
      c.message.id != "" && forall i | 0 <= i < |mail| :: mail[i].Created? ==> mail[i].message.id != c.message.id
  }

  ghost predicate CanTake(setup: Setup, s: State, p: Proc, t: Turn) {
    match t
    case EnterLoop => p.pc.Head?
    case WriteEvent(_) => p.pc.Draining? && p.pc.captured != []
    case PassGate => p.pc.Gate? || (p.pc.Draining? && p.pc.captured == [])
    case Wake => p.pc.Sleeping?
    case PollFails => p.pc.Polling?
    case Poll(upTo, legs, batch) => p.pc.Polling? && PollResult(s.mail, Fetch(p.cursor, upTo, legs, batch))
    case Begin(env, _) => p.pc.Handling? && p.pc.work.todo != [] && InMode(env, p.observe)
    case CommitNext => p.pc.Running? && p.pc.run.rest != []
    case Finish => p.pc.Running? && p.pc.run.rest == [] && !p.pc.run.phase.BetweenTiers?
    case BeginTier2(env3) => p.pc.Running? && p.pc.run.phase.BetweenTiers? && env3.tier2.config == setup.config
    case CheckBudget(_, _, _) => p.pc.Checking?
    case Ack => p.pc.Acking? || (p.pc.Handling? && p.pc.work.todo == [])
    case _ => true
  }

  ghost predicate Enabled(setup: Setup, s: State, a: Act) {
    match a
    case Start(_, _) => s.proc.None?
    case Arrive(c) => FreshChange(s.mail, c)
    case Take(t) => s.proc.Some? && CanTake(setup, s, s.proc.value, t)
  }

  /** What the run has committed so far. */
  function Committed(s: State, run: MessageRun): seq<Effect> {
    if run.began <= |s.log| then s.log[run.began..] else []
  }

  /** The Tier 1 verdict of the run is to escalate. */
  predicate Escalates(phase: Phase) {
    match phase
    case InTier1(verdict) => verdict.Ok? && verdict.value.Some? && verdict.value.value.action.kind == Escalate
    case _ => true
  }

  /** The run, as one that ends here. */
  function EndOf(s: State, run: MessageRun, finished: bool): EndedRun {
    EndedRun(run.message.id, Committed(s, run), finished, Escalates(run.phase), run.observed)
  }

  function InHand(s: State, finished: bool): seq<EndedRun> {
    if s.proc.Some? && s.proc.value.pc.Running? then [EndOf(s, s.proc.value.pc.run, finished)] else []
  }

  /** All runs of all messages, the one in hand included. */
  function AllRuns(s: State): seq<EndedRun> {
    s.runs + InHand(s, false)
  }

  function Captured(pc: Pc): seq<PlaneEvent> {
    if pc.Draining? then pc.captured else []
  }

  /** The process is gone, with everything in its memory; no run is in hand. */
  function Gone(s: State): State
    requires s.proc.Some?
  {
    var p := s.proc.value;
    s.(proc := None, lives := s.lives + [Life(p.born, |s.log|, p.observe, p.enqueued, Captured(p.pc) + p.pending)])
  }

  /** The same, at any point. */
  function Down(s: State): State
    requires s.proc.Some?
  {
    Gone(s).(runs := AllRuns(s))
  }

  function At(s: State, p: Proc, pc: Pc): State {
    s.(proc := Some(p.(pc := pc)))
  }

  function Log1(s: State, e: Effect): State {
    s.(log := s.log + [e])
  }

  /** Start: the cursor is read from the database, everything else is fresh. */
  function Born(setup: Setup, s: State, rules: seq<Rule>, observe: bool): Proc {
    var cursor := CursorOf(DbOf(setup, s), setup.account);
    Proc(observe, false, [], rules, cursor, None, false, Head, None, [], [], [], |s.log|)
  }

  /** The handlers enqueue an audit event in the same step as they set the flag. */
  function Enqueue(p: Proc, paused: bool, e: PlaneEvent): Proc {
    p.(paused := paused, pending := p.pending + [e], enqueued := p.enqueued + [e])
  }

  function NeedsTier2(run: MessageRun): bool {
    !run.observed && run.phase.InTier1? && Escalates(run.phase)
  }

  function RaisedIn(phase: Phase): bool {
    (phase.InTier1? && phase.verdict.Raised?) || (phase.InTier2? && phase.result.Raised?)
  }

  /** After a message's run: an exception ends the process, an escalation goes on to Tier 2, a Tier 2
      run is followed by the budget check, anything else by the next message. */
  function AfterRun(s: State, p: Proc, run: MessageRun, work: Work): State
    requires s.proc == Some(p)
  {
    if RaisedIn(run.phase) then Down(s)
    else if NeedsTier2(run) then At(s, p, Running(run.(phase := BetweenTiers), work))
    else
      At(s.(runs := s.runs + InHand(s, true)), p, if run.phase.InTier2? then Checking(work) else Handling(work))
  }

  function BudgetSpent(setup: Setup, s: State, date: string): bool {
    !Tier2.HasBudget(DbOf(setup, s), date, setup.config.budget)
  }

  /** At most one alert per date: the guard is the date of the last alert. The date is noted before
      the alert goes out, and an alerter that raises ends the process. */
  function AfterCheck(setup: Setup, s: State, p: Proc, work: Work, now: string, id: string, alerter: Option<Exn>): State
    requires s.proc == Some(p)
  {
    var today := DateOf(now);
    var q := p.(pc := Handling(work));
    if !BudgetSpent(setup, s, today) then s.(proc := Some(q))
    else if p.alertDate == Some(today) then s.(proc := Some(q.(spent := p.spent + [today])))
    else
      var alerted := s.(
        log := s.log + [Alerted(id, "Daily LLM budget exhausted", Critical)],
        proc := Some(q.(
          alertDate := Some(today), spent := p.spent + [today], alerted := p.alerted + [|p.spent|])));
      if alerter.Some? then Down(alerted) else alerted
  }

  function Capture(s: State, p: Proc): State
    requires s.proc == Some(p)
  {
    if p.stopping then Gone(s)
    else if p.pending == [] then At(s, p, Gate)
    else At(s, p.(pending := []), Draining(p.pending))
  }

  function StartRun(
    setup: Setup, s: State, p: Proc, work: Work, env: Tier1.Env, classifier: Option<Outcome<string>>): State
    requires s.proc == Some(p) && work.todo != []
  {
    if p.stopping then Gone(s)
    else
      var m := work.todo[0];
      var x := Tier1.Process(env, false, DbOf(setup, s), m, work.rules, setup.unmatched, classifier);
      At(s, p, Running(MessageRun(m, p.observe, InTier1(x.out), x.effects, |s.log|), work.(todo := work.todo[1..])))
  }

  function StartTier2(setup: Setup, s: State, p: Proc, run: MessageRun, work: Work, env3: Escalate.Env3): State {
    var y := Escalate.EscalateMessage(env3, DbOf(setup, s), run.message);
    At(s, p, Running(run.(phase := InTier2(y.out), rest := y.effects), work))
  }

  function Acknowledge(setup: Setup, s: State, p: Proc, c: Cursor, pc: Pc): State {
    At(Log1(s, CursorSet(setup.account, c)).(
        first := if s.first.None? then Some(c) else s.first,
        acked := if p.fetch.Some? then s.acked + [p.fetch.value] else s.acked), p, pc)
  }

  ghost function After(setup: Setup, s: State, p: Proc, t: Turn): State
    requires s.proc == Some(p) && CanTake(setup, s, p, t)
  {
    match t
    case Crash => Down(s)
    case RequestStop => s.(proc := Some(p.(stopping := true)))
    case CallPause => s.(proc := Some(Enqueue(p, true, DaemonPaused)))
    case CallResume => s.(proc := Some(Enqueue(p, false, DaemonResumed)))
    case CallReload(rules) => s.(proc := Some(p.(rules := rules)))
    case EnterLoop => Capture(s, p)
    case WriteEvent(ts) =>
      At(Log1(s, AuditWritten(ts, "", EventName(p.pc.captured[0]), None)), p, Draining(p.pc.captured[1..]))
    case PassGate => At(s, p, if p.paused then Sleeping else Polling)
    case Wake => At(s, p, Head)
    case PollFails => Down(s)
    case Poll(upTo, legs, batch) =>
      At(s, p.(cursor := Some(upTo), fetch := Some(Fetch(p.cursor, upTo, legs, batch))),
        if batch == [] then Acking(upTo) else Handling(Work(batch, p.rules, upTo)))
    case Begin(env, classifier) => StartRun(setup, s, p, p.pc.work, env, classifier)
    case CommitNext =>
      At(Log1(s, p.pc.run.rest[0]), p, Running(p.pc.run.(rest := p.pc.run.rest[1..]), p.pc.work))
    case Finish => AfterRun(s, p, p.pc.run, p.pc.work)
    case BeginTier2(env3) => StartTier2(setup, s, p, p.pc.run, p.pc.work, env3)
    case CheckBudget(now, id, alerter) => AfterCheck(setup, s, p, p.pc.work, now, id, alerter)
    case Ack =>
      if p.pc.Acking? then Acknowledge(setup, s, p, p.pc.checkpoint, Sleeping)
      else Acknowledge(setup, s, p, p.pc.work.checkpoint, Head)
  }

  ghost function Next(setup: Setup, s: State, a: Act): State
    requires Enabled(setup, s, a)
  {
    match a
    case Start(rules, observe) => s.(proc := Some(Born(setup, s, rules, observe)))
    case Arrive(c) => s.(mail := s.mail + [c])
    case Take(t) => After(setup, s, s.proc.value, t)
  }

  /** The beginning: a database, some mail, and no process. */
  ghost predicate Initial(setup: Setup, s: State) {
    && s.log == [] && s.proc.None? && s.acked == [] && s.runs == [] && s.lives == []
    && s.first == CursorOf(setup.found, setup.account)
    && ProperIds(s.mail)
    && (s.first.Some? ==> s.first.value <= |s.mail|)
  }

  /** The states a run `acts` passes through: `s` is where it ends. */
  ghost predicate Reaches(setup: Setup, from: State, acts: seq<Act>, s: State)
    decreases |acts|
  {
    if acts == [] then s == from
    else Enabled(setup, from, acts[0]) && Reaches(setup, Next(setup, from, acts[0]), acts[1..], s)
  }

  ghost predicate Reachable(setup: Setup, s: State) {
    exists from, acts :: Initial(setup, from) && Reaches(setup, from, acts, s)
  }
}
