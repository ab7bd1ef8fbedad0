/** What the message loop is proved against: what handler calls leave behind, and what becomes of one
    message, given what the surroundings answer. */
module LoopSpec {
  import opened Model
  import opened StateDb
  import opened Daemon
  import opened RunFacts
  import opened Pipelines
  import opened Jmap
  import RuleEngine
  import Tier1
  import Escalate

  datatype IpcCall = PauseCall | ResumeCall | ReloadCall(loaded: Option<seq<Rule>>) | StatusCall | StopSignal

  /** What the surroundings do, by the number of the await at which they do it: handler calls that
      run there, the clock, new ids, push events, and what the collaborators answer. */
  datatype Surroundings = Surroundings(
    calls: nat -> seq<IpcCall>, now: nat -> string, newId: nat -> string, push: nat -> seq<PushEvent>,
    tier1: nat -> Tier1.Env, classifier: nat -> Option<Outcome<string>>, tier2: nat -> Escalate.Env3,
    alerter: nat -> Option<Exn>)

  // ----- Handler calls -----

  /** What the loop and the handlers share, as far as handlers change it. */
  datatype Shared = Shared(paused: bool, pending: seq<PlaneEvent>, rules: seq<Rule>, stopping: bool)

  /** At the start of a process. */
  function Fresh(rules: seq<Rule>): Shared {
    Shared(false, [], rules, false)
  }

  function Answer(call: IpcCall, s: Shared): Shared {
    match call
    case PauseCall => s.(paused := true, pending := s.pending + [DaemonPaused])
    case ResumeCall => s.(paused := false, pending := s.pending + [DaemonResumed])
    case ReloadCall(loaded) => if loaded.Some? then s.(rules := loaded.value) else s
    case StatusCall => s
    case StopSignal => s.(stopping := true)
  }

  lemma Follows(call: IpcCall, s: Shared, t: Shared)
    requires call.PauseCall? ==> t == s.(paused := true, pending := s.pending + [DaemonPaused])
    requires call.ResumeCall? ==> t == s.(paused := false, pending := s.pending + [DaemonResumed])
    requires call.ReloadCall? ==> t == s.(rules := if call.loaded.Some? then call.loaded.value else s.rules)
    requires call.StatusCall? ==> t == s
    requires call.StopSignal? ==> t == s.(stopping := true)
    ensures t == Answer(call, s)
  {}

  /** The calls' handlers, one after another. */
  function AnswerAll(calls: seq<IpcCall>, s: Shared): Shared {
    if calls == [] then s else Answer(calls[|calls| - 1], AnswerAll(calls[..|calls| - 1], s))
  }

  /** The calls made at the `n` awaits from number `k` on. */
  function CallsAt(calls: nat -> seq<IpcCall>, k: nat, n: nat): seq<IpcCall> {
    if n == 0 then [] else CallsAt(calls, k, n - 1) + calls(k + n - 1)
  }

  lemma OneMoreCall(calls: seq<IpcCall>, call: IpcCall, s: Shared)
    ensures AnswerAll(calls + [call], s) == Answer(call, AnswerAll(calls, s))
  {
    assert (calls + [call])[..|calls|] == calls;
  }

  lemma {:induction false} AnswersJoin(a: seq<IpcCall>, b: seq<IpcCall>, s: Shared)
    ensures AnswerAll(a + b, s) == AnswerAll(b, AnswerAll(a, s))
    decreases |b|
  {
    if b == [] {
      assert a + b == a;
    } else {
      assert (a + b)[..|a + b| - 1] == a + b[..|b| - 1] && (a + b)[|a + b| - 1] == b[|b| - 1];
      AnswersJoin(a, b[..|b| - 1], s);
    }
  }

  /** The pause and resume events of the calls, in order. */
  function EventsOf(calls: seq<IpcCall>): seq<PlaneEvent> {
    if calls == [] then []
    else
      EventsOf(calls[..|calls| - 1])
      + match calls[|calls| - 1]
        case PauseCall => [DaemonPaused]
        case ResumeCall => [DaemonResumed]
        case _ => []
  }

  /** All calls together: each pause and resume has its event, in order, after what was pending; the flag is
      what the last of them makes it; the rules are those last loaded; and only a stop makes it stop. */
  lemma {:induction false} AnswersExactly(calls: seq<IpcCall>, s: Shared)
    ensures var t, es := AnswerAll(calls, s), EventsOf(calls);
            && t.pending == s.pending + es
            && (t.paused <==> if es == [] then s.paused else es[|es| - 1] == DaemonPaused)
            && (t.stopping <==> s.stopping || StopSignal in calls)
            && ((forall c | c in calls && c.ReloadCall? :: c.loaded.None?) ==> t.rules == s.rules)
  {
    if calls != [] {
      var before, last := calls[..|calls| - 1], calls[|calls| - 1];
      AnswersExactly(before, s);
      assert calls == before + [last];
      assert s.pending + EventsOf(before) + [DaemonPaused] == s.pending + (EventsOf(before) + [DaemonPaused]);
      assert s.pending + EventsOf(before) + [DaemonResumed] == s.pending + (EventsOf(before) + [DaemonResumed]);
    }
  }

  /** The flag is what it was unless somebody calls for the other. */
  lemma {:induction false} FlagStays(calls: nat -> seq<IpcCall>, k: nat, n: nat, s: Shared)
    requires forall j | k <= j < k + n :: (if s.paused then ResumeCall else PauseCall) !in calls(j)
    ensures AnswerAll(CallsAt(calls, k, n), s).paused == s.paused
    decreases n
  {
    if n > 0 {
      FlagStays(calls, k, n - 1, s);
      AnswersJoin(CallsAt(calls, k, n - 1), calls(k + n - 1), s);
      FlagStaysBy(calls(k + n - 1), AnswerAll(CallsAt(calls, k, n - 1), s));
    }
  }

  lemma {:induction false} FlagStaysBy(calls: seq<IpcCall>, s: Shared)
    requires (if s.paused then ResumeCall else PauseCall) !in calls
    ensures AnswerAll(calls, s).paused == s.paused
  {
    if calls != [] {
      FlagStaysBy(calls[..|calls| - 1], s);
    }
  }

  lemma {:induction false} AwaitsJoin(calls: nat -> seq<IpcCall>, m: nat, n: nat)
    ensures CallsAt(calls, 0, m + n) == CallsAt(calls, 0, m) + CallsAt(calls, m, n)
    decreases n
  {
    if n > 0 {
      AwaitsJoin(calls, m, n - 1);
    }
  }

  /** Between two awaits it is what it was at the first, unless somebody calls for the other in between. */
  lemma FlagLater(calls: nat -> seq<IpcCall>, m: nat, n: nat, s: Shared)
    requires m <= n
    requires var flag := AnswerAll(CallsAt(calls, 0, m), s).paused;
             forall j | m <= j < n :: (if flag then ResumeCall else PauseCall) !in calls(j)
    ensures AnswerAll(CallsAt(calls, 0, n), s).paused == AnswerAll(CallsAt(calls, 0, m), s).paused
  {
    hide AnswerAll, CallsAt;
    AwaitsJoin(calls, m, n - m);
    AnswersJoin(CallsAt(calls, 0, m), CallsAt(calls, m, n - m), s);
    FlagStays(calls, m, n - m, AnswerAll(CallsAt(calls, 0, m), s));
  }

  lemma NobodyAnswered(s: Shared)
    ensures AnswerAll([], s) == s
  {}

  lemma MoreAwaits(calls: nat -> seq<IpcCall>, n: nat)
    ensures CallsAt(calls, 0, n + 1) == CallsAt(calls, 0, n) + calls(n)
  {}

  lemma NoAwaitsYet(calls: nat -> seq<IpcCall>)
    ensures CallsAt(calls, 0, 0) == []
  {}

  lemma NoCallsYet(calls: nat -> seq<IpcCall>, k: nat, s: Shared)
    ensures AnswerAll(CallsAt(calls, k, 0), s) == s
  {}

  lemma MoreCalls(calls: nat -> seq<IpcCall>, k: nat, n: nat, s: Shared)
    ensures AnswerAll(CallsAt(calls, k, n + 1), s) == AnswerAll(calls(k + n), AnswerAll(CallsAt(calls, k, n), s))
  {
    hide AnswerAll;
    AnswersJoin(CallsAt(calls, k, n), calls(k + n), s);
  }

  /** The audit entries of the events, one at each await from number `k` on. */
  function EntriesAt(now: nat -> string, k: nat, es: seq<PlaneEvent>): seq<Effect> {
    if es == [] then []
    else EntriesAt(now, k, es[..|es| - 1]) + [EntryAt(now(k + |es| - 1), es[|es| - 1])]
  }

  // ----- The database only gains -----

  /** Nothing that was processed or audited is lost. */
  ghost predicate Grown(was: Db, now: Db) {
    was.processed.Keys <= now.processed.Keys && was.audit <= now.audit
  }

  lemma {:induction false} ReplayGrows(db: Db, es: seq<Effect>)
    ensures Grown(db, Replay(db, es))
    decreases |es|
  {
    if es != [] {
      ReplayGrows(Commit(db, es[0]), es[1..]);
    }
  }

  lemma {:induction false} ReplayKeepsCursors(db: Db, es: seq<Effect>)
    requires forall i | 0 <= i < |es| :: !es[i].CursorSet?
    ensures Replay(db, es).cursors == db.cursors
    decreases |es|
  {
    if es != [] {
      ReplayKeepsCursors(Commit(db, es[0]), es[1..]);
    }
  }

  lemma {:induction false} AuditedIsIn(db: Db, es: seq<Effect>, i: nat)
    requires i < |es| && es[i].AuditWritten?
    ensures AuditRow(es[i].ts, es[i].jmapId, es[i].event, es[i].detail) in Replay(db, es).audit
    decreases |es|
  {
    if i == 0 {
      var next := Commit(db, es[0]);
      assert next.audit[|db.audit|] in next.audit;
      ReplayGrows(next, es[1..]);
    } else {
      AuditedIsIn(Commit(db, es[0]), es[1..], i - 1);
    }
  }

  function EntryAt(now: string, e: PlaneEvent): Effect {
    AuditWritten(now, "", if e.DaemonPaused? then "daemon_paused" else "daemon_resumed", None)
  }

  lemma NoEntriesYet(now: nat -> string, k: nat, db: Db)
    ensures EntriesAt(now, k, []) == [] && Replay(db, EntriesAt(now, k, [])) == db
  {}

  lemma MoreEntries(now: nat -> string, k: nat, es: seq<PlaneEvent>, e: PlaneEvent, db: Db)
    ensures EntriesAt(now, k, es + [e]) == EntriesAt(now, k, es) + [EntryAt(now(k + |es|), e)]
    ensures Replay(db, EntriesAt(now, k, es + [e]))
         == Commit(Replay(db, EntriesAt(now, k, es)), EntryAt(now(k + |es|), e))
  {
    hide Commit;
    assert (es + [e])[..|es|] == es;
    ReplayAppend(db, EntriesAt(now, k, es), EntryAt(now(k + |es|), e));
  }

  lemma NoEffects(db: Db)
    ensures Replay(db, []) == db
  {}

  lemma {:induction false} EntriesAreRows(now: nat -> string, k: nat, es: seq<PlaneEvent>)
    ensures forall i | 0 <= i < |EntriesAt(now, k, es)| :: EntriesAt(now, k, es)[i].AuditWritten?
  {
    if es != [] {
      EntriesAreRows(now, k, es[..|es| - 1]);
    }
  }

  /** Writing what was pending loses nothing and moves no cursor. */
  lemma DrainedOnly(now: nat -> string, k: nat, es: seq<PlaneEvent>, db: Db)
    ensures var after := Replay(db, EntriesAt(now, k, es)); Grown(db, after) && after.cursors == db.cursors
  {
    EntriesAreRows(now, k, es);
    ReplayGrows(db, EntriesAt(now, k, es));
    ReplayKeepsCursors(db, EntriesAt(now, k, es));
  }

  // ----- One message -----

  /** Collaborators as they are composed for the mode. */
  function ForMode(env: Tier1.Env, observe: bool): (r: Tier1.Env)
    ensures InMode(r, observe) && (InMode(env, observe) ==> r == env)
    ensures r.(observe := env.observe, receipts := env.receipts) == env && r.receipts.Some? == env.receipts.Some?
    ensures r.receipts.Some? ==>
              r.receipts.value.(observe := env.receipts.value.observe, dryRun := env.receipts.value.dryRun)
                == env.receipts.value
  {
    env.(observe := observe, receipts :=
      if env.receipts.None? then None else Some(env.receipts.value.(observe := observe, dryRun := observe)))
  }

  /** The fixed and the given of one process life. */
  datatype Given = Given(setup: Setup, around: Surroundings, observe: bool)

  function Tier1At(g: Given, k: nat, db: Db, m: Message, rules: seq<Rule>): Pipelines.Step<Option<RuleVerdict>> {
    Tier1.Process(ForMode(g.around.tier1(k), g.observe), false, db, m, rules, g.setup.unmatched, g.around.classifier(k))
  }

  function Tier2At(g: Given, k: nat, db: Db, m: Message): Pipelines.Step<Escalate.Escalated> {
    var env := g.around.tier2(k);
    Escalate.EscalateMessage(env.(tier2 := env.tier2.(config := g.setup.config)), db, m)
  }

  /** The budget check after Tier 2, at a time, with the date of the last alert. */
  function CheckAt(g: Given, k: nat, db: Db, alerted: Option<string>): Pipelines.Step<()> {
    var today := DateOf(g.around.now(k));
    if alerted == Some(today) || UsageOn(db, today).calls < g.setup.config.budget then Step([], Ok(()))
    else
      Step([Alerted(g.around.newId(k), "Daily LLM budget exhausted", Critical)],
        if g.around.alerter(k).Some? then Raised(g.around.alerter(k).value) else Ok(()))
  }

  /** A message, from await `k` on: Tier 1; if that escalates in a life that acts, Tier 2; and then the budget
      check. */
  function Treated(g: Given, k: nat, db: Db, m: Message, rules: seq<Rule>, alerted: Option<string>)
    : Pipelines.Step<()>
  {
    var x := Tier1At(g, k, db, m, rules);
    if x.out.Raised? then Step(x.effects, Raised(x.out.exn))
    else if g.observe || x.out.value.None? || x.out.value.value.action.kind != Escalate then Step(x.effects, Ok(()))
    else
      var y := Tier2At(g, k + 1, Replay(db, x.effects), m);
      var done := x.effects + y.effects;
      if y.out.Raised? then Step(done, Raised(y.out.exn))
      else
        var c := CheckAt(g, k + 2, Replay(db, done), alerted);
        Step(done + c.effects, c.out)
  }

  lemma TreatedInParts(g: Given, k: nat, db: Db, m: Message, rules: seq<Rule>, alerted: Option<string>)
    ensures var t, x := Treated(g, k, db, m, rules, alerted), Tier1At(g, k, db, m, rules);
            if x.out.Raised? || g.observe || x.out.value.None? || x.out.value.value.action.kind != Escalate then
              t.effects == x.effects && t.out == if x.out.Raised? then Raised(x.out.exn) else Ok(())
            else
              var y := Tier2At(g, k + 1, Replay(db, x.effects), m);
              var c := CheckAt(g, k + 2, Replay(db, x.effects + y.effects), alerted);
              && t.effects == (if y.out.Raised? then x.effects + y.effects else x.effects + y.effects + c.effects)
              && t.out == if y.out.Raised? then Raised(y.out.exn) else c.out
  {
    hide Tier1At, Tier2At, CheckAt, Replay;
  }

  /** The message is processed; or, in a life that observes, audited as an escalation. */
  ghost predicate SettledIn(db: Db, id: string, observe: bool) {
    || id in db.processed
    || (observe && exists row :: row in db.audit && row.jmapId == id && row.event == "escalated_pending_tier2")
  }

  lemma StaysGrown(a: Db, b: Db, c: Db)
    requires Grown(a, b) && Grown(b, c)
    ensures Grown(a, c)
  {}

  lemma CursorsAside(was: Db, now: Db)
    requires now == was.(cursors := now.cursors)
    ensures Grown(was, now)
  {}

  lemma GrownAtFirst(db: Db)
    ensures Grown(db, db)
  {}

  lemma StaysSettled(was: Db, now: Db, id: string, observe: bool)
    requires SettledIn(was, id, observe) && Grown(was, now)
    ensures SettledIn(now, id, observe)
  {}

  lemma EscalationAudited(env: Tier1.Env, db: Db, m: Message, v: RuleVerdict)
    requires v.action.kind == Escalate
    ensures var h := Tier1.Handle(env, db, m, v);
            h.out.Ok? ==>
              var n := |h.effects|;
              n > 0 && h.effects[n - 1] == AuditWritten(env.now, m.id, "escalated_pending_tier2", None)
  {}

  lemma Tier1Settles(g: Given, k: nat, db: Db, m: Message, rules: seq<Rule>)
    ensures var x := Tier1At(g, k, db, m, rules);
            && Tier1Ran(x, db, m.id)
            && (x.out.Ok? && !(x.out.value.Some? && x.out.value.value.action.kind == Escalate && !g.observe) ==>
                  SettledIn(Replay(db, x.effects), m.id, g.observe))
  {
    var env, classifier := ForMode(g.around.tier1(k), g.observe), g.around.classifier(k);
    var x := Tier1At(g, k, db, m, rules);
    Tier1Facts(env, db, m, rules, g.setup.unmatched, classifier);
    hide Disciplined, Quiet, AuditedBefore, RuleEngine.Evaluate;
    if x.out.Ok? && x.out.value.Some? {
      var v := x.out.value.value;
      if v.action.kind != Escalate {
        MarkedIsIn(db, x.effects, m.id);
      } else if g.observe {
        EscalationAudited(env, db, m, v);
        AuditedIsIn(db, x.effects, |x.effects| - 1);
      }
    }
  }

  /** When the loop is done with a message, that is settled; and no cursor has been set on the way. */
  lemma TreatedSettles(g: Given, k: nat, db: Db, m: Message, rules: seq<Rule>, alerted: Option<string>)
    ensures var t := Treated(g, k, db, m, rules, alerted);
            && (t.out.Ok? ==> SettledIn(Replay(db, t.effects), m.id, g.observe))
            && (forall i | 0 <= i < |t.effects| :: !t.effects[i].CursorSet?)
  {
    var x := Tier1At(g, k, db, m, rules);
    Tier1Settles(g, k, db, m, rules);
    hide Tier1At, Tier2At, CheckAt, SettledIn, Marks, Quiet, AuditedBefore;
    forall i | 0 <= i < |x.effects| ensures !x.effects[i].CursorSet? { assert About(x.effects[i], m.id); }
    if x.out.Ok? && !g.observe && x.out.value.Some? && x.out.value.value.action.kind == Escalate {
      Tier2Settles(g, k, db, m, rules, alerted);
    }
  }

  lemma Tier2Settles(g: Given, k: nat, db: Db, m: Message, rules: seq<Rule>, alerted: Option<string>)
    requires var x := Tier1At(g, k, db, m, rules);
             x.out.Ok? && !g.observe && x.out.value.Some? && x.out.value.value.action.kind == Escalate
    requires var x := Tier1At(g, k, db, m, rules); forall i | 0 <= i < |x.effects| :: !x.effects[i].CursorSet?
    ensures var t := Treated(g, k, db, m, rules, alerted);
            && (t.out.Ok? ==> SettledIn(Replay(db, t.effects), m.id, g.observe))
            && (forall i | 0 <= i < |t.effects| :: !t.effects[i].CursorSet?)
  {
    hide Tier1At, Quiet, AuditedBefore, Escalate.EscalateMessage, Disciplined;
    var es := Tier1At(g, k, db, m, rules).effects;
    var env := g.around.tier2(k + 1);
    EscalateFacts(env.(tier2 := env.tier2.(config := g.setup.config)), Replay(db, es), m);
    var y := Tier2At(g, k + 1, Replay(db, es), m);
    AboutIsNoCursor(y.effects, m.id);
    if y.out.Ok? {
      var c := CheckAt(g, k + 2, Replay(db, es + y.effects), alerted);
      ReplayConcat(db, es, y.effects);
      ReplayConcat(db, es + y.effects, c.effects);
      MarkedIsIn(Replay(db, es), y.effects, m.id);
      ReplayGrows(Replay(db, es + y.effects), c.effects);
    }
  }

  lemma AboutIsNoCursor(es: seq<Effect>, id: string)
    requires Disciplined(es, id)
    ensures forall i | 0 <= i < |es| :: !es[i].CursorSet?
  {
    forall i | 0 <= i < |es| ensures !es[i].CursorSet? { assert About(es[i], id); }
  }
}
