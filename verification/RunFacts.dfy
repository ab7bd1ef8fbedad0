/** What one message's run may do, tier by tier: facts about every prefix of its effects, which are
    what a crash can leave behind. */
module RunFacts {
  import opened Model
  import opened StateDb
  import opened Pipelines
  import opened Tier1
  import opened Tier2
  import opened Escalate
  import Receipts
  import RuleEngine

  /** Effects that a run for message `id` may have. */
  predicate About(e: Effect, id: string) {
    match e
    case AuditWritten(_, j, _, _) => j == id
    case Marked(j, _) => j == id
    case ActionCalled(j, _) => j == id
    case DraftCreated(j, _) => j == id
    case KeywordsApplied(j, _) => j == id
    case PdfSaved(j) => j == id
    case CursorSet(_, _) => false
    case Traced(_, _, _) => false
    case _ => true
  }

  /** An audit entry for `id` stands before position `k`. */
  ghost predicate AuditedBefore(es: seq<Effect>, id: string, k: nat) {
    exists j | 0 <= j < k <= |es| :: es[j].AuditWritten? && es[j].jmapId == id
  }

  /** All about `id`, every mark after an audit entry, at most one call of the applier and one model
      call, and a model call is recorded at once, under its own date, or it is the last effect. */
  ghost predicate Disciplined(es: seq<Effect>, id: string) {
    && (forall i | 0 <= i < |es| :: About(es[i], id))
    && (forall i | 0 <= i < |es| && es[i].Marked? :: AuditedBefore(es, id, i))
    && (forall i, j | 0 <= i < j < |es| && es[i].ActionCalled? :: !es[j].ActionCalled?)
    && (forall i, j | 0 <= i < j < |es| && es[i].LlmReturned? :: !es[j].LlmReturned?)
    && (forall i | 0 <= i < |es| && es[i].CallRecorded? :: i > 0 && Settles(es[i - 1], es[i]))
    && (forall i | 0 <= i < |es| - 1 && es[i].LlmReturned? :: Settles(es[i], es[i + 1]))
  }

  predicate Settles(call: Effect, record: Effect) {
    call.LlmReturned? && record.CallRecorded? && call.date == record.date
  }

  /** The last effect is a model call that is not recorded. */
  predicate Unsettled(es: seq<Effect>) {
    |es| > 0 && es[|es| - 1].LlmReturned?
  }

  predicate Quiet(es: seq<Effect>) {
    forall i | 0 <= i < |es| :: es[i].Alerted? || es[i].AuditWritten?
  }

  predicate Marks(es: seq<Effect>, id: string) {
    exists i | 0 <= i < |es| :: es[i].Marked? && es[i].jmapId == id
  }

  predicate CallsApplier(es: seq<Effect>) {
    exists i | 0 <= i < |es| :: es[i].ActionCalled?
  }

  predicate CreatesDraft(es: seq<Effect>) {
    exists i | 0 <= i < |es| :: es[i].DraftCreated?
  }

  predicate Records(es: seq<Effect>, date: string) {
    exists i | 0 <= i < |es| :: es[i].CallRecorded? && es[i].date == date
  }

  lemma {:induction false} MarkedIsIn(db: Db, es: seq<Effect>, id: string)
    requires Marks(es, id)
    ensures id in Replay(db, es).processed
    decreases |es|
  {
    var i :| 0 <= i < |es| && es[i].Marked? && es[i].jmapId == id;
    if i == 0 {
      ProcessedGrows(Commit(db, es[0]), es[1..]);
    } else {
      assert es[1..][i - 1] == es[i];
      MarkedIsIn(Commit(db, es[0]), es[1..], id);
    }
  }

  // ----- Runs that close with an audit entry and a mark -----

  /** A piece of work for `id` before its records are written. */
  predicate Preparing(e: Effect, id: string) {
    About(e, id) && !e.CallRecorded? && !e.LlmReturned? && !e.Marked?
  }

  /** The end of a Tier 2 run: if it returns, its last two effects are the audit entry and the mark;
      if it raises, there is no mark. */
  ghost predicate Closing(s: Step<()>, id: string) {
    var n := |s.effects|;
    && (forall i | 0 <= i < n - 2 :: Preparing(s.effects[i], id))
    && (s.out.Ok? ==> n >= 2 && s.effects[n - 2].AuditWritten? && s.effects[n - 1].Marked?
                      && About(s.effects[n - 2], id) && About(s.effects[n - 1], id))
    && (s.out.Raised? ==> forall i | 0 <= i < n :: Preparing(s.effects[i], id))
  }

  lemma ChainCloses(a: Step<()>, b: Step<()>, id: string)
    requires (forall e | e in a.effects :: Preparing(e, id)) && Closing(b, id)
    ensures Closing(Chain(a, b), id)
    ensures forall i | 0 <= i < |Chain(a, b).effects| && Chain(a, b).effects[i].ActionCalled? ::
              i < |a.effects| || (i - |a.effects| < |b.effects| && b.effects[i - |a.effects|].ActionCalled?)
  {
    var c := Chain(a, b);
    if a.out.Ok? {
      var n := |a.effects|;
      forall i | 0 <= i < |c.effects| - 2 ensures Preparing(c.effects[i], id) {
        assert c.effects[i] == if i < n then a.effects[i] else b.effects[i - n];
      }
    }
  }

  predicate NeverActs(s: Step<()>) {
    forall i | 0 <= i < |s.effects| :: !s.effects[i].ActionCalled?
  }

  /** The effects of a run: a model call and its record, if any, then a closing part that calls the
      applier first or not at all. */
  ghost predicate Attempted<T>(s: Step<T>, asked: seq<Effect>, rest: Step<()>, id: string) {
    && s.effects == asked + rest.effects && (s.out.Ok? <==> rest.out.Ok?)
    && Closing(rest, id)
    && |asked| <= 2
    && (|asked| > 0 ==> asked[0].LlmReturned?)
    && (|asked| == 1 ==> rest.effects == [] && s.out == Raised(NegativeTokens))
    && (|asked| > 1 ==> Settles(asked[0], asked[1]))
    && forall i | 0 <= i < |rest.effects| && rest.effects[i].ActionCalled? :: i == 0
  }

  ghost predicate AttemptFacts<T>(s: Step<T>, id: string) {
    && Disciplined(s.effects, id)
    && (s.out.Ok? ==> Marks(s.effects, id)) && (s.out.Raised? ==> !Marks(s.effects, id))
    && (Unsettled(s.effects) ==> s.out == Raised(NegativeTokens))
  }

  lemma ClosingElements(rest: Step<()>, id: string, i: nat)
    requires Closing(rest, id) && i < |rest.effects|
    ensures var e := rest.effects[i];
            && About(e, id) && !e.CallRecorded? && !e.LlmReturned?
            && (e.Marked? ==>
                  && rest.out.Ok? && i == |rest.effects| - 1 && i > 0
                  && rest.effects[i - 1].AuditWritten? && rest.effects[i - 1].jmapId == id)
  {}

  lemma AttemptedFacts<T>(s: Step<T>, asked: seq<Effect>, rest: Step<()>, id: string)
    requires Attempted(s, asked, rest, id)
    ensures AttemptFacts(s, id)
  {
    var n, es := |asked|, s.effects;
    forall i | 0 <= i < |es|
      ensures About(es[i], id)
      ensures es[i].Marked? ==> AuditedBefore(es, id, i) && rest.out.Ok?
      ensures es[i].ActionCalled? ==> i == n
      ensures es[i].LlmReturned? ==> i == 0 && (|es| > 1 ==> Settles(es[0], es[1]))
      ensures es[i].CallRecorded? ==> i == 1 && Settles(es[0], es[1])
    {
      if i < n {
        assert es[i] == asked[i] && es[0] == asked[0];
        assert n > 1 ==> es[1] == asked[1];
      } else {
        assert es[i] == rest.effects[i - n];
        ClosingElements(rest, id, i - n);
        if es[i].Marked? {
          assert es[i - 1] == rest.effects[i - n - 1];
        }
      }
    }
    if s.out.Ok? {
      ClosingElements(rest, id, |rest.effects| - 1);
      assert es[|es| - 1] == rest.effects[|rest.effects| - 1];
    }
  }

  // ----- Tier 1 -----

  lemma ArchiveEffects(parts: Receipts.Parts, db: Db, m: Message, ts: string)
    ensures forall i | 0 <= i < |Receipts.Archive(parts, db, m, ts).effects| ::
              var e := Receipts.Archive(parts, db, m, ts).effects[i];
              Preparing(e, m.id) && !e.ActionCalled?
  {}

  lemma RecordedIsClosing<T>(work: Step<T>, audit: Effect, mark: Effect, id: string)
    requires forall i | 0 <= i < |work.effects| :: Preparing(work.effects[i], id)
    requires forall i | 0 <= i < |work.effects| && work.effects[i].ActionCalled? :: i == 0
    requires audit.AuditWritten? && mark.Marked? && About(audit, id) && About(mark, id)
    ensures var s := Recorded(work, [audit, mark]);
            Closing(s, id) && forall i | 0 <= i < |s.effects| && s.effects[i].ActionCalled? :: i == 0
  {
    var s := Recorded(work, [audit, mark]);
    var n := |work.effects|;
    forall i | 0 <= i < |s.effects|
      ensures i < n ==> Preparing(s.effects[i], id) && (s.effects[i].ActionCalled? ==> i == 0)
      ensures i >= n ==> s.effects[i] == [audit, mark][i - n]
    {
      if i < n { assert s.effects[i] == work.effects[i]; }
    }
  }

  lemma RecordedCloses<T>(work: Step<T>, audit: Effect, mark: Effect, id: string)
    requires forall i | 0 <= i < |work.effects| :: Preparing(work.effects[i], id)
    requires forall i | 0 <= i < |work.effects| && work.effects[i].ActionCalled? :: i == 0
    requires audit.AuditWritten? && mark.Marked? && About(audit, id) && About(mark, id)
    ensures AttemptFacts(Recorded(work, [audit, mark]), id) && !Unsettled(Recorded(work, [audit, mark]).effects)
  {
    var s := Recorded(work, [audit, mark]);
    RecordedIsClosing(work, audit, mark, id);
    assert s.effects == [] + s.effects;
    AttemptedFacts(s, [], s, id);
  }

  /** What happens once the rules have given `v`. */
  ghost predicate HandledWell(h: Step<()>, id: string, k: ActionType) {
    && Disciplined(h.effects, id)
    && (h.out.Ok? && k != Escalate ==> Marks(h.effects, id))
    && (h.out.Raised? || k == Escalate ==> !Marks(h.effects, id))
    && (k == Escalate ==> Quiet(h.effects))
    && !Unsettled(h.effects)
    && (h.out.Ok? && k == Escalate ==> AuditedBefore(h.effects, id, |h.effects|))
  }

  lemma EscalateHandled(env: Env, db: Db, m: Message, v: RuleVerdict)
    requires v.action.kind == Escalate
    ensures HandledWell(Handle(env, db, m, v), m.id, Escalate)
  {
    var h := Handle(env, db, m, v);
    if h.out.Ok? {
      assert h.effects[|h.effects| - 1] == AuditOf(env, m, "escalated_pending_tier2", None);
    }
  }

  lemma HandleFacts(env: Env, db: Db, m: Message, v: RuleVerdict)
    ensures HandledWell(Handle(env, db, m, v), m.id, v.action.kind)
  {
    match v.action.kind
    case Escalate => EscalateHandled(env, db, m, v);
    case ArchiveReceipt =>
      if env.receipts.Some? {
        ArchiveEffects(env.receipts.value, db, m, env.now);
        var r := Receipts.Archive(env.receipts.value, db, m, env.now);
        var detail := if r.out.Ok? then r.out.value.company + " " + r.out.value.date else "";
        RecordedCloses(r, AuditOf(env, m, "receipt_archived", Some(detail)), MarkOf(env, m, v), m.id);
      }
    case _ =>
      RecordedCloses(Execute(env.observe, env.applier, m.id, v.action),
        AuditOf(env, m, "action_applied", Some(ActionDetail(v.action.kind))), MarkOf(env, m, v), m.id);
  }

  /** What one gated message's Tier 1 run `x` on the database `db` did, by how it ended. */
  ghost predicate Tier1Ran(x: Step<Option<RuleVerdict>>, db: Db, id: string) {
    && Disciplined(x.effects, id) && !Unsettled(x.effects)
    && (id in db.processed <==> x.out == Ok(None))
    && (id in db.processed ==> x.effects == [])
    && match x.out
       case Ok(Some(v)) =>
         if v.action.kind == Escalate then Quiet(x.effects) && AuditedBefore(x.effects, id, |x.effects|)
         else Marks(x.effects, id)
       case Ok(None) => true
       case Raised(_) => !Marks(x.effects, id)
  }

  lemma Tier1Facts(
    env: Env, db: Db, m: Message, rules: seq<Rule>, unmatched: Action, classifier: Option<Outcome<string>>)
    ensures Tier1Ran(Process(env, false, db, m, rules, unmatched, classifier), db, m.id)
  {
    if m.id !in db.processed {
      var e := RuleEngine.Evaluate(m, rules, unmatched, classifier);
      if e.Ok? {
        HandleFacts(env, db, m, e.value);
      }
    }
  }

  lemma HandleNeverRecords(env: Env, db: Db, m: Message, v: RuleVerdict)
    ensures forall d :: !Records(Handle(env, db, m, v).effects, d)
  {
    if v.action.kind == ArchiveReceipt && env.receipts.Some? {
      ArchiveEffects(env.receipts.value, db, m, env.now);
    }
  }

  /** Tier 1 never touches the model's account. */
  lemma Tier1NeverRecords(
    env: Env, db: Db, m: Message, rules: seq<Rule>, unmatched: Action, classifier: Option<Outcome<string>>)
    ensures forall d :: !Records(Process(env, false, db, m, rules, unmatched, classifier).effects, d)
  {
    hide RuleEngine.Evaluate, Handle;
    var e := RuleEngine.Evaluate(m, rules, unmatched, classifier);
    if e.Ok? {
      HandleNeverRecords(env, db, m, e.value);
    }
  }

  // ----- What the mode decides -----

  /** Effects that change the mailbox, or put something where its owner finds it. */
  predicate Mutates(e: Effect) {
    e.ActionCalled? || e.DraftCreated? || e.KeywordsApplied? || e.PdfSaved?
  }

  ghost predicate Harmless(es: seq<Effect>) {
    forall i | 0 <= i < |es| :: !Mutates(es[i])
  }

  /** Collaborators as an observing process is given them. */
  predicate Observing(env: Env) {
    env.observe && (env.receipts.Some? ==> env.receipts.value.observe && env.receipts.value.dryRun)
  }

  lemma ObservedArchive(parts: Receipts.Parts, db: Db, m: Message, ts: string)
    requires parts.observe && parts.dryRun
    ensures Harmless(Receipts.Archive(parts, db, m, ts).effects)
  {}

  lemma ObservedHandle(env: Env, db: Db, m: Message, v: RuleVerdict)
    requires Observing(env)
    ensures Harmless(Handle(env, db, m, v).effects)
  {
    if v.action.kind == ArchiveReceipt && env.receipts.Some? {
      ObservedArchive(env.receipts.value, db, m, env.now);
    }
  }

  /** A process that observes changes nothing, whatever its rules say; */
  lemma ObserversAreHarmless(
    env: Env, force: bool, db: Db, m: Message, rules: seq<Rule>, unmatched: Action,
    classifier: Option<Outcome<string>>)
    requires Observing(env)
    ensures Harmless(Process(env, force, db, m, rules, unmatched, classifier).effects)
  {
    hide RuleEngine.Evaluate, Handle;
    var e := RuleEngine.Evaluate(m, rules, unmatched, classifier);
    if e.Ok? {
      ObservedHandle(env, db, m, e.value);
    }
  }

  /** The action is one that is done by calling the applier: terminal, no `ignore`, and with the mailbox that a
      move or a tag needs. */
  predicate Applies(a: Action) {
    match a.kind
    case Move => a.mailbox.Some?
    case Tag => a.mailbox.Some?
    case _ => false
  }

  lemma AppliedWhenHandled(env: Env, db: Db, m: Message, v: RuleVerdict)
    ensures CallsApplier(Handle(env, db, m, v).effects) <==> !env.observe && Applies(v.action)
    ensures Applies(v.action) && !env.observe ==>
              var es := Handle(env, db, m, v).effects; es != [] && es[0] == ActionCalled(m.id, v.action)
  {
    if v.action.kind == ArchiveReceipt && env.receipts.Some? {
      ArchiveEffects(env.receipts.value, db, m, env.now);
    }
    if Applies(v.action) && !env.observe {
      assert Handle(env, db, m, v).effects[0].ActionCalled?;
    }
  }

  /** and one that acts calls the applier, before anything else and with the rules' own action, exactly if that is
      a move or a tag with its mailbox, for a message that gets past the gate. */
  lemma AppliesExactly(
    env: Env, force: bool, db: Db, m: Message, rules: seq<Rule>, unmatched: Action,
    classifier: Option<Outcome<string>>)
    ensures var es, e := Process(env, force, db, m, rules, unmatched, classifier).effects,
                         RuleEngine.Evaluate(m, rules, unmatched, classifier);
            && (CallsApplier(es) <==>
                  && !env.observe && (force || m.id !in db.processed)
                  && e.Ok? && Applies(e.value.action))
            && (CallsApplier(es) ==> es[0] == ActionCalled(m.id, e.value.action))
  {
    hide RuleEngine.Evaluate, Handle;
    var e := RuleEngine.Evaluate(m, rules, unmatched, classifier);
    if e.Ok? {
      AppliedWhenHandled(env, db, m, e.value);
    }
  }

  /** The last two effects are these. */
  ghost predicate EndsIn(es: seq<Effect>, audit: Effect, mark: Effect) {
    |es| >= 2 && es[|es| - 2] == audit && es[|es| - 1] == mark
  }

  /** How a handled message is left on record: an action audited and marked by its name, a receipt with its company
      and date; an escalation only audited, after the alert if it asks for one. */
  ghost predicate OnRecord(env: Env, db: Db, m: Message, v: RuleVerdict, es: seq<Effect>) {
    var kind := match v.action.kind
                case Move => "move"
                case Tag => "tag"
                case Ignore => "ignore"
                case ArchiveReceipt => "archive_receipt"
                case Escalate => "";
    var mark := Marked(m.id, ProcessedRow(m.threadId, "tier1", None, Some(kind), env.now));
    match v.action.kind
    case Escalate =>
      var alert := Alerted(env.newId, "Escalated: " + AlertReason(v), Normal);
      var audit := AuditWritten(env.now, m.id, "escalated_pending_tier2", None);
      es == if v.action.alertImmediately then [alert, audit] else [audit]
    case ArchiveReceipt =>
      && env.receipts.Some?
      && var r := Receipts.Archive(env.receipts.value, db, m, env.now).out;
      && r.Ok?
      && EndsIn(es,
           AuditWritten(env.now, m.id, "receipt_archived", Some(r.value.company + " " + r.value.date)), mark)
    case _ =>
      EndsIn(es,
        AuditWritten(env.now, m.id, "action_applied", Some("{\"action_type\": \"" + kind + "\"}")), mark)
  }

  lemma HandledIsOnRecord(env: Env, db: Db, m: Message, v: RuleVerdict)
    ensures var h := Handle(env, db, m, v); h.out.Ok? ==> OnRecord(env, db, m, v, h.effects)
  {
    hide Receipts.Archive;
  }

  /** A Tier 1 run that returns a verdict has left its message on record. */
  lemma Tier1IsOnRecord(
    env: Env, force: bool, db: Db, m: Message, rules: seq<Rule>, unmatched: Action,
    classifier: Option<Outcome<string>>)
    ensures var x := Process(env, force, db, m, rules, unmatched, classifier);
            x.out.Ok? && x.out.value.Some? ==> OnRecord(env, db, m, x.out.value.value, x.effects)
  {
    hide RuleEngine.Evaluate, Handle, OnRecord;
    var e := RuleEngine.Evaluate(m, rules, unmatched, classifier);
    if e.Ok? {
      HandledIsOnRecord(env, db, m, e.value);
    }
  }

  // ----- Tier 2 -----

  lemma DraftCloses(
    env: Env2, m: Message, reply: Option<string>, v: Option<Verdict>, event: string, detail: Option<string>)
    ensures var s := Chain(Draft(env.drafter, m.id, reply), Tier2.Records(env, m, v, event, detail));
            Closing(s, m.id) && NeverActs(s)
  {
    ChainCloses(Draft(env.drafter, m.id, reply), Tier2.Records(env, m, v, event, detail), m.id);
  }

  lemma AlertCloses(alert: Step<()>, rest: Step<()>, id: string)
    requires Closing(rest, id) && NeverActs(rest)
    requires forall i | 0 <= i < |alert.effects| :: alert.effects[i].Alerted?
    ensures Closing(Chain(alert, rest), id) && NeverActs(Chain(alert, rest))
  {
    var c, n := Chain(alert, rest), |alert.effects|;
    ChainCloses(alert, rest, id);
    forall i | 0 <= i < |c.effects| ensures !c.effects[i].ActionCalled? {
      if i < n { assert c.effects[i] == alert.effects[i]; } else { assert c.effects[i] == rest.effects[i - n]; }
    }
  }

  lemma DecideFacts(env: Env2, m: Message, v: Verdict, band: Band)
    ensures var d := Decide(env, m, v, band);
            Closing(d, m.id) && forall i | 0 <= i < |d.effects| && d.effects[i].ActionCalled? :: i == 0
  {
    if band == AlertOnly {
      AlertOnlyFacts(env, m, v);
    } else {
      ActFacts(env, m, v, band);
    }
  }

  lemma AlertOnlyFacts(env: Env2, m: Message, v: Verdict)
    ensures var d := Decide(env, m, v, AlertOnly);
            Closing(d, m.id) && forall i | 0 <= i < |d.effects| && d.effects[i].ActionCalled? :: i == 0
  {
    var event, detail := "tier2_alert_only_no_action", Some("{" + BandDetail(v, Some(AlertOnly)));
    DraftCloses(env, m, v.draftReply, Some(v), event, detail);
    AlertCloses(Notify(env.alerter, env.newId, "Needs review: " + v.category, AlertUrgencyOf(v.urgency)),
      Chain(Draft(env.drafter, m.id, v.draftReply), Tier2.Records(env, m, Some(v), event, detail)), m.id);
  }

  lemma ActFacts(env: Env2, m: Message, v: Verdict, band: Band)
    requires band != AlertOnly
    ensures var d := Decide(env, m, v, band);
            Closing(d, m.id) && forall i | 0 <= i < |d.effects| && d.effects[i].ActionCalled? :: i == 0
  {
    var event, detail := "tier2_action_applied", Some(ActedDetail(v, Some(band)));
    var records := Chain(Draft(env.drafter, m.id, v.draftReply), Tier2.Records(env, m, Some(v), event, detail));
    DraftCloses(env, m, v.draftReply, Some(v), event, detail);
    var alert := if AlertsWhenActing(v, Some(band))
                 then Notify(env.alerter, env.newId, "Action taken: " + v.category, AlertUrgencyOf(v.urgency))
                 else Step([], Ok(()));
    AlertCloses(alert, records, m.id);
    ChainCloses(Execute(false, env.applier, m.id, v.suggested), Chain(alert, records), m.id);
  }

  lemma SkipFacts(env: Env2, m: Message)
    ensures Closing(Skip(env, m), m.id) && NeverActs(Skip(env, m))
  {
    var alert := Notify(env.alerter, env.newId, "Tier 2 skipped: daily budget exhausted", Critical);
    AlertCloses(alert, Tier2.Records(env, m, None, "tier2_budget_exhausted", None), m.id);
  }

  lemma SkippedFacts(env: Env2, m: Message, s: Step<Option<Verdict>>)
    requires var skip := Skip(env, m); s.effects == skip.effects && (s.out.Ok? <==> skip.out.Ok?)
    ensures AttemptFacts(s, m.id) && forall d :: !Records(s.effects, d)
  {
    SkipFacts(env, m);
    ClosedFacts(s, Skip(env, m), m.id);
  }

  /** A run without a model call. */
  lemma ClosedFacts<T>(s: Step<T>, rest: Step<()>, id: string)
    requires Closing(rest, id) && NeverActs(rest) && s.effects == rest.effects && (s.out.Ok? <==> rest.out.Ok?)
    ensures AttemptFacts(s, id) && forall d :: !Records(s.effects, d)
  {
    assert [] + s.effects == s.effects;
    AttemptedFacts(s, [], rest, id);
    forall i | 0 <= i < |s.effects| ensures !s.effects[i].CallRecorded? {
      ClosingElements(rest, id, i);
    }
  }

  lemma WeighAttempts(env: Env2, m: Message, mailboxes: seq<string>, request: Request, r: LlmResult)
    ensures AttemptFacts(Weigh(env, m, mailboxes, request, r), m.id)
  {
    var date := DateOf(env.now);
    var returned := LlmReturned(date, request);
    var w := Weigh(env, m, mailboxes, request, r);
    if r.tokensIn < 0 || r.tokensOut < 0 {
      AttemptedFacts(w, [returned], Step([], Raised(NegativeTokens)), m.id);
    } else {
      var called := [returned, CallRecorded(date, r.tokensIn, r.tokensOut)];
      var band := ConfidenceBand(r.verdict.confidence, env.config.alertThreshold, env.config.autoactThreshold);
      if ValidVerdict(r.verdict, env.config.categories, mailboxes) && band.Ok? {
        DecideFacts(env, m, r.verdict, band.value);
        AttemptedFacts(w, called, Decide(env, m, r.verdict, band.value), m.id);
      } else {
        assert called + [] == called;
        AttemptedFacts(w, called, Step([], Raised(VerdictInvalid)), m.id);
      }
    }
  }

  lemma Process2Facts(env: Env2, db: Db, m: Message, r: Resolved)
    ensures var s := Process2(env, db, m, r);
            && AttemptFacts(s, m.id)
            && (forall d | Records(s.effects, d) :: d == DateOf(env.now) && HasBudget(db, d, env.config.budget))
            && (s.out == Ok(None) ==> !HasBudget(db, DateOf(env.now), env.config.budget))
  {
    if !HasBudget(db, DateOf(env.now), env.config.budget) {
      SkippedFacts(env, m, Process2(env, db, m, r));
    } else if env.context.Ok? && env.llm.Ok? {
      var request := RequestFor(Start2(m, r).meta, env.config, m.body, env.context.value);
      WeighAttempts(env, m, r.mailboxes, request, env.llm.value);
      WeighRecords(env, m, r.mailboxes, request, env.llm.value);
    }
  }

  lemma WeighRecords(env: Env2, m: Message, mailboxes: seq<string>, request: Request, r: LlmResult)
    ensures forall d | Records(Weigh(env, m, mailboxes, request, r).effects, d) :: d == DateOf(env.now)
  {
    var band := ConfidenceBand(r.verdict.confidence, env.config.alertThreshold, env.config.autoactThreshold);
    if r.tokensIn >= 0 && r.tokensOut >= 0 && band.Ok? {
      DecideNeverRecords(env, m, r.verdict, band.value);
    }
  }

  lemma DecideNeverRecords(env: Env2, m: Message, v: Verdict, band: Band)
    ensures forall i | 0 <= i < |Decide(env, m, v, band).effects| :: !Decide(env, m, v, band).effects[i].CallRecorded?
  {
    DecideFacts(env, m, v, band);
    forall i | 0 <= i < |Decide(env, m, v, band).effects|
      ensures !Decide(env, m, v, band).effects[i].CallRecorded?
    {
      ClosingElements(Decide(env, m, v, band), m.id, i);
    }
  }

  // ----- The quarantine boundary -----

  lemma QuarantineDisciplined(a: seq<Effect>, q: seq<Effect>, id: string)
    requires Disciplined(a, id) && !Marks(a, id) && !Unsettled(a)
    requires |q| == 3 && q[0].AuditWritten? && q[1].Marked? && q[2].Alerted? && About(q[0], id) && About(q[1], id)
    ensures Disciplined(a + q, id)
  {
    var n, es := |a|, a + q;
    assert es[n] == q[0] && es[n + 1] == q[1] && es[n + 2] == q[2] && |es| == n + 3;
    assert forall i | 0 <= i < n :: es[i] == a[i];
    assert AuditedBefore(es, id, n + 1);
    forall i | 0 <= i < n ensures !a[i].Marked? { assert About(a[i], id); }
  }

  lemma QuarantinedFacts(env: Env3, m: Message, a: seq<Effect>, e: Exn)
    requires Disciplined(a, m.id) && !Marks(a, m.id) && !Unsettled(a)
    ensures var es := a + Quarantine(env, m, e).effects;
            && Disciplined(es, m.id) && Marks(es, m.id)
            && (CallsApplier(es) <==> CallsApplier(a)) && (CreatesDraft(es) <==> CreatesDraft(a))
            && (forall d | Records(es, d) :: Records(a, d)) && !Unsettled(es)
  {
    var q, n := Quarantine(env, m, e).effects, |a|;
    var es := a + q;
    QuarantineDisciplined(a, q, m.id);
    assert es[n] == q[0] && es[n + 1] == q[1] && es[n + 2] == q[2] && |es| == n + 3;
    assert forall i | 0 <= i < n :: es[i] == a[i];
    assert es[n + 1].Marked? && es[n + 1].jmapId == m.id;
  }

  /** One escalated message: disciplined throughout; if the call returns, whatever it returns, the
      message is marked; and a model call is recorded only on the run's own date, with budget left. */
  lemma EscalateFacts(env: Env3, db: Db, m: Message)
    ensures var s := EscalateMessage(env, db, m);
            && Disciplined(s.effects, m.id)
            && (s.out.Ok? ==> Marks(s.effects, m.id) && !Unsettled(s.effects))
            && (forall d | Records(s.effects, d) ::
                  d == DateOf(env.tier2.now) && HasBudget(db, d, env.tier2.config.budget))
  {
    var a := Attempt(env, db, m);
    AttemptIsDisciplined(env, db, m);
    if a.out.Raised? && Quarantinable(a.out.exn) {
      QuarantinedFacts(env, m, a.effects, a.out.exn);
    }
  }

  lemma AttemptIsDisciplined(env: Env3, db: Db, m: Message)
    ensures var a := Attempt(env, db, m);
            && AttemptFacts(a, m.id)
            && (forall d | Records(a.effects, d) ::
                  d == DateOf(env.tier2.now) && HasBudget(db, d, env.tier2.config.budget))
  {
    if env.thread.Ok? && env.mailboxes.Ok? {
      Process2Facts(env.tier2, db, m, ResolvedFor(env, m));
    }
  }

  // ----- When quarantined mail has been acted on -----

  /** A failure that ends in quarantine. */
  predicate Caught<T>(out: Outcome<T>) {
    out.Raised? && Quarantinable(out.exn)
  }

  /** A collaborator that raises one of the quarantined errors itself. */
  predicate Wild(e: Option<Exn>) {
    e.Some? && Quarantinable(e.value)
  }

  /** The executor takes the action: terminal, and with the mailbox it needs. */
  predicate Takes(a: Action) {
    a.kind !in {Escalate, ArchiveReceipt} && (NeedsMailbox(a.kind) ==> a.mailbox.Some?)
  }

  /** The collaborators before the drafter all return. */
  predicate ReachesDraft(env: Env2, v: Verdict, band: Band) {
    if band == AlertOnly then env.alerter.None?
    else
      && Takes(v.suggested)
      && (v.suggested.kind == Ignore || env.applier.None?)
      && (AlertsWhenActing(v, Some(band)) ==> env.alerter.None?)
  }

  /** A draft is created and creating it fails. */
  predicate DraftsThenFails(env: Env2, v: Verdict, band: Band) {
    ReachesDraft(env, v, band) && v.draftReply.Some? && Wild(env.drafter)
  }

  /** The applier is called, and it or a collaborator after it fails. */
  predicate ActsThenFails(env: Env2, v: Verdict, band: Band) {
    && band != AlertOnly && Takes(v.suggested) && v.suggested.kind != Ignore
    && (|| Wild(env.applier)
        || (env.applier.None? && AlertsWhenActing(v, Some(band)) && Wild(env.alerter))
        || DraftsThenFails(env, v, band))
  }

  lemma ConcatCalls(a: seq<Effect>, b: seq<Effect>)
    ensures CallsApplier(a + b) <==> CallsApplier(a) || CallsApplier(b)
    ensures CreatesDraft(a + b) <==> CreatesDraft(a) || CreatesDraft(b)
  {
    assert forall i | 0 <= i < |a| :: (a + b)[i] == a[i];
    assert forall i | 0 <= i < |b| :: (a + b)[|a| + i] == b[i];
  }

  lemma ChainCalls<T>(a: Step<()>, b: Step<T>)
    ensures Caught(Chain(a, b).out) <==> Caught(a.out) || (a.out.Ok? && Caught(b.out))
    ensures CallsApplier(Chain(a, b).effects) <==> CallsApplier(a.effects) || (a.out.Ok? && CallsApplier(b.effects))
    ensures CreatesDraft(Chain(a, b).effects) <==> CreatesDraft(a.effects) || (a.out.Ok? && CreatesDraft(b.effects))
  {
    ConcatCalls(a.effects, b.effects);
  }

  lemma DraftCalls(env: Env2, m: Message, v: Verdict, event: string, detail: Option<string>)
    ensures var d := Chain(Draft(env.drafter, m.id, v.draftReply), Tier2.Records(env, m, Some(v), event, detail));
            && !CallsApplier(d.effects) && (CreatesDraft(d.effects) <==> v.draftReply.Some?)
            && (Caught(d.out) <==> v.draftReply.Some? && Wild(env.drafter))
  {
    var a := Draft(env.drafter, m.id, v.draftReply);
    ChainCalls(a, Tier2.Records(env, m, Some(v), event, detail));
    if v.draftReply.Some? {
      assert a.effects[0].DraftCreated?;
    }
  }

  lemma ExecuteCalls(env: Env2, m: Message, v: Verdict)
    ensures var a := Execute(false, env.applier, m.id, v.suggested);
            && (CallsApplier(a.effects) <==> Takes(v.suggested) && v.suggested.kind != Ignore)
            && !CreatesDraft(a.effects)
            && (a.out.Ok? <==> Takes(v.suggested) && (v.suggested.kind == Ignore || env.applier.None?))
            && (Takes(v.suggested) ==> (Caught(a.out) <==> v.suggested.kind != Ignore && Wild(env.applier)))
  {
    var a := Execute(false, env.applier, m.id, v.suggested);
    if Takes(v.suggested) && v.suggested.kind != Ignore {
      assert a.effects[0].ActionCalled?;
    }
  }

  /** The outcome branches: when they fail with a caught error after the action, or after a draft. */
  lemma DecideUnclean(env: Env2, m: Message, v: Verdict, band: Band)
    ensures var d := Decide(env, m, v, band);
            && (Caught(d.out) && CallsApplier(d.effects) <==> ActsThenFails(env, v, band))
            && (Caught(d.out) && CreatesDraft(d.effects) <==> DraftsThenFails(env, v, band))
  {
    if band == AlertOnly {
      var event, detail := "tier2_alert_only_no_action", Some("{" + BandDetail(v, Some(band)));
      var rest := Chain(Draft(env.drafter, m.id, v.draftReply), Tier2.Records(env, m, Some(v), event, detail));
      DraftCalls(env, m, v, event, detail);
      ChainCalls(Notify(env.alerter, env.newId, "Needs review: " + v.category, AlertUrgencyOf(v.urgency)), rest);
    } else {
      var event, detail := "tier2_action_applied", Some(ActedDetail(v, Some(band)));
      var rest := Chain(Draft(env.drafter, m.id, v.draftReply), Tier2.Records(env, m, Some(v), event, detail));
      var alert := if AlertsWhenActing(v, Some(band))
                   then Notify(env.alerter, env.newId, "Action taken: " + v.category, AlertUrgencyOf(v.urgency))
                   else Step([], Ok(()));
      DraftCalls(env, m, v, event, detail);
      ChainCalls(alert, rest);
      ExecuteCalls(env, m, v);
      ChainCalls(Execute(false, env.applier, m.id, v.suggested), Chain(alert, rest));
    }
  }

  /** The answer is recorded, valid and banded. */
  predicate Weighed(env: Env2, mailboxes: seq<string>, r: LlmResult, band: Band) {
    && r.tokensIn >= 0 && r.tokensOut >= 0
    && ValidVerdict(r.verdict, env.config.categories, mailboxes)
    && ConfidenceBand(r.verdict.confidence, env.config.alertThreshold, env.config.autoactThreshold) == Ok(band)
  }

  lemma WeighUnclean(env: Env2, m: Message, mailboxes: seq<string>, request: Request, r: LlmResult)
    ensures var w := Weigh(env, m, mailboxes, request, r);
            && (Caught(w.out) && CallsApplier(w.effects) <==>
                  exists b :: Weighed(env, mailboxes, r, b) && ActsThenFails(env, r.verdict, b))
            && (Caught(w.out) && CreatesDraft(w.effects) <==>
                  exists b :: Weighed(env, mailboxes, r, b) && DraftsThenFails(env, r.verdict, b))
  {
    var band := ConfidenceBand(r.verdict.confidence, env.config.alertThreshold, env.config.autoactThreshold);
    if r.tokensIn >= 0 && r.tokensOut >= 0 && ValidVerdict(r.verdict, env.config.categories, mailboxes) && band.Ok? {
      var date := DateOf(env.now);
      var called := [LlmReturned(date, request), CallRecorded(date, r.tokensIn, r.tokensOut)];
      DecideUnclean(env, m, r.verdict, band.value);
      ConcatCalls(called, Decide(env, m, r.verdict, band.value).effects);
      assert Weighed(env, mailboxes, r, band.value);
    }
  }

  /** The run asks the model and weighs its answer in the band `b`. */
  predicate Lands(env: Env3, db: Db, b: Band) {
    && env.thread.Ok? && env.mailboxes.Ok?
    && HasBudget(db, DateOf(env.tier2.now), env.tier2.config.budget)
    && env.tier2.context.Ok? && env.tier2.llm.Ok?
    && Weighed(env.tier2, env.mailboxes.value, env.tier2.llm.value, b)
  }

  lemma AttemptUnclean(env: Env3, db: Db, m: Message)
    ensures var a := Attempt(env, db, m);
            && (Caught(a.out) && CallsApplier(a.effects) <==>
                  exists b :: Lands(env, db, b) && ActsThenFails(env.tier2, env.tier2.llm.value.verdict, b))
            && (Caught(a.out) && CreatesDraft(a.effects) <==>
                  exists b :: Lands(env, db, b) && DraftsThenFails(env.tier2, env.tier2.llm.value.verdict, b))
  {
    if env.thread.Ok? && env.mailboxes.Ok? {
      var r := ResolvedFor(env, m);
      if !HasBudget(db, DateOf(env.tier2.now), env.tier2.config.budget) {
        SkipCalls(env.tier2, m);
      } else if env.tier2.context.Ok? && env.tier2.llm.Ok? {
        var request := RequestFor(Start2(m, r).meta, env.tier2.config, m.body, env.tier2.context.value);
        WeighUnclean(env.tier2, m, r.mailboxes, request, env.tier2.llm.value);
        assert forall b :: Lands(env, db, b) <==> Weighed(env.tier2, r.mailboxes, env.tier2.llm.value, b);
      }
    }
  }

  lemma SkipCalls(env: Env2, m: Message)
    ensures !CallsApplier(Skip(env, m).effects) && !CreatesDraft(Skip(env, m).effects)
  {
    ChainCalls(Notify(env.alerter, env.newId, "Tier 2 skipped: daily budget exhausted", Critical),
      Tier2.Records(env, m, None, "tier2_budget_exhausted", None));
  }

  /** A quarantined message is always marked. The applier was called for it if and only if a verdict was
      reached that acts, and the applier itself, or the alert or the draft after it, raised one of the
      quarantined errors; and a draft exists if and only if creating it raised one. */
  lemma QuarantineUncleanExactly(env: Env3, db: Db, m: Message)
    ensures var s := EscalateMessage(env, db, m);
            var quarantined := s.out.Ok? && s.out.value.Quarantined?;
            && (quarantined ==> Marks(s.effects, m.id))
            && (quarantined && CallsApplier(s.effects) <==>
                  && env.quarantineAlerter.None?
                  && exists b :: Lands(env, db, b) && ActsThenFails(env.tier2, env.tier2.llm.value.verdict, b))
            && (quarantined && CreatesDraft(s.effects) <==>
                  && env.quarantineAlerter.None?
                  && exists b :: Lands(env, db, b) && DraftsThenFails(env.tier2, env.tier2.llm.value.verdict, b))
  {
    hide Lands, ActsThenFails, DraftsThenFails, Attempt, CallsApplier, CreatesDraft, Marks, Disciplined, Unsettled;
    var a := Attempt(env, db, m);
    AttemptIsDisciplined(env, db, m);
    AttemptUnclean(env, db, m);
    if Caught(a.out) {
      QuarantinedFacts(env, m, a.effects, a.out.exn);
    }
  }

  /** One family of those runs: a backend that rejects a move after being asked for it. */
  lemma QuarantineAfterAnAction(env: Env3, db: Db, m: Message, b: Band)
    requires Lands(env, db, b) && b != AlertOnly && env.quarantineAlerter.None?
    requires env.tier2.llm.value.verdict.suggested.kind == Move
    requires env.tier2.llm.value.verdict.suggested.mailbox.Some?
    requires env.tier2.applier == Some(ActionRejected(ByBackend))
    ensures EscalateMessage(env, db, m).out.Ok? && EscalateMessage(env, db, m).out.value.Quarantined?
    ensures CallsApplier(EscalateMessage(env, db, m).effects)
  {
    QuarantineUncleanExactly(env, db, m);
    assert ActsThenFails(env.tier2, env.tier2.llm.value.verdict, b);
  }

  // ----- What the executor refuses -----

  predicate RefusesKind(e: Exn) {
    e == ActionRejected(CannotEscalate) || e == ActionRejected(CannotArchive)
  }

  predicate Innocent(e: Option<Exn>) {
    e.Some? ==> !RefusesKind(e.value)
  }

  lemma DecideRefusesNoKind(env: Env2, m: Message, v: Verdict, band: Band)
    requires WellShaped(v) && Innocent(env.applier) && Innocent(env.drafter) && Innocent(env.alerter)
    ensures Decide(env, m, v, band).out.Raised? ==> !RefusesKind(Decide(env, m, v, band).out.exn)
  {}

  lemma WeighRefusesNoKind(env: Env2, m: Message, mailboxes: seq<string>, request: Request, r: LlmResult)
    requires WellShaped(r.verdict) && Innocent(env.applier) && Innocent(env.drafter) && Innocent(env.alerter)
    ensures var w := Weigh(env, m, mailboxes, request, r); w.out.Raised? ==> !RefusesKind(w.out.exn)
  {
    var v := r.verdict;
    var band := ConfidenceBand(v.confidence, env.config.alertThreshold, env.config.autoactThreshold);
    if band.Ok? {
      DecideRefusesNoKind(env, m, v, band.value);
    }
  }

  /** A verdict that fits the schema never reaches the executor with an action it refuses for its kind:
      such a refusal can only be a collaborator's own. */
  lemma Tier2RefusesNoKind(env: Env2, db: Db, m: Message, r: Resolved)
    requires Innocent(env.applier) && Innocent(env.drafter) && Innocent(env.alerter)
    requires (env.context.Raised? ==> !RefusesKind(env.context.exn)) && (env.llm.Raised? ==> !RefusesKind(env.llm.exn))
    requires env.llm.Ok? ==> WellShaped(env.llm.value.verdict)
    ensures var out := Run(Build2(env), db, Start2(m, r)).out; out.Raised? ==> !RefusesKind(out.exn)
  {
    Pipeline2IsProcess2(env, db, m, r);
    if env.context.Ok? && env.llm.Ok? {
      WeighRefusesNoKind(env, m, r.mailboxes, RequestFor(Start2(m, r).meta, env.config, m.body, env.context.value),
        env.llm.value);
    }
  }
}
