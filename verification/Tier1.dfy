/** The Tier 1 pipeline: idempotency gate, rule evaluation, and the three outcome branches. */
module Tier1 {
  import opened Model
  import opened StateDb
  import opened Pipelines
  import opened Tracing
  import RuleEngine
  import Receipts

  datatype Meta = Meta(
    message: Message, rules: seq<Rule>, unmatched: Action, classifier: Option<Outcome<string>>,
    verdict: Option<RuleVerdict>, ts: Option<string>, correlationId: Option<string>,
    auditEvent: Option<string>, auditDetail: Option<string>)

  /** The collaborators of one run and what they answer in it: the clock, the id generator, what the
      action applier and the alerter raise, if anything, and the receipt components, if configured.
      In observe mode nothing is changed in the mailbox. */
  datatype Env = Env(
    observe: bool, now: string, newId: string, applier: Option<Exn>, alerter: Option<Exn>,
    receipts: Option<Receipts.Parts>)

  // ----- Collaborators -----

  predicate NeedsMailbox(k: ActionType) {
    k == Move || k == Tag
  }

  /** Applies a terminal action, or refuses it; `ignore` never reaches the applier. */
  function Execute(observe: bool, applier: Option<Exn>, id: string, action: Action): Step<()> {
    if action.kind == Escalate then Step([], Raised(ActionRejected(CannotEscalate)))
    else if action.kind == ArchiveReceipt then Step([], Raised(ActionRejected(CannotArchive)))
    else if NeedsMailbox(action.kind) && action.mailbox.None? then Step([], Raised(ActionRejected(NoMailbox)))
    else if action.kind == Ignore || observe then Step([], Ok(()))
    else Step([ActionCalled(id, action)], if applier.Some? then Raised(applier.value) else Ok(()))
  }

  function Notify(alerter: Option<Exn>, correlation: string, title: string, urgency: AlertUrgency): Step<()> {
    Step([Alerted(correlation, title, urgency)], if alerter.Some? then Raised(alerter.value) else Ok(()))
  }

  // ----- Modules -----

  function Missing<R>(field: Field): Step<R> {
    Step([], Raised(MissingMeta(field)))
  }

  function IdempotencyGate(): Selector<Meta> {
    Selector("IdempotencyGateSelector", (db: Db, p: Payload<Meta>) =>
      Step([], Ok(Routed(if p.meta.message.id in db.processed then "skip" else "continue", p))))
  }

  function Timestamp(env: Env): Stage<Meta> {
    Stage("TimestampFilter", FilterStage, (db: Db, p: Payload<Meta>) =>
      Step([], Ok(Payload(p.text, p.meta.(ts := Some(env.now))))))
  }

  function CorrelationId(env: Env): Stage<Meta> {
    Stage("CorrelationIdFilter", FilterStage, (db: Db, p: Payload<Meta>) =>
      Step([], Ok(Payload(p.text, p.meta.(correlationId := Some(env.newId))))))
  }

  function BranchOf(k: ActionType): string {
    if k == Escalate then "escalate" else if k == ArchiveReceipt then "archive_receipt" else "terminal"
  }

  function RuleEvaluation(): Selector<Meta> {
    Selector("RuleEvaluationSelector", (db: Db, p: Payload<Meta>) =>
      var m := p.meta;
      match RuleEngine.Evaluate(m.message, m.rules, m.unmatched, m.classifier)
      case Raised(e) => Step([], Raised(e))
      case Ok(v) => Step([], Ok(Routed(BranchOf(v.action.kind), Payload(p.text, m.(verdict := Some(v)))))))
  }

  function ActionDetail(k: ActionType): string {
    "{\"action_type\": \"" + TypeName(k) + "\"}"
  }

  function ApplyAction(env: Env): Stage<Meta> {
    Stage("ApplyActionFilter", FilterStage, (db: Db, p: Payload<Meta>) =>
      var m := p.meta;
      if m.verdict.None? then Missing(VerdictField)
      else
        var x := Execute(env.observe, env.applier, m.message.id, m.verdict.value.action);
        match x.out
        case Raised(e) => Step(x.effects, Raised(e))
        case Ok(_) => Step(x.effects, Ok(Payload(p.text, m.(
            auditEvent := Some("action_applied"),
            auditDetail := Some(ActionDetail(m.verdict.value.action.kind)))))))
  }

  function RecordEscalation(env: Env): Stage<Meta> {
    Stage("RecordEscalationFilter", FilterStage, (db: Db, p: Payload<Meta>) =>
      var m := p.meta;
      if m.verdict.None? then Missing(VerdictField)
      else
        var done := Payload(p.text, m.(auditEvent := Some("escalated_pending_tier2")));
        var v := m.verdict.value;
        if !v.action.alertImmediately then Step([], Ok(done))
        else if m.correlationId.None? then Missing(CorrelationField)
        else
          var reason := if v.action.reason.Some? && v.action.reason.value != "" then v.action.reason.value
                        else if v.matchedRule.Some? && v.matchedRule.value != "" then v.matchedRule.value
                        else "escalated";
          var a := Notify(env.alerter, m.correlationId.value, "Escalated: " + reason, Normal);
          match a.out
          case Raised(e) => Step(a.effects, Raised(e))
          case Ok(_) => Step(a.effects, Ok(done)))
  }

  function ArchiveReceiptStage(parts: Receipts.Parts): Stage<Meta> {
    Stage("ArchiveReceiptAugment", AugmentStage, (db: Db, p: Payload<Meta>) =>
      var m := p.meta;
      var r := Receipts.Archive(parts, db, m.message, if m.ts.Some? then m.ts.value else "");
      match r.out
      case Raised(e) => Step(r.effects, Raised(e))
      case Ok(e) => Step(r.effects, Ok(Payload(p.text, m.(
          auditEvent := Some("receipt_archived"), auditDetail := Some(e.company + " " + e.date))))))
  }

  function WriteAuditEntry(): Stage<Meta> {
    Stage("WriteAuditEntryFilter", FilterStage, (db: Db, p: Payload<Meta>) =>
      var m := p.meta;
      if m.ts.None? then Missing(TsField)
      else if m.auditEvent.None? then Missing(AuditEventField)
      else Step([AuditWritten(m.ts.value, m.message.id, m.auditEvent.value, m.auditDetail)], Ok(p)))
  }

  function MarkProcessed(): Stage<Meta> {
    Stage("MarkProcessedFilter", FilterStage, (db: Db, p: Payload<Meta>) =>
      var m := p.meta;
      if m.verdict.None? then Missing(VerdictField)
      else if m.ts.None? then Missing(TsField)
      else Step([Marked(m.message.id, ProcessedRow(
             m.message.threadId, "tier1", None, Some(TypeName(m.verdict.value.action.kind)), m.ts.value))], Ok(p)))
  }

  // ----- Composition -----

  function TerminalTree(env: Env): Pipeline<Meta> {
    Pipeline([ApplyAction(env), WriteAuditEntry(), MarkProcessed()], None, map[])
  }

  function EscalateTree(env: Env): Pipeline<Meta> {
    Pipeline([RecordEscalation(env), WriteAuditEntry()], None, map[])
  }

  function ArchiveTree(parts: Receipts.Parts): Pipeline<Meta> {
    Pipeline([ArchiveReceiptStage(parts), WriteAuditEntry(), MarkProcessed()], None, map[])
  }

  function Routes(env: Env): map<string, Pipeline<Meta>> {
    var two := map["terminal" := TerminalTree(env), "escalate" := EscalateTree(env)];
    if env.receipts.None? then two else two["archive_receipt" := ArchiveTree(env.receipts.value)]
  }

  function ProcessTree(env: Env): Pipeline<Meta> {
    Pipeline([Timestamp(env), CorrelationId(env)], Some(RuleEvaluation()), Routes(env))
  }

  const IDENTITY: Pipeline<Meta> := Pipeline([], None, map[])

  /** The tree before tracing; `force` leaves the idempotency gate out altogether. */
  function Tree(env: Env, force: bool): Pipeline<Meta> {
    if force then ProcessTree(env)
    else Pipeline([], Some(IdempotencyGate()), map["skip" := IDENTITY, "continue" := ProcessTree(env)])
  }

  function Correlation(m: Meta): string {
    if m.correlationId.Some? && m.correlationId.value != "" then m.correlationId.value else "-"
  }

  /** Every stage and selector is wrapped for tracing when the pipeline is composed. */
  function Build(env: Env, force: bool): Pipeline<Meta> {
    WrapTree(Tree(env, force), Correlation)
  }

  function Start(m: Message, rules: seq<Rule>, unmatched: Action, classifier: Option<Outcome<string>>): Payload<Meta> {
    Payload("", Meta(m, rules, unmatched, classifier, None, None, None, None, None))
  }

  /** A wrapped stage or selector that returns leaves one more effect: a trace line under the id the message then has,
      or a dash before it has one, with its name, and what kind of stage it is or which branch it chose. */
  lemma TracedUnderTheId(s: Stage<Meta>, c: Selector<Meta>, db: Db, p: Payload<Meta>)
    ensures var r, id := s.run(db, p), p.meta.correlationId;
            var known := if id == None || id == Some("") then "-" else id.value;
            r.out.Ok? ==>
              WrapStage(s, Correlation).run(db, p).effects
                == r.effects + [Traced(known, s.name + " ran", if s.kind == AugmentStage then "augment" else "filter")]
    ensures var r, id := c.select(db, p), p.meta.correlationId;
            var known := if id == None || id == Some("") then "-" else id.value;
            r.out.Ok? ==>
              WrapSelector(c, Correlation).select(db, p).effects
                == r.effects + [Traced(known, c.name + " selected", r.out.value.branch)]
  {}

  // ----- Static wiring -----

  predicate Faulty(e: Option<Exn>) {
    e.Some? && WiringFault(e.value)
  }

  function ExnOf<T>(o: Outcome<T>): Option<Exn> {
    if o.Raised? then Some(o.exn) else None
  }

  /** The fields set in `m`. The classifier's answer counts as set unless it is itself a wiring fault. */
  function Fields(m: Meta): set<Field> {
    (if m.ts.Some? then {TsField} else {}) + (if m.correlationId.Some? then {CorrelationField} else {})
    + (if m.verdict.Some? then {VerdictField} else {}) + (if m.auditEvent.Some? then {AuditEventField} else {})
    + (if m.classifier.Some? && Faulty(ExnOf(m.classifier.value)) then {} else {ClassifierField})
  }

  /** No collaborator raises one of the framework's own two errors. */
  predicate Sane(env: Env) {
    && !Faulty(env.applier) && !Faulty(env.alerter)
    && (env.receipts.Some? ==>
          && !Faulty(env.receipts.value.tagging) && !Faulty(env.receipts.value.archive)
          && !Faulty(ExnOf(env.receipts.value.extraction)))
  }

  const MARKING := Signature({VerdictField, TsField}, {})
  const AUDITING := Signature({TsField, AuditEventField}, {})
  const TERMINAL_PLAN := Plan([Signature({VerdictField}, {AuditEventField}), AUDITING, MARKING], None, {}, map[])
  const ESCALATE_PLAN :=
    Plan([Signature({VerdictField, CorrelationField}, {AuditEventField}), AUDITING], None, {}, map[])
  const ARCHIVE_PLAN := Plan([Signature({}, {AuditEventField}), AUDITING, MARKING], None, {}, map[])

  function RoutePlans(receipts: bool): map<string, Plan> {
    var two := map["terminal" := TERMINAL_PLAN, "escalate" := ESCALATE_PLAN];
    if receipts then two["archive_receipt" := ARCHIVE_PLAN] else two
  }

  const PRELUDE_PLAN := [Signature({}, {TsField}), Signature({}, {CorrelationField})]

  function ProcessPlan(receipts: bool): Plan {
    Plan(PRELUDE_PLAN, Some(Signature({ClassifierField}, {VerdictField})), {"terminal", "escalate", "archive_receipt"},
      RoutePlans(receipts))
  }

  function TreePlan(receipts: bool, force: bool): Plan {
    if force then ProcessPlan(receipts)
    else Plan([], Some(Signature({}, {})), {"skip", "continue"},
           map["skip" := Plan([], None, {}, map[]), "continue" := ProcessPlan(receipts)])
  }

  lemma PreludeDescribed(env: Env)
    ensures StageHonours(Timestamp(env), Signature({}, {TsField}), Fields)
    ensures StageHonours(CorrelationId(env), Signature({}, {CorrelationField}), Fields)
  {}

  lemma RecordingDescribed()
    ensures StageHonours(WriteAuditEntry(), AUDITING, Fields)
    ensures StageHonours(MarkProcessed(), MARKING, Fields)
  {}

  lemma ApplyDescribed(env: Env)
    requires Sane(env)
    ensures StageHonours(ApplyAction(env), Signature({VerdictField}, {AuditEventField}), Fields)
  {}

  lemma TerminalDescribed(env: Env)
    requires Sane(env)
    ensures Describes(TERMINAL_PLAN, TerminalTree(env), Fields)
  {
    ApplyDescribed(env);
    RecordingDescribed();
    hide StageHonours, ApplyAction, WriteAuditEntry, MarkProcessed;
  }

  lemma EventGiven(m: Meta, event: string)
    ensures Fields(m) + {AuditEventField} <= Fields(m.(auditEvent := Some(event)))
  {}

  lemma NeededForEscalation(m: Meta)
    requires {VerdictField, CorrelationField} <= Fields(m)
    ensures m.verdict.Some? && m.correlationId.Some?
  {
    assert VerdictField in Fields(m) && CorrelationField in Fields(m);
  }

  lemma RecordEscalationDescribed(env: Env)
    requires Sane(env)
    ensures StageHonours(RecordEscalation(env), Signature({VerdictField, CorrelationField}, {AuditEventField}), Fields)
  {
    forall db: Db, p: Payload<Meta> | {VerdictField, CorrelationField} <= Fields(p.meta)
      ensures Delivers(Fields, Signature({VerdictField, CorrelationField}, {AuditEventField}), p.meta,
                MetaOf(RecordEscalation(env).run(db, p).out))
    {
      hide Fields;
      NeededForEscalation(p.meta);
      EventGiven(p.meta, "escalated_pending_tier2");
    }
  }

  lemma EscalateDescribed(env: Env)
    requires Sane(env)
    ensures Describes(ESCALATE_PLAN, EscalateTree(env), Fields)
  {
    RecordEscalationDescribed(env);
    RecordingDescribed();
    hide StageHonours, RecordEscalation, WriteAuditEntry, MarkProcessed;
  }

  lemma ArchiveStageDescribed(env: Env)
    requires Sane(env) && env.receipts.Some?
    ensures StageHonours(ArchiveReceiptStage(env.receipts.value), Signature({}, {AuditEventField}), Fields)
  {}

  lemma ArchiveDescribed(env: Env)
    requires Sane(env) && env.receipts.Some?
    ensures Describes(ARCHIVE_PLAN, ArchiveTree(env.receipts.value), Fields)
  {
    ArchiveStageDescribed(env);
    RecordingDescribed();
    hide StageHonours, ArchiveReceiptStage, WriteAuditEntry, MarkProcessed;
  }

  lemma SelectorsDescribed()
    ensures SelectorHonours(IdempotencyGate(), Signature({}, {}), {"skip", "continue"}, Fields)
    ensures SelectorHonours(RuleEvaluation(), Signature({ClassifierField}, {VerdictField}),
              {"terminal", "escalate", "archive_receipt"}, Fields)
  {
    forall db: Db, p: Payload<Meta> | {ClassifierField} <= Fields(p.meta)
      ensures match RuleEvaluation().select(db, p).out
              case Raised(e) => !WiringFault(e)
              case Ok(r) => r.branch in {"terminal", "escalate", "archive_receipt"}
                            && Fields(p.meta) + {VerdictField} <= Fields(r.payload.meta)
    {
      var m := p.meta;
      assert ClassifierField in Fields(m);
      RuleEngine.EvaluateIsFirstMatch(
        m.message, m.rules, m.unmatched, m.classifier, RuleEngine.CategoryOf(m.classifier));
    }
  }

  lemma ProcessTreeDescribed(env: Env)
    requires Sane(env)
    ensures Describes(ProcessPlan(env.receipts.Some?), ProcessTree(env), Fields)
  {
    PreludeDescribed(env);
    SelectorsDescribed();
    TerminalDescribed(env);
    EscalateDescribed(env);
    if env.receipts.Some? {
      ArchiveDescribed(env);
    }
  }

  lemma TreeDescribed(env: Env, force: bool)
    requires Sane(env)
    ensures Describes(TreePlan(env.receipts.Some?, force), Tree(env, force), Fields)
  {
    ProcessTreeDescribed(env);
    SelectorsDescribed();
    assert Describes(Plan([], None, {}, map[]), IDENTITY, Fields);
  }

  lemma ProcessPlanWired(receipts: bool)
    ensures Wired(ProcessPlan(receipts), {ClassifierField}) <==> receipts
  {
    var plan := ProcessPlan(receipts);
    var have := {ClassifierField};
    assert PRELUDE_PLAN == [Signature({}, {TsField})] + ([Signature({}, {CorrelationField})] + []);
    WiredCons(Signature({}, {TsField}), [Signature({}, {CorrelationField})] + [], have);
    WiredCons(Signature({}, {CorrelationField}), [], have + {TsField});
    var had := have + {TsField} + {CorrelationField};
    assert Given(plan.stages, have) == had;
    assert "archive_receipt" in plan.branches;
    OutcomePlansWired(had + {VerdictField});
    forall b | b in plan.routes ensures Wired(plan.routes[b], had + {VerdictField}) {
      assert plan.routes[b] in {TERMINAL_PLAN, ESCALATE_PLAN, ARCHIVE_PLAN};
    }
    if receipts {
      assert plan.branches <= plan.routes.Keys;
    } else {
      assert "archive_receipt" !in plan.routes;
    }
  }

  lemma OutcomePlansWired(had: set<Field>)
    requires {TsField, CorrelationField, VerdictField} <= had
    ensures Wired(TERMINAL_PLAN, had) && Wired(ESCALATE_PLAN, had) && Wired(ARCHIVE_PLAN, had)
  {
    var event := {AuditEventField};
    assert TERMINAL_PLAN.stages == [Signature({VerdictField}, event)] + ([AUDITING] + ([MARKING] + []));
    assert ARCHIVE_PLAN.stages == [Signature({}, event)] + ([AUDITING] + ([MARKING] + []));
    assert ESCALATE_PLAN.stages == [Signature({VerdictField, CorrelationField}, event)] + ([AUDITING] + []);
    WiredCons(MARKING, [], had + event + {});
    WiredCons(AUDITING, [MARKING] + [], had + event);
    WiredCons(AUDITING, [], had + event);
    WiredCons(Signature({VerdictField}, event), [AUDITING] + ([MARKING] + []), had);
    WiredCons(Signature({}, event), [AUDITING] + ([MARKING] + []), had);
    WiredCons(Signature({VerdictField, CorrelationField}, event), [AUDITING] + [], had);
  }

  /** The static check passes exactly when the receipt route is wired, forced or not. */
  lemma WiredExactlyWithReceipts(receipts: bool, force: bool)
    ensures Wired(TreePlan(receipts, force), {ClassifierField}) <==> receipts
  {
    ProcessPlanWired(receipts);
    var plan := TreePlan(receipts, force);
    if !force {
      assert "continue" in plan.branches;
      assert {ClassifierField} + {} == {ClassifierField};
    }
  }

  // ----- One message through Tier 1, told without pipelines -----

  function AuditOf(env: Env, m: Message, event: string, detail: Option<string>): Effect {
    AuditWritten(env.now, m.id, event, detail)
  }

  function MarkOf(env: Env, m: Message, v: RuleVerdict): Effect {
    Marked(m.id, ProcessedRow(m.threadId, "tier1", None, Some(TypeName(v.action.kind)), env.now))
  }

  /** `work`, and if it returns, an audit entry and then the processed mark. */
  function Recorded<T>(work: Step<T>, records: seq<Effect>): Step<()> {
    match work.out
    case Raised(e) => Step(work.effects, Raised(e))
    case Ok(_) => Step(work.effects + records, Ok(()))
  }

  function AlertReason(v: RuleVerdict): string {
    if v.action.reason.Some? && v.action.reason.value != "" then v.action.reason.value
    else if v.matchedRule.Some? && v.matchedRule.value != "" then v.matchedRule.value
    else "escalated"
  }

  /** What happens to an unprocessed message once the rules have given `v`. */
  function Handle(env: Env, db: Db, m: Message, v: RuleVerdict): Step<()> {
    match v.action.kind
    case Escalate =>
      var alert := if v.action.alertImmediately
                   then Notify(env.alerter, env.newId, "Escalated: " + AlertReason(v), Normal)
                   else Step([], Ok(()));
      Recorded(alert, [AuditOf(env, m, "escalated_pending_tier2", None)])
    case ArchiveReceipt =>
      if env.receipts.None? then Step([], Raised(UnknownBranch("archive_receipt")))
      else
        var r := Receipts.Archive(env.receipts.value, db, m, env.now);
        var detail := if r.out.Ok? then r.out.value.company + " " + r.out.value.date else "";
        Recorded(r, [AuditOf(env, m, "receipt_archived", Some(detail)), MarkOf(env, m, v)])
    case _ =>
      Recorded(Execute(env.observe, env.applier, m.id, v.action),
        [AuditOf(env, m, "action_applied", Some(ActionDetail(v.action.kind))), MarkOf(env, m, v)])
  }

  /** The verdict is None for a message that was already processed and is not forced. */
  function Process(
    env: Env, force: bool, db: Db, m: Message, rules: seq<Rule>, unmatched: Action,
    classifier: Option<Outcome<string>>): Step<Option<RuleVerdict>>
  {
    if !force && m.id in db.processed then Step([], Ok(None))
    else
      match RuleEngine.Evaluate(m, rules, unmatched, classifier)
      case Raised(e) => Step([], Raised(e))
      case Ok(v) =>
        var h := Handle(env, db, m, v);
        Step(h.effects, if h.out.Raised? then Raised(h.out.exn) else Ok(Some(v)))
  }

  // ----- The pipeline computes exactly that -----

  /** The run `r` ended as `h` says, with `v` as its verdict if it returned. */
  ghost predicate EndsAs(r: Step<Payload<Meta>>, h: Step<()>, v: RuleVerdict) {
    && r.effects == h.effects
    && (h.out.Raised? ==> r.out == Raised(h.out.exn))
    && (h.out.Ok? ==> r.out.Ok? && r.out.value.meta.verdict == Some(v))
  }

  ghost predicate Ready(env: Env, m: Message, v: RuleVerdict, p: Payload<Meta>) {
    && p.meta.message == m && p.meta.verdict == Some(v)
    && p.meta.ts == Some(env.now) && p.meta.correlationId == Some(env.newId)
    && p.meta.auditDetail == None
  }

  lemma AuditThenMark(env: Env, m: Message, v: RuleVerdict, db: Db, p: Payload<Meta>)
    requires Ready(env, m, v, Payload(p.text, p.meta.(auditDetail := None))) && p.meta.auditEvent.Some?
    ensures RunStages([WriteAuditEntry(), MarkProcessed()], db, p)
         == Step([AuditOf(env, m, p.meta.auditEvent.value, p.meta.auditDetail), MarkOf(env, m, v)], Ok(p))
  {
    var a := AuditOf(env, m, p.meta.auditEvent.value, p.meta.auditDetail);
    RunCons(WriteAuditEntry(), [MarkProcessed()], db, p);
    RunCons(MarkProcessed(), [], Replay(db, [a]), p);
    assert [MarkProcessed()] + [] == [MarkProcessed()];
    assert [WriteAuditEntry()] + [MarkProcessed()] == [WriteAuditEntry(), MarkProcessed()];
  }

  lemma TerminalRun(env: Env, db: Db, m: Message, v: RuleVerdict, p: Payload<Meta>)
    requires Ready(env, m, v, p) && v.action.kind !in {Escalate, ArchiveReceipt}
    ensures EndsAs(Run(TerminalTree(env), db, p), Handle(env, db, m, v), v)
  {
    assert TerminalTree(env).stages == [ApplyAction(env)] + [WriteAuditEntry(), MarkProcessed()];
    RunCons(ApplyAction(env), [WriteAuditEntry(), MarkProcessed()], db, p);
    var r := ApplyAction(env).run(db, p);
    if r.out.Ok? {
      AuditThenMark(env, m, v, Replay(db, r.effects), r.out.value);
    }
  }

  lemma ArchiveRun(env: Env, db: Db, m: Message, v: RuleVerdict, p: Payload<Meta>)
    requires Ready(env, m, v, p) && v.action.kind == ArchiveReceipt && env.receipts.Some?
    ensures EndsAs(Run(ArchiveTree(env.receipts.value), db, p), Handle(env, db, m, v), v)
  {
    var first := ArchiveReceiptStage(env.receipts.value);
    assert ArchiveTree(env.receipts.value).stages == [first] + [WriteAuditEntry(), MarkProcessed()];
    RunCons(first, [WriteAuditEntry(), MarkProcessed()], db, p);
    var r := first.run(db, p);
    if r.out.Ok? {
      AuditThenMark(env, m, v, Replay(db, r.effects), r.out.value);
    }
  }

  lemma EscalateRun(env: Env, db: Db, m: Message, v: RuleVerdict, p: Payload<Meta>)
    requires Ready(env, m, v, p) && v.action.kind == Escalate
    ensures EndsAs(Run(EscalateTree(env), db, p), Handle(env, db, m, v), v)
  {
    assert EscalateTree(env).stages == [RecordEscalation(env)] + [WriteAuditEntry()];
    RunCons(RecordEscalation(env), [WriteAuditEntry()], db, p);
    var r := RecordEscalation(env).run(db, p);
    if r.out.Ok? {
      assert [WriteAuditEntry()] + [] == [WriteAuditEntry()];
      RunCons(WriteAuditEntry(), [], Replay(db, r.effects), r.out.value);
    }
  }

  lemma PreludeRun(env: Env, db: Db, p: Payload<Meta>)
    ensures RunStages(ProcessTree(env).stages, db, p)
         == Step([], Ok(Payload(p.text, p.meta.(ts := Some(env.now), correlationId := Some(env.newId)))))
  {
    assert ProcessTree(env).stages == [Timestamp(env)] + [CorrelationId(env)];
    RunCons(Timestamp(env), [CorrelationId(env)], db, p);
    assert [CorrelationId(env)] + [] == [CorrelationId(env)];
    RunCons(CorrelationId(env), [], db, Payload(p.text, p.meta.(ts := Some(env.now))));
  }

  lemma RouteRun(env: Env, db: Db, m: Message, v: RuleVerdict, p: Payload<Meta>)
    requires Ready(env, m, v, p)
    ensures EndsAs(Follow(ProcessTree(env), db, Ok(Routed(BranchOf(v.action.kind), p))), Handle(env, db, m, v), v)
  {
    var branch := BranchOf(v.action.kind);
    if v.action.kind == Escalate {
      assert Routes(env)[branch] == EscalateTree(env);
      EscalateRun(env, db, m, v, p);
    } else if v.action.kind == ArchiveReceipt {
      if env.receipts.Some? {
        assert Routes(env)[branch] == ArchiveTree(env.receipts.value);
        ArchiveRun(env, db, m, v, p);
      }
    } else {
      assert Routes(env)[branch] == TerminalTree(env);
      TerminalRun(env, db, m, v, p);
    }
  }

  /** The run `r` of a pipeline ended as `x` says. */
  ghost predicate Agrees(r: Step<Payload<Meta>>, x: Step<Option<RuleVerdict>>) {
    && (x.out.Raised? ==> r.out == Raised(x.out.exn))
    && (x.out.Ok? ==> r.out.Ok? && r.out.value.meta.verdict == x.out.value)
  }

  lemma ProcessTreeRun(
    env: Env, db: Db, m: Message, rules: seq<Rule>, unmatched: Action, classifier: Option<Outcome<string>>)
    ensures var r, x := Run(ProcessTree(env), db, Start(m, rules, unmatched, classifier)),
                        Process(env, true, db, m, rules, unmatched, classifier);
            Agrees(r, x) && r.effects == x.effects
  {
    var p := Start(m, rules, unmatched, classifier);
    PreludeRun(env, db, p);
    var q := Payload(p.text, p.meta.(ts := Some(env.now), correlationId := Some(env.newId)));
    var c := RuleEvaluation().select(db, q);
    var rest := Follow(ProcessTree(env), db, c.out);
    assert Replay(db, []) == db;
    assert Run(ProcessTree(env), db, p) == After([], After([], rest));
    var e := RuleEngine.Evaluate(m, rules, unmatched, classifier);
    if e.Ok? {
      RouteRun(env, db, m, e.value, Payload(q.text, q.meta.(verdict := Some(e.value))));
    }
  }

  /** The composed pipeline, traced and gated, does what `Process` says: the same verdict or
      exception, and the same effects apart from trace lines. */
  lemma PipelineIsProcess(
    env: Env, force: bool, db: Db, m: Message, rules: seq<Rule>, unmatched: Action,
    classifier: Option<Outcome<string>>)
    ensures var p := Start(m, rules, unmatched, classifier);
            var r, x := Run(Build(env, force), db, p), Process(env, force, db, m, rules, unmatched, classifier);
            && Untraced(r.effects) == Untraced(x.effects)
            && Replay(db, r.effects) == Replay(db, x.effects)
            && Agrees(r, x)
  {
    var p := Start(m, rules, unmatched, classifier);
    ProcessTreeRun(env, db, m, rules, unmatched, classifier);
    TracingPreservesMeaning(Tree(env, force), Correlation, db, p);
    TracedRunUntraced(Tree(env, force), Correlation, db, p);
    if !force {
      GateRun(env, db, p);
    }
    hide Handle, ProcessTree, RuleEngine.Evaluate, Untraced, Replay, Run;
  }

  /** What the gate in front of the tree does. */
  lemma GateRun(env: Env, db: Db, p: Payload<Meta>)
    ensures Run(Tree(env, false), db, p) ==
      if p.meta.message.id in db.processed then Step([], Ok(p)) else Run(ProcessTree(env), db, p)
  {
    hide ProcessTree;
    assert Replay(db, []) == db;
    assert Run(IDENTITY, db, p) == Step([], Ok(p));
  }

  // ----- Consequences -----

  /** With the receipt route wired, the composed pipeline never misses a field or a route. */
  lemma WithReceiptsNoFault(env: Env, force: bool, db: Db, p: Payload<Meta>)
    requires Sane(env) && env.receipts.Some? && ClassifierField in Fields(p.meta)
    ensures Run(Build(env, force), db, p).out.Raised? ==> !WiringFault(Run(Build(env, force), db, p).out.exn)
  {
    TreeDescribed(env, force);
    WiredExactlyWithReceipts(true, force);
    WrappingKeepsThePlan(TreePlan(true, force), Tree(env, force), Fields, Correlation);
    WiredIsSound(TreePlan(true, force), Build(env, force), Fields, {ClassifierField}, db, p);
  }

  /** The exceptions collaborators raise in this run. */
  function Foreign(env: Env, classifier: Option<Outcome<string>>): set<Exn> {
    (if env.applier.Some? then {env.applier.value} else {})
    + (if env.alerter.Some? then {env.alerter.value} else {})
    + (if classifier.Some? && classifier.value.Raised? then {classifier.value.exn} else {})
    + (if env.receipts.None? then {} else
         (if env.receipts.value.tagging.Some? then {env.receipts.value.tagging.value} else {})
         + (if env.receipts.value.archive.Some? then {env.receipts.value.archive.value} else {})
         + (if env.receipts.value.extraction.Raised? then {env.receipts.value.extraction.exn} else {}))
  }

  lemma HandleRaises(env: Env, db: Db, m: Message, v: RuleVerdict)
    ensures var out := Handle(env, db, m, v).out;
            && (v.action.kind == ArchiveReceipt && env.receipts.None? ==>
                  out == Raised(UnknownBranch("archive_receipt")))
            && (out.Raised? && !(v.action.kind == ArchiveReceipt && env.receipts.None?) ==>
                  out.exn in Foreign(env, None) || out.exn == ActionRejected(NoMailbox))
  {}

  /** A run raises what a collaborator raised, or one of three errors of its own: no classifier,
      a mailbox missing from the rule, or the unrouted archive_receipt verdict. The last is the one
      wiring fault, and it happens exactly when no receipt route was given and the rules give that
      verdict to a message that gets past the gate. The executor's refusals of misrouted actions
      are never reached. */
  lemma RaisesExactly(
    env: Env, force: bool, db: Db, m: Message, rules: seq<Rule>, unmatched: Action,
    classifier: Option<Outcome<string>>)
    ensures var out := Run(Build(env, force), db, Start(m, rules, unmatched, classifier)).out;
            var e := RuleEngine.Evaluate(m, rules, unmatched, classifier);
            var unrouted := env.receipts.None? && (force || m.id !in db.processed)
                            && e.Ok? && e.value.action.kind == ArchiveReceipt;
            && (unrouted ==> out == Raised(UnknownBranch("archive_receipt")))
            && (out.Raised? && !unrouted ==>
                  out.exn in Foreign(env, classifier) + {NoClassifier, ActionRejected(NoMailbox)})
  {
    PipelineIsProcess(env, force, db, m, rules, unmatched, classifier);
    RuleEngine.EvaluateIsFirstMatch(m, rules, unmatched, classifier, RuleEngine.CategoryOf(classifier));
    var e := RuleEngine.Evaluate(m, rules, unmatched, classifier);
    if e.Ok? {
      HandleRaises(env, db, m, e.value);
    }
    hide Build, Tree, ProcessTree, Run, Untraced, Replay, Handle, RuleEngine.Evaluate;
  }
}
