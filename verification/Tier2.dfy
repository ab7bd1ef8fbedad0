/** The Tier 2 pipeline: budget gate, model call, usage recording, confidence bands, outcomes. */
module Tier2 {
  import opened Model
  import opened StateDb
  import opened Pipelines
  import opened Tracing
  import opened Tier1
  import BodyCleaning

  datatype Band = Autoact | AutoactAlert | AlertOnly

  datatype Meta2 = Meta2(
    message: Message, toAddresses: seq<string>, priorSubject: Option<string>, userHasReplied: bool,
    mailboxes: seq<string>, ts: Option<string>, correlationId: Option<string>,
    context: Option<seq<string>>, request: Option<Request>, verdict: Option<Verdict>,
    usage: Option<(int, int)>, band: Option<Band>,
    auditEvent: Option<string>, auditDetail: Option<string>)

  /** A configured threshold; TOML admits `nan`. */
  datatype Threshold = NotANumber | At(value: real)

  datatype Config = Config(
    budget: int, categories: seq<string>, alertThreshold: Threshold, autoactThreshold: Threshold,
    maxBodyChars: int, stripHtml: string -> string)

  /** The configuration, and what the collaborators answer in this run. */
  datatype Env2 = Env2(
    config: Config, now: string, newId: string,
    context: Outcome<seq<string>>, llm: Outcome<LlmResult>,
    applier: Option<Exn>, drafter: Option<Exn>, alerter: Option<Exn>)

  // ----- Pure parts -----

  predicate HasBudget(db: Db, date: string, budget: int) {
    UsageOn(db, date).calls < budget
  }

  /** Thresholds that are not numbers, or out of order, are refused. */
  function ConfidenceBand(c: real, alert: Threshold, autoact: Threshold): Outcome<Band> {
    if alert.NotANumber? || autoact.NotANumber? || alert.value > autoact.value then Raised(BadThresholds)
    else Ok(if c >= autoact.value then Autoact else if c >= alert.value then AutoactAlert else AlertOnly)
  }

  function BandName(b: Band): string {
    match b
    case Autoact => "autoact"
    case AutoactAlert => "autoact_alert"
    case AlertOnly => "alert_only"
  }

  predicate ValidVerdict(v: Verdict, categories: seq<string>, mailboxes: seq<string>) {
    && v.category in categories
    && (v.suggested.mailbox.Some? ==> v.suggested.mailbox.value in mailboxes)
  }

  function AlertUrgencyOf(u: VerdictUrgency): AlertUrgency {
    match u
    case LowUrgency => Low
    case MediumUrgency => Normal
    case HighUrgency => Critical
  }

  function RequestFor(m: Meta2, config: Config, text: string, snippets: seq<string>): Request {
    Request(m.message.subject, m.message.fromAddress, m.toAddresses,
      BodyCleaning.CleanBody(config.stripHtml, text, config.maxBodyChars),
      m.priorSubject, m.userHasReplied, m.mailboxes, config.categories, snippets)
  }

  // ----- Modules -----

  function Timestamp2(env: Env2): Stage<Meta2> {
    Stage("TimestampFilter", FilterStage, (db: Db, p: Payload<Meta2>) =>
      Step([], Ok(Payload(p.text, p.meta.(ts := Some(env.now))))))
  }

  function CorrelationId2(env: Env2): Stage<Meta2> {
    Stage("CorrelationIdFilter", FilterStage, (db: Db, p: Payload<Meta2>) =>
      Step([], Ok(Payload(p.text, p.meta.(correlationId := Some(env.newId))))))
  }

  function BudgetGate(env: Env2): Selector<Meta2> {
    Selector("BudgetGateSelector", (db: Db, p: Payload<Meta2>) =>
      if p.meta.ts.None? then Missing(TsField)
      else
        var ok := HasBudget(db, DateOf(p.meta.ts.value), env.config.budget);
        Step([], Ok(Routed(if ok then "budget_ok" else "budget_exhausted", p))))
  }

  function FetchContext(env: Env2): Stage<Meta2> {
    Stage("FetchContextAugment", AugmentStage, (db: Db, p: Payload<Meta2>) =>
      match env.context
      case Raised(e) => Step([], Raised(e))
      case Ok(c) => Step([], Ok(Payload(p.text, p.meta.(context := Some(c))))))
  }

  function BuildRequest(env: Env2): Stage<Meta2> {
    Stage("BuildVerdictRequestFilter", FilterStage, (db: Db, p: Payload<Meta2>) =>
      var m := p.meta;
      if m.context.None? then Missing(ContextField)
      else
        var request := RequestFor(m, env.config, p.text, m.context.value);
        Step([], Ok(Payload(request.cleanedBody, m.(request := Some(request))))))
  }

  function CallLlm(env: Env2): Stage<Meta2> {
    Stage("CallLLMAugment", AugmentStage, (db: Db, p: Payload<Meta2>) =>
      var m := p.meta;
      if m.request.None? then Missing(RequestField)
      else
        match env.llm
        case Raised(e) => Step([], Raised(e))
        case Ok(r) =>
          var date := if m.ts.Some? then DateOf(m.ts.value) else "";
          Step([LlmReturned(date, m.request.value)],
            Ok(Payload(p.text, m.(verdict := Some(r.verdict), usage := Some((r.tokensIn, r.tokensOut)))))))
  }

  function RecordUsage(): Stage<Meta2> {
    Stage("RecordLLMUsageFilter", FilterStage, (db: Db, p: Payload<Meta2>) =>
      var m := p.meta;
      if m.ts.None? then Missing(TsField)
      else if m.usage.None? then Missing(UsageField)
      else if m.usage.value.0 < 0 || m.usage.value.1 < 0 then Step([], Raised(NegativeTokens))
      else Step([CallRecorded(DateOf(m.ts.value), m.usage.value.0, m.usage.value.1)], Ok(p)))
  }

  function ValidateVerdict(env: Env2): Stage<Meta2> {
    Stage("ValidateVerdictFilter", FilterStage, (db: Db, p: Payload<Meta2>) =>
      var m := p.meta;
      if m.verdict.None? then Missing(VerdictField)
      else if ValidVerdict(m.verdict.value, env.config.categories, m.mailboxes) then Step([], Ok(p))
      else Step([], Raised(VerdictInvalid)))
  }

  function BandSelector(env: Env2): Selector<Meta2> {
    Selector("ConfidenceBandSelector", (db: Db, p: Payload<Meta2>) =>
      var m := p.meta;
      if m.verdict.None? then Missing(VerdictField)
      else
        match ConfidenceBand(m.verdict.value.confidence, env.config.alertThreshold, env.config.autoactThreshold)
        case Raised(e) => Step([], Raised(e))
        case Ok(b) => Step([], Ok(Routed(BandName(b), Payload(p.text, m.(band := Some(b)))))))
  }

  predicate AlertsWhenActing(v: Verdict, band: Option<Band>) {
    band == Some(AutoactAlert) || v.urgency == HighUrgency
  }

  function BandDetail(v: Verdict, band: Option<Band>): string {
    "\"category\": \"" + v.category + "\", \"band\": \"" + (if band.Some? then BandName(band.value) else "None") + "\"}"
  }

  function ActedDetail(v: Verdict, band: Option<Band>): string {
    "{\"action_type\": \"" + TypeName(v.suggested.kind) + "\", " + BandDetail(v, band)
  }

  /** `a`, and if it returns, `b`. */
  function Chain<T>(a: Step<()>, b: Step<T>): Step<T> {
    match a.out
    case Raised(e) => Step(a.effects, Raised(e))
    case Ok(_) => After(a.effects, b)
  }

  function ApplyVerdictAction(env: Env2): Stage<Meta2> {
    Stage("ApplyVerdictActionFilter", FilterStage, (db: Db, p: Payload<Meta2>) =>
      var m := p.meta;
      if m.verdict.None? then Missing(VerdictField)
      else
        var v := m.verdict.value;
        var done := Step([], Ok(Payload(p.text, m.(
            auditEvent := Some("tier2_action_applied"), auditDetail := Some(ActedDetail(v, m.band))))));
        var alerted :=
          if !AlertsWhenActing(v, m.band) then done
          else if m.correlationId.None? then Missing(CorrelationField)
          else Chain(Notify(env.alerter, m.correlationId.value, "Action taken: " + v.category,
                       AlertUrgencyOf(v.urgency)), done);
        Chain(Execute(false, env.applier, m.message.id, v.suggested), alerted))
  }

  function RecordAlertOnly(env: Env2): Stage<Meta2> {
    Stage("RecordAlertOnlyFilter", FilterStage, (db: Db, p: Payload<Meta2>) =>
      var m := p.meta;
      if m.verdict.None? then Missing(VerdictField)
      else if m.correlationId.None? then Missing(CorrelationField)
      else
        var v := m.verdict.value;
        Chain(Notify(env.alerter, m.correlationId.value, "Needs review: " + v.category, AlertUrgencyOf(v.urgency)),
          Step([], Ok(Payload(p.text, m.(
            auditEvent := Some("tier2_alert_only_no_action"), auditDetail := Some("{" + BandDetail(v, m.band))))))))
  }

  function RecordBudgetExhausted(env: Env2): Stage<Meta2> {
    Stage("RecordBudgetExhaustedFilter", FilterStage, (db: Db, p: Payload<Meta2>) =>
      var m := p.meta;
      if m.correlationId.None? then Missing(CorrelationField)
      else
        Chain(Notify(env.alerter, m.correlationId.value, "Tier 2 skipped: daily budget exhausted", Critical),
          Step([], Ok(Payload(p.text, m.(auditEvent := Some("tier2_budget_exhausted")))))))
  }

  function Draft(drafter: Option<Exn>, id: string, reply: Option<string>): Step<()> {
    match reply
    case None => Step([], Ok(()))
    case Some(body) => Step([DraftCreated(id, body)], if drafter.Some? then Raised(drafter.value) else Ok(()))
  }

  function CreateDraft(env: Env2): Stage<Meta2> {
    Stage("CreateDraftIfWantedFilter", FilterStage, (db: Db, p: Payload<Meta2>) =>
      var m := p.meta;
      if m.verdict.None? then Missing(VerdictField)
      else Chain(Draft(env.drafter, m.message.id, m.verdict.value.draftReply), Step([], Ok(p))))
  }

  function WriteAuditEntry2(): Stage<Meta2> {
    Stage("WriteAuditEntryFilter", FilterStage, (db: Db, p: Payload<Meta2>) =>
      var m := p.meta;
      if m.ts.None? then Missing(TsField)
      else if m.auditEvent.None? then Missing(AuditEventField)
      else Step([AuditWritten(m.ts.value, m.message.id, m.auditEvent.value, m.auditDetail)], Ok(p)))
  }

  function Row2(m: Message, v: Option<Verdict>, ts: string): ProcessedRow {
    ProcessedRow(m.threadId, "tier2", v, if v.Some? then Some(TypeName(v.value.suggested.kind)) else None, ts)
  }

  function MarkProcessed2(): Stage<Meta2> {
    Stage("MarkProcessedFilter", FilterStage, (db: Db, p: Payload<Meta2>) =>
      var m := p.meta;
      if m.ts.None? then Missing(TsField)
      else Step([Marked(m.message.id, Row2(m.message, m.verdict, m.ts.value))], Ok(p)))
  }

  // ----- Composition -----

  function ActTree(env: Env2): Pipeline<Meta2> {
    Pipeline([ApplyVerdictAction(env), CreateDraft(env), WriteAuditEntry2(), MarkProcessed2()], None, map[])
  }

  function AlertOnlyTree(env: Env2): Pipeline<Meta2> {
    Pipeline([RecordAlertOnly(env), CreateDraft(env), WriteAuditEntry2(), MarkProcessed2()], None, map[])
  }

  function ExhaustedTree(env: Env2): Pipeline<Meta2> {
    Pipeline([RecordBudgetExhausted(env), WriteAuditEntry2(), MarkProcessed2()], None, map[])
  }

  function BudgetOkTree(env: Env2): Pipeline<Meta2> {
    Pipeline([FetchContext(env), BuildRequest(env), CallLlm(env), RecordUsage(), ValidateVerdict(env)],
      Some(BandSelector(env)),
      map["autoact" := ActTree(env), "autoact_alert" := ActTree(env), "alert_only" := AlertOnlyTree(env)])
  }

  function Tree2(env: Env2): Pipeline<Meta2> {
    Pipeline([Timestamp2(env), CorrelationId2(env)], Some(BudgetGate(env)),
      map["budget_ok" := BudgetOkTree(env), "budget_exhausted" := ExhaustedTree(env)])
  }

  function Correlation2(m: Meta2): string {
    if m.correlationId.Some? && m.correlationId.value != "" then m.correlationId.value else "-"
  }

  function Build2(env: Env2): Pipeline<Meta2> {
    WrapTree(Tree2(env), Correlation2)
  }

  /** A wrapped stage or selector that returns leaves one more effect: a trace line under the id the message then has,
      or a dash before it has one, with its name, and what kind of stage it is or which branch it chose. */
  lemma TracedUnderTheId2(s: Stage<Meta2>, c: Selector<Meta2>, db: Db, p: Payload<Meta2>)
    ensures var r, id := s.run(db, p), p.meta.correlationId;
            var known := if id == None || id == Some("") then "-" else id.value;
            r.out.Ok? ==>
              WrapStage(s, Correlation2).run(db, p).effects
                == r.effects + [Traced(known, s.name + " ran", if s.kind == AugmentStage then "augment" else "filter")]
    ensures var r, id := c.select(db, p), p.meta.correlationId;
            var known := if id == None || id == Some("") then "-" else id.value;
            r.out.Ok? ==>
              WrapSelector(c, Correlation2).select(db, p).effects
                == r.effects + [Traced(known, c.name + " selected", r.out.value.branch)]
  {}

  /** What the caller resolves before the pipeline runs. */
  datatype Resolved = Resolved(
    toAddresses: seq<string>, priorSubject: Option<string>, userHasReplied: bool, mailboxes: seq<string>)

  function Start2(m: Message, r: Resolved): Payload<Meta2> {
    Payload(m.body, Meta2(m, r.toAddresses, r.priorSubject, r.userHasReplied, r.mailboxes,
      None, None, None, None, None, None, None, None, None))
  }

  // ----- One escalated message through Tier 2, told without pipelines -----

  function Records(env: Env2, m: Message, v: Option<Verdict>, event: string, detail: Option<string>): Step<()> {
    Step([AuditWritten(env.now, m.id, event, detail), Marked(m.id, Row2(m, v, env.now))], Ok(()))
  }

  /** The outcome branches, after the verdict `v` was validated and put in `band`. */
  function Decide(env: Env2, m: Message, v: Verdict, band: Band): Step<()> {
    if band == AlertOnly then
      Chain(Notify(env.alerter, env.newId, "Needs review: " + v.category, AlertUrgencyOf(v.urgency)),
      Chain(Draft(env.drafter, m.id, v.draftReply),
        Records(env, m, Some(v), "tier2_alert_only_no_action", Some("{" + BandDetail(v, Some(band))))))
    else
      Chain(Execute(false, env.applier, m.id, v.suggested),
      Chain(if AlertsWhenActing(v, Some(band))
            then Notify(env.alerter, env.newId, "Action taken: " + v.category, AlertUrgencyOf(v.urgency))
            else Step([], Ok(())),
      Chain(Draft(env.drafter, m.id, v.draftReply),
        Records(env, m, Some(v), "tier2_action_applied", Some(ActedDetail(v, Some(band)))))))
  }

  function Skip(env: Env2, m: Message): Step<()> {
    Chain(Notify(env.alerter, env.newId, "Tier 2 skipped: daily budget exhausted", Critical),
      Records(env, m, None, "tier2_budget_exhausted", None))
  }

  /** The model's answer `r` to `request`: recorded, validated, banded, acted on. */
  function Weigh(env: Env2, m: Message, mailboxes: seq<string>, request: Request, r: LlmResult): Step<()> {
    var date := DateOf(env.now);
    var returned := LlmReturned(date, request);
    if r.tokensIn < 0 || r.tokensOut < 0 then Step([returned], Raised(NegativeTokens))
    else
      var called := [returned, CallRecorded(date, r.tokensIn, r.tokensOut)];
      if !ValidVerdict(r.verdict, env.config.categories, mailboxes) then Step(called, Raised(VerdictInvalid))
      else
        match ConfidenceBand(r.verdict.confidence, env.config.alertThreshold, env.config.autoactThreshold)
        case Raised(e) => Step(called, Raised(e))
        case Ok(band) => After(called, Decide(env, m, r.verdict, band))
  }

  /** The verdict is None when the day's budget is used up. */
  function Process2(env: Env2, db: Db, m: Message, r: Resolved): Step<Option<Verdict>> {
    if !HasBudget(db, DateOf(env.now), env.config.budget) then
      var s := Skip(env, m);
      Step(s.effects, if s.out.Raised? then Raised(s.out.exn) else Ok(None))
    else if env.context.Raised? then Step([], Raised(env.context.exn))
    else if env.llm.Raised? then Step([], Raised(env.llm.exn))
    else
      var request := RequestFor(Start2(m, r).meta, env.config, m.body, env.context.value);
      var w := Weigh(env, m, r.mailboxes, request, env.llm.value);
      Step(w.effects, if w.out.Raised? then Raised(w.out.exn) else Ok(Some(env.llm.value.verdict)))
  }

  // ----- The pipeline computes exactly that -----

  /** The run `r` ended as `h` says, with `v` as its verdict if it returned. */
  ghost predicate Ends2(r: Step<Payload<Meta2>>, h: Step<()>, v: Option<Verdict>) {
    && r.effects == h.effects
    && (h.out.Raised? ==> r.out == Raised(h.out.exn))
    && (h.out.Ok? ==> r.out.Ok? && r.out.value.meta.verdict == v)
  }

  ghost predicate Ready2(env: Env2, m: Message, v: Option<Verdict>, p: Payload<Meta2>) {
    && p.meta.message == m && p.meta.verdict == v
    && p.meta.ts == Some(env.now) && p.meta.correlationId == Some(env.newId)
  }

  lemma Recording2(env: Env2, m: Message, v: Option<Verdict>, db: Db, p: Payload<Meta2>)
    requires Ready2(env, m, v, p) && p.meta.auditEvent.Some?
    ensures var r := RunStages([WriteAuditEntry2(), MarkProcessed2()], db, p);
            Ends2(r, Records(env, m, v, p.meta.auditEvent.value, p.meta.auditDetail), v)
  {
    var a := AuditWritten(env.now, m.id, p.meta.auditEvent.value, p.meta.auditDetail);
    RunCons(WriteAuditEntry2(), [MarkProcessed2()], db, p);
    RunCons(MarkProcessed2(), [], Replay(db, [a]), p);
    assert [MarkProcessed2()] + [] == [MarkProcessed2()];
    assert [WriteAuditEntry2()] + [MarkProcessed2()] == [WriteAuditEntry2(), MarkProcessed2()];
  }

  lemma DraftAndRecord(env: Env2, m: Message, v: Verdict, db: Db, p: Payload<Meta2>)
    requires Ready2(env, m, Some(v), p) && p.meta.auditEvent.Some?
    ensures var r := RunStages([CreateDraft(env), WriteAuditEntry2(), MarkProcessed2()], db, p);
            Ends2(r, Chain(Draft(env.drafter, m.id, v.draftReply),
              Records(env, m, Some(v), p.meta.auditEvent.value, p.meta.auditDetail)), Some(v))
  {
    var rest := [WriteAuditEntry2(), MarkProcessed2()];
    assert [CreateDraft(env)] + rest == [CreateDraft(env), WriteAuditEntry2(), MarkProcessed2()];
    RunCons(CreateDraft(env), rest, db, p);
    var r := CreateDraft(env).run(db, p);
    if r.out.Ok? {
      Recording2(env, m, Some(v), Replay(db, r.effects), p);
    }
  }

  /** A first stage that does `work` and then hands on `q`, before stages that end as `h`. */
  lemma WorkThen(
    first: Stage<Meta2>, work: Step<()>, rest: seq<Stage<Meta2>>, h: Step<()>, v: Option<Verdict>,
    db: Db, p: Payload<Meta2>, q: Payload<Meta2>)
    requires first.run(db, p) == Chain(work, Step([], Ok(q)))
    requires work.out.Ok? ==> Ends2(RunStages(rest, Replay(db, work.effects), q), h, v)
    ensures Ends2(RunStages([first] + rest, db, p), Chain(work, h), v)
  {
    RunCons(first, rest, db, p);
    assert work.effects + [] == work.effects;
  }

  lemma ChainAssociates(a: Step<()>, b: Step<()>, q: Payload<Meta2>)
    ensures Chain(a, Chain(b, Step([], Ok(q)))) == Chain(Chain(a, b), Step([], Ok(q)))
  {}

  lemma ChainChain(a: Step<()>, b: Step<()>, h: Step<()>)
    ensures Chain(Chain(a, b), h) == Chain(a, Chain(b, h))
  {}

  lemma AlertOnlyRun(env: Env2, m: Message, v: Verdict, db: Db, p: Payload<Meta2>)
    requires Ready2(env, m, Some(v), p) && p.meta.band == Some(AlertOnly)
    ensures Ends2(Run(AlertOnlyTree(env), db, p), Decide(env, m, v, AlertOnly), Some(v))
  {
    var rest := [CreateDraft(env), WriteAuditEntry2(), MarkProcessed2()];
    assert AlertOnlyTree(env).stages == [RecordAlertOnly(env)] + rest;
    var work := Notify(env.alerter, env.newId, "Needs review: " + v.category, AlertUrgencyOf(v.urgency));
    var q := Payload(p.text, p.meta.(
      auditEvent := Some("tier2_alert_only_no_action"), auditDetail := Some("{" + BandDetail(v, p.meta.band))));
    DraftAndRecord(env, m, v, Replay(db, work.effects), q);
    WorkThen(RecordAlertOnly(env), work, rest,
      Chain(Draft(env.drafter, m.id, v.draftReply),
        Records(env, m, Some(v), q.meta.auditEvent.value, q.meta.auditDetail)),
      Some(v), db, p, q);
  }

  lemma ActRun(env: Env2, m: Message, v: Verdict, band: Band, db: Db, p: Payload<Meta2>)
    requires Ready2(env, m, Some(v), p) && p.meta.band == Some(band) && band != AlertOnly
    ensures Ends2(Run(ActTree(env), db, p), Decide(env, m, v, band), Some(v))
  {
    var rest := [CreateDraft(env), WriteAuditEntry2(), MarkProcessed2()];
    assert ActTree(env).stages == [ApplyVerdictAction(env)] + rest;
    var act := Execute(false, env.applier, m.id, v.suggested);
    var alert := if AlertsWhenActing(v, Some(band))
                 then Notify(env.alerter, env.newId, "Action taken: " + v.category, AlertUrgencyOf(v.urgency))
                 else Step([], Ok(()));
    var q := Payload(p.text, p.meta.(
      auditEvent := Some("tier2_action_applied"), auditDetail := Some(ActedDetail(v, p.meta.band))));
    var records := Chain(Draft(env.drafter, m.id, v.draftReply),
                     Records(env, m, Some(v), "tier2_action_applied", Some(ActedDetail(v, Some(band)))));
    var work := Chain(act, alert);
    ChainAssociates(act, alert, q);
    DraftAndRecord(env, m, v, Replay(db, work.effects), q);
    WorkThen(ApplyVerdictAction(env), work, rest, records, Some(v), db, p, q);
    ChainChain(act, alert, records);
  }

  lemma ExhaustedRun(env: Env2, m: Message, db: Db, p: Payload<Meta2>)
    requires Ready2(env, m, None, p) && p.meta.auditDetail == None
    ensures Ends2(Run(ExhaustedTree(env), db, p), Skip(env, m), None)
  {
    var rest := [WriteAuditEntry2(), MarkProcessed2()];
    assert ExhaustedTree(env).stages == [RecordBudgetExhausted(env)] + rest;
    RunCons(RecordBudgetExhausted(env), rest, db, p);
    var r := RecordBudgetExhausted(env).run(db, p);
    if r.out.Ok? {
      Recording2(env, m, None, Replay(db, r.effects), r.out.value);
    }
  }

  /** The metadata after the model answered. */
  function Answered(p: Payload<Meta2>, env: Env2, request: Request, r: LlmResult): Payload<Meta2>
    requires env.context.Ok?
  {
    Payload(request.cleanedBody, p.meta.(
      context := Some(env.context.value), request := Some(request), verdict := Some(r.verdict),
      usage := Some((r.tokensIn, r.tokensOut))))
  }

  /** The metadata when the model is about to be asked. */
  function Asking(p: Payload<Meta2>, env: Env2): Payload<Meta2>
    requires env.context.Ok?
  {
    var request := RequestFor(p.meta, env.config, p.text, env.context.value);
    Payload(request.cleanedBody, p.meta.(context := Some(env.context.value), request := Some(request)))
  }

  lemma AskReaches(env: Env2, db: Db, p: Payload<Meta2>, rest: seq<Stage<Meta2>>)
    requires env.context.Ok?
    ensures RunStages([FetchContext(env)] + ([BuildRequest(env)] + ([CallLlm(env)] + rest)), db, p)
         == RunStages([CallLlm(env)] + rest, db, Asking(p, env))
  {
    var p1 := Payload(p.text, p.meta.(context := Some(env.context.value)));
    RunSilent(FetchContext(env), [BuildRequest(env)] + ([CallLlm(env)] + rest), db, p, p1);
    RunSilent(BuildRequest(env), [CallLlm(env)] + rest, db, p1, Asking(p, env));
  }

  lemma AskRun(env: Env2, m: Message, db: Db, p: Payload<Meta2>, rest: seq<Stage<Meta2>>)
    requires Ready2(env, m, None, p) && env.context.Ok? && env.llm.Ok?
    ensures var request, r := RequestFor(p.meta, env.config, p.text, env.context.value), env.llm.value;
            RunStages([FetchContext(env)] + ([BuildRequest(env)] + ([CallLlm(env)] + rest)), db, p)
              == After([LlmReturned(DateOf(env.now), request)],
                   RunStages(rest, db, Answered(p, env, request, r)))
  {
    AskReaches(env, db, p, rest);
    CallRun(env, Asking(p, env).meta.request.value, db, Asking(p, env), rest);
  }

  lemma CallRun(env: Env2, request: Request, db: Db, p: Payload<Meta2>, rest: seq<Stage<Meta2>>)
    requires p.meta.request == Some(request) && p.meta.ts == Some(env.now) && env.llm.Ok?
    ensures RunStages([CallLlm(env)] + rest, db, p)
         == After([LlmReturned(DateOf(env.now), request)], RunStages(rest, db, Payload(p.text, p.meta.(
              verdict := Some(env.llm.value.verdict),
              usage := Some((env.llm.value.tokensIn, env.llm.value.tokensOut))))))
  {
    RunCons(CallLlm(env), rest, db, p);
    ReplayAppend(db, [], LlmReturned(DateOf(env.now), request));
    assert [] + [LlmReturned(DateOf(env.now), request)] == [LlmReturned(DateOf(env.now), request)];
  }

  /** Recording and validating the model's answer, from the payload `q` that carries it. */
  lemma CheckRun(env: Env2, r: LlmResult, db: Db, q: Payload<Meta2>)
    requires q.meta.ts == Some(env.now) && q.meta.verdict == Some(r.verdict)
    requires q.meta.usage == Some((r.tokensIn, r.tokensOut))
    ensures RunStages([RecordUsage()] + ([ValidateVerdict(env)] + []), db, q)
         == if r.tokensIn < 0 || r.tokensOut < 0 then Step([], Raised(NegativeTokens))
            else Step([CallRecorded(DateOf(env.now), r.tokensIn, r.tokensOut)],
                   if ValidVerdict(r.verdict, env.config.categories, q.meta.mailboxes) then Ok(q)
                   else Raised(VerdictInvalid))
  {
    RunCons(RecordUsage(), [ValidateVerdict(env)] + [], db, q);
    var u := RecordUsage().run(db, q);
    if u.out.Ok? {
      RunCons(ValidateVerdict(env), [], Replay(db, u.effects), q);
    }
  }

  /** Once the stages hand on `q`, the band decides the branch. */
  lemma BandRun(
    env: Env2, m: Message, v: Verdict, db: Db, p: Payload<Meta2>, s: Step<Payload<Meta2>>)
    requires s == RunStages(BudgetOkTree(env).stages, db, p) && s.out.Ok?
    requires Ready2(env, m, Some(v), s.out.value)
    ensures var b := ConfidenceBand(v.confidence, env.config.alertThreshold, env.config.autoactThreshold);
            Ends2(Run(BudgetOkTree(env), db, p),
              if b.Raised? then Step(s.effects, Raised(b.exn)) else After(s.effects, Decide(env, m, v, b.value)),
              Some(v))
  {
    var d, q, tree := Replay(db, s.effects), s.out.value, BudgetOkTree(env);
    var c := BandSelector(env).select(d, q);
    RunSelects(tree, db, p, s, c);
    BandFollowed(env, m, v, d, q, c);
    var b := ConfidenceBand(v.confidence, env.config.alertThreshold, env.config.autoactThreshold);
    EndsAfter(s.effects, Follow(tree, d, c.out),
      if b.Raised? then Step([], Raised(b.exn)) else Decide(env, m, v, b.value), Some(v));
    assert s.effects + [] == s.effects;
  }

  lemma EndsAfter(done: seq<Effect>, r: Step<Payload<Meta2>>, h: Step<()>, v: Option<Verdict>)
    requires Ends2(r, h, v)
    ensures Ends2(After(done, r), After(done, h), v)
  {}

  /** The band selector never does anything; it raises, or follows the band's branch. */
  lemma BandFollowed(env: Env2, m: Message, v: Verdict, d: Db, q: Payload<Meta2>, c: Step<Routed<Meta2>>)
    requires Ready2(env, m, Some(v), q) && c == BandSelector(env).select(d, q)
    ensures c.effects == []
    ensures var b := ConfidenceBand(v.confidence, env.config.alertThreshold, env.config.autoactThreshold);
            Ends2(Follow(BudgetOkTree(env), d, c.out),
              if b.Raised? then Step([], Raised(b.exn)) else Decide(env, m, v, b.value), Some(v))
  {
    var b := ConfidenceBand(v.confidence, env.config.alertThreshold, env.config.autoactThreshold);
    if b.Ok? {
      var q' := Payload(q.text, q.meta.(band := Some(b.value)));
      assert c == Step([], Ok(Routed(BandName(b.value), q')));
      BranchRun(env, m, v, b.value, d, q');
    }
  }

  lemma BandRoute(env: Env2, band: Band, db: Db, q: Payload<Meta2>)
    ensures Follow(BudgetOkTree(env), db, Ok(Routed(BandName(band), q)))
         == Run(if band == AlertOnly then AlertOnlyTree(env) else ActTree(env), db, q)
  {
    hide Run, ActTree, AlertOnlyTree;
  }

  lemma BranchRun(env: Env2, m: Message, v: Verdict, band: Band, db: Db, q: Payload<Meta2>)
    requires Ready2(env, m, Some(v), q) && q.meta.band == Some(band)
    ensures Ends2(Follow(BudgetOkTree(env), db, Ok(Routed(BandName(band), q))), Decide(env, m, v, band), Some(v))
  {
    BandRoute(env, band, db, q);
    hide Decide, Run, Follow, BudgetOkTree, Ends2;
    match band
    case Autoact => ActRun(env, m, v, band, db, q);
    case AutoactAlert => ActRun(env, m, v, band, db, q);
    case AlertOnly => AlertOnlyRun(env, m, v, db, q);
  }

  /** The stages of the budget-ok tree, when the context and the model answer. */
  lemma BudgetOkStages(env: Env2, m: Message, db: Db, p: Payload<Meta2>)
    requires Ready2(env, m, None, p) && env.context.Ok? && env.llm.Ok?
    ensures var request, r := RequestFor(p.meta, env.config, p.text, env.context.value), env.llm.value;
            var q := Answered(p, env, request, r);
            RunStages(BudgetOkTree(env).stages, db, p)
              == After([LlmReturned(DateOf(env.now), request)],
                   RunStages([RecordUsage()] + ([ValidateVerdict(env)] + []), db, q))
  {
    var tail := [RecordUsage()] + ([ValidateVerdict(env)] + []);
    assert BudgetOkTree(env).stages == [FetchContext(env)] + ([BuildRequest(env)] + ([CallLlm(env)] + tail));
    AskRun(env, m, db, p, tail);
  }

  /** `Weigh` as a check followed by a decision. */
  lemma WeighSplits(
    env: Env2, m: Message, mailboxes: seq<string>, request: Request, r: LlmResult,
    checked: Step<Payload<Meta2>>, q: Payload<Meta2>)
    requires q.meta.mailboxes == mailboxes
    requires checked == After([LlmReturned(DateOf(env.now), request)],
               if r.tokensIn < 0 || r.tokensOut < 0 then Step([], Raised(NegativeTokens))
               else Step([CallRecorded(DateOf(env.now), r.tokensIn, r.tokensOut)],
                      if ValidVerdict(r.verdict, env.config.categories, mailboxes) then Ok(q)
                      else Raised(VerdictInvalid)))
    ensures var b := ConfidenceBand(r.verdict.confidence, env.config.alertThreshold, env.config.autoactThreshold);
            Weigh(env, m, mailboxes, request, r)
              == if checked.out.Raised? then Step(checked.effects, Raised(checked.out.exn))
                 else if b.Raised? then Step(checked.effects, Raised(b.exn))
                 else After(checked.effects, Decide(env, m, r.verdict, b.value))
  {
    hide Decide, ConfidenceBand, ValidVerdict, DateOf;
    var returned := LlmReturned(DateOf(env.now), request);
    assert [returned] + [] == [returned];
  }

  lemma BudgetOkRun(env: Env2, m: Message, db: Db, p: Payload<Meta2>)
    requires Ready2(env, m, None, p) && env.context.Ok? && env.llm.Ok?
    ensures var request := RequestFor(p.meta, env.config, p.text, env.context.value);
            Ends2(Run(BudgetOkTree(env), db, p), Weigh(env, m, p.meta.mailboxes, request, env.llm.value),
              Some(env.llm.value.verdict))
  {
    var request, r := RequestFor(p.meta, env.config, p.text, env.context.value), env.llm.value;
    var q := Answered(p, env, request, r);
    BudgetOkStages(env, m, db, p);
    CheckRun(env, r, db, q);
    var tree := BudgetOkTree(env);
    var s := RunStages(tree.stages, db, p);
    WeighSplits(env, m, p.meta.mailboxes, request, r, s, q);
    if s.out.Ok? {
      BandRun(env, m, r.verdict, db, p, s);
    } else {
      RunFails(tree, db, p);
    }
  }

  lemma BudgetOkFails(env: Env2, db: Db, p: Payload<Meta2>)
    requires env.context.Raised? || env.llm.Raised?
    ensures RunStages(BudgetOkTree(env).stages, db, p)
         == Step([], Raised(if env.context.Raised? then env.context.exn else env.llm.exn))
  {
    var tail := [RecordUsage()] + ([ValidateVerdict(env)] + []);
    var rest := [BuildRequest(env)] + ([CallLlm(env)] + tail);
    assert BudgetOkTree(env).stages == [FetchContext(env)] + rest;
    if env.context.Raised? {
      RunCons(FetchContext(env), rest, db, p);
    } else {
      AskReaches(env, db, p, tail);
      CallFails(env, db, Asking(p, env), tail);
    }
  }

  lemma CallFails(env: Env2, db: Db, p: Payload<Meta2>, rest: seq<Stage<Meta2>>)
    requires env.llm.Raised? && p.meta.request.Some?
    ensures RunStages([CallLlm(env)] + rest, db, p) == Step([], Raised(env.llm.exn))
  {
    RunCons(CallLlm(env), rest, db, p);
  }

  lemma Tree2Run(env: Env2, db: Db, m: Message, r: Resolved)
    ensures var run, x := Run(Tree2(env), db, Start2(m, r)), Process2(env, db, m, r);
            Agrees2(run, x) && run.effects == x.effects
  {
    var p := Start2(m, r);
    var p1 := Payload(p.text, p.meta.(ts := Some(env.now)));
    var p2 := Payload(p.text, p1.meta.(correlationId := Some(env.newId)));
    assert Tree2(env).stages == [Timestamp2(env)] + ([CorrelationId2(env)] + []);
    RunSilent(Timestamp2(env), [CorrelationId2(env)] + [], db, p, p1);
    RunSilent(CorrelationId2(env), [], db, p1, p2);
    assert Replay(db, []) == db;
    var c := BudgetGate(env).select(db, p2);
    var rest := Follow(Tree2(env), db, c.out);
    assert Run(Tree2(env), db, p) == After([], After([], rest));
    if !HasBudget(db, DateOf(env.now), env.config.budget) {
      ExhaustedRun(env, m, db, p2);
    } else if env.context.Ok? && env.llm.Ok? {
      BudgetOkRun(env, m, db, p2);
    } else {
      BudgetOkFails(env, db, p2);
      RunFails(BudgetOkTree(env), db, p2);
    }
  }

  ghost predicate Agrees2(r: Step<Payload<Meta2>>, x: Step<Option<Verdict>>) {
    && (x.out.Raised? ==> r.out == Raised(x.out.exn))
    && (x.out.Ok? ==> r.out.Ok? && r.out.value.meta.verdict == x.out.value)
  }

  /** The composed and traced Tier 2 pipeline does what `Process2` says: the same verdict or
      exception, and the same effects apart from trace lines. */
  lemma Pipeline2IsProcess2(env: Env2, db: Db, m: Message, r: Resolved)
    ensures var run, x := Run(Build2(env), db, Start2(m, r)), Process2(env, db, m, r);
            && Untraced(run.effects) == Untraced(x.effects)
            && Replay(db, run.effects) == Replay(db, x.effects)
            && Agrees2(run, x)
  {
    Tree2Run(env, db, m, r);
    TracingPreservesMeaning(Tree2(env), Correlation2, db, Start2(m, r));
    TracedRunUntraced(Tree2(env), Correlation2, db, Start2(m, r));
  }
}
