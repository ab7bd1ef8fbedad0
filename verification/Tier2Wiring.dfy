/** The static wiring of the Tier 2 tree, and what it rules out. */
module Tier2Wiring {
  import opened Model
  import opened StateDb
  import opened Pipelines
  import opened Tracing
  import opened Tier1
  import opened Tier2

  predicate HasField(m: Meta2, f: Field) {
    match f
    case TsField => m.ts.Some?
    case CorrelationField => m.correlationId.Some?
    case ContextField => m.context.Some?
    case RequestField => m.request.Some?
    case VerdictField => m.verdict.Some?
    case UsageField => m.usage.Some?
    case BandField => m.band.Some?
    case AuditEventField => m.auditEvent.Some?
    case ClassifierField => false
  }

  function Fields2(m: Meta2): set<Field> {
    set f: Field | HasField(m, f)
  }

  predicate Sane2(env: Env2) {
    && !Faulty(ExnOf(env.context)) && !Faulty(ExnOf(env.llm))
    && !Faulty(env.applier) && !Faulty(env.drafter) && !Faulty(env.alerter)
  }

  const TS2 := Signature({}, {TsField})
  const CORRELATION2 := Signature({}, {CorrelationField})
  const CONTEXT2 := Signature({}, {ContextField})
  const REQUEST2 := Signature({ContextField}, {RequestField})
  const CALL2 := Signature({RequestField}, {VerdictField, UsageField})
  const USAGE2 := Signature({TsField, UsageField}, {})
  const VALIDATE2 := Signature({VerdictField}, {})
  const OUTCOME2 := Signature({VerdictField, CorrelationField}, {AuditEventField})
  const EXHAUSTED2 := Signature({CorrelationField}, {AuditEventField})
  const DRAFT2 := Signature({VerdictField}, {})
  const AUDIT2 := Signature({TsField, AuditEventField}, {})
  const MARK2 := Signature({TsField}, {})

  const OUTCOME_PLAN := Plan([OUTCOME2, DRAFT2, AUDIT2, MARK2], None, {}, map[])
  const EXHAUSTED_PLAN := Plan([EXHAUSTED2, AUDIT2, MARK2], None, {}, map[])

  const BUDGET_OK_PLAN := Plan(
    [CONTEXT2, REQUEST2, CALL2, USAGE2, VALIDATE2], Some(Signature({VerdictField}, {BandField})),
    {"autoact", "autoact_alert", "alert_only"},
    map["autoact" := OUTCOME_PLAN, "autoact_alert" := OUTCOME_PLAN, "alert_only" := OUTCOME_PLAN])

  const TREE2_PLAN := Plan(
    [TS2, CORRELATION2], Some(Signature({TsField}, {})), {"budget_ok", "budget_exhausted"},
    map["budget_ok" := BUDGET_OK_PLAN, "budget_exhausted" := EXHAUSTED_PLAN])

  lemma QuietStagesDescribed(env: Env2)
    requires Sane2(env)
    ensures StageHonours(Timestamp2(env), TS2, Fields2) && StageHonours(CorrelationId2(env), CORRELATION2, Fields2)
    ensures StageHonours(FetchContext(env), CONTEXT2, Fields2)
  {}

  lemma RequestDescribed(env: Env2)
    ensures StageHonours(BuildRequest(env), REQUEST2, Fields2)
  {
    forall db: Db, p: Payload<Meta2> | REQUEST2.needs <= Fields2(p.meta)
      ensures Delivers(Fields2, REQUEST2, p.meta, MetaOf(BuildRequest(env).run(db, p).out))
    {
      assert ContextField in Fields2(p.meta);
      var request := RequestFor(p.meta, env.config, p.text, p.meta.context.value);
      assert BuildRequest(env).run(db, p).out
          == Ok(Payload(request.cleanedBody, p.meta.(request := Some(request))));
      RequestGives(p.meta, request);
    }
  }

  lemma RequestGives(m: Meta2, request: Request)
    ensures Fields2(m) + {RequestField} <= Fields2(m.(request := Some(request)))
  {
    forall f | f in Fields2(m) + {RequestField} ensures HasField(m.(request := Some(request)), f) {}
  }

  lemma CallStagesDescribed(env: Env2)
    requires Sane2(env)
    ensures StageHonours(CallLlm(env), CALL2, Fields2) && StageHonours(RecordUsage(), USAGE2, Fields2)
    ensures StageHonours(ValidateVerdict(env), VALIDATE2, Fields2)
  {}

  lemma RecordStagesDescribed(env: Env2)
    requires Sane2(env)
    ensures StageHonours(CreateDraft(env), DRAFT2, Fields2)
    ensures StageHonours(WriteAuditEntry2(), AUDIT2, Fields2) && StageHonours(MarkProcessed2(), MARK2, Fields2)
  {}

  lemma NeededForOutcome(m: Meta2)
    requires OUTCOME2.needs <= Fields2(m)
    ensures m.verdict.Some? && m.correlationId.Some?
  {
    assert VerdictField in Fields2(m) && CorrelationField in Fields2(m);
  }

  lemma EventGiven2(m: Meta2, event: string, detail: string)
    ensures Fields2(m) + OUTCOME2.gives <= Fields2(m.(auditEvent := Some(event), auditDetail := Some(detail)))
  {
    forall f | f in Fields2(m) + OUTCOME2.gives
      ensures HasField(m.(auditEvent := Some(event), auditDetail := Some(detail)), f)
    {}
  }

  lemma ActOutcome(env: Env2, db: Db, p: Payload<Meta2>)
    requires Sane2(env) && p.meta.verdict.Some? && p.meta.correlationId.Some?
    ensures match ApplyVerdictAction(env).run(db, p).out
            case Raised(e) => !WiringFault(e)
            case Ok(q) => q.meta == p.meta.(auditEvent := Some("tier2_action_applied"),
                                            auditDetail := Some(ActedDetail(p.meta.verdict.value, p.meta.band)))
  {
    hide ActedDetail, AlertsWhenActing, AlertUrgencyOf;
  }

  lemma ActDescribed(env: Env2)
    requires Sane2(env)
    ensures StageHonours(ApplyVerdictAction(env), OUTCOME2, Fields2)
  {
    forall db: Db, p: Payload<Meta2> | OUTCOME2.needs <= Fields2(p.meta)
      ensures Delivers(Fields2, OUTCOME2, p.meta, MetaOf(ApplyVerdictAction(env).run(db, p).out))
    {
      hide Fields2, HasField, ApplyVerdictAction, ActedDetail;
      NeededForOutcome(p.meta);
      ActOutcome(env, db, p);
      EventGiven2(p.meta, "tier2_action_applied", ActedDetail(p.meta.verdict.value, p.meta.band));
    }
  }

  lemma AlertOnlyDescribed(env: Env2)
    requires Sane2(env)
    ensures StageHonours(RecordAlertOnly(env), OUTCOME2, Fields2)
  {
    forall db: Db, p: Payload<Meta2> | OUTCOME2.needs <= Fields2(p.meta)
      ensures Delivers(Fields2, OUTCOME2, p.meta, MetaOf(RecordAlertOnly(env).run(db, p).out))
    {
      hide Fields2, HasField;
      NeededForOutcome(p.meta);
      EventGiven2(p.meta, "tier2_alert_only_no_action", "{" + BandDetail(p.meta.verdict.value, p.meta.band));
    }
  }

  lemma ExhaustedDescribed(env: Env2)
    requires Sane2(env)
    ensures Describes(EXHAUSTED_PLAN, ExhaustedTree(env), Fields2)
  {
    forall db: Db, p: Payload<Meta2> | EXHAUSTED2.needs <= Fields2(p.meta)
      ensures Delivers(Fields2, EXHAUSTED2, p.meta, MetaOf(RecordBudgetExhausted(env).run(db, p).out))
    {
      assert CorrelationField in Fields2(p.meta);
    }
    assert StageHonours(RecordBudgetExhausted(env), EXHAUSTED2, Fields2);
    RecordStagesDescribed(env);
  }

  lemma OutcomesDescribed(env: Env2)
    requires Sane2(env)
    ensures Describes(OUTCOME_PLAN, ActTree(env), Fields2) && Describes(OUTCOME_PLAN, AlertOnlyTree(env), Fields2)
  {
    ActDescribed(env);
    AlertOnlyDescribed(env);
    RecordStagesDescribed(env);
  }

  lemma SelectorsDescribed2(env: Env2)
    ensures SelectorHonours(BudgetGate(env), Signature({TsField}, {}), {"budget_ok", "budget_exhausted"}, Fields2)
    ensures SelectorHonours(BandSelector(env), Signature({VerdictField}, {BandField}),
              {"autoact", "autoact_alert", "alert_only"}, Fields2)
  {
    forall db: Db, p: Payload<Meta2> | {VerdictField} <= Fields2(p.meta)
      ensures match BandSelector(env).select(db, p).out
              case Raised(e) => !WiringFault(e)
              case Ok(r) => r.branch in {"autoact", "autoact_alert", "alert_only"}
                            && Fields2(p.meta) + {BandField} <= Fields2(r.payload.meta)
    {
      assert VerdictField in Fields2(p.meta);
    }
    forall db: Db, p: Payload<Meta2> | {TsField} <= Fields2(p.meta)
      ensures match BudgetGate(env).select(db, p).out
              case Raised(e) => !WiringFault(e)
              case Ok(r) => r.branch in {"budget_ok", "budget_exhausted"}
                            && Fields2(p.meta) + {} <= Fields2(r.payload.meta)
    {
      assert TsField in Fields2(p.meta);
    }
  }

  lemma BudgetOkStagesDescribed(env: Env2)
    requires Sane2(env)
    ensures ChainHonours(BudgetOkTree(env).stages, BUDGET_OK_PLAN.stages, Fields2)
  {
    QuietStagesDescribed(env);
    RequestDescribed(env);
    CallStagesDescribed(env);
    var check, checked := [ValidateVerdict(env)], [VALIDATE2];
    ChainCons(RecordUsage(), check, USAGE2, checked, Fields2);
    ChainCons(CallLlm(env), [RecordUsage()] + check, CALL2, [USAGE2] + checked, Fields2);
    var call, called := [CallLlm(env)] + ([RecordUsage()] + check), [CALL2] + ([USAGE2] + checked);
    ChainCons(BuildRequest(env), call, REQUEST2, called, Fields2);
    ChainCons(FetchContext(env), [BuildRequest(env)] + call, CONTEXT2, [REQUEST2] + called, Fields2);
    assert BudgetOkTree(env).stages == [FetchContext(env)] + ([BuildRequest(env)] + call);
    assert BUDGET_OK_PLAN.stages == [CONTEXT2] + ([REQUEST2] + called);
  }

  lemma BudgetOkRoutesDescribed(env: Env2, b: string)
    requires Sane2(env) && b in BUDGET_OK_PLAN.routes
    ensures b in BudgetOkTree(env).routes && Describes(BUDGET_OK_PLAN.routes[b], BudgetOkTree(env).routes[b], Fields2)
  {
    OutcomesDescribed(env);
    var act, alert := ActTree(env), AlertOnlyTree(env);
    assert BudgetOkTree(env).routes == map["autoact" := act, "autoact_alert" := act, "alert_only" := alert];
    assert BudgetOkTree(env).routes[b] == act || BudgetOkTree(env).routes[b] == alert;
  }

  lemma BudgetOkDescribed(env: Env2)
    requires Sane2(env)
    ensures Describes(BUDGET_OK_PLAN, BudgetOkTree(env), Fields2)
  {
    BudgetOkStagesDescribed(env);
    SelectorsDescribed2(env);
    var plan, tree := BUDGET_OK_PLAN, BudgetOkTree(env);
    forall b | b in plan.routes ensures b in tree.routes && Describes(plan.routes[b], tree.routes[b], Fields2) {
      BudgetOkRoutesDescribed(env, b);
    }
    assert tree.routes.Keys == plan.routes.Keys;
  }

  lemma PreludeDescribed2(env: Env2)
    requires Sane2(env)
    ensures ChainHonours(Tree2(env).stages, TREE2_PLAN.stages, Fields2)
  {
    QuietStagesDescribed(env);
    ChainCons(Timestamp2(env), [CorrelationId2(env)], TS2, [CORRELATION2], Fields2);
    assert Tree2(env).stages == [Timestamp2(env)] + [CorrelationId2(env)];
    assert TREE2_PLAN.stages == [TS2] + [CORRELATION2];
  }

  lemma Tree2RoutesDescribed(env: Env2, b: string)
    requires Sane2(env) && b in TREE2_PLAN.routes
    ensures b in Tree2(env).routes && Describes(TREE2_PLAN.routes[b], Tree2(env).routes[b], Fields2)
  {
    BudgetOkDescribed(env);
    ExhaustedDescribed(env);
    var ok, exhausted := BudgetOkTree(env), ExhaustedTree(env);
    assert Tree2(env).routes == map["budget_ok" := ok, "budget_exhausted" := exhausted];
  }

  lemma Tree2Described(env: Env2)
    requires Sane2(env)
    ensures Describes(TREE2_PLAN, Tree2(env), Fields2)
  {
    PreludeDescribed2(env);
    SelectorsDescribed2(env);
    var plan, tree := TREE2_PLAN, Tree2(env);
    forall b | b in plan.routes ensures b in tree.routes && Describes(plan.routes[b], tree.routes[b], Fields2) {
      Tree2RoutesDescribed(env, b);
    }
    assert tree.routes.Keys == plan.routes.Keys;
  }

  lemma OutcomePlanWired(had: set<Field>)
    requires {TsField, CorrelationField} <= had
    ensures VerdictField in had ==> Wired(OUTCOME_PLAN, had)
    ensures Wired(EXHAUSTED_PLAN, had)
  {
    var event := had + {AuditEventField};
    assert OUTCOME_PLAN.stages == [OUTCOME2] + ([DRAFT2] + ([AUDIT2] + ([MARK2] + [])));
    assert EXHAUSTED_PLAN.stages == [EXHAUSTED2] + ([AUDIT2] + ([MARK2] + []));
    WiredCons(MARK2, [], event + {} + {});
    WiredCons(MARK2, [], event + {});
    WiredCons(AUDIT2, [MARK2] + [], event + {});
    WiredCons(AUDIT2, [MARK2] + [], event);
    WiredCons(DRAFT2, [AUDIT2] + ([MARK2] + []), event);
    WiredCons(OUTCOME2, [DRAFT2] + ([AUDIT2] + ([MARK2] + [])), had);
    WiredCons(EXHAUSTED2, [AUDIT2] + ([MARK2] + []), had);
  }

  lemma BudgetOkPlanWired(had: set<Field>)
    requires {TsField, CorrelationField} <= had
    ensures Wired(BUDGET_OK_PLAN, had)
  {
    var asked := had + {ContextField} + {RequestField};
    var called := asked + {VerdictField, UsageField};
    assert BUDGET_OK_PLAN.stages == [CONTEXT2] + ([REQUEST2] + ([CALL2] + ([USAGE2] + ([VALIDATE2] + []))));
    WiredCons(VALIDATE2, [], called + {});
    WiredCons(USAGE2, [VALIDATE2] + [], called);
    WiredCons(CALL2, [USAGE2] + ([VALIDATE2] + []), asked);
    WiredCons(REQUEST2, [CALL2] + ([USAGE2] + ([VALIDATE2] + [])), had + {ContextField});
    WiredCons(CONTEXT2, [REQUEST2] + ([CALL2] + ([USAGE2] + ([VALIDATE2] + []))), had);
    var given := called + {} + {};
    assert Given(BUDGET_OK_PLAN.stages, had) == given;
    OutcomePlanWired(given + {BandField});
  }

  /** The static check passes for the Tier 2 tree from an empty start. */
  lemma Tree2PlanWired()
    ensures Wired(TREE2_PLAN, {})
  {
    var had := {} + {TsField} + {CorrelationField};
    assert TREE2_PLAN.stages == [TS2] + ([CORRELATION2] + []);
    WiredCons(TS2, [CORRELATION2] + [], {});
    WiredCons(CORRELATION2, [], {} + {TsField});
    assert Given(TREE2_PLAN.stages, {}) == had;
    BudgetOkPlanWired(had + {});
    OutcomePlanWired(had + {});
  }

  /** The composed Tier 2 pipeline never misses a field or a route, on any payload whatever. */
  lemma Tier2NoFault(env: Env2, db: Db, p: Payload<Meta2>)
    requires Sane2(env)
    ensures Run(Build2(env), db, p).out.Raised? ==> !WiringFault(Run(Build2(env), db, p).out.exn)
  {
    Tree2Described(env);
    Tree2PlanWired();
    WrappingKeepsThePlan(TREE2_PLAN, Tree2(env), Fields2, Correlation2);
    WiredIsSound(TREE2_PLAN, Build2(env), Fields2, {}, db, p);
  }
}
