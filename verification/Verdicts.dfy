/** What becomes of a verdict: which confidence is acted on, alerted about, drafted for, and which failures
    end in quarantine. */
module Verdicts {
  import opened Model
  import opened StateDb
  import opened Pipelines
  import opened Tier1
  import opened Tier2
  import opened Escalate
  import opened RunFacts
  import BodyCleaning

  /** The reads succeed, a call is left for the day, and the model is asked and answers. */
  predicate Asked(env: Env3, db: Db) {
    && env.thread.Ok? && env.mailboxes.Ok? && env.tier2.context.Ok? && env.tier2.llm.Ok?
    && UsageOn(db, DateOf(env.tier2.now)).calls < env.tier2.config.budget
    && env.tier2.llm.value.tokensIn >= 0 && env.tier2.llm.value.tokensOut >= 0
  }

  /** And the answer keeps to the configured categories and the account's mailboxes. */
  predicate Usable(env: Env3, db: Db) {
    && Asked(env, db)
    && var v := env.tier2.llm.value.verdict;
    && v.category in env.tier2.config.categories
    && (v.suggested.mailbox.Some? ==> v.suggested.mailbox.value in env.mailboxes.value)
  }

  /** Both thresholds are numbers, and the lower one is not above the upper. */
  predicate InOrder(c: Config) {
    c.alertThreshold.At? && c.autoactThreshold.At? && c.alertThreshold.value <= c.autoactThreshold.value
  }

  // ----- Effects of the branches -----

  lemma InChain<T>(a: Step<()>, b: Step<T>, e: Effect)
    ensures e in Chain(a, b).effects <==> e in a.effects || (a.out.Ok? && e in b.effects)
  {}

  /** The one alert of a branch. */
  function AlertOf(env: Env2, v: Verdict, band: Band): Effect {
    Alerted(env.newId, (if band == AlertOnly then "Needs review: " else "Action taken: ") + v.category,
      if v.urgency.HighUrgency? then Critical else if v.urgency.MediumUrgency? then Normal else Low)
  }

  /** The executor takes the action, and the backend, if it is called, does not fail. */
  predicate Acts(env: Env2, v: Verdict) {
    Takes(v.suggested) && (v.suggested.kind == Ignore || env.applier.None?)
  }

  lemma TailEffects(env: Env2, m: Message, v: Verdict, event: string, detail: Option<string>, e: Effect)
    requires e.ActionCalled? || e.Alerted? || e.DraftCreated?
    ensures e in Chain(Draft(env.drafter, m.id, v.draftReply), Tier2.Records(env, m, Some(v), event, detail)).effects
       <==> v.draftReply.Some? && e == DraftCreated(m.id, v.draftReply.value)
  {
    InChain(Draft(env.drafter, m.id, v.draftReply), Tier2.Records(env, m, Some(v), event, detail), e);
  }

  lemma AlertOnlyEffects(env: Env2, m: Message, v: Verdict, e: Effect)
    requires e.ActionCalled? || e.Alerted? || e.DraftCreated?
    ensures e in Decide(env, m, v, AlertOnly).effects <==>
              || e == AlertOf(env, v, AlertOnly)
              || (env.alerter.None? && v.draftReply.Some? && e == DraftCreated(m.id, v.draftReply.value))
  {
    var event, detail := "tier2_alert_only_no_action", Some("{" + BandDetail(v, Some(AlertOnly)));
    TailEffects(env, m, v, event, detail, e);
    InChain(Notify(env.alerter, env.newId, "Needs review: " + v.category, AlertUrgencyOf(v.urgency)),
      Chain(Draft(env.drafter, m.id, v.draftReply), Tier2.Records(env, m, Some(v), event, detail)), e);
  }

  lemma ExecuteEffects(env: Env2, m: Message, v: Verdict, e: Effect)
    ensures var a := Execute(false, env.applier, m.id, v.suggested);
            && (e in a.effects <==> Applies(v.suggested) && e == ActionCalled(m.id, v.suggested))
            && (a.out.Ok? <==> Acts(env, v))
  {}

  lemma ActEffects(env: Env2, m: Message, v: Verdict, band: Band, e: Effect)
    requires e.ActionCalled? || e.Alerted? || e.DraftCreated?
    requires band != AlertOnly
    ensures var alerts := band == AutoactAlert || v.urgency.HighUrgency?;
            e in Decide(env, m, v, band).effects <==>
              || (Applies(v.suggested) && e == ActionCalled(m.id, v.suggested))
              || (Acts(env, v) && alerts && e == AlertOf(env, v, band))
              || (Acts(env, v) && (alerts ==> env.alerter.None?)
                  && v.draftReply.Some? && e == DraftCreated(m.id, v.draftReply.value))
  {
    var event, detail := "tier2_action_applied", Some(ActedDetail(v, Some(band)));
    var tail := Chain(Draft(env.drafter, m.id, v.draftReply), Tier2.Records(env, m, Some(v), event, detail));
    var alert := if AlertsWhenActing(v, Some(band))
                 then Notify(env.alerter, env.newId, "Action taken: " + v.category, AlertUrgencyOf(v.urgency))
                 else Step([], Ok(()));
    TailEffects(env, m, v, event, detail, e);
    InChain(alert, tail, e);
    ExecuteEffects(env, m, v, e);
    InChain(Execute(false, env.applier, m.id, v.suggested), Chain(alert, tail), e);
  }

  // ----- From the branches to the whole run -----

  /** The band in which the verdict is weighed. */
  function BandOf(env: Env2): Band
    requires env.llm.Ok? && InOrder(env.config)
  {
    var c := env.llm.value.verdict.confidence;
    if c >= env.config.autoactThreshold.value then Autoact
    else if c >= env.config.alertThreshold.value then AutoactAlert
    else AlertOnly
  }

  /** A run whose verdict is usable and whose thresholds are in order has the effects of its branch; any other
      calls, drafts and alerts about nothing that concerns a verdict. */
  lemma WeighEffects(env: Env2, m: Message, mailboxes: seq<string>, request: Request, e: Effect)
    requires e.ActionCalled? || e.Alerted? || e.DraftCreated?
    requires env.llm.Ok? && env.llm.value.tokensIn >= 0 && env.llm.value.tokensOut >= 0
    ensures var v := env.llm.value.verdict;
            e in Weigh(env, m, mailboxes, request, env.llm.value).effects <==>
              && v.category in env.config.categories
              && (v.suggested.mailbox.Some? ==> v.suggested.mailbox.value in mailboxes)
              && InOrder(env.config) && e in Decide(env, m, v, BandOf(env)).effects
  {
    hide Decide;
  }

  /** The alert that the day's budget is used up, and that of the quarantine. */
  function SkipAlert(env: Env3): Effect {
    Alerted(env.tier2.newId, "Tier 2 skipped: daily budget exhausted", Critical)
  }

  function QuarantineAlert(env: Env3): Effect {
    Alerted(env.quarantineId, "Tier 2 verdict quarantined", Critical)
  }

  predicate OutOfBudget(env: Env3, db: Db) {
    env.thread.Ok? && env.mailboxes.Ok? && UsageOn(db, DateOf(env.tier2.now)).calls >= env.tier2.config.budget
  }

  lemma AttemptEffects(env: Env3, db: Db, m: Message, e: Effect)
    requires e.ActionCalled? || e.Alerted? || e.DraftCreated?
    ensures e in Attempt(env, db, m).effects <==>
              || (Usable(env, db) && InOrder(env.tier2.config)
                  && e in Decide(env.tier2, m, env.tier2.llm.value.verdict, BandOf(env.tier2)).effects)
              || (OutOfBudget(env, db) && e == SkipAlert(env))
  {
    hide Decide, Weigh;
    if env.thread.Ok? && env.mailboxes.Ok? {
      var r := ResolvedFor(env, m);
      if !HasBudget(db, DateOf(env.tier2.now), env.tier2.config.budget) {
        InChain(Notify(env.tier2.alerter, env.tier2.newId, "Tier 2 skipped: daily budget exhausted", Critical),
          Tier2.Records(env.tier2, m, None, "tier2_budget_exhausted", None), e);
      } else if env.tier2.context.Ok? && env.tier2.llm.Ok? {
        var request := RequestFor(Start2(m, r).meta, env.tier2.config, m.body, env.tier2.context.value);
        if env.tier2.llm.value.tokensIn >= 0 && env.tier2.llm.value.tokensOut >= 0 {
          WeighEffects(env.tier2, m, r.mailboxes, request, e);
        } else {
          NegativeEffects(env.tier2, m, r.mailboxes, request, e);
        }
      }
    }
  }

  lemma NegativeEffects(env: Env2, m: Message, mailboxes: seq<string>, request: Request, e: Effect)
    requires e.ActionCalled? || e.Alerted? || e.DraftCreated?
    requires env.llm.Ok? && (env.llm.value.tokensIn < 0 || env.llm.value.tokensOut < 0)
    ensures e !in Weigh(env, m, mailboxes, request, env.llm.value).effects
  {
    hide Decide;
  }

  lemma EscalateEffects(env: Env3, db: Db, m: Message, e: Effect)
    requires e.ActionCalled? || e.Alerted? || e.DraftCreated?
    ensures e in EscalateMessage(env, db, m).effects <==>
              e in Attempt(env, db, m).effects || (Caught(Attempt(env, db, m).out) && e == QuarantineAlert(env))
  {
    hide Attempt;
  }

  lemma Titles(category: string)
    ensures "Needs review: " + category != "Action taken: " + category
    ensures "Tier 2 verdict quarantined" != "Needs review: " + category
    ensures "Tier 2 verdict quarantined" != "Action taken: " + category
  {
    assert ("Needs review: " + category)[0] == 'N' && ("Action taken: " + category)[0] == 'A';
  }

  lemma HasEffect(es: seq<Effect>)
    ensures CallsApplier(es) <==> exists e :: e in es && e.ActionCalled?
    ensures CreatesDraft(es) <==> exists e :: e in es && e.DraftCreated?
  {
    if CallsApplier(es) {
      var i :| 0 <= i < |es| && es[i].ActionCalled?;
      assert es[i] in es;
    }
    if CreatesDraft(es) {
      var i :| 0 <= i < |es| && es[i].DraftCreated?;
      assert es[i] in es;
    }
  }

  // ----- What confidence decides -----

  /** For one escalated message, whatever the collaborators answer: the applier is called if and only if the model
      was asked, its verdict is usable, the thresholds are numbers in order, the confidence is not below the lower
      one, and the verdict is to move or to tag, with a mailbox; and it is called with just that. */
  lemma ActsExactly(env: Env3, db: Db, m: Message)
    ensures var es, c := EscalateMessage(env, db, m).effects, env.tier2.config;
            && (CallsApplier(es) <==>
                  && Usable(env, db) && InOrder(c)
                  && env.tier2.llm.value.verdict.confidence >= c.alertThreshold.value
                  && Applies(env.tier2.llm.value.verdict.suggested))
            && (CallsApplier(es) ==> ActionCalled(m.id, env.tier2.llm.value.verdict.suggested) in es)
            && (forall e | e in es && e.ActionCalled? :: e == ActionCalled(m.id, env.tier2.llm.value.verdict.suggested))
  {
    var es := EscalateMessage(env, db, m).effects;
    HasEffect(es);
    forall e: Effect | e.ActionCalled? ensures e in es <==> CallsFor(env, db, m, e) {
      ActionEffect(env, db, m, e);
    }
    hide EscalateMessage, CallsApplier, CreatesDraft, Asked, Applies;
    if Usable(env, db) {
      var call := ActionCalled(m.id, env.tier2.llm.value.verdict.suggested);
      assert call in es <==> CallsFor(env, db, m, call);
    }
  }

  ghost predicate CallsFor(env: Env3, db: Db, m: Message, e: Effect) {
    && Usable(env, db) && InOrder(env.tier2.config)
    && env.tier2.llm.value.verdict.confidence >= env.tier2.config.alertThreshold.value
    && Applies(env.tier2.llm.value.verdict.suggested)
    && e == ActionCalled(m.id, env.tier2.llm.value.verdict.suggested)
  }

  lemma ActionEffect(env: Env3, db: Db, m: Message, e: Effect)
    requires e.ActionCalled?
    ensures e in EscalateMessage(env, db, m).effects <==> CallsFor(env, db, m, e)
  {
    hide Attempt, EscalateMessage, Decide, Usable, Applies;
    EscalateEffects(env, db, m, e);
    AttemptEffects(env, db, m, e);
    if Usable(env, db) && InOrder(env.tier2.config) {
      BranchEffects(env, db, m, e);
    }
  }

  /** The effects of the branch that a usable verdict takes. */
  lemma BranchEffects(env: Env3, db: Db, m: Message, e: Effect)
    requires e.ActionCalled? || e.Alerted? || e.DraftCreated?
    requires Usable(env, db) && InOrder(env.tier2.config)
    ensures var v := env.tier2.llm.value.verdict;
            var acted := v.confidence >= env.tier2.config.alertThreshold.value;
            var alerts := acted ==> v.confidence < env.tier2.config.autoactThreshold.value || v.urgency.HighUrgency?;
            e in Decide(env.tier2, m, v, BandOf(env.tier2)).effects <==>
              || (acted && Applies(v.suggested) && e == ActionCalled(m.id, v.suggested))
              || ((acted ==> Acts(env.tier2, v)) && alerts && e == AlertOf(env.tier2, v, BandOf(env.tier2)))
              || ((acted ==> Acts(env.tier2, v)) && (alerts ==> env.tier2.alerter.None?)
                  && v.draftReply.Some? && e == DraftCreated(m.id, v.draftReply.value))
  {
    hide Decide, Applies, Acts, AlertOf;
    var v := env.tier2.llm.value.verdict;
    if BandOf(env.tier2) == AlertOnly {
      AlertOnlyEffects(env.tier2, m, v, e);
    } else {
      ActEffects(env.tier2, m, v, BandOf(env.tier2), e);
    }
  }

  /** A usable verdict, with the thresholds in order, is alerted about in one of two ways. Below the lower threshold it
      is put up for review. From there on the action is reported once it has been taken, exactly if the confidence is
      below the upper threshold or the verdict is urgent. No other alert goes out but that of the quarantine. */
  lemma AlertsExactly(env: Env3, db: Db, m: Message)
    requires Usable(env, db) && InOrder(env.tier2.config)
    ensures var es, c, v := EscalateMessage(env, db, m).effects, env.tier2.config, env.tier2.llm.value.verdict;
            var urgency := if v.urgency.HighUrgency? then Critical
                           else if v.urgency.MediumUrgency? then Normal else Low;
            var review := Alerted(env.tier2.newId, "Needs review: " + v.category, urgency);
            var taken := Alerted(env.tier2.newId, "Action taken: " + v.category, urgency);
            && (review in es <==> v.confidence < c.alertThreshold.value)
            && (taken in es <==>
                  && v.confidence >= c.alertThreshold.value && Acts(env.tier2, v)
                  && (v.confidence < c.autoactThreshold.value || v.urgency.HighUrgency?))
            && (forall e | e in es && e.Alerted? :: e in {review, taken, QuarantineAlert(env)})
  {
    var es, v := EscalateMessage(env, db, m).effects, env.tier2.llm.value.verdict;
    hide Attempt, EscalateMessage, Decide, Asked, Acts, Applies, BandOf;
    BandIs(env.tier2);
    Titles(v.category);
    var review, taken := AlertOf(env.tier2, v, AlertOnly), AlertOf(env.tier2, v, Autoact);
    assert taken == AlertOf(env.tier2, v, AutoactAlert);
    BudgetLeft(env, db);
    forall e: Effect | e.Alerted?
      ensures e in es <==>
                || e in Decide(env.tier2, m, v, BandOf(env.tier2)).effects
                || (Caught(Attempt(env, db, m).out) && e == QuarantineAlert(env))
    {
      EscalateEffects(env, db, m, e);
      AttemptEffects(env, db, m, e);
    }
    BranchEffects(env, db, m, review);
    BranchEffects(env, db, m, taken);
    assert AlertOf(env.tier2, v, BandOf(env.tier2))
        == if v.confidence < env.tier2.config.alertThreshold.value then review else taken;
    assert review in es <==> v.confidence < env.tier2.config.alertThreshold.value;
    forall e | e in es && e.Alerted? ensures e in {review, taken, QuarantineAlert(env)} {
      BranchEffects(env, db, m, e);
    }
  }

  lemma BandIs(env: Env2)
    requires env.llm.Ok? && InOrder(env.config)
    ensures BandOf(env) == AlertOnly <==> env.llm.value.verdict.confidence < env.config.alertThreshold.value
  {}

  lemma BudgetLeft(env: Env3, db: Db)
    requires Usable(env, db)
    ensures !OutOfBudget(env, db)
  {}

  /** In particular nobody is told of a confident verdict that is not urgent, unless it ends in quarantine. */
  lemma ConfidentIsSilent(env: Env3, db: Db, m: Message)
    requires Usable(env, db) && InOrder(env.tier2.config)
    requires env.tier2.llm.value.verdict.confidence >= env.tier2.config.autoactThreshold.value
    requires !env.tier2.llm.value.verdict.urgency.HighUrgency?
    ensures forall e | e in EscalateMessage(env, db, m).effects && e.Alerted? :: e == QuarantineAlert(env)
  {
    hide EscalateMessage, Usable, Acts;
    AlertsExactly(env, db, m);
  }

  /** A draft is created, and with the verdict's own text, exactly if a usable verdict asks for one and all that
      comes before it, the action and the alert, has gone well; whatever the band. */
  lemma DraftsExactly(env: Env3, db: Db, m: Message, body: string)
    ensures var es, c := EscalateMessage(env, db, m).effects, env.tier2.config;
            DraftCreated(m.id, body) in es <==>
              && Usable(env, db) && InOrder(c)
              && var v := env.tier2.llm.value.verdict;
              && v.draftReply == Some(body)
              && (v.confidence >= c.alertThreshold.value ==> Acts(env.tier2, v))
              && (v.confidence < c.autoactThreshold.value || v.urgency.HighUrgency? ==> env.tier2.alerter.None?)
  {
    hide Attempt, EscalateMessage, Decide, Usable, Acts, Applies;
    var e := DraftCreated(m.id, body);
    EscalateEffects(env, db, m, e);
    AttemptEffects(env, db, m, e);
    if Usable(env, db) && InOrder(env.tier2.config) {
      BranchEffects(env, db, m, e);
    }
  }

  /** Thresholds that are not numbers, or out of order, end the process; the call has been recorded. */
  lemma BadThresholdsRaise(env: Env3, db: Db, m: Message)
    requires Usable(env, db) && !InOrder(env.tier2.config)
    ensures var s, date, r := EscalateMessage(env, db, m), DateOf(env.tier2.now), env.tier2.llm.value;
            && s.out == Raised(BadThresholds) && |s.effects| == 2
            && s.effects[0].LlmReturned? && s.effects[1] == CallRecorded(date, r.tokensIn, r.tokensOut)
  {}

  // ----- Quarantine -----

  /** A model that fails, a verdict that does not keep to the categories and mailboxes, and an action that cannot be
      carried out for want of a mailbox do not end the process: the message is quarantined. */
  lemma UnusableIsQuarantined(env: Env3, db: Db, m: Message)
    requires env.thread.Ok? && env.mailboxes.Ok? && env.tier2.context.Ok? && env.quarantineAlerter.None?
    requires UsageOn(db, DateOf(env.tier2.now)).calls < env.tier2.config.budget
    ensures env.tier2.llm == Raised(LlmClientError) ==>
              EscalateMessage(env, db, m).out == Ok(Quarantined(LlmClientError))
    ensures Asked(env, db) && !Usable(env, db) ==>
              EscalateMessage(env, db, m).out == Ok(Quarantined(VerdictInvalid))
    ensures Usable(env, db) && InOrder(env.tier2.config)
            && env.tier2.llm.value.verdict.confidence >= env.tier2.config.alertThreshold.value
            && env.tier2.llm.value.verdict.suggested.kind in {Move, Tag}
            && env.tier2.llm.value.verdict.suggested.mailbox.None? ==>
              EscalateMessage(env, db, m).out == Ok(Quarantined(ActionRejected(NoMailbox)))
  {
    var e2, r := env.tier2, ResolvedFor(env, m);
    var request := RequestFor(Start2(m, r).meta, e2.config, m.body, e2.context.value);
    if Asked(env, db) {
      if Usable(env, db) && InOrder(e2.config) {
        NoMailboxIsRejected(e2, m, e2.llm.value.verdict, BandOf(e2));
      }
      hide Decide, DateOf, RequestFor;
      assert !Usable(env, db) ==> Weigh(e2, m, r.mailboxes, request, e2.llm.value).out == Raised(VerdictInvalid);
    }
    hide Decide, RequestFor, DateOf, Quarantine;
  }

  lemma NoMailboxIsRejected(env: Env2, m: Message, v: Verdict, band: Band)
    ensures band != AlertOnly && v.suggested.kind in {Move, Tag} && v.suggested.mailbox.None? ==>
              Decide(env, m, v, band).out == Raised(ActionRejected(NoMailbox))
  {}

  lemma ChainEndsIn<T>(a: Step<()>, b: Step<T>, audit: Effect, mark: Effect)
    requires Chain(a, b).out.Ok? && (b.out.Ok? ==> EndsIn(b.effects, audit, mark))
    ensures EndsIn(Chain(a, b).effects, audit, mark) && b.out.Ok?
  {}

  /** What a quarantine leaves: an audit entry, the mark that says so, and last the alert. */
  lemma QuarantineIsRecorded(env: Env3, db: Db, m: Message)
    ensures var s := EscalateMessage(env, db, m);
            s.out.Ok? && s.out.value.Quarantined? ==>
              var n, now := |s.effects|, env.quarantineNow;
              && n >= 3 && s.effects[n - 1] == QuarantineAlert(env)
              && EndsIn(s.effects[..n - 1], AuditWritten(now, m.id, "tier2_quarantined", Some("quarantined")),
                   Marked(m.id, ProcessedRow(m.threadId, "tier2", None, Some("quarantined"), now)))
  {
    hide Attempt;
  }

  /** What is audited of a decided message: the branch, the verdict's category, and the band; */
  function AuditFor(env: Env2, m: Message, v: Verdict, acted: bool, sure: bool): Effect {
    var band := if !acted then "alert_only" else if sure then "autoact" else "autoact_alert";
    var told := "\"category\": \"" + v.category + "\", \"band\": \"" + band + "\"}";
    var kind := if v.suggested.kind == Move then "move" else if v.suggested.kind == Tag then "tag" else "ignore";
    AuditWritten(env.now, m.id, if acted then "tier2_action_applied" else "tier2_alert_only_no_action",
      Some(if acted then "{\"action_type\": \"" + kind + "\", " + told else "{" + told))
  }

  /** and what marks it: its verdict, and the action that suggests. */
  function MarkFor(env: Env2, m: Message, v: Verdict): Effect {
    var kind := if v.suggested.kind == Move then "move" else if v.suggested.kind == Tag then "tag" else "ignore";
    Marked(m.id, ProcessedRow(m.threadId, "tier2", Some(v), Some(kind), env.now))
  }

  lemma DecideEndsIn(env: Env2, m: Message, v: Verdict, band: Band)
    requires v.suggested.kind !in {Escalate, ArchiveReceipt}
    ensures Decide(env, m, v, band).out.Ok? ==>
              EndsIn(Decide(env, m, v, band).effects,
                AuditFor(env, m, v, band != AlertOnly, band == Autoact), MarkFor(env, m, v))
  {
    var audit, mark := AuditFor(env, m, v, band != AlertOnly, band == Autoact), MarkFor(env, m, v);
    var event := if band == AlertOnly then "tier2_alert_only_no_action" else "tier2_action_applied";
    var detail := if band == AlertOnly then "{" + BandDetail(v, Some(band)) else ActedDetail(v, Some(band));
    assert detail == audit.detail.value;
    var records := Tier2.Records(env, m, Some(v), event, Some(detail));
    assert EndsIn(records.effects, audit, mark);
    hide AuditFor, MarkFor, EndsIn, BandDetail, ActedDetail;
    if Decide(env, m, v, band).out.Ok? {
      var draft := Draft(env.drafter, m.id, v.draftReply);
      ChainEndsIn(draft, records, audit, mark);
      var tail := Chain(draft, records);
      if band == AlertOnly {
        ChainEndsIn(Notify(env.alerter, env.newId, "Needs review: " + v.category, AlertUrgencyOf(v.urgency)), tail,
          audit, mark);
      } else {
        var alert := if AlertsWhenActing(v, Some(band))
                     then Notify(env.alerter, env.newId, "Action taken: " + v.category, AlertUrgencyOf(v.urgency))
                     else Step([], Ok(()));
        ChainEndsIn(alert, tail, audit, mark);
        ChainEndsIn(Execute(false, env.applier, m.id, v.suggested), Chain(alert, tail), audit, mark);
      }
    }
  }

  /** A decided message is left audited, with what was done and why, and then marked with its verdict; */
  lemma DecidedIsRecorded(env: Env3, db: Db, m: Message)
    requires EscalateMessage(env, db, m).out.Ok? && EscalateMessage(env, db, m).out.value.Decided?
    requires env.tier2.llm.Ok? ==> WellShaped(env.tier2.llm.value.verdict)
    ensures Usable(env, db) && InOrder(env.tier2.config)
    ensures var s, c, v := EscalateMessage(env, db, m), env.tier2.config, env.tier2.llm.value.verdict;
            && s.out.value.verdict == v
            && EndsIn(s.effects,
                 AuditFor(env.tier2, m, v, v.confidence >= c.alertThreshold.value,
                   v.confidence >= c.autoactThreshold.value),
                 MarkFor(env.tier2, m, v))
  {
    hide AuditFor, MarkFor, EndsIn, Decide, EscalateMessage, Usable;
    var s, e2 := EscalateMessage(env, db, m), env.tier2;
    DecidedInBand(env, db, m);
    var v := e2.llm.value.verdict;
    DecideEndsIn(e2, m, v, BandOf(e2));
    AppendedEndsIn(e2, m, v, BandOf(e2), s.effects);
  }

  /** and one for which there was no budget left, as just that. */
  lemma SkippedIsRecorded(env: Env3, db: Db, m: Message)
    requires EscalateMessage(env, db, m).out == Ok(BudgetExhausted)
    ensures OutOfBudget(env, db)
    ensures var es, now := EscalateMessage(env, db, m).effects, env.tier2.now;
            es == [SkipAlert(env), AuditWritten(now, m.id, "tier2_budget_exhausted", None),
                   Marked(m.id, ProcessedRow(m.threadId, "tier2", None, None, now))]
  {
    hide Weigh, DateOf;
  }

  lemma AppendedEndsIn(env: Env2, m: Message, v: Verdict, band: Band, es: seq<Effect>)
    requires EndsIn(Decide(env, m, v, band).effects,
               AuditFor(env, m, v, band != AlertOnly, band == Autoact), MarkFor(env, m, v))
    requires |es| >= |Decide(env, m, v, band).effects|
    requires es[|es| - |Decide(env, m, v, band).effects|..] == Decide(env, m, v, band).effects
    ensures EndsIn(es, AuditFor(env, m, v, band != AlertOnly, band == Autoact), MarkFor(env, m, v))
  {
    hide Decide, AuditFor, MarkFor;
  }

  /** It was usable, and its branch's effects are the last. */
  lemma DecidedInBand(env: Env3, db: Db, m: Message)
    requires EscalateMessage(env, db, m).out.Ok? && EscalateMessage(env, db, m).out.value.Decided?
    ensures Usable(env, db) && InOrder(env.tier2.config) && env.tier2.llm.Ok?
    ensures var es, d := EscalateMessage(env, db, m).effects,
                         Decide(env.tier2, m, env.tier2.llm.value.verdict, BandOf(env.tier2));
            d.out.Ok? && |es| >= |d.effects| && es[|es| - |d.effects|..] == d.effects
    ensures EscalateMessage(env, db, m).out.value.verdict == env.tier2.llm.value.verdict
  {
    hide Decide, DateOf, RequestFor;
  }

  /** What the model is told: the message, its addressees as the `To` header lists them, its cleaned body, the thread
      before it, the mailboxes there are and the categories allowed, and what is known about it. */
  lemma TheModelIsTold(env: Env3, db: Db, m: Message)
    requires Asked(env, db)
    ensures var es, c := EscalateMessage(env, db, m).effects, env.tier2.config;
            |es| > 0 && es[0] == LlmReturned(DateOf(env.tier2.now), Request(
              m.subject, m.fromAddress, if "To" in m.headers then Addresses(m.headers["To"]) else [],
              BodyCleaning.CleanBody(c.stripHtml, m.body, c.maxBodyChars),
              env.thread.value.0, env.thread.value.1, env.mailboxes.value, c.categories, env.tier2.context.value))
  {
    var rest, call := RecordedOnce(env, db, m);
    var r := ResolvedFor(env, m);
    assert Addresses("") == [] by { assert BodyCleaning.StripLeft("") == ""; }
    assert call == LlmReturned(DateOf(env.tier2.now),
      RequestFor(Start2(m, r).meta, env.tier2.config, m.body, env.tier2.context.value));
  }

  /** Any other exception of a collaborator goes through, and ends the process. */
  lemma OthersEndTheProcess(env: Env3, db: Db, m: Message)
    ensures var s, a := EscalateMessage(env, db, m), Attempt(env, db, m);
            a.out.Raised? && a.out.exn !in {LlmClientError, VerdictInvalid} && !a.out.exn.ActionRejected? ==>
              s.out == Raised(a.out.exn) && s.effects == a.effects
  {
    hide Attempt;
  }

  // ----- One budget a day -----

  /** The answer of the model is recorded first, and once. */
  lemma RecordedOnce(env: Env3, db: Db, m: Message) returns (rest: seq<Effect>, call: Effect)
    requires Asked(env, db)
    ensures var r, date := env.tier2.llm.value, DateOf(env.tier2.now);
            EscalateMessage(env, db, m).effects == [call, CallRecorded(date, r.tokensIn, r.tokensOut)] + rest
    ensures !call.CallRecorded? && forall e | e in rest :: !e.CallRecorded?
    ensures call == LlmReturned(DateOf(env.tier2.now),
              RequestFor(Start2(m, ResolvedFor(env, m)).meta, env.tier2.config, m.body, env.tier2.context.value))
  {
    var r, resolved := env.tier2.llm.value, ResolvedFor(env, m);
    var request := RequestFor(Start2(m, resolved).meta, env.tier2.config, m.body, env.tier2.context.value);
    var es, w := EscalateMessage(env, db, m).effects, Weigh(env.tier2, m, resolved.mailboxes, request, r);
    call := LlmReturned(DateOf(env.tier2.now), request);
    var tail: seq<Effect>;
    tail := WeighTail(env.tier2, m, resolved.mailboxes, request);
    var a := Attempt(env, db, m);
    assert a.effects == w.effects;
    hide Weigh, Process2, RequestFor;
    rest := if Caught(a.out) then tail + Quarantine(env, m, a.out.exn).effects else tail;
    assert es == if Caught(a.out) then a.effects + Quarantine(env, m, a.out.exn).effects else a.effects;
  }

  lemma WeighTail(env: Env2, m: Message, mailboxes: seq<string>, request: Request) returns (tail: seq<Effect>)
    requires env.llm.Ok? && env.llm.value.tokensIn >= 0 && env.llm.value.tokensOut >= 0
    ensures var r, date := env.llm.value, DateOf(env.now);
            Weigh(env, m, mailboxes, request, r).effects
              == [LlmReturned(date, request), CallRecorded(date, r.tokensIn, r.tokensOut)] + tail
    ensures forall e | e in tail :: !e.CallRecorded?
  {
    var r, date := env.llm.value, DateOf(env.now);
    var w := Weigh(env, m, mailboxes, request, r);
    tail := w.effects[2..];
    hide Decide, DateOf;
    var b := ConfidenceBand(r.verdict.confidence, env.config.alertThreshold, env.config.autoactThreshold);
    if ValidVerdict(r.verdict, env.config.categories, mailboxes) && b.Ok? {
      DecideNeverRecords(env, m, r.verdict, b.value);
      assert tail == Decide(env, m, r.verdict, b.value).effects;
    }
  }

  lemma {:induction false} NothingRecorded(es: seq<Effect>, date: string)
    requires forall e | e in es :: !e.CallRecorded?
    ensures RecordedIn(es, date) == Usage(0, 0, 0)
  {
    if es != [] {
      assert es[0] in es && forall e | e in es[1..] :: e in es;
      NothingRecorded(es[1..], date);
    }
  }

  /** The day of a time stamp is its first ten characters, whatever the time. */
  lemma DayOf(day: string, time: string)
    requires |day| == 10
    ensures DateOf(day + time) == day
  {
    assert (day + time)[..10] == day;
    if |time| == 0 {
      assert day + time == day;
    }
  }

  /** At any time of a day, the budget asked about is that of the day, and the call and its tokens, either kind, are
      added to the day's account and to no other. */
  lemma BudgetIsPerDay(env: Env3, db: Db, m: Message, day: string, time: string)
    requires |day| == 10 && env.tier2.now == day + time && Asked(env, db)
    ensures UsageOn(db, day).calls < env.tier2.config.budget
    ensures var u, r, after := UsageOn(db, day), env.tier2.llm.value, Replay(db, EscalateMessage(env, db, m).effects);
            && UsageOn(after, day) == Usage(u.calls + 1, u.tokensIn + r.tokensIn, u.tokensOut + r.tokensOut)
            && forall other | other != day :: UsageOn(after, other) == UsageOn(db, other)
  {
    DayOf(day, time);
    hide EscalateMessage, DateOf, RecordedIn, UsageOn, Replay;
    AccountOf(env, db, m, day, day);
    forall other | other != day
      ensures UsageOn(Replay(db, EscalateMessage(env, db, m).effects), other) == UsageOn(db, other)
    {
      AccountOf(env, db, m, day, other);
    }
  }

  lemma AccountOf(env: Env3, db: Db, m: Message, day: string, d: string)
    requires Asked(env, db) && DateOf(env.tier2.now) == day
    ensures var u, more := UsageOn(db, d), if d == day then OneCall(env.tier2.llm.value) else Usage(0, 0, 0);
            UsageOn(Replay(db, EscalateMessage(env, db, m).effects), d)
              == Usage(u.calls + more.calls, u.tokensIn + more.tokensIn, u.tokensOut + more.tokensOut)
  {
    var rest, call := RecordedOnce(env, db, m);
    hide EscalateMessage, DateOf, RecordedIn, UsageOn, Replay, RequestFor;
    OneRecorded(rest, call, day, env.tier2.llm.value, d);
    UsageIsWhatWasRecorded(db, EscalateMessage(env, db, m).effects, d);
  }

  function OneCall(r: LlmResult): Usage
    requires r.tokensIn >= 0 && r.tokensOut >= 0
  {
    Usage(1, r.tokensIn, r.tokensOut)
  }

  lemma OneRecorded(rest: seq<Effect>, call: Effect, day: string, r: LlmResult, d: string)
    requires r.tokensIn >= 0 && r.tokensOut >= 0 && !call.CallRecorded? && forall e | e in rest :: !e.CallRecorded?
    ensures RecordedIn([call, CallRecorded(day, r.tokensIn, r.tokensOut)] + rest, d)
         == if d == day then OneCall(r) else Usage(0, 0, 0)
  {
    NothingRecorded(rest, d);
    var es := [call, CallRecorded(day, r.tokensIn, r.tokensOut)] + rest;
    assert es[1..][1..] == rest;
  }
}
