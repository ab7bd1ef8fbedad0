/** The message-agnostic pipeline framework: a tree of stages and selectors, its interpreter,
    and a static wiring check. */
module Pipelines {
  import opened Model
  import opened StateDb

  datatype Payload<+M> = Payload(text: string, meta: M)

  /** What one stage, selector or whole run did: the effects in order, then how it ended. */
  datatype Step<+R> = Step(effects: seq<Effect>, out: Outcome<R>)

  datatype StageKind = FilterStage | AugmentStage

  /** A stage reads the database as it stands when the stage starts. */
  datatype Stage<!M> = Stage(
    name: string, kind: StageKind, run: (Db, Payload<M>) -> Step<Payload<M>>)

  datatype Routed<+M> = Routed(branch: string, payload: Payload<M>)

  datatype Selector<!M> = Selector(name: string, select: (Db, Payload<M>) -> Step<Routed<M>>)

  datatype Pipeline<!M> = Pipeline(
    stages: seq<Stage<M>>, selector: Option<Selector<M>>, routes: map<string, Pipeline<M>>)

  // ----- The interpreter -----

  function After<R>(done: seq<Effect>, rest: Step<R>): Step<R> {
    Step(done + rest.effects, rest.out)
  }

  function RunStages<M>(stages: seq<Stage<M>>, db: Db, p: Payload<M>): Step<Payload<M>>
    decreases |stages|
  {
    if stages == [] then Step([], Ok(p))
    else
      var s := stages[0].run(db, p);
      match s.out
      case Raised(_) => s
      case Ok(q) => After(s.effects, RunStages(stages[1..], Replay(db, s.effects), q))
  }

  lemma RunCons<M>(s: Stage<M>, rest: seq<Stage<M>>, db: Db, p: Payload<M>)
    ensures var r := s.run(db, p);
            RunStages([s] + rest, db, p) ==
              match r.out
              case Raised(_) => r
              case Ok(q) => After(r.effects, RunStages(rest, Replay(db, r.effects), q))
  {
    assert ([s] + rest)[1..] == rest;
  }

  lemma RunSilent<M>(s: Stage<M>, rest: seq<Stage<M>>, db: Db, p: Payload<M>, q: Payload<M>)
    requires s.run(db, p) == Step([], Ok(q))
    ensures RunStages([s] + rest, db, p) == RunStages(rest, db, q)
  {
    RunCons(s, rest, db, p);
  }

  /** All stages in order, then the branch the selector names, if there is a selector. */
  function Run<M>(tree: Pipeline<M>, db: Db, p: Payload<M>): Step<Payload<M>>
    decreases tree, 1
  {
    var s := RunStages(tree.stages, db, p);
    if s.out.Raised? || tree.selector.None? then s
    else
      var d := Replay(db, s.effects);
      var c := tree.selector.value.select(d, s.out.value);
      After(s.effects, After(c.effects, Follow(tree, Replay(d, c.effects), c.out)))
  }

  function Follow<M>(tree: Pipeline<M>, db: Db, choice: Outcome<Routed<M>>): Step<Payload<M>>
    decreases tree, 0
  {
    match choice
    case Raised(e) => Step([], Raised(e))
    case Ok(r) =>
      if r.branch in tree.routes then Run(tree.routes[r.branch], db, r.payload)
      else Step([], Raised(UnknownBranch(r.branch)))
  }

  /** `db` has performed the effects `es` since it held the state `was` and the history `log`. */
  ghost predicate Performed(db: StateDB, log: seq<Effect>, was: Db, es: seq<Effect>)
    reads db
  {
    db.Valid() && db.history == log + es && db.View() == Replay(was, es)
  }

  lemma PerformedMore(
    db: StateDB, log: seq<Effect>, was: Db, a: seq<Effect>, b: seq<Effect>)
    requires db.Valid() && db.history == (log + a) + b && db.View() == Replay(Replay(was, a), b)
    ensures Performed(db, log, was, a + b)
  {
    ReplayConcat(was, a, b);
    assert (log + a) + b == log + (a + b);
  }

  lemma RunStagesStep<M>(
    whole: Step<Payload<M>>, done: seq<Effect>, stages: seq<Stage<M>>, i: nat, db: Db, p: Payload<M>)
    requires i < |stages| && whole == After(done, RunStages(stages[i..], db, p))
    ensures var s := stages[i].run(db, p);
            whole == match s.out
                     case Raised(_) => After(done, s)
                     case Ok(q) => After(done + s.effects, RunStages(stages[i + 1..], Replay(db, s.effects), q))
  {
    assert stages[i..][0] == stages[i] && stages[i..][1..] == stages[i + 1..];
    var s := stages[i].run(db, p);
    if s.out.Ok? {
      var rest := RunStages(stages[i + 1..], Replay(db, s.effects), s.out.value);
      assert done + (s.effects + rest.effects) == (done + s.effects) + rest.effects;
    }
  }

  /** The stage loop: each stage runs against the live database and rebinds the payload. */
  method RunChain<M>(stages: seq<Stage<M>>, db: StateDB, p: Payload<M>)
    returns (out: Outcome<Payload<M>>)
    requires db.Valid()
    modifies db
    ensures out == RunStages(stages, old(db.View()), p).out
    ensures Performed(db, old(db.history), old(db.View()), RunStages(stages, old(db.View()), p).effects)
  {
    ghost var was, log, whole := db.View(), db.history, RunStages(stages, db.View(), p);
    ghost var done: seq<Effect> := [];
    var payload := p;
    assert stages[0..] == stages;
    for i := 0 to |stages|
      invariant Performed(db, log, was, done)
      invariant whole == After(done, RunStages(stages[i..], db.View(), payload))
    {
      RunStagesStep(whole, done, stages, i, db.View(), payload);
      var step := stages[i].run(db.View(), payload);
      db.PerformAll(step.effects);
      PerformedMore(db, log, was, done, step.effects);
      done := done + step.effects;
      if step.out.Raised? {
        return Raised(step.out.exn);
      }
      payload := step.out.value;
    }
    assert done + [] == done;
    out := Ok(payload);
  }

  /** The interpreter as the daemon executes it, against the live database. */
  method RunPipeline<M>(tree: Pipeline<M>, db: StateDB, p: Payload<M>)
    returns (out: Outcome<Payload<M>>)
    requires db.Valid()
    modifies db
    ensures out == Run(tree, old(db.View()), p).out
    ensures Performed(db, old(db.history), old(db.View()), Run(tree, old(db.View()), p).effects)
    decreases tree
  {
    ghost var was, log, s := db.View(), db.history, RunStages(tree.stages, db.View(), p);
    out := RunChain(tree.stages, db, p);
    if tree.selector.None? || out.Raised? {
      return;
    }
    ghost var d, logAfter := db.View(), db.history;
    var choice := tree.selector.value.select(db.View(), out.value);
    db.PerformAll(choice.effects);
    ghost var rest := Follow(tree, db.View(), choice.out);
    ghost var whole := Run(tree, was, p);
    assert whole == After(s.effects, After(choice.effects, rest));
    if choice.out.Raised? {
      out := Raised(choice.out.exn);
      assert choice.effects + [] == choice.effects;
    } else if choice.out.value.branch !in tree.routes {
      out := Raised(UnknownBranch(choice.out.value.branch));
      assert choice.effects + [] == choice.effects;
    } else {
      out := RunPipeline(tree.routes[choice.out.value.branch], db, choice.out.value.payload);
      PerformedMore(db, logAfter, d, choice.effects, rest.effects);
    }
    PerformedMore(db, log, was, s.effects, choice.effects + rest.effects);
  }

  lemma RunSelects<M>(
    tree: Pipeline<M>, db: Db, p: Payload<M>, s: Step<Payload<M>>, c: Step<Routed<M>>)
    requires s == RunStages(tree.stages, db, p) && s.out.Ok? && tree.selector.Some?
    requires c == tree.selector.value.select(Replay(db, s.effects), s.out.value) && c.effects == []
    ensures Run(tree, db, p) == After(s.effects, Follow(tree, Replay(db, s.effects), c.out))
  {
    var rest := Follow(tree, Replay(db, s.effects), c.out);
    assert [] + rest.effects == rest.effects;
  }

  lemma RunFails<M>(tree: Pipeline<M>, db: Db, p: Payload<M>)
    requires RunStages(tree.stages, db, p).out.Raised?
    ensures Run(tree, db, p) == RunStages(tree.stages, db, p)
  {}

  // ----- Static wiring -----

  /** What a module declares: the metadata fields it reads and the ones it sets. */
  datatype Signature = Signature(needs: set<Field>, gives: set<Field>)

  /** The wiring of a tree, without its behaviour. A selector may name any of `branches`. */
  datatype Plan = Plan(
    stages: seq<Signature>, selector: Option<Signature>, branches: set<string>,
    routes: map<string, Plan>)

  function Given(sigs: seq<Signature>, have: set<Field>): set<Field> {
    if sigs == [] then have else Given(sigs[1..], have + sigs[0].gives)
  }

  predicate StagesWired(sigs: seq<Signature>, have: set<Field>) {
    sigs == [] || (sigs[0].needs <= have && StagesWired(sigs[1..], have + sigs[0].gives))
  }

  lemma WiredCons(sig: Signature, rest: seq<Signature>, have: set<Field>)
    ensures StagesWired([sig] + rest, have) <==> sig.needs <= have && StagesWired(rest, have + sig.gives)
    ensures Given([sig] + rest, have) == Given(rest, have + sig.gives)
  {
    assert ([sig] + rest)[1..] == rest;
  }

  /** The static check: every field is set before it is read, every branch has a route. */
  predicate Wired(plan: Plan, have: set<Field>) {
    && StagesWired(plan.stages, have)
    && (plan.selector.Some? ==>
          var had := Given(plan.stages, have);
          && plan.selector.value.needs <= had
          && plan.branches <= plan.routes.Keys
          && forall b | b in plan.routes :: b in plan.branches ==>
               Wired(plan.routes[b], had + plan.selector.value.gives))
  }

  predicate WiringFault(e: Exn) {
    e.MissingMeta? || e.UnknownBranch?
  }

  /** `out` keeps the fields already set, adds the declared ones, and is no wiring fault. */
  ghost predicate Delivers<M>(has: M -> set<Field>, sig: Signature, meta: M, out: Outcome<M>) {
    match out
    case Raised(e) => !WiringFault(e)
    case Ok(next) => has(meta) + sig.gives <= has(next)
  }

  function MetaOf<M>(out: Outcome<Payload<M>>): Outcome<M> {
    match out
    case Raised(e) => Raised(e)
    case Ok(p) => Ok(p.meta)
  }

  ghost predicate StageHonours<M(!new)>(stage: Stage<M>, sig: Signature, has: M -> set<Field>) {
    forall db: Db, p: Payload<M> :: sig.needs <= has(p.meta) ==>
      Delivers(has, sig, p.meta, MetaOf(stage.run(db, p).out))
  }

  ghost predicate SelectorHonours<M(!new)>(
    sel: Selector<M>, sig: Signature, branches: set<string>, has: M -> set<Field>)
  {
    forall db: Db, p: Payload<M> :: sig.needs <= has(p.meta) ==>
      match sel.select(db, p).out
      case Raised(e) => !WiringFault(e)
      case Ok(r) => r.branch in branches && has(p.meta) + sig.gives <= has(r.payload.meta)
  }

  ghost predicate ChainHonours<M(!new)>(stages: seq<Stage<M>>, sigs: seq<Signature>, has: M -> set<Field>) {
    |stages| == |sigs| && forall i | 0 <= i < |stages| :: StageHonours(stages[i], sigs[i], has)
  }

  lemma ChainCons<M(!new)>(
    s: Stage<M>, stages: seq<Stage<M>>, sig: Signature, sigs: seq<Signature>, has: M -> set<Field>)
    requires StageHonours(s, sig, has) && ChainHonours(stages, sigs, has)
    ensures ChainHonours([s] + stages, [sig] + sigs, has)
  {
    forall i | 0 <= i <= |stages| ensures StageHonours(([s] + stages)[i], ([sig] + sigs)[i], has) {
      if i > 0 {
        assert ([s] + stages)[i] == stages[i - 1] && ([sig] + sigs)[i] == sigs[i - 1];
      }
    }
  }

  /** Every module of `tree` does what `plan` declares of it, and the shapes agree. */
  ghost predicate Describes<M(!new)>(plan: Plan, tree: Pipeline<M>, has: M -> set<Field>)
    decreases plan
  {
    && ChainHonours(tree.stages, plan.stages, has)
    && plan.selector.Some? == tree.selector.Some?
    && (tree.selector.Some? ==>
          SelectorHonours(tree.selector.value, plan.selector.value, plan.branches, has))
    && plan.routes.Keys == tree.routes.Keys
    && forall b | b in plan.routes :: Describes(plan.routes[b], tree.routes[b], has)
  }

  lemma {:induction false} StagesSound<M(!new)>(
    sigs: seq<Signature>, stages: seq<Stage<M>>, has: M -> set<Field>, have: set<Field>,
    db: Db, p: Payload<M>)
    requires ChainHonours(stages, sigs, has)
    requires StagesWired(sigs, have) && have <= has(p.meta)
    ensures match RunStages(stages, db, p).out
            case Raised(e) => !WiringFault(e)
            case Ok(q) => Given(sigs, have) <= has(q.meta)
    decreases |stages|
  {
    if stages != [] {
      var s := stages[0].run(db, p);
      assert StageHonours(stages[0], sigs[0], has);
      assert Delivers(has, sigs[0], p.meta, MetaOf(s.out));
      if s.out.Ok? {
        StagesSound(sigs[1..], stages[1..], has, have + sigs[0].gives, Replay(db, s.effects), s.out.value);
      }
    }
  }

  /** Soundness of the check: a tree whose plan is wired never misses a field or a route. */
  lemma {:induction false} WiredIsSound<M(!new)>(
    plan: Plan, tree: Pipeline<M>, has: M -> set<Field>, have: set<Field>, db: Db, p: Payload<M>)
    requires Wired(plan, have) && Describes(plan, tree, has) && have <= has(p.meta)
    ensures Run(tree, db, p).out.Raised? ==> !WiringFault(Run(tree, db, p).out.exn)
    decreases plan
  {
    StagesSound(plan.stages, tree.stages, has, have, db, p);
    var s := RunStages(tree.stages, db, p);
    if s.out.Ok? && tree.selector.Some? {
      var sel := tree.selector.value;
      var d := Replay(db, s.effects);
      var c := sel.select(d, s.out.value);
      assert SelectorHonours(sel, plan.selector.value, plan.branches, has);
      if c.out.Ok? {
        var b := c.out.value.branch;
        WiredIsSound(plan.routes[b], tree.routes[b], has,
          Given(plan.stages, have) + plan.selector.value.gives,
          Replay(d, c.effects), c.out.value.payload);
      }
    }
  }

  // ----- The check is also the weakest one: an unwired plan has a tree that faults -----

  function Literal(sig: Signature): Stage<set<Field>> {
    Stage("Literal", FilterStage, (db: Db, p: Payload<set<Field>>) =>
      if sig.needs <= p.meta then Step([], Ok(Payload(p.text, p.meta + sig.gives)))
      else Step([], Raised(MissingMeta(TsField))))
  }

  function Literals(sigs: seq<Signature>): (r: seq<Stage<set<Field>>>)
    ensures |r| == |sigs| && forall i | 0 <= i < |r| :: r[i] == Literal(sigs[i])
  {
    if sigs == [] then [] else [Literal(sigs[0])] + Literals(sigs[1..])
  }

  ghost predicate BadBranch(plan: Plan, had: set<Field>, b: string) {
    b in plan.branches && (b in plan.routes ==> !Wired(plan.routes[b], had))
  }

  ghost function Steer(sig: Signature, branch: Option<string>): Selector<set<Field>> {
    Selector("Steer", (db: Db, p: Payload<set<Field>>) =>
      if !(sig.needs <= p.meta) then Step([], Raised(MissingMeta(TsField)))
      else if branch.None? then Step([], Raised(Failure("no branch")))
      else Step([], Ok(Routed(branch.value, Payload(p.text, p.meta + sig.gives)))))
  }

  ghost function WorstBranch(plan: Plan, had: set<Field>): (b: Option<string>)
    ensures b.Some? ==> b.value in plan.branches
    ensures (exists x :: BadBranch(plan, had, x)) ==> b.Some? && BadBranch(plan, had, b.value)
  {
    if x :| BadBranch(plan, had, x) then Some(x) else None
  }

  /** A tree that does exactly what `plan` declares and always takes a faulty branch if there is one. */
  ghost function Culprit(plan: Plan, have: set<Field>): Pipeline<set<Field>>
    decreases plan
  {
    if plan.selector.None? then
      Pipeline(Literals(plan.stages), None, map b | b in plan.routes :: Culprit(plan.routes[b], {}))
    else
      var had := Given(plan.stages, have) + plan.selector.value.gives;
      Pipeline(
        Literals(plan.stages), Some(Steer(plan.selector.value, WorstBranch(plan, had))),
        map b | b in plan.routes :: Culprit(plan.routes[b], had))
  }

  lemma {:induction false} CulpritIsDescribed(plan: Plan, have: set<Field>)
    ensures Describes(plan, Culprit(plan, have), (m: set<Field>) => m)
    decreases plan
  {
    var has := (m: set<Field>) => m;
    var tree := Culprit(plan, have);
    forall i | 0 <= i < |tree.stages| ensures StageHonours(tree.stages[i], plan.stages[i], has) {
      forall db: Db, p: Payload<set<Field>> | plan.stages[i].needs <= has(p.meta)
        ensures Delivers(has, plan.stages[i], p.meta, MetaOf(tree.stages[i].run(db, p).out))
      {
        assert MetaOf(tree.stages[i].run(db, p).out) == Ok(p.meta + plan.stages[i].gives);
      }
    }
    var had := if plan.selector.None? then {} else Given(plan.stages, have) + plan.selector.value.gives;
    forall b | b in plan.routes ensures Describes(plan.routes[b], tree.routes[b], has) {
      CulpritIsDescribed(plan.routes[b], had);
    }
    if plan.selector.Some? {
      var sel, sig := tree.selector.value, plan.selector.value;
      forall db: Db, p: Payload<set<Field>> | sig.needs <= has(p.meta)
        ensures match sel.select(db, p).out
                case Raised(e) => !WiringFault(e)
                case Ok(r) => r.branch in plan.branches && has(p.meta) + sig.gives <= has(r.payload.meta)
      {
        assert sel.select(db, p).out == if WorstBranch(plan, had).None? then Raised(Failure("no branch"))
          else Ok(Routed(WorstBranch(plan, had).value, Payload(p.text, p.meta + sig.gives)));
      }
      assert SelectorHonours(sel, sig, plan.branches, has);
    }
  }

  lemma {:induction false} LiteralsRun(sigs: seq<Signature>, db: Db, p: Payload<set<Field>>)
    ensures RunStages(Literals(sigs), db, p)
         == Step([], if StagesWired(sigs, p.meta) then Ok(Payload(p.text, Given(sigs, p.meta)))
                     else Raised(MissingMeta(TsField)))
  {
    if sigs != [] && sigs[0].needs <= p.meta {
      assert Literals(sigs)[1..] == Literals(sigs[1..]);
      LiteralsRun(sigs[1..], db, Payload(p.text, p.meta + sigs[0].gives));
    }
  }

  lemma {:induction false} CulpritFaults(plan: Plan, have: set<Field>, db: Db, p: Payload<set<Field>>)
    requires !Wired(plan, have) && p.meta == have
    ensures Run(Culprit(plan, have), db, p).out.Raised?
    ensures WiringFault(Run(Culprit(plan, have), db, p).out.exn)
    decreases plan
  {
    LiteralsRun(plan.stages, db, p);
    if StagesWired(plan.stages, have) {
      var had := Given(plan.stages, have);
      var sig := plan.selector.value;
      if sig.needs <= had {
        var next := had + sig.gives;
        if plan.branches <= plan.routes.Keys {
          var b :| b in plan.routes && b in plan.branches && !Wired(plan.routes[b], next);
          assert BadBranch(plan, next, b);
        } else {
          var b :| b in plan.branches && b !in plan.routes.Keys;
          assert BadBranch(plan, next, b);
        }
        var w := WorstBranch(plan, next).value;
        if w in plan.routes {
          CulpritFaults(plan.routes[w], next, db, Payload(p.text, next));
        }
      }
    }
  }

  ghost predicate NeverFaults<M(!new)>(plan: Plan, have: set<Field>, has: M -> set<Field>) {
    forall tree: Pipeline<M>, db: Db, p: Payload<M> ::
      Describes(plan, tree, has) && have <= has(p.meta) && Run(tree, db, p).out.Raised? ==>
        !WiringFault(Run(tree, db, p).out.exn)
  }

  /** The check is exact: a plan is wired if and only if no tree it describes can fault. */
  lemma WiredIsExact(plan: Plan, have: set<Field>)
    ensures Wired(plan, have) <==> NeverFaults(plan, have, (m: set<Field>) => m)
  {
    var has := (m: set<Field>) => m;
    if Wired(plan, have) {
      forall tree: Pipeline<set<Field>>, db: Db, p: Payload<set<Field>> |
        Describes(plan, tree, has) && have <= has(p.meta) && Run(tree, db, p).out.Raised?
        ensures !WiringFault(Run(tree, db, p).out.exn)
      {
        WiredIsSound(plan, tree, has, have, db, p);
      }
    } else {
      var p := Payload("", have);
      CulpritIsDescribed(plan, have);
      CulpritFaults(plan, have, EMPTY_DB, p);
      assert have <= has(p.meta);
      assert Describes(plan, Culprit(plan, have), has) && Run(Culprit(plan, have), EMPTY_DB, p).out.Raised?;
    }
  }
}
