/** The tracing wrappers put around every stage and selector when a pipeline is composed. */
module Tracing {
  import opened Model
  import opened StateDb
  import opened Pipelines

  function StageTrace<M>(s: Stage<M>, correlation: string): Effect {
    Traced(correlation, s.name + " ran", if s.kind == AugmentStage then "augment" else "filter")
  }

  function SelectorTrace<M>(s: Selector<M>, branch: string, correlation: string): Effect {
    Traced(correlation, s.name + " selected", branch)
  }

  /** One trace after the wrapped stage returns, none if it raises. The wrapper is a filter. */
  function WrapStage<M>(s: Stage<M>, corr: M -> string): Stage<M> {
    Stage("TracingStage", FilterStage, (db: Db, p: Payload<M>) =>
      var r := s.run(db, p);
      if r.out.Raised? then r
      else Step(r.effects + [StageTrace(s, corr(p.meta))], r.out))
  }

  function WrapSelector<M>(s: Selector<M>, corr: M -> string): Selector<M> {
    Selector("TracingSelector", (db: Db, p: Payload<M>) =>
      var r := s.select(db, p);
      if r.out.Raised? then r
      else Step(r.effects + [SelectorTrace(s, r.out.value.branch, corr(p.meta))], r.out))
  }

  function WrapStages<M>(stages: seq<Stage<M>>, corr: M -> string): (r: seq<Stage<M>>)
    ensures |r| == |stages|
    ensures forall i | 0 <= i < |r| :: r[i] == WrapStage(stages[i], corr)
  {
    if stages == [] then [] else [WrapStage(stages[0], corr)] + WrapStages(stages[1..], corr)
  }

  /** A tree composed from wrapped stages and selectors throughout. */
  function WrapTree<M>(tree: Pipeline<M>, corr: M -> string): Pipeline<M> {
    Pipeline(
      WrapStages(tree.stages, corr),
      if tree.selector.None? then None else Some(WrapSelector(tree.selector.value, corr)),
      map b | b in tree.routes :: WrapTree(tree.routes[b], corr))
  }

  // ----- What a traced run looks like, told from the unwrapped tree alone -----

  /** The effects of one stage or selection, and its trace if it completed. */
  datatype Segment = Segment(effects: seq<Effect>, trace: Option<Effect>)

  function Plain(trail: seq<Segment>): seq<Effect> {
    if trail == [] then [] else trail[0].effects + Plain(trail[1..])
  }

  function WithTraces(trail: seq<Segment>): seq<Effect> {
    if trail == [] then []
    else
      trail[0].effects + (if trail[0].trace.Some? then [trail[0].trace.value] else [])
      + WithTraces(trail[1..])
  }

  function StagesTrail<M>(stages: seq<Stage<M>>, corr: M -> string, db: Db, p: Payload<M>): seq<Segment>
    decreases |stages|
  {
    if stages == [] then []
    else
      var s := stages[0].run(db, p);
      match s.out
      case Raised(_) => [Segment(s.effects, None)]
      case Ok(q) =>
        [Segment(s.effects, Some(StageTrace(stages[0], corr(p.meta))))]
        + StagesTrail(stages[1..], corr, Replay(db, s.effects), q)
  }

  /** One segment per stage run and per selection made, in execution order. */
  function Trail<M>(tree: Pipeline<M>, corr: M -> string, db: Db, p: Payload<M>): seq<Segment>
    decreases tree
  {
    var s := RunStages(tree.stages, db, p);
    var first := StagesTrail(tree.stages, corr, db, p);
    if s.out.Raised? || tree.selector.None? then first
    else
      var d := Replay(db, s.effects);
      var c := tree.selector.value.select(d, s.out.value);
      match c.out
      case Raised(_) => first + [Segment(c.effects, None)]
      case Ok(r) =>
        first
        + [Segment(c.effects, Some(SelectorTrace(tree.selector.value, r.branch, corr(s.out.value.meta))))]
        + (if r.branch in tree.routes then Trail(tree.routes[r.branch], corr, Replay(d, c.effects), r.payload)
           else [])
  }

  lemma {:induction false} TrailConcat(a: seq<Segment>, b: seq<Segment>)
    ensures Plain(a + b) == Plain(a) + Plain(b)
    ensures WithTraces(a + b) == WithTraces(a) + WithTraces(b)
  {
    if a == [] {
      assert a + b == b;
    } else {
      assert (a + b)[0] == a[0] && (a + b)[1..] == a[1..] + b;
      TrailConcat(a[1..], b);
    }
  }

  lemma TracesLeaveTheDatabase(db: Db, es: seq<Effect>, t: Effect)
    requires t.Traced?
    ensures Replay(db, es + [t]) == Replay(db, es)
  {
    ReplayAppend(db, es, t);
  }

  lemma {:induction false} StagesTraced<M>(
    stages: seq<Stage<M>>, corr: M -> string, db: Db, p: Payload<M>)
    ensures var raw, wrapped := RunStages(stages, db, p), RunStages(WrapStages(stages, corr), db, p);
            var trail := StagesTrail(stages, corr, db, p);
            && raw.effects == Plain(trail) && wrapped.effects == WithTraces(trail)
            && raw.out == wrapped.out
            && Replay(db, raw.effects) == Replay(db, wrapped.effects)
    decreases |stages|
  {
    if stages != [] {
      var s, w := stages[0].run(db, p), WrapStages(stages, corr)[0].run(db, p);
      assert WrapStages(stages, corr)[1..] == WrapStages(stages[1..], corr);
      if s.out.Ok? {
        var t := StageTrace(stages[0], corr(p.meta));
        TracesLeaveTheDatabase(db, s.effects, t);
        var d := Replay(db, s.effects);
        StagesTraced(stages[1..], corr, d, s.out.value);
        var raw' := RunStages(stages[1..], d, s.out.value);
        var wrapped' := RunStages(WrapStages(stages[1..], corr), d, s.out.value);
        ReplayConcat(db, s.effects, raw'.effects);
        ReplayConcat(db, s.effects + [t], wrapped'.effects);
        var trail := StagesTrail(stages, corr, db, p);
        assert trail[1..] == StagesTrail(stages[1..], corr, d, s.out.value);
      } else {
        var trail := StagesTrail(stages, corr, db, p);
        assert trail == [Segment(s.effects, None)];
        assert Plain(trail) == s.effects + Plain([]) == s.effects;
      }
    }
  }

  lemma SegmentAlone(es: seq<Effect>, t: Option<Effect>)
    ensures Plain([Segment(es, t)]) == es
    ensures WithTraces([Segment(es, t)]) == es + (if t.Some? then [t.value] else [])
  {
    assert [Segment(es, t)][1..] == [];
  }

  lemma SameAfterThree(
    db: Db, a: seq<Effect>, b: seq<Effect>, c: seq<Effect>,
    a': seq<Effect>, b': seq<Effect>, c': seq<Effect>)
    requires Replay(db, a) == Replay(db, a')
    requires var d := Replay(db, a); Replay(d, b) == Replay(d, b')
    requires var e := Replay(Replay(db, a), b); Replay(e, c) == Replay(e, c')
    ensures Replay(db, a + (b + c)) == Replay(db, a' + (b' + c'))
  {
    var d := Replay(db, a);
    ReplayConcat(db, a, b + c);
    ReplayConcat(d, b, c);
    ReplayConcat(db, a', b' + c');
    ReplayConcat(d, b', c');
  }

  lemma TrailOfThree(first: seq<Segment>, es: seq<Effect>, mark: Option<Effect>, tail: seq<Segment>)
    ensures Plain(first + [Segment(es, mark)] + tail) == Plain(first) + (es + Plain(tail))
    ensures WithTraces(first + [Segment(es, mark)] + tail)
         == WithTraces(first) + ((es + if mark.Some? then [mark.value] else []) + WithTraces(tail))
  {
    SegmentAlone(es, mark);
    TrailConcat(first, [Segment(es, mark)]);
    TrailConcat(first + [Segment(es, mark)], tail);
  }

  /** The wrapped tree ends the same way, with the same payload or the same exception and the same
      database, and its effects are the unwrapped ones with exactly one trace after each completed
      stage or selection, in execution order. */
  ghost predicate TracedFaithfully<M>(tree: Pipeline<M>, corr: M -> string, db: Db, p: Payload<M>) {
    var raw, traced := Run(tree, db, p), Run(WrapTree(tree, corr), db, p);
    && raw.out == traced.out
    && raw.effects == Plain(Trail(tree, corr, db, p))
    && traced.effects == WithTraces(Trail(tree, corr, db, p))
    && Replay(db, raw.effects) == Replay(db, traced.effects)
  }

  lemma {:induction false} TracingPreservesMeaning<M>(
    tree: Pipeline<M>, corr: M -> string, db: Db, p: Payload<M>)
    ensures TracedFaithfully(tree, corr, db, p)
    decreases tree
  {
    StagesTraced(tree.stages, corr, db, p);
    var s := RunStages(tree.stages, db, p);
    if s.out.Ok? && tree.selector.Some? {
      var d := Replay(db, s.effects);
      var c := tree.selector.value.select(d, s.out.value);
      if c.out.Ok? && c.out.value.branch in tree.routes {
        TracingPreservesMeaning(
          tree.routes[c.out.value.branch], corr, Replay(d, c.effects), c.out.value.payload);
      }
      SelectionTraced(tree, corr, db, p, s, c);
    }
  }

  lemma SelectionTraced<M>(
    tree: Pipeline<M>, corr: M -> string, db: Db, p: Payload<M>, s: Step<Payload<M>>, c: Step<Routed<M>>)
    requires s == RunStages(tree.stages, db, p) && s.out.Ok? && tree.selector.Some?
    requires c == tree.selector.value.select(Replay(db, s.effects), s.out.value)
    requires c.out.Ok? && c.out.value.branch in tree.routes ==>
               TracedFaithfully(tree.routes[c.out.value.branch], corr,
                 Replay(Replay(db, s.effects), c.effects), c.out.value.payload)
    ensures TracedFaithfully(tree, corr, db, p)
  {
    StagesTraced(tree.stages, corr, db, p);
    var wrapped := WrapTree(tree, corr);
    var ws := RunStages(wrapped.stages, db, p);
    var d := Replay(db, s.effects);
    var wc := wrapped.selector.value.select(d, s.out.value);
    var e := Replay(d, c.effects);
    var rest, wrest := Follow(tree, e, c.out), Follow(wrapped, e, c.out);
    var mark := None;
    if c.out.Ok? {
      mark := Some(SelectorTrace(tree.selector.value, c.out.value.branch, corr(s.out.value.meta)));
      TracesLeaveTheDatabase(d, c.effects, mark.value);
    }
    var tail := if c.out.Ok? && c.out.value.branch in tree.routes
                then Trail(tree.routes[c.out.value.branch], corr, e, c.out.value.payload) else [];
    assert rest.out == wrest.out && rest.effects == Plain(tail) && wrest.effects == WithTraces(tail);
    assert wc.effects == c.effects + if mark.Some? then [mark.value] else [];
    assert Trail(tree, corr, db, p) == StagesTrail(tree.stages, corr, db, p) + [Segment(c.effects, mark)] + tail;
    TrailOfThree(StagesTrail(tree.stages, corr, db, p), c.effects, mark, tail);
    SameAfterThree(db, s.effects, c.effects, rest.effects, ws.effects, wc.effects, wrest.effects);
    assert Run(tree, db, p) == After(s.effects, After(c.effects, rest));
    assert Run(wrapped, db, p) == After(ws.effects, After(wc.effects, wrest));
  }

  /** The effects other than trace lines. */
  function Untraced(es: seq<Effect>): seq<Effect> {
    if es == [] then [] else (if es[0].Traced? then [] else [es[0]]) + Untraced(es[1..])
  }

  lemma {:induction false} UntracedConcat(a: seq<Effect>, b: seq<Effect>)
    ensures Untraced(a + b) == Untraced(a) + Untraced(b)
  {
    if a == [] {
      assert a + b == b;
    } else {
      assert (a + b)[0] == a[0] && (a + b)[1..] == a[1..] + b;
      UntracedConcat(a[1..], b);
    }
  }

  ghost predicate TracesOnly(trail: seq<Segment>) {
    forall g | g in trail :: g.trace.Some? ==> g.trace.value.Traced?
  }

  lemma {:induction false} UntracedTrail(trail: seq<Segment>)
    requires TracesOnly(trail)
    ensures Untraced(WithTraces(trail)) == Untraced(Plain(trail))
  {
    if trail != [] {
      var g := trail[0];
      assert g in trail;
      var t := if g.trace.Some? then [g.trace.value] else [];
      assert Untraced(t) == [];
      UntracedConcat(g.effects + t, WithTraces(trail[1..]));
      UntracedConcat(g.effects, t);
      UntracedConcat(g.effects, Plain(trail[1..]));
      UntracedTrail(trail[1..]);
    }
  }

  lemma {:induction false} StagesTrailTraces<M>(stages: seq<Stage<M>>, corr: M -> string, db: Db, p: Payload<M>)
    ensures TracesOnly(StagesTrail(stages, corr, db, p))
    decreases |stages|
  {
    if stages != [] {
      var s := stages[0].run(db, p);
      if s.out.Ok? {
        StagesTrailTraces(stages[1..], corr, Replay(db, s.effects), s.out.value);
      }
    }
  }

  lemma {:induction false} TrailTraces<M>(tree: Pipeline<M>, corr: M -> string, db: Db, p: Payload<M>)
    ensures TracesOnly(Trail(tree, corr, db, p))
    decreases tree
  {
    StagesTrailTraces(tree.stages, corr, db, p);
    var s := RunStages(tree.stages, db, p);
    if s.out.Ok? && tree.selector.Some? {
      var d := Replay(db, s.effects);
      var c := tree.selector.value.select(d, s.out.value);
      if c.out.Ok? && c.out.value.branch in tree.routes {
        TrailTraces(tree.routes[c.out.value.branch], corr, Replay(d, c.effects), c.out.value.payload);
      }
    }
  }

  /** Without its trace lines a traced run is the plain run, effect for effect. */
  lemma TracedRunUntraced<M>(tree: Pipeline<M>, corr: M -> string, db: Db, p: Payload<M>)
    ensures Untraced(Run(WrapTree(tree, corr), db, p).effects) == Untraced(Run(tree, db, p).effects)
  {
    TracingPreservesMeaning(tree, corr, db, p);
    TrailTraces(tree, corr, db, p);
    UntracedTrail(Trail(tree, corr, db, p));
  }

  /** Wrapping changes no wiring: the wrapped tree honours the plan of the unwrapped one. */
  lemma {:induction false} WrappingKeepsThePlan<M(!new)>(
    plan: Plan, tree: Pipeline<M>, has: M -> set<Field>, corr: M -> string)
    requires Describes(plan, tree, has)
    ensures Describes(plan, WrapTree(tree, corr), has)
    decreases plan
  {
    var w := WrapTree(tree, corr);
    forall i | 0 <= i < |w.stages| ensures StageHonours(w.stages[i], plan.stages[i], has) {
      assert StageHonours(tree.stages[i], plan.stages[i], has);
      forall db: Db, p: Payload<M> | plan.stages[i].needs <= has(p.meta)
        ensures Delivers(has, plan.stages[i], p.meta, MetaOf(w.stages[i].run(db, p).out))
      {
        assert w.stages[i].run(db, p).out == tree.stages[i].run(db, p).out;
      }
    }
    if tree.selector.Some? {
      forall db: Db, p: Payload<M>
        ensures w.selector.value.select(db, p).out == tree.selector.value.select(db, p).out {}
      assert SelectorHonours(tree.selector.value, plan.selector.value, plan.branches, has);
      assert SelectorHonours(w.selector.value, plan.selector.value, plan.branches, has);
    }
    forall b | b in plan.routes ensures Describes(plan.routes[b], w.routes[b], has) {
      WrappingKeepsThePlan(plan.routes[b], tree.routes[b], has, corr);
    }
  }
}
