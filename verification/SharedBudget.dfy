/** Several processes on one database: each reads the budget gate, calls the model, and records the
    call, with the others anywhere in between. */
module SharedBudget {
  import opened Model
  import opened StateDb
  import opened BudgetBound
  import RunFacts
  import Tier2

  /** `inFlight[i]` is the date under which process i has passed the gate and not yet recorded. */
  datatype Shared = Shared(db: Db, inFlight: seq<Option<string>>)

  datatype Move =
    | PassGate(who: nat, date: string)
    | RecordCall(who: nat, tokensIn: nat, tokensOut: nat)
    | GiveUp(who: nat)

  predicate Possible(budget: int, s: Shared, m: Move) {
    && m.who < |s.inFlight|
    && match m
       case PassGate(i, date) => s.inFlight[i].None? && Tier2.HasBudget(s.db, date, budget)
       case RecordCall(i, _, _) => s.inFlight[i].Some?
       case GiveUp(i) => true
  }

  function Made(s: Shared, m: Move): Shared
    requires m.who < |s.inFlight| && (m.RecordCall? ==> s.inFlight[m.who].Some?)
  {
    match m
    case PassGate(i, date) => s.(inFlight := s.inFlight[i := Some(date)])
    case RecordCall(i, tin, tout) =>
      Shared(Commit(s.db, CallRecorded(s.inFlight[i].value, tin, tout)), s.inFlight[i := None])
    case GiveUp(i) => s.(inFlight := s.inFlight[i := None])
  }

  // ----- A Tier 2 run as moves -----

  function Calls(es: seq<Effect>): seq<Effect> {
    if es == [] then [] else (if es[0].CallRecorded? then [es[0]] else []) + Calls(es[1..])
  }

  /** Only recorded calls change the account. */
  lemma {:induction false} UsageByCalls(a: Db, b: Db, es: seq<Effect>)
    requires a.usage == b.usage
    ensures Replay(a, es).usage == Replay(b, Calls(es)).usage
    decreases |es|
  {
    if es != [] {
      var x, next := es[0], Commit(a, es[0]);
      if x.CallRecorded? {
        assert Calls(es)[0] == x && Calls(es)[1..] == Calls(es[1..]);
        UsageByCalls(next, Commit(b, x), es[1..]);
      } else {
        assert Calls(es) == Calls(es[1..]);
        UsageByCalls(next, b, es[1..]);
      }
    }
  }

  lemma {:induction false} NoCalls(es: seq<Effect>)
    requires forall i | 0 <= i < |es| :: !es[i].CallRecorded?
    ensures Calls(es) == []
  {
    if es != [] {
      NoCalls(es[1..]);
    }
  }

  /** The calls a run records: none without budget, and else at most one, under the gate's own date. */
  ghost predicate OneCall(es: seq<Effect>, date: string) {
    Calls(es) == [] || exists i, o :: Calls(es) == [CallRecorded(date, i, o)]
  }

  lemma CallFirst(x: Effect, call: Effect, rest: seq<Effect>)
    requires !x.CallRecorded? && call.CallRecorded? && forall i | 0 <= i < |rest| :: !rest[i].CallRecorded?
    ensures Calls([x, call] + rest) == [call]
  {
    NoCalls(rest);
    assert ([x, call] + rest)[1..] == [call] + rest && ([call] + rest)[1..] == rest;
  }

  /** A recorded call, and what follows it. */
  lemma WeighParts(env: Tier2.Env2, m: Message, mailboxes: seq<string>, request: Request, r: LlmResult)
    returns (rest: seq<Effect>)
    requires r.tokensIn >= 0 && r.tokensOut >= 0
    ensures Tier2.Weigh(env, m, mailboxes, request, r).effects
         == [LlmReturned(DateOf(env.now), request), CallRecorded(DateOf(env.now), r.tokensIn, r.tokensOut)] + rest
    ensures forall i | 0 <= i < |rest| :: !rest[i].CallRecorded?
  {
    hide Tier2.Decide;
    var v := r.verdict;
    var band := Tier2.ConfidenceBand(v.confidence, env.config.alertThreshold, env.config.autoactThreshold);
    if Tier2.ValidVerdict(v, env.config.categories, mailboxes) && band.Ok? {
      rest := Tier2.Decide(env, m, v, band.value).effects;
      RunFacts.DecideNeverRecords(env, m, v, band.value);
    } else {
      rest := [];
    }
  }

  lemma WeighsOnce(env: Tier2.Env2, m: Message, mailboxes: seq<string>, request: Request, r: LlmResult)
    ensures OneCall(Tier2.Weigh(env, m, mailboxes, request, r).effects, DateOf(env.now))
  {
    var date := DateOf(env.now);
    if r.tokensIn >= 0 && r.tokensOut >= 0 {
      var rest := WeighParts(env, m, mailboxes, request, r);
      CallFirst(LlmReturned(date, request), CallRecorded(date, r.tokensIn, r.tokensOut), rest);
    } else {
      NoCalls([LlmReturned(date, request)]);
    }
  }

  lemma RecordsOnce(env: Tier2.Env2, db: Db, m: Message, r: Tier2.Resolved)
    ensures OneCall(Tier2.Process2(env, db, m, r).effects, DateOf(env.now))
    ensures !Tier2.HasBudget(db, DateOf(env.now), env.config.budget) ==>
              Calls(Tier2.Process2(env, db, m, r).effects) == []
  {
    if !Tier2.HasBudget(db, DateOf(env.now), env.config.budget) {
      NoCalls(Tier2.Skip(env, m).effects);
    } else if env.context.Ok? && env.llm.Ok? {
      WeighsOnce(env, m, r.mailboxes,
        Tier2.RequestFor(Tier2.Start2(m, r).meta, env.config, m.body, env.context.value), env.llm.value);
    }
  }

  /** A Tier 2 run of an idle process is one turn among these moves: nothing if the gate refuses, else
      passing the gate under the run's date and then recording one call or giving up. It leaves the
      account as the run does, and whatever others do to the database after the gate, the run's own
      effects stay the same. */
  lemma RunIsOneTurn(env: Tier2.Env2, s: Shared, who: nat, m: Message, r: Tier2.Resolved)
    returns (moves: seq<Move>, t: Shared)
    requires who < |s.inFlight| && s.inFlight[who].None?
    ensures Leads(env.config.budget, s, moves, t) && t.inFlight == s.inFlight
    ensures t.db.usage == Replay(s.db, Tier2.Process2(env, s.db, m, r).effects).usage
    ensures var date := DateOf(env.now);
            if Tier2.HasBudget(s.db, date, env.config.budget)
            then |moves| == 2 && moves[0] == PassGate(who, date) && !moves[1].PassGate? && moves[1].who == who
            else moves == []
    ensures forall db | Tier2.HasBudget(db, DateOf(env.now), env.config.budget)
                          == Tier2.HasBudget(s.db, DateOf(env.now), env.config.budget) ::
              Tier2.Process2(env, db, m, r) == Tier2.Process2(env, s.db, m, r)
  {
    var date, es := DateOf(env.now), Tier2.Process2(env, s.db, m, r).effects;
    RecordsOnce(env, s.db, m, r);
    UsageByCalls(s.db, s.db, es);
    if !Tier2.HasBudget(s.db, date, env.config.budget) {
      moves, t := [], s;
    } else {
      var calls := Calls(es);
      var last := if calls == [] then GiveUp(who) else RecordCall(who, calls[0].tokensIn, calls[0].tokensOut);
      moves := [PassGate(who, date), last];
      var u := Made(s, moves[0]);
      t := Made(u, last);
      assert moves[1..] == [last] && [last][1..] == [];
      assert Leads(env.config.budget, u, [last], t);
      assert t.inFlight == s.inFlight;
    }
  }

  ghost predicate Leads(budget: int, s: Shared, moves: seq<Move>, t: Shared)
    decreases |moves|
  {
    if moves == [] then s == t
    else Possible(budget, s, moves[0]) && Leads(budget, Made(s, moves[0]), moves[1..], t)
  }

  function CountIn(inFlight: seq<Option<string>>, date: string): nat {
    if inFlight == [] then 0
    else (if inFlight[0] == Some(date) then 1 else 0) + CountIn(inFlight[1..], date)
  }

  lemma {:induction false} CountInUpdate(inFlight: seq<Option<string>>, i: nat, v: Option<string>, date: string)
    requires i < |inFlight|
    ensures CountIn(inFlight[i := v], date)
         == CountIn(inFlight, date) - (if inFlight[i] == Some(date) then 1 else 0) + (if v == Some(date) then 1 else 0)
  {
    if i == 0 {
      assert inFlight[i := v][1..] == inFlight[1..];
    } else {
      assert inFlight[i := v][1..] == inFlight[1..][i - 1 := v];
      CountInUpdate(inFlight[1..], i - 1, v, date);
    }
  }

  lemma {:induction false} CountInBound(inFlight: seq<Option<string>>, date: string)
    ensures CountIn(inFlight, date) <= |inFlight|
  {
    if inFlight != [] {
      CountInBound(inFlight[1..], date);
    }
  }

  /** Recorded and in-flight calls of the date together stay under budget + n, or under the count
      the date already had when it was spent. */
  ghost predicate Bounded(budget: int, n: nat, date: string, initial: nat, s: Shared) {
    && |s.inFlight| == n
    && if initial >= budget then CallsOn(s.db, date) == initial && CountIn(s.inFlight, date) == 0
       else CallsOn(s.db, date) + CountIn(s.inFlight, date) <= budget + n - 1
  }

  lemma MoveBounded(budget: int, n: nat, date: string, initial: nat, s: Shared, m: Move)
    requires Bounded(budget, n, date, initial, s) && Possible(budget, s, m)
    ensures Bounded(budget, n, date, initial, Made(s, m))
  {
    var i := m.who;
    match m
    case PassGate(_, d) =>
      CountInUpdate(s.inFlight, i, Some(d), date);
      CountInRoom(s.inFlight, i, date);
    case RecordCall(_, tin, tout) => CountInUpdate(s.inFlight, i, None, date);
    case GiveUp(_) => CountInUpdate(s.inFlight, i, None, date);
  }

  /** A process that is not in flight leaves room for one. */
  lemma {:induction false} CountInRoom(inFlight: seq<Option<string>>, i: nat, date: string)
    requires i < |inFlight| && inFlight[i] != Some(date)
    ensures CountIn(inFlight, date) <= |inFlight| - 1
  {
    if i == 0 {
      CountInBound(inFlight[1..], date);
    } else {
      CountInRoom(inFlight[1..], i - 1, date);
    }
  }

  lemma {:induction false} MovesBounded(
    budget: int, n: nat, date: string, initial: nat, s: Shared, moves: seq<Move>, t: Shared)
    requires Bounded(budget, n, date, initial, s) && Leads(budget, s, moves, t)
    ensures Bounded(budget, n, date, initial, t)
    decreases |moves|
  {
    if moves != [] {
      MoveBounded(budget, n, date, initial, s, moves[0]);
      MovesBounded(budget, n, date, initial, Made(s, moves[0]), moves[1..], t);
    }
  }

  function Nobody(n: nat): seq<Option<string>> {
    seq(n, _ => None)
  }

  lemma {:induction false} NobodyCounts(n: nat, date: string)
    ensures CountIn(Nobody(n), date) == 0
  {
    if n > 0 {
      assert Nobody(n)[1..] == Nobody(n - 1);
      NobodyCounts(n - 1, date);
    }
  }

  /** With n processes on one database, a date that starts within the budget ends with at most
      budget + n - 1 recorded calls, and one that starts at or over it gains none. */
  lemma SharedBudgetBound(budget: int, n: nat, date: string, db: Db, moves: seq<Move>, t: Shared)
    requires n > 0 && Leads(budget, Shared(db, Nobody(n)), moves, t)
    ensures CallsOn(db, date) < budget ==> CallsOn(t.db, date) <= budget + n - 1
    ensures CallsOn(db, date) >= budget ==> CallsOn(t.db, date) == CallsOn(db, date)
  {
    NobodyCounts(n, date);
    MovesBounded(budget, n, date, CallsOn(db, date), Shared(db, Nobody(n)), moves, t);
  }

  // ----- The bound is reached -----

  lemma {:induction false} LeadsOn(budget: int, s: Shared, a: seq<Move>, t: Shared, b: seq<Move>, u: Shared)
    requires Leads(budget, s, a, t) && Leads(budget, t, b, u)
    ensures Leads(budget, s, a + b, u)
    decreases |a|
  {
    if a == [] {
      assert a + b == b;
    } else {
      assert (a + b)[0] == a[0] && (a + b)[1..] == a[1..] + b;
      LeadsOn(budget, Made(s, a[0]), a[1..], t, b, u);
    }
  }

  /** The first k processes in flight under `date`, the rest idle. */
  function FirstInFlight(k: nat, n: nat, date: string): seq<Option<string>> {
    seq(n, i => if i < k then Some(date) else None)
  }

  /** Every process passes the gate before anyone records. */
  lemma {:induction false} AllPass(budget: int, n: nat, date: string, db: Db, k: nat) returns (moves: seq<Move>)
    requires k <= n && CallsOn(db, date) < budget
    ensures Leads(budget, Shared(db, Nobody(n)), moves, Shared(db, FirstInFlight(k, n, date)))
    decreases k
  {
    if k == 0 {
      moves := [];
      assert FirstInFlight(0, n, date) == Nobody(n);
    } else {
      var before := AllPass(budget, n, date, db, k - 1);
      var s := Shared(db, FirstInFlight(k - 1, n, date));
      var m := PassGate(k - 1, date);
      assert Made(s, m).inFlight == FirstInFlight(k, n, date);
      assert [m][1..] == [];
      LeadsOn(budget, Shared(db, Nobody(n)), before, s, [m], Made(s, m));
      moves := before + [m];
    }
  }

  /** Then all of them record. */
  lemma {:induction false} AllRecord(budget: int, n: nat, date: string, db: Db, k: nat)
    returns (moves: seq<Move>, t: Shared)
    requires k <= n
    ensures Leads(budget, Shared(db, FirstInFlight(k, n, date)), moves, t)
    ensures CallsOn(t.db, date) == CallsOn(db, date) + k && t.inFlight == Nobody(n)
    decreases k
  {
    if k == 0 {
      moves, t := [], Shared(db, Nobody(n));
      assert FirstInFlight(0, n, date) == Nobody(n);
    } else {
      var s := Shared(db, FirstInFlight(k, n, date));
      var m := RecordCall(k - 1, 0, 0);
      assert Made(s, m).inFlight == FirstInFlight(k - 1, n, date);
      var rest;
      rest, t := AllRecord(budget, n, date, Made(s, m).db, k - 1);
      moves := [m] + rest;
    }
  }

  /** One process alone can use up the budget but for one call. */
  lemma {:induction false} FillUp(budget: int, n: nat, date: string, db: Db) returns (moves: seq<Move>, t: Shared)
    requires n > 0 && CallsOn(db, date) < budget
    ensures Leads(budget, Shared(db, Nobody(n)), moves, t)
    ensures t.inFlight == Nobody(n) && CallsOn(t.db, date) == budget - 1
    decreases budget - CallsOn(db, date)
  {
    var s := Shared(db, Nobody(n));
    if CallsOn(db, date) == budget - 1 {
      moves, t := [], s;
    } else {
      var pass, record := PassGate(0, date), RecordCall(0, 0, 0);
      var u := Made(Made(s, pass), record);
      assert u.inFlight == Nobody(n);
      var rest;
      rest, t := FillUp(budget, n, date, u.db);
      assert [record][1..] == [] && [pass, record][1..] == [record];
      assert Leads(budget, Made(s, pass), [record], u);
      LeadsOn(budget, s, [pass, record], u, rest, t);
      moves := [pass, record] + rest;
    }
  }

  /** The bound is tight: n processes that all pass the gate at the last free call reach it. */
  lemma SharedBudgetIsTight(budget: int, n: nat, date: string, db: Db)
    requires n > 0 && CallsOn(db, date) < budget
    ensures exists moves, t :: Leads(budget, Shared(db, Nobody(n)), moves, t)
              && CallsOn(t.db, date) == budget + n - 1
  {
    var a, s := FillUp(budget, n, date, db);
    var b := AllPass(budget, n, date, s.db, n);
    var u := Shared(s.db, FirstInFlight(n, n, date));
    var c, t := AllRecord(budget, n, date, s.db, n);
    LeadsOn(budget, s, b, u, c, t);
    LeadsOn(budget, Shared(db, Nobody(n)), a, s, b + c, t);
  }
}
