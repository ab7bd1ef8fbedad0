/** Tier 2 for one escalated message: the reads it needs, the pipeline, and the quarantine that
    catches output which cannot be used. */
module Escalate {
  import opened Model
  import opened StateDb
  import opened Pipelines
  import opened Tracing
  import opened Tier1
  import opened Tier2
  import BodyCleaning

  datatype Env3 = Env3(
    tier2: Env2, thread: Outcome<(Option<string>, bool)>, mailboxes: Outcome<seq<string>>,
    quarantineNow: string, quarantineId: string, quarantineAlerter: Option<Exn>)

  datatype Escalated = Decided(verdict: Verdict) | BudgetExhausted | Quarantined(reason: Exn)

  /** The pieces of `s` between commas, stripped, without the empty ones. */
  function Addresses(s: string): seq<string> {
    AddressOf(s[..CommaOrEnd(s, 0)])
    + if CommaOrEnd(s, 0) == |s| then [] else Addresses(s[CommaOrEnd(s, 0) + 1..])
  }

  function AddressOf(piece: string): seq<string> {
    var address := BodyCleaning.StripRight(BodyCleaning.StripLeft(piece));
    if address == "" then [] else [address]
  }

  function CommaOrEnd(s: string, from: nat): (i: nat)
    requires from <= |s|
    ensures from <= i <= |s| && (i < |s| ==> s[i] == ',') && ',' !in s[from..i]
    decreases |s| - from
  {
    if from == |s| || s[from] == ',' then from else CommaOrEnd(s, from + 1)
  }

  lemma FirstComma(s: string, n: nat)
    requires n < |s| && s[n] == ',' && ',' !in s[..n]
    ensures CommaOrEnd(s, 0) == n
  {
    var i := CommaOrEnd(s, 0);
    assert forall k | 0 <= k < n :: s[k] == s[..n][k];
    assert forall k | 0 <= k < i :: s[k] == s[0..i][k];
  }

  lemma LastPiece(a: string)
    requires ',' !in a
    ensures var address := BodyCleaning.StripRight(BodyCleaning.StripLeft(a));
            Addresses(a) == AddressOf(a) == if address == "" then [] else [address]
  {
    assert CommaOrEnd(a, 0) == |a| && a[..|a|] == a;
    assert AddressOf(a) + [] == AddressOf(a);
  }

  lemma FirstPiece(a: string, b: string)
    requires ',' !in a
    ensures Addresses(a + "," + b) == AddressOf(a) + Addresses(b)
  {
    var s := a + "," + b;
    assert s[..|a|] == a && s[|a|] == ',' && s[|a| + 1..] == b;
    FirstComma(s, |a|);
  }

  /** Every comma separates two addresses, and nothing else does. */
  lemma EveryCommaSeparates(a: string, b: string)
    ensures Addresses(a + "," + b) == Addresses(a) + Addresses(b)
    ensures ',' !in a ==>
              var address := BodyCleaning.StripRight(BodyCleaning.StripLeft(a));
              Addresses(a) == AddressOf(a) == if address == "" then [] else [address]
    decreases |a|
  {
    hide Addresses, AddressOf;
    if ',' !in a {
      LastPiece(a);
      FirstPiece(a, b);
    } else {
      var n := CommaOrEnd(a, 0);
      var x, y := a[..n], a[n + 1..];
      assert a == x + "," + y && ',' !in x;
      FirstPiece(x, y);
      FirstPiece(x, y + "," + b);
      assert a + "," + b == x + "," + (y + "," + b);
      EveryCommaSeparates(y, b);
    }
  }

  function ToAddresses(m: Message): seq<string> {
    Addresses(if "To" in m.headers then m.headers["To"] else "")
  }

  function ResolvedFor(env: Env3, m: Message): Resolved
    requires env.thread.Ok? && env.mailboxes.Ok?
  {
    Resolved(ToAddresses(m), env.thread.value.0, env.thread.value.1, env.mailboxes.value)
  }

  /** The reads, then the pipeline. */
  function Attempt(env: Env3, db: Db, m: Message): Step<Option<Verdict>> {
    if env.thread.Raised? then Step([], Raised(env.thread.exn))
    else if env.mailboxes.Raised? then Step([], Raised(env.mailboxes.exn))
    else Process2(env.tier2, db, m, ResolvedFor(env, m))
  }

  function QuarantineRow(m: Message, ts: string): ProcessedRow {
    ProcessedRow(m.threadId, "tier2", None, Some("quarantined"), ts)
  }

  /** Audit, mark, alert. */
  function Quarantine(env: Env3, m: Message, e: Exn): Step<Escalated> {
    Step([AuditWritten(env.quarantineNow, m.id, "tier2_quarantined", Some("quarantined")),
          Marked(m.id, QuarantineRow(m, env.quarantineNow)),
          Alerted(env.quarantineId, "Tier 2 verdict quarantined", Critical)],
      if env.quarantineAlerter.Some? then Raised(env.quarantineAlerter.value) else Ok(Quarantined(e)))
  }

  /** Only the three errors that mean "this output cannot be used" are caught. */
  function EscalateMessage(env: Env3, db: Db, m: Message): Step<Escalated> {
    var a := Attempt(env, db, m);
    match a.out
    case Ok(Some(v)) => Step(a.effects, Ok(Decided(v)))
    case Ok(None) => Step(a.effects, Ok(BudgetExhausted))
    case Raised(e) => if Quarantinable(e) then After(a.effects, Quarantine(env, m, e)) else Step(a.effects, Raised(e))
  }

  // ----- The same against the live database, with the composed pipelines -----

  /** `db` has performed `es`, apart from trace lines, since it held `was` and `log`. */
  ghost predicate Did(db: StateDB, log: seq<Effect>, was: Db, es: seq<Effect>)
    reads db
  {
    && db.Valid()
    && db.View() == Replay(was, es)
    && Untraced(db.history) == Untraced(log) + Untraced(es)
  }

  lemma PerformedIsDone(db: StateDB, log: seq<Effect>, was: Db, run: seq<Effect>, es: seq<Effect>)
    requires Performed(db, log, was, run) && Untraced(run) == Untraced(es) && Replay(was, run) == Replay(was, es)
    ensures Did(db, log, was, es)
  {
    UntracedConcat(log, run);
  }

  method ProcessMessage(
    env: Env, force: bool, db: StateDB, m: Message, rules: seq<Rule>, unmatched: Action,
    classifier: Option<Outcome<string>>) returns (out: Outcome<Option<RuleVerdict>>)
    requires db.Valid()
    modifies db
    ensures out == Process(env, force, old(db.View()), m, rules, unmatched, classifier).out
    ensures Did(db, old(db.history), old(db.View()),
              Process(env, force, old(db.View()), m, rules, unmatched, classifier).effects)
  {
    ghost var log, was := db.history, db.View();
    PipelineIsProcess(env, force, was, m, rules, unmatched, classifier);
    var r := RunPipeline(Build(env, force), db, Start(m, rules, unmatched, classifier));
    PerformedIsDone(db, log, was, Run(Build(env, force), was, Start(m, rules, unmatched, classifier)).effects,
      Process(env, force, was, m, rules, unmatched, classifier).effects);
    out := if r.Raised? then Raised(r.exn) else Ok(r.value.meta.verdict);
  }

  method RunAttempt(env: Env3, db: StateDB, m: Message) returns (out: Outcome<Option<Verdict>>)
    requires db.Valid()
    modifies db
    ensures out == Attempt(env, old(db.View()), m).out
    ensures Did(db, old(db.history), old(db.View()), Attempt(env, old(db.View()), m).effects)
  {
    if env.thread.Raised? {
      return Raised(env.thread.exn);
    }
    if env.mailboxes.Raised? {
      return Raised(env.mailboxes.exn);
    }
    ghost var log, was := db.history, db.View();
    var resolved := ResolvedFor(env, m);
    Pipeline2IsProcess2(env.tier2, was, m, resolved);
    var p := RunPipeline(Build2(env.tier2), db, Start2(m, resolved));
    PerformedIsDone(db, log, was, Run(Build2(env.tier2), was, Start2(m, resolved)).effects,
      Process2(env.tier2, was, m, resolved).effects);
    out := if p.Raised? then Raised(p.exn) else Ok(p.value.meta.verdict);
  }

  lemma Regroup(x: seq<Effect>, y: seq<Effect>, z: seq<Effect>, w: seq<Effect>, v: seq<Effect>)
    requires w == x + y && v == y + z
    ensures w + z == x + v
  {}

  lemma UntracedMore(log: seq<Effect>, a: seq<Effect>, mid: seq<Effect>, b: seq<Effect>)
    requires Untraced(mid) == Untraced(log) + Untraced(a)
    ensures Untraced(mid + b) == Untraced(log) + Untraced(a + b)
  {
    UntracedConcat(mid, b);
    UntracedConcat(a, b);
    Regroup(Untraced(log), Untraced(a), Untraced(b), Untraced(mid), Untraced(a + b));
  }

  /** First `a`, by when the history was `mid`, and then `b`. */
  lemma DidMore(db: StateDB, log: seq<Effect>, mid: seq<Effect>, was: Db, a: seq<Effect>, b: seq<Effect>)
    requires Untraced(mid) == Untraced(log) + Untraced(a) && Did(db, mid, Replay(was, a), b)
    ensures Did(db, log, was, a + b)
  {
    UntracedConcat(a, b);
    Regroup(Untraced(log), Untraced(a), Untraced(b), Untraced(mid), Untraced(a + b));
    ReplayConcat(was, a, b);
  }

  method PerformQuarantine(
    env: Env3, db: StateDB, m: Message, e: Exn, ghost log: seq<Effect>, ghost was: Db, ghost done: seq<Effect>)
    returns (out: Outcome<Escalated>)
    requires Did(db, log, was, done)
    modifies db
    ensures out == Quarantine(env, m, e).out && Did(db, log, was, done + Quarantine(env, m, e).effects)
  {
    var q := Quarantine(env, m, e);
    ghost var mid := db.history;
    db.PerformAll(q.effects);
    UntracedMore(log, done, mid, q.effects);
    ReplayConcat(was, done, q.effects);
    out := q.out;
  }

  method EscalateOrQuarantine(env: Env3, db: StateDB, m: Message) returns (out: Outcome<Escalated>)
    requires db.Valid()
    modifies db
    ensures out == EscalateMessage(env, old(db.View()), m).out
    ensures Did(db, old(db.history), old(db.View()), EscalateMessage(env, old(db.View()), m).effects)
  {
    ghost var log, was := db.history, db.View();
    var r := RunAttempt(env, db, m);
    if r.Raised? && Quarantinable(r.exn) {
      out := PerformQuarantine(env, db, m, r.exn, log, was, Attempt(env, was, m).effects);
      return;
    }
    out := if r.Raised? then Raised(r.exn) else Ok(if r.value.Some? then Decided(r.value.value) else BudgetExhausted);
  }
}
