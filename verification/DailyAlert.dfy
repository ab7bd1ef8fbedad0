/** The once-a-day alert that the budget is used up. */
module DailyAlert {
  import opened Model
  import opened StateDb
  import opened Daemon
  import opened BudgetBound

  /** The dates never return to one they have left; nondecreasing dates are a case of this. */
  ghost predicate NeverGoesBack(dates: seq<string>) {
    forall i, j, k | 0 <= i < j < k < |dates| && dates[i] == dates[k] :: dates[j] == dates[i]
  }

  /** Position `k` is the first, or has another date than the one before it. */
  predicate Changes(dates: seq<string>, k: int) {
    0 <= k < |dates| && (k == 0 || dates[k - 1] != dates[k])
  }

  /** The alerting checks are, in order, those at which the date of the exhausted checks changes. */
  ghost predicate AlertsAtChanges(dates: seq<string>, alerted: seq<nat>) {
    && (forall k :: k in alerted <==> Changes(dates, k))
    && (forall i, j | 0 <= i < j < |alerted| :: alerted[i] < alerted[j])
  }

  ghost predicate AllSpent(setup: Setup, s: State, dates: seq<string>) {
    forall i | 0 <= i < |dates| :: BudgetSpent(setup, s, dates[i])
  }

  /** The guard holds the date of the last exhausted check, and each such date is used up. */
  ghost predicate AlertsInOrder(setup: Setup, s: State) {
    s.proc.Some? ==>
      var p := s.proc.value;
      && AlertsAtChanges(p.spent, p.alerted) && AllSpent(setup, s, p.spent)
      && p.alertDate == if p.spent == [] then None else Some(p.spent[|p.spent| - 1])
  }

  lemma SpentStays(setup: Setup, s: State, t: State, date: string)
    requires s.log <= t.log && BudgetSpent(setup, s, date)
    ensures BudgetSpent(setup, t, date)
  {
    var more := t.log[|s.log|..];
    assert t.log == s.log + more;
    ReplayConcat(setup.found, s.log, more);
    CallsAreRecords(DbOf(setup, s), more, date);
  }

  lemma AllSpentStays(setup: Setup, s: State, t: State, dates: seq<string>)
    requires s.log <= t.log && AllSpent(setup, s, dates)
    ensures AllSpent(setup, t, dates)
  {
    forall i | 0 <= i < |dates| ensures BudgetSpent(setup, t, dates[i]) {
      SpentStays(setup, s, t, dates[i]);
    }
  }

  /** Another exhausted check: it alerts exactly if its date is not the last one's. */
  lemma OneMoreCheck(dates: seq<string>, alerted: seq<nat>, today: string)
    requires AlertsAtChanges(dates, alerted)
    ensures var same := dates != [] && dates[|dates| - 1] == today;
            AlertsAtChanges(dates + [today], if same then alerted else alerted + [|dates|])
  {
    var more := dates + [today];
    assert forall k | 0 <= k < |dates| :: more[k] == dates[k];
    assert forall k :: Changes(more, k) <==> Changes(dates, k) || (k == |dates| && Changes(more, k));
    assert forall i | 0 <= i < |alerted| :: alerted[i] in alerted;
  }

  lemma StillInOrder(setup: Setup, s: State, t: State)
    requires AlertsInOrder(setup, s) && s.log <= t.log
    requires t.proc.Some? ==>
               && s.proc.Some? && t.proc.value.spent == s.proc.value.spent
               && t.proc.value.alerted == s.proc.value.alerted && t.proc.value.alertDate == s.proc.value.alertDate
    ensures AlertsInOrder(setup, t)
  {
    if t.proc.Some? {
      AllSpentStays(setup, s, t, s.proc.value.spent);
    }
  }

  lemma ExhaustedInOrder(setup: Setup, s: State, t: State, p: Proc, today: string)
    requires AlertsInOrder(setup, s) && s.proc == Some(p) && s.log <= t.log && t.proc.Some?
    requires BudgetSpent(setup, s, today)
    requires var q := t.proc.value;
             && q.spent == p.spent + [today] && q.alertDate == Some(today)
             && q.alerted == if p.alertDate == Some(today) then p.alerted else p.alerted + [|p.spent|]
    ensures AlertsInOrder(setup, t)
  {
    OneMoreCheck(p.spent, p.alerted, today);
    AllSpentStays(setup, s, t, p.spent);
    SpentStays(setup, s, t, today);
  }

  lemma CheckInOrder(setup: Setup, s: State, p: Proc, work: Work, now: string, id: string, alerter: Option<Exn>)
    requires AlertsInOrder(setup, s) && s.proc == Some(p)
    ensures AlertsInOrder(setup, AfterCheck(setup, s, p, work, now, id, alerter))
  {
    var t := AfterCheck(setup, s, p, work, now, id, alerter);
    if t.proc.Some? {
      if BudgetSpent(setup, s, DateOf(now)) {
        ExhaustedInOrder(setup, s, t, p, DateOf(now));
      } else {
        StillInOrder(setup, s, t);
      }
    }
  }

  lemma OtherTurnInOrder(setup: Setup, s: State, p: Proc, turn: Turn)
    requires AlertsInOrder(setup, s) && s.proc == Some(p) && CanTake(setup, s, p, turn) && !turn.CheckBudget?
    ensures AlertsInOrder(setup, After(setup, s, p, turn))
  {
    hide AlertsInOrder, PollResult, BudgetSpent, DbOf, InHand;
    StillInOrder(setup, s, After(setup, s, p, turn));
  }

  lemma AlertsInOrderKept(setup: Setup, s: State, a: Act)
    requires AlertsInOrder(setup, s) && Enabled(setup, s, a)
    ensures AlertsInOrder(setup, Next(setup, s, a))
  {
    match a
    case Take(turn) =>
      if turn.CheckBudget? {
        CheckInOrder(setup, s, s.proc.value, s.proc.value.pc.work, turn.now, turn.id, turn.alerter);
      } else {
        OtherTurnInOrder(setup, s, s.proc.value, turn);
      }
    case Arrive(_) => StillInOrder(setup, s, Next(setup, s, a));
    case Start(_, _) =>
  }

  lemma {:induction false} AlertsInOrderHolds(setup: Setup, from: State, acts: seq<Act>, s: State)
    requires AlertsInOrder(setup, from) && Reaches(setup, from, acts, s)
    ensures AlertsInOrder(setup, s)
    decreases |acts|
  {
    if acts != [] {
      AlertsInOrderKept(setup, from, acts[0]);
      AlertsInOrderHolds(setup, Next(setup, from, acts[0]), acts[1..], s);
    }
  }

  // ----- Once a day -----

  ghost predicate OnceEach(dates: seq<string>, alerted: seq<nat>) {
    forall i, j | 0 <= i < j < |alerted| && alerted[i] < |dates| && alerted[j] < |dates| ::
      dates[alerted[i]] != dates[alerted[j]]
  }

  /** The change at which the stretch of equal dates that holds position `k` begins. */
  lemma {:induction false} StretchBegins(dates: seq<string>, k: nat) returns (c: nat)
    requires k < |dates|
    ensures c <= k && Changes(dates, c) && forall i | c <= i <= k :: dates[i] == dates[k]
  {
    if Changes(dates, k) {
      c := k;
    } else {
      c := StretchBegins(dates, k - 1);
    }
  }

  lemma AlertedPosition(dates: seq<string>, alerted: seq<nat>, c: nat) returns (i: nat)
    requires AlertsAtChanges(dates, alerted) && Changes(dates, c)
    ensures i < |alerted| && alerted[i] == c
  {
    assert c in alerted;
    i :| 0 <= i < |alerted| && alerted[i] == c;
  }

  lemma GoingBackAlertsTwice(dates: seq<string>, alerted: seq<nat>, i: nat, j: nat, k: nat)
    requires AlertsAtChanges(dates, alerted) && i < j < k < |dates| && dates[i] == dates[k] != dates[j]
    ensures !OnceEach(dates, alerted)
  {
    var a := StretchBegins(dates, i);
    var b := StretchBegins(dates, k);
    var x := AlertedPosition(dates, alerted, a);
    var y := AlertedPosition(dates, alerted, b);
    assert b > j;
    assert x < y;
  }

  lemma StayingAlertsOnce(dates: seq<string>, alerted: seq<nat>)
    requires AlertsAtChanges(dates, alerted) && NeverGoesBack(dates)
    ensures OnceEach(dates, alerted)
  {
    forall i, j | 0 <= i < j < |alerted| && alerted[i] < |dates| && alerted[j] < |dates|
      ensures dates[alerted[i]] != dates[alerted[j]]
    {
      var a, b := alerted[i], alerted[j];
      assert b in alerted && Changes(dates, b) && a <= b - 1;
    }
  }

  /** In one process life, no date is alerted twice exactly if the dates of the checks that found the
      budget used up never return to one they have left; and each alerted date has its recorded calls
      at the budget. */
  lemma AlertedAtMostOnceADay(setup: Setup, s: State)
    requires Reachable(setup, s) && s.proc.Some?
    ensures var p := s.proc.value;
            && (OnceEach(p.spent, p.alerted) <==> NeverGoesBack(p.spent))
            && (forall i | 0 <= i < |p.alerted| ::
                  p.alerted[i] < |p.spent|
                  && CallsOn(DbOf(setup, s), p.spent[p.alerted[i]]) >= setup.config.budget)
  {
    var from, acts :| Initial(setup, from) && Reaches(setup, from, acts, s);
    AlertsInOrderHolds(setup, from, acts, s);
    var p := s.proc.value;
    assert forall i | 0 <= i < |p.alerted| :: p.alerted[i] in p.alerted && Changes(p.spent, p.alerted[i]);
    if NeverGoesBack(p.spent) {
      StayingAlertsOnce(p.spent, p.alerted);
    } else {
      var i, j, k :| 0 <= i < j < k < |p.spent| && p.spent[i] == p.spent[k] && p.spent[j] != p.spent[i];
      GoingBackAlertsTwice(p.spent, p.alerted, i, j, k);
    }
  }

  /** A check that sees a date with its budget used up leaves that date alerted, by this check or an
      earlier one; and the alert of this check is in the log, even if delivering it then fails. */
  lemma ExhaustedCheckAlerts(setup: Setup, s: State, now: string, id: string, alerter: Option<Exn>)
    requires Reachable(setup, s) && s.proc.Some? && s.proc.value.pc.Checking? && BudgetSpent(setup, s, DateOf(now))
    ensures var p, t := s.proc.value, Next(setup, s, Take(CheckBudget(now, id, alerter)));
            && (t.proc.Some? ==> exists i :: i in t.proc.value.alerted && i < |t.proc.value.spent|
                                             && t.proc.value.spent[i] == DateOf(now))
            && (p.alertDate != Some(DateOf(now)) ==>
                  t.log == s.log + [Alerted(id, "Daily LLM budget exhausted", Critical)])
            && (p.alertDate == Some(DateOf(now)) ==> t.log == s.log)
  {
    var from, acts :| Initial(setup, from) && Reaches(setup, from, acts, s);
    AlertsInOrderHolds(setup, from, acts, s);
    var t := Next(setup, s, Take(CheckBudget(now, id, alerter)));
    AlertsInOrderKept(setup, s, Take(CheckBudget(now, id, alerter)));
    if t.proc.Some? {
      var spent := t.proc.value.spent;
      var c := StretchBegins(spent, |spent| - 1);
      assert c in t.proc.value.alerted;
    }
  }
}
