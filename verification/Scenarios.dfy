/** Pieces of concrete runs: a daemon that starts, catches up with its mail, is given one message, and
    comes to its next poll. */
module Scenarios {
  import opened Model
  import opened StateDb
  import opened Mailbox
  import opened Daemon
  import opened DaemonLoop
  import opened Cursors = CursorSafety

  const ESCALATION := Action(Escalate, None, None, false)
  const MOVING := Action(Move, Some("Archive"), None, false)

  /** The one rule that does `action` with everything. */
  function Always(action: Action): seq<Rule> {
    [Rule("all", "", Condition(true, None, None, None), action, true)]
  }

  lemma Onward(setup: Setup, s: State, a: Act)
    requires Reachable(setup, s) && Enabled(setup, s, a)
    ensures Reachable(setup, Next(setup, s, a))
  {
    OnwardAll(setup, s, [a], Next(setup, s, a));
  }

  lemma OnwardAll(setup: Setup, s: State, more: seq<Act>, t: State)
    requires Reachable(setup, s) && Reaches(setup, s, more, t)
    ensures Reachable(setup, t)
  {
    var from, acts :| Initial(setup, from) && Reaches(setup, from, acts, s);
    ReachesOn(setup, from, acts, s, more, t);
  }

  /** At the head of the loop, with nothing in the way of the next poll. */
  predicate Idle(p: Proc) {
    p.pc.Head? && !p.paused && !p.stopping && p.pending == []
  }

  /** A running daemon that has caught up with the mail. */
  ghost predicate Ready(setup: Setup, s: State, rules: seq<Rule>, observe: bool) {
    && Reachable(setup, s) && s.proc.Some? && s.first.Some? && s.first.value <= |s.mail|
    && Durable(setup, s) == Some(|s.mail|)
    && var p := s.proc.value;
       Idle(p) && p.rules == rules && p.observe == observe && p.cursor == Some(|s.mail|)
  }

  /** It has done nothing else yet, and has not alerted. */
  ghost predicate CaughtUp(setup: Setup, s: State, rules: seq<Rule>, observe: bool) {
    && Ready(setup, s, rules, observe)
    && DbOf(setup, s).processed == setup.found.processed && DbOf(setup, s).usage == setup.found.usage
    && (forall e | e in s.log :: e.CursorSet?) && s.runs == []
    && (forall i | 0 <= i < |s.mail| :: s.mail[i].Other?)
    && var p := s.proc.value;
       p.enqueued == [] && p.spent == [] && p.alerted == [] && p.alertDate == None
  }

  lemma ToPolling(setup: Setup, s: State) returns (t: State)
    requires Reachable(setup, s) && s.proc.Some? && Idle(s.proc.value)
    ensures Reachable(setup, t) && t == At(s, s.proc.value, Polling)
  {
    Onward(setup, s, Take(EnterLoop));
    t := Next(setup, s, Take(EnterLoop));
    Onward(setup, t, Take(PassGate));
    t := Next(setup, t, Take(PassGate));
  }

  /** A batch that is dealt with, or an empty one, is acknowledged. */
  lemma AckAt(setup: Setup, s: State, c: Cursor)
    ensures Durable(setup, Log1(s, CursorSet(setup.account, c))) == Some(c)
    ensures var db := DbOf(setup, Log1(s, CursorSet(setup.account, c)));
            db.processed == DbOf(setup, s).processed && db.usage == DbOf(setup, s).usage
  {
    ReplayAppend(setup.found, s.log, CursorSet(setup.account, c));
  }

  /** A first poll without a cursor takes the baseline. */
  lemma FirstPoll(setup: Setup, s: State) returns (t: State)
    requires Reachable(setup, s) && s.proc.Some? && Idle(s.proc.value) && s.proc.value.cursor.None? && s.first.None?
    ensures Reachable(setup, t) && Durable(setup, t) == Some(|s.mail|) && t.first == Some(|s.mail|)
    ensures t.log == s.log + [CursorSet(setup.account, |s.mail|)] && t.mail == s.mail && t.runs == s.runs
    ensures DbOf(setup, t).processed == DbOf(setup, s).processed && DbOf(setup, t).usage == DbOf(setup, s).usage
    ensures t.proc.Some? && t.proc.value == s.proc.value.(cursor := Some(|s.mail|), fetch := t.proc.value.fetch)
  {
    t := ToPolling(setup, s);
    var poll := Take(Poll(|s.mail|, [], []));
    Onward(setup, t, poll);
    t := Next(setup, t, poll);
    t := AckNothing(setup, t, |s.mail|);
  }

  /** An empty batch is acknowledged, and the loop begins anew. */
  lemma AckNothing(setup: Setup, s: State, c: Cursor) returns (t: State)
    requires Reachable(setup, s) && s.proc.Some? && s.proc.value.pc == Acking(c)
    ensures Reachable(setup, t) && t.mail == s.mail && t.log == s.log + [CursorSet(setup.account, c)]
    ensures t.proc == Some(s.proc.value.(pc := Head)) && t.first == if s.first.None? then Some(c) else s.first
    ensures t.runs == s.runs && Durable(setup, t) == Some(c)
    ensures DbOf(setup, t).processed == DbOf(setup, s).processed && DbOf(setup, t).usage == DbOf(setup, s).usage
  {
    Onward(setup, s, Take(Ack));
    AckAt(setup, s, c);
    t := Next(setup, s, Take(Ack));
    Onward(setup, t, Take(Wake));
    t := Next(setup, t, Take(Wake));
  }

  lemma CaughtUpDaemon(setup: Setup, rules: seq<Rule>, observe: bool) returns (t: State)
    ensures CaughtUp(setup, t, rules, observe)
  {
    var first := CursorOf(setup.found, setup.account);
    var mail := seq(if first.Some? then first.value else 0, _ => Other);
    var s := State([], mail, None, first, [], [], []);
    assert Reaches(setup, s, [], s);
    Onward(setup, s, Start(rules, observe));
    t := Next(setup, s, Start(rules, observe));
    if first.None? {
      t := FirstPoll(setup, t);
    }
  }

  lemma {:induction false} UnusedId(used: set<string>) returns (id: string)
    ensures id !in used && forall x | x in used :: |x| < |id|
    ensures id != ""
  {
    if used == {} {
      id := "a";
    } else {
      var x :| x in used;
      var shorter := UnusedId(used - {x});
      id := seq(|x| + |shorter| + 1, _ => 'a');
      forall y | y in used ensures |y| < |id| {
        if y != x { assert y in used - {x}; }
      }
    }
  }

  /** The page that holds a message just created in the Inbox. */
  lemma OneArrival(mail: Log, m: Message)
    ensures var more, legs := mail + [Created(m, true)], [Leg(|mail| + 1, |mail| + 1)];
            Path(more, |mail|, legs, |mail| + 1) && Collected(more, |mail|, legs, |mail| + 1) == [m]
  {
    var more, legs := mail + [Created(m, true)], [Leg(|mail| + 1, |mail| + 1)];
    assert legs[1..] == [];
    assert CreatedIn(more, |mail|, |mail| + 1) == CreatedIn(more, |mail|, |mail|) + [m] == [m];
    assert [m][1..] == [];
    assert StillInbox(more, [m], |more|) == [m] + [];
  }

  /** The message arrives and is polled. */
  lemma Delivered(setup: Setup, s: State, rules: seq<Rule>, observe: bool, m: Message) returns (t: State)
    requires Ready(setup, s, rules, observe) && FreshChange(s.mail, Created(m, true))
    ensures Reachable(setup, t) && t.mail == s.mail + [Created(m, true)]
    ensures var f := Fetch(Some(|s.mail|), |s.mail| + 1, [Leg(|s.mail| + 1, |s.mail| + 1)], [m]);
            t == s.(mail := t.mail, proc := Some(s.proc.value.(
              cursor := Some(|s.mail| + 1), fetch := Some(f), pc := Handling(Work([m], rules, |s.mail| + 1)))))
  {
    OneArrival(s.mail, m);
    Onward(setup, s, Arrive(Created(m, true)));
    t := Next(setup, s, Arrive(Created(m, true)));
    t := ToPolling(setup, t);
    var poll := Take(Poll(|s.mail| + 1, [Leg(|s.mail| + 1, |s.mail| + 1)], [m]));
    Onward(setup, t, poll);
    t := Next(setup, t, poll);
  }

  /** The whole batch is dealt with, and acknowledged. */
  lemma Passed(setup: Setup, s: State, rules: seq<Rule>, c: Cursor) returns (t: State)
    requires Reachable(setup, s) && s.proc.Some? && s.proc.value.pc == Handling(Work([], rules, c))
    requires s.proc.value.fetch.Some?
    ensures Reachable(setup, t) && t.mail == s.mail && t.runs == s.runs && (s.first.Some? ==> t.first == s.first)
    ensures t.log == s.log + [CursorSet(setup.account, c)] && t.proc == Some(s.proc.value.(pc := Head))
    ensures Durable(setup, t) == Some(c) && DbOf(setup, t).processed == DbOf(setup, s).processed
    ensures DbOf(setup, t).usage == DbOf(setup, s).usage && s.proc.value.fetch.value in t.acked
  {
    Onward(setup, s, Take(Ack));
    AckAt(setup, s, c);
    t := Next(setup, s, Take(Ack));
  }

  /** A message no database knows. */
  lemma UnknownMessage(used: set<string>) returns (m: Message)
    ensures m.id !in used && m.id != ""
  {
    var id := UnusedId(used);
    m := Message(id, "", "", "", "", "", map[]);
  }
}
