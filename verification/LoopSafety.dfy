/** What the machine's runs are proved to keep, as facts about the running loop's own database and server. */
module LoopSafety {
  import opened Model
  import opened StateDb
  import opened Tracing
  import opened Daemon
  import opened Cursors = CursorSafety
  import opened RunHistory
  import opened DaemonLoop
  import opened LoopSpec
  import opened RunFacts
  import opened ControlPlane
  import opened Modes

  /** At every point of the imperative loop between two methods, on its own database and server, after
      whatever earlier lives left: every message of every acknowledged batch is processed or was held back;
      and a message between the first and the stored cursor is unprocessed exactly if it was so at first and
      each run of it was cut before its mark or held back. */
  lemma LoopLeavesNothingBehind(l: Loop, i: nat)
    requires l.Tracked() && Reachable(l.setup, l.birth)
    ensures var s, processed := l.machine, l.db.View().processed;
            && s.mail == l.source.server.mail
            && Durable(l.setup, s) == CursorOf(l.db.View(), l.setup.account)
            && (forall f, m | f in s.acked && m in f.batch ::
                  m.id in processed || exists r :: r in s.runs && r.id == m.id && HeldBack(r))
            && (Between(l.setup, s, i) ==>
                  var id := s.mail[i].message.id;
                  id !in processed <==>
                    && id !in l.setup.found.processed
                    && forall r | r in AllRuns(s) && r.id == id :: CutBeforeMark(r) || HeldBack(r))
  {
    var from, acts :| Initial(l.setup, from) && Reaches(l.setup, from, acts, l.birth);
    ReachesOn(l.setup, from, acts, l.birth, l.acts, l.machine);
    assert Reachable(l.setup, l.machine);
    Cursors.CursorSafety(l.setup, l.machine);
    forall f, m | f in l.machine.acked && m in f.batch
      ensures m.id in l.db.View().processed || exists r :: r in l.machine.runs && r.id == m.id && HeldBack(r)
    {
      assert Dealt(l.setup, l.machine, m.id);
    }
    if Between(l.setup, l.machine, i) {
      LeftBehindExactly(l.setup, l.machine, i);
    }
  }

  lemma MachineIsReachable(l: Loop)
    requires l.Tracked() && Reachable(l.setup, l.birth)
    ensures Reachable(l.setup, l.machine)
  {
    var from, acts :| Initial(l.setup, from) && Reaches(l.setup, from, acts, l.birth);
    ReachesOn(l.setup, from, acts, l.birth, l.acts, l.machine);
  }

  /** All pause and resume calls made at the loop's awaits so far. */
  ghost function CallsMade(l: Loop): seq<PlaneEvent>
    reads l`awaits
  {
    EventsOf(CallsAt(l.around.calls, 0, l.awaits))
  }

  /** Conservation, of the calls made: wherever the loop stands, the control-plane rows it has written, then what it
      has captured, then what is pending, are all pause and resume calls that were made at its awaits, in order; and
      the flag is what they leave. */
  lemma LoopAccountsForItsCalls(l: Loop, pc: Pc)
    requires l.Stands(pc) && Reachable(l.setup, l.birth)
    ensures Plane(Untraced(l.db.history)) + Names(Captured(pc)) + Names(l.state.pending) == Names(CallsMade(l))
    ensures l.state.paused == PausedAfter(CallsMade(l))
  {
    MachineIsReachable(l);
    ControlPlaneConservation(l.setup, l.machine);
    AnswersExactly(l.heard, Fresh(l.atFirst));
    hide Plane, Names, Untraced, EventsOf, AnswerAll, CallsAt, Reachable;
    assert l.machine.log[|l.birth.log|..] == Untraced(l.db.history);
    assert [] + CallsMade(l) == CallsMade(l);
  }

  /** And when it has ended, however it did, the rows it has written are those calls but for the last ones. */
  lemma EndedLoopAccountsForItsCalls(l: Loop) returns (written: nat)
    requires l.Ended() && Reachable(l.setup, l.birth) && l.birth.proc.None?
    ensures written <= |CallsMade(l)| && Plane(Untraced(l.db.history)) == Names(CallsMade(l)[..written])
  {
    hide Reachable, Reaches, Plane, Names, Written, WrittenIn, Untraced, EventsOf, AnswerAll, CallsAt, Replay;
    MachineIsReachable(l);
    ControlPlaneOverLives(l.setup, l.machine);
    ControlPlaneOverLives(l.setup, l.birth);
    AnswersExactly(l.heard, Fresh(l.atFirst));
    var lives := l.machine.lives;
    var life := lives[|lives| - 1];
    assert life.calls == CallsMade(l) by { assert [] + CallsMade(l) == CallsMade(l); }
    written := LifeWrote(life);
    LastWritten(l.birth.log, Untraced(l.db.history), l.birth.lives, lives, life);
  }

  lemma LifeWrote(life: Life) returns (written: nat)
    requires EndsUnwritten(life)
    ensures written <= |life.calls| && WrittenIn(life) == Names(life.calls[..written])
  {
    written := |life.calls| - |life.unwritten|;
  }

  lemma LastWritten(before: seq<Effect>, more: seq<Effect>, lives: seq<Life>, all: seq<Life>, life: Life)
    requires Plane(before) == Written(lives) && Plane(before + more) == Written(all)
    requires |all| == |lives| + 1 && all[..|lives|] == lives && all[|lives|] == life
    ensures Plane(more) == WrittenIn(life)
  {
    PlaneConcat(before, more);
    hide Plane, WrittenIn;
    assert Plane(more) == Plane(before + more)[|Plane(before)|..];
  }

  lemma HarmlessFirst(e: Effect, es: seq<Effect>)
    ensures Harmless([e] + es) <==> !Mutates(e) && Harmless(es)
  {
    hide Mutates;
    var all := [e] + es;
    assert all[0] == e && forall i | 0 <= i < |es| :: all[i + 1] == es[i];
    if Harmless(all) {
      forall i | 0 <= i < |es| ensures !Mutates(es[i]) {
        assert es[i] == all[i + 1];
      }
    }
  }

  lemma {:induction false} TraceLinesAreHarmless(es: seq<Effect>)
    requires Harmless(Untraced(es))
    ensures Harmless(es)
  {
    hide Harmless;
    if es == [] {
      assert Untraced(es) == es;
    } else {
      var rest := Untraced(es[1..]);
      assert es == [es[0]] + es[1..] && Untraced(es) == if es[0].Traced? then rest else [es[0]] + rest;
      HarmlessFirst(es[0], rest);
      TraceLinesAreHarmless(es[1..]);
      HarmlessFirst(es[0], es[1..]);
    }
  }

  /** A loop that observes, wherever it stands or however it has ended, has called no applier, created no draft,
      written no keyword and saved no receipt. */
  lemma ObservingLoopIsHarmless(l: Loop, pc: Pc)
    requires (l.Stands(pc) || l.Ended()) && l.observe && Reachable(l.setup, l.birth)
    ensures Harmless(l.db.history)
  {
    hide Harmless, Untraced, Reachable, Reaches, AnswerAll, CallsAt, Replay;
    MachineIsReachable(l);
    ObservingLivesAreHarmless(l.setup, l.machine);
    var log, born := l.machine.log, |l.birth.log|;
    if !l.Stands(pc) {
      var lives := l.machine.lives;
      assert lives[|lives| - 1] in lives;
    }
    assert log[born..|log|] == Untraced(l.db.history);
    TraceLinesAreHarmless(l.db.history);
  }
}
