/** While a worker thread commits a message's run, handlers run on the event loop. Where they fall among
    the commits makes no difference, so the loop may take them to run after the last. */
module Interleavings {
  import opened Daemon

  predicate IsHandler(turn: Turn) {
    turn.RequestStop? || turn.CallPause? || turn.CallResume? || turn.CallReload?
  }

  predicate IsCommit(a: Act) {
    a == Take(CommitNext)
  }

  /** A commit, or a handler. */
  predicate DuringRun(a: Act) {
    a.Take? && (IsHandler(a.turn) || a.turn.CommitNext?)
  }

  function CommitsOf(acts: seq<Act>): (r: seq<Act>)
    ensures forall a | a in r :: IsCommit(a)
  {
    if acts == [] then [] else (if IsCommit(acts[0]) then [acts[0]] else []) + CommitsOf(acts[1..])
  }

  function HandlersOf(acts: seq<Act>): seq<Act> {
    if acts == [] then [] else (if IsCommit(acts[0]) then [] else [acts[0]]) + HandlersOf(acts[1..])
  }

  /** A handler changes nothing that a commit reads, nor the other way round. */
  lemma HandlerAndCommit(setup: Setup, s: State, h: Turn)
    requires IsHandler(h) && s.proc.Some? && Enabled(setup, Next(setup, s, Take(h)), Take(CommitNext))
    ensures Enabled(setup, s, Take(CommitNext))
    ensures Next(setup, Next(setup, s, Take(h)), Take(CommitNext))
         == Next(setup, Next(setup, s, Take(CommitNext)), Take(h))
  {
    hide DbOf, InHand, PollResult, AfterRun, AfterCheck, StartRun, StartTier2, Acknowledge, Capture;
  }

  lemma ReachesFirst(setup: Setup, s: State, a: Act, rest: seq<Act>, t: State)
    ensures Reaches(setup, s, [a] + rest, t) <==> Enabled(setup, s, a) && Reaches(setup, Next(setup, s, a), rest, t)
  {
    assert ([a] + rest)[1..] == rest;
  }

  /** A handler before some commits may as well run after them. */
  lemma {:induction false} HandlerLast(setup: Setup, s: State, h: Turn, commits: seq<Act>, u: State)
    returns (v: State)
    requires IsHandler(h) && s.proc.Some? && (forall a | a in commits :: IsCommit(a))
    requires Reaches(setup, Next(setup, s, Take(h)), commits, u)
    ensures Reaches(setup, s, commits, v) && Enabled(setup, v, Take(h)) && u == Next(setup, v, Take(h))
    decreases |commits|
  {
    if commits == [] {
      v := s;
    } else {
      assert commits[0] in commits && forall x | x in commits[1..] :: x in commits;
      HandlerAndCommit(setup, s, h);
      CommitKeepsProc(setup, s);
      hide Next, Enabled, IsHandler;
      v := HandlerLast(setup, Next(setup, s, commits[0]), h, commits[1..], u);
    }
  }

  lemma CommitKeepsProc(setup: Setup, s: State)
    requires Enabled(setup, s, Take(CommitNext))
    ensures Next(setup, s, Take(CommitNext)).proc.Some?
  {}

  lemma FirstOf(acts: seq<Act>)
    requires acts != []
    ensures var commits, handlers := CommitsOf(acts[1..]), HandlersOf(acts[1..]);
            && CommitsOf(acts) == (if IsCommit(acts[0]) then [acts[0]] + commits else commits)
            && HandlersOf(acts) == (if IsCommit(acts[0]) then handlers else [acts[0]] + handlers)
  {}

  /** Any interleaving of handlers with commits reaches what all the commits, up to `u`, and then the
      handlers, each in their order, reach. */
  lemma {:induction false} HandlersMayWait(setup: Setup, s: State, acts: seq<Act>, t: State) returns (u: State)
    requires Reaches(setup, s, acts, t) && forall a | a in acts :: DuringRun(a)
    ensures Reaches(setup, s, CommitsOf(acts), u) && Reaches(setup, u, HandlersOf(acts), t)
    decreases |acts|
  {
    if acts == [] {
      u := s;
    } else {
      var a, later := acts[0], acts[1..];
      assert a in acts && forall x | x in later :: x in acts;
      var w := HandlersMayWait(setup, Next(setup, s, a), later, t);
      FirstOf(acts);
      u := FirstWaits(setup, s, a, CommitsOf(later), HandlersOf(later), w, t);
    }
  }

  lemma FirstWaits(
    setup: Setup, s: State, a: Act, commits: seq<Act>, handlers: seq<Act>, w: State, t: State) returns (u: State)
    requires DuringRun(a) && Enabled(setup, s, a) && (forall c | c in commits :: IsCommit(c))
    requires Reaches(setup, Next(setup, s, a), commits, w) && Reaches(setup, w, handlers, t)
    ensures Reaches(setup, s, if IsCommit(a) then [a] + commits else commits, u)
    ensures Reaches(setup, u, if IsCommit(a) then handlers else [a] + handlers, t)
  {
    if IsCommit(a) {
      ReachesFirst(setup, s, a, commits, w);
      u := w;
    } else {
      u := HandlerLast(setup, s, a.turn, commits, w);
      ReachesFirst(setup, u, a, handlers, t);
    }
  }
}
