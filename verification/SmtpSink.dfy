/** The local SMTP sink: the conversation of one connection, while others record to the same store. */
module SmtpSink {
  import opened Model

  // ----- Lines -----

  /** A line as read, without the carriage returns and newlines at its end. */
  function Strip(raw: string): string {
    if raw != "" && raw[|raw| - 1] in "\r\n" then Strip(raw[..|raw| - 1]) else raw
  }

  predicate FreeOfBreaks(line: string) {
    forall i | 0 <= i < |line| :: line[i] != '\r' && line[i] != '\n'
  }

  /** The sender's side of section 4.5.2 of RFC 5321. */
  function Stuff(line: string): string {
    if line != "" && line[0] == '.' then "." + line else line
  }

  function Unstuff(line: string): string {
    if StartsWith(line, "..") then line[1..] else line
  }

  function Wire(line: string): string {
    line + "\r\n"
  }

  lemma WireReadBack(line: string)
    requires FreeOfBreaks(line)
    ensures Strip(Wire(line)) == line
  {
    var raw := Wire(line);
    assert raw[|raw| - 1] == '\n' && raw[..|raw| - 1] == line + "\r";
    assert (line + "\r")[|line|] == '\r' && (line + "\r")[..|line|] == line;
    assert Strip(line) == line;
  }

  /** A stuffed line is never the terminator, and is what it was once unstuffed. */
  lemma StuffedIsSafe(line: string)
    requires FreeOfBreaks(line)
    ensures Strip(Wire(Stuff(line))) == Stuff(line) != "." && Unstuff(Stuff(line)) == line
  {
    assert FreeOfBreaks(Stuff(line));
    WireReadBack(Stuff(line));
    if line != "" && line[0] == '.' {
      assert Stuff(line)[..2] == ".." && Stuff(line)[1..] == line;
    } else if |line| >= 2 {
      assert line[..2][0] == line[0];
    }
  }

  // ----- One connection -----

  /** `all` is the shared store, `mine` what this connection recorded, `acked` the places in the store
      of the messages it acknowledged. */
  datatype Conv = Conv(
    data: bool, lines: seq<string>, all: seq<string>, mine: seq<string>, acked: seq<nat>, replies: seq<string>,
    open: bool)

  /** Case folding of commands, and the number of messages after which to break off, if any. */
  datatype Setting = Setting(upper: string -> string, failAfter: Option<int>)

  predicate Breaks(s: Setting, count: nat) {
    s.failAfter.Some? && count >= s.failAfter.value
  }

  /** The end of the data: the message is recorded; it is acknowledged unless the sink breaks off. */
  function Recorded(s: Setting, c: Conv): Conv {
    var message := Join(c.lines, "\n");
    var d := c.(all := c.all + [message], mine := c.mine + [message]);
    if Breaks(s, |d.all|) then d.(open := false)
    else
      d.(replies := d.replies + ["250 2.0.0 accepted"], acked := d.acked + [|c.all|], data := false, lines := [])
  }

  function OnData(s: Setting, c: Conv, line: string): Conv {
    if line == "." then Recorded(s, c) else c.(lines := c.lines + [Unstuff(line)])
  }

  function Reply(c: Conv, texts: seq<string>): Conv {
    c.(replies := c.replies + texts)
  }

  function OnCommand(s: Setting, c: Conv, line: string): Conv {
    var command := s.upper(line);
    if StartsWith(command, "EHLO") || StartsWith(command, "HELO") then Reply(c, ["250-spork", "250 SIZE 10485760"])
    else if StartsWith(command, "MAIL FROM:") || StartsWith(command, "RCPT TO:") then Reply(c, ["250 2.1.0 ok"])
    else if command == "DATA" then Reply(c, ["354 End data with <CR><LF>.<CR><LF>"]).(data := true)
    else if command == "RSET" then Reply(c, ["250 2.0.0 reset"]).(lines := [])
    else if command == "QUIT" then Reply(c, ["221 2.0.0 bye"]).(open := false)
    else Reply(c, ["250 2.0.0 ok"])
  }

  function OnLine(s: Setting, c: Conv, line: string): Conv {
    if c.data then OnData(s, c, line) else OnCommand(s, c, line)
  }

  /** What other connections have recorded by the time a line is handled. */
  type Others = nat -> seq<string>

  /** The whole conversation: `k` lines have been read before. */
  function Converse(s: Setting, others: Others, k: nat, c: Conv, raws: seq<string>): Conv
    decreases |raws|
  {
    if raws == [] || !c.open then c
    else Converse(s, others, k + 1, OnLine(s, c.(all := c.all + others(k)), Strip(raws[0])), raws[1..])
  }

  class State {
    const failAfter: Option<int>
    var messages: seq<string>

    constructor (failAfter: Option<int>)
      ensures this.failAfter == failAfter && messages == []
    {
      this.failAfter, messages := failAfter, [];
    }

    /** Under the lock: append, and say whether to break off. */
    method Record(message: string) returns (fail: bool)
      modifies this
      ensures messages == old(messages) + [message]
      ensures fail == (failAfter.Some? && |messages| >= failAfter.value)
    {
      messages := messages + [message];
      fail := failAfter.Some? && |messages| >= failAfter.value;
    }
  }

  const GREETING := "220 spork acceptance SMTP"

  function Opened(all: seq<string>): Conv {
    Conv(false, [], all, [], [], [GREETING], true)
  }

  class Handler {
    const state: State
    const upper: string -> string
    var dataMode: bool
    var lines: seq<string>
    var sent: seq<string>
    ghost var mine: seq<string>
    ghost var acked: seq<nat>

    constructor (state: State, upper: string -> string)
      ensures this.state == state && this.upper == upper && Conversation(true) == Opened(state.messages)
    {
      this.state, this.upper, dataMode, lines, sent := state, upper, false, [], [GREETING];
      mine, acked := [], [];
    }

    ghost function Conversation(open: bool): Conv
      reads this, state
    {
      Conv(dataMode, lines, state.messages, mine, acked, sent, open)
    }

    /** The loop over the lines of the connection; it ends with the connection or with the input. */
    method Handle(raws: seq<string>, others: Others) returns (open: bool)
      modifies this, state
      ensures Conversation(open) == Converse(Setting(upper, state.failAfter), others, 0, old(Conversation(true)), raws)
    {
      ghost var s, start := Setting(upper, state.failAfter), Conversation(true);
      open := true;
      var k := 0;
      while k < |raws| && open
        invariant k <= |raws|
        invariant Converse(s, others, k, Conversation(open), raws[k..]) == Converse(s, others, 0, start, raws)
        decreases |raws| - k
      {
        assert raws[k..][0] == raws[k] && raws[k..][1..] == raws[k + 1..];
        state.messages := state.messages + others(k);
        var line := Strip(raws[k]);
        k := k + 1;
        if dataMode {
          open := HandleData(line);
        } else {
          open := HandleCommand(line);
        }
      }
    }

    method HandleData(line: string) returns (open: bool)
      requires dataMode
      modifies this, state
      ensures Conversation(open) == OnData(Setting(upper, state.failAfter), old(Conversation(true)), line)
    {
      open := true;
      if line == "." {
        ghost var place := |state.messages|;
        var message := Join(lines, "\n");
        mine := mine + [message];
        var fail := state.Record(message);
        if fail {
          return false;
        }
        sent, acked := sent + ["250 2.0.0 accepted"], acked + [place];
        dataMode, lines := false, [];
      } else {
        lines := lines + [if StartsWith(line, "..") then line[1..] else line];
      }
    }

    method HandleCommand(line: string) returns (open: bool)
      requires !dataMode
      modifies this
      ensures Conversation(open) == OnCommand(Setting(upper, state.failAfter), old(Conversation(true)), line)
    {
      open := true;
      var command := upper(line);
      if StartsWith(command, "EHLO") || StartsWith(command, "HELO") {
        sent := sent + ["250-spork", "250 SIZE 10485760"];
      } else if StartsWith(command, "MAIL FROM:") || StartsWith(command, "RCPT TO:") {
        sent := sent + ["250 2.1.0 ok"];
      } else if command == "DATA" {
        sent := sent + ["354 End data with <CR><LF>.<CR><LF>"];
        dataMode := true;
      } else if command == "RSET" {
        sent, lines := sent + ["250 2.0.0 reset"], [];
      } else if command == "QUIT" {
        sent := sent + ["221 2.0.0 bye"];
        open := false;
      } else {
        sent := sent + ["250 2.0.0 ok"];
      }
    }
  }

  // ----- What comes of a session -----

  lemma {:induction false} ConverseJoin(s: Setting, others: Others, k: nat, c: Conv, a: seq<string>, b: seq<string>)
    ensures var d := Converse(s, others, k, c, a);
            Converse(s, others, k, c, a + b) == if d.open then Converse(s, others, k + |a|, d, b) else d
    decreases |a|
  {
    hide OnLine, Strip;
    if a == [] {
      assert a + b == b;
    } else if c.open {
      assert (a + b)[0] == a[0] && (a + b)[1..] == a[1..] + b;
      ConverseJoin(s, others, k + 1, OnLine(s, c.(all := c.all + others(k)), Strip(a[0])), a[1..], b);
    }
  }

  /** Every acknowledged message stands in the store where it was put, in the order of this connection,
      and before the `failAfter`-th message of the store, whoever recorded the others. */
  ghost predicate AckedEarly(s: Setting, c: Conv) {
    && (if c.open then |c.acked| == |c.mine| else |c.acked| <= |c.mine| <= |c.acked| + 1)
    && forall i | 0 <= i < |c.acked| ::
         c.acked[i] < |c.all| && c.all[c.acked[i]] == c.mine[i] && !Breaks(s, c.acked[i] + 1)
  }

  lemma MoreInStore(s: Setting, c: Conv, others: seq<string>)
    requires AckedEarly(s, c)
    ensures AckedEarly(s, c.(all := c.all + others))
  {}

  lemma RecordedEarly(s: Setting, c: Conv)
    requires AckedEarly(s, c) && c.open
    ensures AckedEarly(s, Recorded(s, c))
  {
    var d := Recorded(s, c);
    assert forall i | 0 <= i < |c.acked| :: d.acked[i] == c.acked[i] && d.mine[i] == c.mine[i];
    assert forall i | 0 <= i < |c.all| :: d.all[i] == c.all[i];
  }

  /** Of any input at all. */
  lemma {:induction false} NeverAckedLate(s: Setting, others: Others, k: nat, c: Conv, raws: seq<string>)
    requires AckedEarly(s, c)
    ensures AckedEarly(s, Converse(s, others, k, c, raws))
    decreases |raws|
  {
    if raws != [] && c.open {
      var line, d := Strip(raws[0]), c.(all := c.all + others(k));
      MoreInStore(s, c, others(k));
      if d.data && line == "." {
        RecordedEarly(s, d);
      }
      NeverAckedLate(s, others, k + 1, OnLine(s, d, line), raws[1..]);
    }
  }

  /** What the others record while the connection lasts. */
  function Theirs(s: Setting, others: Others, k: nat, c: Conv, raws: seq<string>): seq<string>
    decreases |raws|
  {
    if raws == [] || !c.open then []
    else others(k) + Theirs(s, others, k + 1, OnLine(s, c.(all := c.all + others(k)), Strip(raws[0])), raws[1..])
  }

  /** `all` holds `mine` and `theirs`, each in its order, and nothing else. */
  predicate Interleaves(all: seq<string>, mine: seq<string>, theirs: seq<string>) {
    if all == [] then mine == [] && theirs == []
    else
      || (mine != [] && mine[0] == all[0] && Interleaves(all[1..], mine[1..], theirs))
      || (theirs != [] && theirs[0] == all[0] && Interleaves(all[1..], mine, theirs[1..]))
  }

  lemma {:induction false} TheirsFirst(o: seq<string>, all: seq<string>, mine: seq<string>, theirs: seq<string>)
    requires Interleaves(all, mine, theirs)
    ensures Interleaves(o + all, mine, o + theirs)
  {
    if o == [] {
      assert o + all == all && o + theirs == theirs;
    } else {
      TheirsFirst(o[1..], all, mine, theirs);
      assert (o + all)[1..] == o[1..] + all && (o + theirs)[1..] == o[1..] + theirs;
    }
  }

  lemma MineFirst(m: string, all: seq<string>, mine: seq<string>, theirs: seq<string>)
    requires Interleaves(all, mine, theirs)
    ensures Interleaves([m] + all, [m] + mine, theirs)
  {
    assert ([m] + all)[1..] == all && ([m] + mine)[1..] == mine;
  }

  /** A connection alone fills the store with its own messages. */
  lemma {:induction false} AloneIsMine(all: seq<string>, mine: seq<string>)
    requires Interleaves(all, mine, [])
    ensures all == mine
  {
    if all != [] {
      AloneIsMine(all[1..], mine[1..]);
    }
  }

  /** What one line adds to the store it adds to this connection's own messages. */
  lemma LineAdds(s: Setting, c: Conv, line: string) returns (own: seq<string>)
    ensures var d := OnLine(s, c, line); |own| <= 1 && d.all == c.all + own && d.mine == c.mine + own
  {
    own := if c.data && line == "." then [Join(c.lines, "\n")] else [];
  }

  lemma LineInterleaves(
    o: seq<string>, own: seq<string>, more: seq<string>, rest: seq<string>, theirs: seq<string>)
    requires Interleaves(more, rest, theirs) && |own| <= 1
    ensures Interleaves(o + (own + more), own + rest, o + theirs)
  {
    if own != [] {
      assert own == [own[0]];
      MineFirst(own[0], more, rest, theirs);
    } else {
      assert own + more == more && own + rest == rest;
    }
    TheirsFirst(o, own + more, own + rest, theirs);
  }

  /** `d` follows `c`: its store has gained what the two parties recorded, each in order. */
  ghost predicate Gained(c: Conv, d: Conv, theirs: seq<string>) {
    && c.all <= d.all && c.mine <= d.mine
    && Interleaves(d.all[|c.all|..], d.mine[|c.mine|..], theirs)
  }

  lemma GainedMore(c: Conv, o: seq<string>, own: seq<string>, d: Conv, e: Conv, theirs: seq<string>)
    requires d.all == c.all + o + own && d.mine == c.mine + own && |own| <= 1 && Gained(d, e, theirs)
    ensures Gained(c, e, o + theirs)
  {
    var more, rest := e.all[|d.all|..], e.mine[|d.mine|..];
    LineInterleaves(o, own, more, rest, theirs);
    hide Interleaves;
    assert e.all[|c.all|..] == o + (own + more);
    assert e.mine[|c.mine|..] == own + rest;
  }

  /** Of any input at all: what the store gains while the connection lasts is what this connection
      recorded and what the others recorded, each in order, and nothing else. */
  lemma {:induction false} StoreHoldsAll(s: Setting, others: Others, k: nat, c: Conv, raws: seq<string>)
    ensures Gained(c, Converse(s, others, k, c, raws), Theirs(s, others, k, c, raws))
    decreases |raws|
  {
    if raws != [] && c.open {
      var d := c.(all := c.all + others(k));
      var own := LineAdds(s, d, Strip(raws[0]));
      hide OnLine, Strip, Gained;
      var next := OnLine(s, d, Strip(raws[0]));
      StoreHoldsAll(s, others, k + 1, next, raws[1..]);
      GainedMore(c, others(k), own, next, Converse(s, others, k, c, raws),
        Theirs(s, others, k + 1, next, raws[1..]));
    }
  }

  /** Without others nothing is theirs. */
  lemma {:induction false} NobodyElse(s: Setting, others: Others, k: nat, c: Conv, raws: seq<string>)
    requires forall j :: others(j) == []
    ensures Theirs(s, others, k, c, raws) == []
    decreases |raws|
  {
    hide OnLine, Strip;
    if raws != [] && c.open {
      NobodyElse(s, others, k + 1, OnLine(s, c.(all := c.all + others(k)), Strip(raws[0])), raws[1..]);
    }
  }

  /** A message as sent: some commands, DATA, the stuffed lines, the terminator. */
  datatype Mail = Mail(envelope: seq<string>, body: seq<string>)

  /** Commands that neither start the data nor end the connection. */
  predicate Harmless(s: Setting, command: string) {
    FreeOfBreaks(command) && s.upper(command) != "DATA" && s.upper(command) != "QUIT"
  }

  ghost predicate Sendable(s: Setting, m: Mail) {
    && s.upper("DATA") == "DATA"
    && (forall l | l in m.envelope :: Harmless(s, l)) && (forall l | l in m.body :: FreeOfBreaks(l))
  }

  function Wires(lines: seq<string>): seq<string> {
    seq(|lines|, i requires 0 <= i < |lines| => Wire(lines[i]))
  }

  function Stuffed(lines: seq<string>): seq<string> {
    seq(|lines|, i requires 0 <= i < |lines| => Stuff(lines[i]))
  }

  function Sent(m: Mail): seq<string> {
    Wires(m.envelope) + ([Wire("DATA")] + (Wires(Stuffed(m.body)) + [Wire(".")]))
  }

  /** Between messages: commands are expected and nothing is collected. */
  predicate Idle(c: Conv) {
    c.open && !c.data && c.lines == []
  }

  lemma {:induction false} EnvelopeSent(s: Setting, others: Others, k: nat, c: Conv, envelope: seq<string>)
    requires Idle(c) && forall l | l in envelope :: Harmless(s, l)
    ensures var d := Converse(s, others, k, c, Wires(envelope));
            Idle(d) && d.mine == c.mine && d.acked == c.acked
    decreases |envelope|
  {
    if envelope != [] {
      var l := envelope[0];
      assert l in envelope;
      WireReadBack(l);
      assert Wires(envelope)[0] == Wire(l) && Wires(envelope)[1..] == Wires(envelope[1..]);
      EnvelopeSent(s, others, k + 1, OnLine(s, c.(all := c.all + others(k)), l), envelope[1..]);
    }
  }

  lemma {:induction false} BodySent(s: Setting, others: Others, k: nat, c: Conv, body: seq<string>)
    requires c.open && c.data && forall l | l in body :: FreeOfBreaks(l)
    ensures var d := Converse(s, others, k, c, Wires(Stuffed(body)));
            d.open && d.data && d.lines == c.lines + body && d.mine == c.mine && d.acked == c.acked
    decreases |body|
  {
    var wires := Wires(Stuffed(body));
    if body != [] {
      var l := body[0];
      assert l in body;
      StuffedIsSafe(l);
      assert wires[0] == Wire(Stuff(l)) && wires[1..] == Wires(Stuffed(body[1..]));
      BodySent(s, others, k + 1, OnLine(s, c.(all := c.all + others(k)), Stuff(l)), body[1..]);
      assert c.lines + [l] + body[1..] == c.lines + body;
    }
  }

  /** One line: what a single step of the conversation is. */
  lemma OneLine(s: Setting, others: Others, k: nat, c: Conv, line: string)
    requires c.open && FreeOfBreaks(line)
    ensures Converse(s, others, k, c, [Wire(line)]) == OnLine(s, c.(all := c.all + others(k)), line)
  {
    WireReadBack(line);
    assert [Wire(line)][1..] == [];
  }

  /** One message: recorded as it was, and acknowledged unless the sink breaks off. */
  ghost predicate MailTaken(s: Setting, c: Conv, d: Conv, body: seq<string>) {
    && d.mine == c.mine + [Join(body, "\n")]
    && (d.open ==> Idle(d) && |d.acked| == |c.acked| + 1)
    && (!d.open ==> d.acked == c.acked && Breaks(s, |d.all|))
  }

  lemma TextSent(s: Setting, others: Others, k: nat, c: Conv, body: seq<string>)
    requires c.open && c.data && c.lines == [] && forall l | l in body :: FreeOfBreaks(l)
    ensures MailTaken(s, c, Converse(s, others, k, c, Wires(Stuffed(body)) + [Wire(".")]), body)
  {
    hide Join, Stuff, Wire;
    var wires := Wires(Stuffed(body));
    BodySent(s, others, k, c, body);
    var collected := Converse(s, others, k, c, wires);
    ConverseJoin(s, others, k, c, wires, [Wire(".")]);
    OneLine(s, others, k + |wires|, collected, ".");
    assert [] + body == body;
  }

  lemma DataSent(s: Setting, others: Others, k: nat, c: Conv, m: Mail)
    requires Sendable(s, m) && Idle(c)
    ensures var d := Converse(s, others, k, c, [Wire("DATA")] + (Wires(Stuffed(m.body)) + [Wire(".")]));
            MailTaken(s, c, d, m.body)
  {
    var text := Wires(Stuffed(m.body)) + [Wire(".")];
    OneLine(s, others, k, c, "DATA");
    assert "DATA"[..4][0] == 'D' && "EHLO"[0] == 'E' && "HELO"[0] == 'H';
    var started := Converse(s, others, k, c, [Wire("DATA")]);
    ConverseJoin(s, others, k, c, [Wire("DATA")], text);
    TextSent(s, others, k + 1, started, m.body);
  }

  lemma MailSent(s: Setting, others: Others, k: nat, c: Conv, m: Mail)
    requires Sendable(s, m) && Idle(c)
    ensures MailTaken(s, c, Converse(s, others, k, c, Sent(m)), m.body)
  {
    var envelope := Wires(m.envelope);
    EnvelopeSent(s, others, k, c, m.envelope);
    ConverseJoin(s, others, k, c, envelope, [Wire("DATA")] + (Wires(Stuffed(m.body)) + [Wire(".")]));
    DataSent(s, others, k + |envelope|, Converse(s, others, k, c, envelope), m);
  }

  function Session(ms: seq<Mail>): seq<string> {
    if ms == [] then [] else Sent(ms[0]) + Session(ms[1..])
  }

  function Texts(ms: seq<Mail>): seq<string> {
    seq(|ms|, i requires 0 <= i < |ms| => Join(ms[i].body, "\n"))
  }

  lemma {:induction false} SessionIsTaken(s: Setting, others: Others, k: nat, c: Conv, ms: seq<Mail>)
    requires Idle(c) && forall m | m in ms :: Sendable(s, m)
    ensures var d := Converse(s, others, k, c, Session(ms));
            SessionTaken(s, c, d, Texts(ms))
    decreases |ms|
  {
    hide Join, Breaks, Sendable, Sent;
    if ms != [] {
      assert ms[0] in ms;
      MailSent(s, others, k, c, ms[0]);
      var d := Converse(s, others, k, c, Sent(ms[0]));
      ConverseJoin(s, others, k, c, Sent(ms[0]), Session(ms[1..]));
      assert Texts(ms) == [Join(ms[0].body, "\n")] + Texts(ms[1..]);
      if d.open {
        SessionIsTaken(s, others, k + |Sent(ms[0])|, d, ms[1..]);
        OneMoreTaken(s, c, d, Converse(s, others, k, c, Session(ms)), ms[0].body, Texts(ms[1..]));
      }
    }
  }

  /** `d` has recorded the first `n` of `texts`: all of them if it is still open, else up to the one
      that was not acknowledged. */
  ghost predicate SessionTaken(s: Setting, c: Conv, d: Conv, texts: seq<string>) {
    var n := |d.mine| - |c.mine|;
    && 0 <= n <= |texts| && d.mine == c.mine + texts[..n]
    && (d.open ==> n == |texts| && |d.acked| == |c.acked| + n)
    && (!d.open ==> n > 0 && |d.acked| == |c.acked| + n - 1 && Breaks(s, |d.all|))
  }

  lemma OneMoreTaken(s: Setting, c: Conv, d: Conv, e: Conv, body: seq<string>, texts: seq<string>)
    requires MailTaken(s, c, d, body) && d.open && SessionTaken(s, d, e, texts)
    ensures SessionTaken(s, c, e, [Join(body, "\n")] + texts)
  {
    var n := |e.mine| - |c.mine|;
    assert ([Join(body, "\n")] + texts)[..n] == [Join(body, "\n")] + texts[..n - 1];
  }

  /** The messages of a session are recorded as they were and in order: all of them if the sink does
      not break off, else up to the one at which it does, which alone is not acknowledged. They stand in
      the shared store among what others recorded meanwhile, each acknowledged one where it was put; and
      with no others the store gains them and nothing else. */
  lemma SessionIsRecorded(s: Setting, others: Others, k: nat, c: Conv, ms: seq<Mail>)
    requires Idle(c) && AckedEarly(s, c) && forall m | m in ms :: Sendable(s, m)
    ensures var d := Converse(s, others, k, c, Session(ms));
            && SessionTaken(s, c, d, Texts(ms)) && AckedEarly(s, d)
            && Gained(c, d, Theirs(s, others, k, c, Session(ms)))
            && ((forall j :: others(j) == []) ==> d.all == c.all + d.mine[|c.mine|..])
  {
    hide Sendable, SessionTaken, AckedEarly, Converse, Theirs, Session, Texts;
    var d := Converse(s, others, k, c, Session(ms));
    SessionIsTaken(s, others, k, c, ms);
    NeverAckedLate(s, others, k, c, Session(ms));
    StoreHoldsAll(s, others, k, c, Session(ms));
    if forall j :: others(j) == [] {
      NobodyElse(s, others, k, c, Session(ms));
      AloneIsMine(d.all[|c.all|..], d.mine[|c.mine|..]);
    }
  }
}
