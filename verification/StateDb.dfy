/** The durable state. Each write commits on its own, so the database is always the replay of a
    sequence of commits, and a crash leaves the replay of a prefix. */
module StateDb {
  import opened Model

  datatype AuditRow = AuditRow(ts: string, jmapId: string, event: string, detail: Option<string>)

  datatype Usage = Usage(calls: nat, tokensIn: nat, tokensOut: nat)

  datatype Db = Db(
    cursors: map<string, Cursor>,
    processed: map<string, ProcessedRow>,
    audit: seq<AuditRow>,
    usage: map<string, Usage>,
    senders: map<string, KnownSender>)

  const EMPTY_DB := Db(map[], map[], [], map[], map[])

  function UsageOn(db: Db, date: string): Usage {
    if date in db.usage then db.usage[date] else Usage(0, 0, 0)
  }

  function CursorOf(db: Db, account: string): Option<Cursor> {
    if account in db.cursors then Some(db.cursors[account]) else None
  }

  function SenderOf(db: Db, domain: string): Option<KnownSender> {
    if domain in db.senders then Some(db.senders[domain]) else None
  }

  /** The database after one effect; effects that are not database writes leave it alone. */
  function Commit(db: Db, e: Effect): Db {
    match e
    case AuditWritten(ts, id, event, detail) => db.(audit := db.audit + [AuditRow(ts, id, event, detail)])
    case Marked(id, row) => db.(processed := db.processed[id := row])
    case CursorSet(account, cursor) => db.(cursors := db.cursors[account := cursor])
    case CallRecorded(date, i, o) =>
      var u := UsageOn(db, date);
      db.(usage := db.usage[date := Usage(u.calls + 1, u.tokensIn + i, u.tokensOut + o)])
    case SenderLearned(domain, s) => db.(senders := db.senders[domain := s])
    case _ => db
  }

  function Replay(db: Db, log: seq<Effect>): Db
    decreases |log|
  {
    if log == [] then db else Replay(Commit(db, log[0]), log[1..])
  }

  lemma {:induction false} ReplayConcat(db: Db, a: seq<Effect>, b: seq<Effect>)
    ensures Replay(db, a + b) == Replay(Replay(db, a), b)
    decreases |a|
  {
    if a == [] {
      assert a + b == b;
    } else {
      assert (a + b)[0] == a[0] && (a + b)[1..] == a[1..] + b;
      ReplayConcat(Commit(db, a[0]), a[1..], b);
    }
  }

  lemma ReplayAppend(db: Db, a: seq<Effect>, e: Effect)
    ensures Replay(db, a + [e]) == Commit(Replay(db, a), e)
  {
    ReplayConcat(db, a, [e]);
  }

  lemma {:induction false} ProcessedGrows(db: Db, es: seq<Effect>)
    ensures db.processed.Keys <= Replay(db, es).processed.Keys
    decreases |es|
  {
    if es != [] {
      ProcessedGrows(Commit(db, es[0]), es[1..]);
    }
  }

  /** The calls recorded on the date in `log`, and their tokens, each kind for itself. */
  function RecordedIn(log: seq<Effect>, date: string): Usage {
    if log == [] then Usage(0, 0, 0)
    else
      var u, e := RecordedIn(log[1..], date), log[0];
      if e.CallRecorded? && e.date == date then Usage(1 + u.calls, e.tokensIn + u.tokensIn, e.tokensOut + u.tokensOut)
      else u
  }

  /** A date's account is what it was at first and what has been recorded under it since, and nothing that was
      recorded under another. */
  lemma {:induction false} UsageIsWhatWasRecorded(db: Db, log: seq<Effect>, date: string)
    ensures var u, was, more := UsageOn(Replay(db, log), date), UsageOn(db, date), RecordedIn(log, date);
            && u.calls == was.calls + more.calls
            && u.tokensIn == was.tokensIn + more.tokensIn && u.tokensOut == was.tokensOut + more.tokensOut
    decreases |log|
  {
    if log != [] {
      UsageIsWhatWasRecorded(Commit(db, log[0]), log[1..], date);
    }
  }

  /** The SQLite-backed store. `history` is every effect performed since the store was opened on
      the database `origin`. */
  class StateDB {
    var cursors: map<string, Cursor>
    var processed: map<string, ProcessedRow>
    var audit: seq<AuditRow>
    var usage: map<string, Usage>
    var senders: map<string, KnownSender>
    ghost const origin: Db
    ghost var history: seq<Effect>

    function View(): Db
      reads this
    {
      Db(cursors, processed, audit, usage, senders)
    }

    ghost predicate Valid()
      reads this
    {
      View() == Replay(origin, history)
    }

    constructor (file: Db)
      ensures Valid() && View() == file == origin && history == []
    {
      cursors, processed, audit := file.cursors, file.processed, file.audit;
      usage, senders := file.usage, file.senders;
      origin, history := file, [];
    }

    method GetCursor(account: string) returns (r: Option<Cursor>)
      ensures r == CursorOf(View(), account)
    {
      r := if account in cursors then Some(cursors[account]) else None;
    }

    method SetCursor(account: string, cursor: Cursor)
      requires Valid()
      modifies this
      ensures Valid() && history == old(history) + [CursorSet(account, cursor)]
      ensures View() == old(View()).(cursors := old(cursors)[account := cursor])
    {
      ReplayAppend(origin, history, CursorSet(account, cursor));
      cursors := cursors[account := cursor];
      history := history + [CursorSet(account, cursor)];
    }

    method HasProcessed(id: string) returns (r: bool)
      ensures r <==> id in View().processed
    {
      r := id in processed;
    }

    /** An upsert: re-marking a message replaces its row. */
    method MarkProcessed(id: string, row: ProcessedRow)
      requires Valid()
      modifies this
      ensures Valid() && history == old(history) + [Marked(id, row)]
      ensures View() == old(View()).(processed := old(processed)[id := row])
    {
      ReplayAppend(origin, history, Marked(id, row));
      processed := processed[id := row];
      history := history + [Marked(id, row)];
    }

    method WriteAuditEntry(ts: string, id: string, event: string, detail: Option<string>)
      requires Valid()
      modifies this
      ensures Valid() && history == old(history) + [AuditWritten(ts, id, event, detail)]
      ensures View() == old(View()).(audit := old(audit) + [AuditRow(ts, id, event, detail)])
    {
      ReplayAppend(origin, history, AuditWritten(ts, id, event, detail));
      audit := audit + [AuditRow(ts, id, event, detail)];
      history := history + [AuditWritten(ts, id, event, detail)];
    }

    /** A control-plane entry carries the empty message id. */
    method WriteControlPlaneAuditEntry(ts: string, event: string, detail: Option<string>)
      requires Valid()
      modifies this
      ensures Valid() && history == old(history) + [AuditWritten(ts, "", event, detail)]
      ensures View() == old(View()).(audit := old(audit) + [AuditRow(ts, "", event, detail)])
    {
      WriteAuditEntry(ts, "", event, detail);
    }

    /** Accumulates onto the date's row; negative token counts are refused before any write. */
    method RecordLlmCall(date: string, tokensIn: int, tokensOut: int) returns (r: Outcome<()>)
      requires Valid()
      modifies this
      ensures Valid()
      ensures r.Raised? <==> tokensIn < 0 || tokensOut < 0
      ensures r.Raised? ==> r.exn == NegativeTokens && View() == old(View()) && history == old(history)
      ensures r.Ok? ==> history == old(history) + [CallRecorded(date, tokensIn, tokensOut)]
      ensures r.Ok? ==>
                var u := UsageOn(old(View()), date);
                UsageOn(View(), date) == Usage(u.calls + 1, u.tokensIn + tokensIn, u.tokensOut + tokensOut)
      ensures r.Ok? ==> forall d :: d != date ==> UsageOn(View(), d) == UsageOn(old(View()), d)
    {
      if tokensIn < 0 || tokensOut < 0 {
        return Raised(NegativeTokens);
      }
      ReplayAppend(origin, history, CallRecorded(date, tokensIn, tokensOut));
      var u := if date in usage then usage[date] else Usage(0, 0, 0);
      usage := usage[date := Usage(u.calls + 1, u.tokensIn + tokensIn, u.tokensOut + tokensOut)];
      history := history + [CallRecorded(date, tokensIn, tokensOut)];
      r := Ok(());
    }

    method GetLlmUsage(date: string) returns (u: Usage)
      ensures u == UsageOn(View(), date)
    {
      u := if date in usage then usage[date] else Usage(0, 0, 0);
    }

    method LearnKnownSender(domain: string, sender: KnownSender)
      requires Valid()
      modifies this
      ensures Valid() && history == old(history) + [SenderLearned(domain, sender)]
      ensures View() == old(View()).(senders := old(senders)[domain := sender])
    {
      ReplayAppend(origin, history, SenderLearned(domain, sender));
      senders := senders[domain := sender];
      history := history + [SenderLearned(domain, sender)];
    }

    /** Performs one effect: a database write goes through its method, any other effect happens
        outside and is only noted in the history. */
    method Perform(e: Effect)
      requires Valid()
      modifies this
      ensures Valid() && history == old(history) + [e] && View() == Commit(old(View()), e)
    {
      match e
      case AuditWritten(ts, id, event, detail) => WriteAuditEntry(ts, id, event, detail);
      case Marked(id, row) => MarkProcessed(id, row);
      case CursorSet(account, cursor) => SetCursor(account, cursor);
      case CallRecorded(date, i, o) =>
        ghost var before := View();
        ReplayAppend(origin, history, e);
        var _ := RecordLlmCall(date, i, o);
      case SenderLearned(domain, s) => LearnKnownSender(domain, s);
      case _ =>
        ReplayAppend(origin, history, e);
        history := history + [e];
    }

    method PerformAll(es: seq<Effect>)
      requires Valid()
      modifies this
      ensures Valid() && history == old(history) + es && View() == Replay(old(View()), es)
    {
      for i := 0 to |es|
        invariant Valid() && history == old(history) + es[..i]
        invariant View() == Replay(old(View()), es[..i])
      {
        assert es[..i + 1] == es[..i] + [es[i]];
        ReplayAppend(old(View()), es[..i], es[i]);
        Perform(es[i]);
      }
      assert es[..|es|] == es;
    }
  }
}
