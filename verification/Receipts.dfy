/** The archive_receipt branch: resolve company and date, learn the sender, tag, save. */
module Receipts {
  import opened Model
  import opened StateDb
  import opened Pipelines
  import opened BodyCleaning

  datatype Extraction = Extraction(company: string, date: string)

  /** The collaborators of one archive run. `normalize` canonicalises a sender domain, `bodyDate`
      finds a date in a body, and `curated` is the optional domain lookup: an unknown domain, a
      known one without a company, or a company. The last three are what the calls of this run
      answer; `archive` stands for fetching attachments, building the PDF and saving it. */
  datatype Parts = Parts(
    normalize: string -> string,
    bodyDate: string -> Option<string>,
    curated: Option<string -> Option<Option<string>>>,
    dryRun: bool, observe: bool,
    extraction: Outcome<Extraction>, tagging: Option<Exn>, archive: Option<Exn>)

  /** A non-empty `Date` header, stripped, or else a date stated in the body. */
  function ExtractDate(parts: Parts, m: Message): Option<string> {
    if "Date" in m.headers && m.headers["Date"] != ""
    then Some(StripRight(StripLeft(m.headers["Date"])))
    else parts.bodyDate(m.body)
  }

  function CuratedCompany(parts: Parts, domain: string): Option<string> {
    if parts.curated.None? then None
    else
      match parts.curated.value(domain)
      case Some(Some(c)) => if c == "" then None else Some(c)
      case _ => None
  }

  /** Curated data first, then what was learned. */
  function ResolveCompany(parts: Parts, domain: string, known: Option<KnownSender>): Option<string> {
    match CuratedCompany(parts, domain)
    case Some(c) => Some(c)
    case None => if known.Some? then Some(known.value.company) else None
  }

  /** Declines unless both halves are known. */
  function ExtractReceipt(parts: Parts, m: Message, known: Option<KnownSender>): Option<Extraction> {
    match (ResolveCompany(parts, m.fromDomain, known), ExtractDate(parts, m))
    case (Some(c), Some(d)) => Some(Extraction(c, d))
    case _ => None
  }

  function Keywords(e: Extraction): seq<string> {
    ["receipt", "company:" + e.company, "date:" + e.date]
  }

  function SenderFrom(e: Extraction, ts: string): KnownSender {
    KnownSender(e.company, "tier2", ts)
  }

  /** One archive run: extract, learn, tag, save, in that order, with a failure between any two. */
  function Archive(parts: Parts, db: Db, m: Message, ts: string): Step<Extraction> {
    var domain := parts.normalize(m.fromDomain);
    match ExtractReceipt(parts, m, SenderOf(db, domain))
    case Some(e) => TagAndSave(parts, m, e, [])
    case None =>
      match parts.extraction
      case Raised(x) => Step([], Raised(x))
      case Ok(e) =>
        TagAndSave(parts, m, e, [ReceiptExtracted(domain), SenderLearned(domain, SenderFrom(e, ts))])
  }

  function TagAndSave(parts: Parts, m: Message, e: Extraction, learned: seq<Effect>): Step<Extraction> {
    var tagged := learned + if parts.observe then [] else [KeywordsApplied(m.id, Keywords(e))];
    if parts.tagging.Some? && !parts.observe then Step(tagged, Raised(parts.tagging.value))
    else if parts.dryRun then Step(tagged, Ok(e))
    else if parts.archive.Some? then Step(tagged, Raised(parts.archive.value))
    else Step(tagged + [PdfSaved(m.id)], Ok(e))
  }

  /** The same run against the live database, effect by effect. */
  method Augment(parts: Parts, db: StateDB, m: Message, ts: string) returns (out: Outcome<Extraction>)
    requires db.Valid()
    modifies db
    ensures out == Archive(parts, old(db.View()), m, ts).out
    ensures Performed(db, old(db.history), old(db.View()), Archive(parts, old(db.View()), m, ts).effects)
  {
    ghost var log, was := db.history, db.View();
    ghost var done: seq<Effect> := [];
    var domain := parts.normalize(m.fromDomain);
    var known := if domain in db.senders then Some(db.senders[domain]) else None;
    var extraction := ExtractReceipt(parts, m, known);
    if extraction.None? {
      if parts.extraction.Raised? {
        return Raised(parts.extraction.exn);
      }
      extraction := Some(parts.extraction.value);
      var learned := SenderFrom(extraction.value, ts);
      db.PerformAll([ReceiptExtracted(domain), SenderLearned(domain, learned)]);
      done := [ReceiptExtracted(domain), SenderLearned(domain, learned)];
    }
    assert Performed(db, log, was, done);
    ghost var learnt, view, history := done, db.View(), db.history;
    if !parts.observe {
      var tag := KeywordsApplied(m.id, Keywords(extraction.value));
      db.PerformAll([tag]);
      PerformedMore(db, log, was, done, [tag]);
      done := done + [tag];
      if parts.tagging.Some? {
        return Raised(parts.tagging.value);
      }
    }
    assert done == learnt + if parts.observe then [] else [KeywordsApplied(m.id, Keywords(extraction.value))];
    if !parts.dryRun {
      if parts.archive.Some? {
        return Raised(parts.archive.value);
      }
      db.PerformAll([PdfSaved(m.id)]);
      PerformedMore(db, log, was, done, [PdfSaved(m.id)]);
    }
    out := Ok(extraction.value);
  }

  // ----- What a run writes -----

  /** The sender's company is known to be `c`: curated under the sender's domain, or else learned under the
      normalised one. */
  predicate Named(parts: Parts, db: Db, m: Message, c: string) {
    var curated := if parts.curated.Some? then parts.curated.value(m.fromDomain) else None;
    if curated.Some? && curated.value.Some? && curated.value.value != "" then curated == Some(Some(c))
    else
      var domain := parts.normalize(m.fromDomain);
      domain in db.senders && db.senders[domain].company == c
  }

  /** The message states the date: in its header, or else in its body. */
  predicate Stated(parts: Parts, m: Message, date: string) {
    if "Date" in m.headers && m.headers["Date"] != "" then date == StripRight(StripLeft(m.headers["Date"]))
    else parts.bodyDate(m.body) == Some(date)
  }

  /** Company and date are known, and are those of `e`; or one of them is not, and the model says `e`. */
  ghost predicate Resolves(parts: Parts, db: Db, m: Message, e: Extraction, known: bool) {
    if known then Named(parts, db, m, e.company) && Stated(parts, m, e.date)
    else
      && ((forall c :: !Named(parts, db, m, c)) || (forall date :: !Stated(parts, m, date)))
      && parts.extraction == Ok(e)
  }

  /** A run in which `e` is resolved: what the model had to say is learned first, as the normalised domain's company;
      then the keywords are written and the document is saved, with just that company and date, as far as the mode
      and the collaborators let it. */
  lemma ArchivesAs(parts: Parts, db: Db, m: Message, ts: string, e: Extraction, known: bool)
    requires Resolves(parts, db, m, e, known)
    ensures var r, domain := Archive(parts, db, m, ts), parts.normalize(m.fromDomain);
            var tags := parts.tagging.None? || parts.observe;
            var lesson := if known then []
                          else [ReceiptExtracted(domain), SenderLearned(domain, KnownSender(e.company, "tier2", ts))];
            var keywords := if parts.observe then []
                            else [KeywordsApplied(m.id, ["receipt", "company:" + e.company, "date:" + e.date])];
            var saved := if tags && !parts.dryRun && parts.archive.None? then [PdfSaved(m.id)] else [];
            && r.effects == lesson + keywords + saved
            && r.out == if !tags then Raised(parts.tagging.value)
                        else if !parts.dryRun && parts.archive.Some? then Raised(parts.archive.value)
                        else Ok(e)
  {
    var domain := parts.normalize(m.fromDomain);
    var known', dated := SenderOf(db, domain), ExtractDate(parts, m);
    var company := ResolveCompany(parts, m.fromDomain, known');
    assert forall c :: Named(parts, db, m, c) <==> company == Some(c);
    assert forall date :: Stated(parts, m, date) <==> dated == Some(date);
    if !known {
      assert company.Some? ==> Named(parts, db, m, company.value);
      assert dated.Some? ==> Stated(parts, m, dated.value);
    }
  }

  // ----- Learned senders over whole histories -----

  /** One archive run, of which only the first `cut` effects take place if the process dies there. */
  datatype Attempt = Attempt(parts: Parts, message: Message, ts: string, cut: nat)

  function Committed(db: Db, a: Attempt): seq<Effect> {
    var es := Archive(a.parts, db, a.message, a.ts).effects;
    if a.cut < |es| then es[..a.cut] else es
  }

  function AfterAttempt(db: Db, a: Attempt): Db {
    Replay(db, Committed(db, a))
  }

  predicate Extracts(db: Db, a: Attempt, domain: string) {
    ReceiptExtracted(domain) in Committed(db, a)
  }

  /** The process died after the extraction returned and before the sender was learned. */
  predicate Forgets(db: Db, a: Attempt, domain: string) {
    Extracts(db, a, domain) && |Committed(db, a)| == 1
  }

  function CountExtractions(db: Db, attempts: seq<Attempt>, domain: string): nat
    decreases |attempts|
  {
    if attempts == [] then 0
    else (if Extracts(db, attempts[0], domain) then 1 else 0)
         + CountExtractions(AfterAttempt(db, attempts[0]), attempts[1..], domain)
  }

  predicate Dated(a: Attempt) {
    ExtractDate(a.parts, a.message).Some?
  }

  /** The extractions on messages that carry a date, */
  function DatedExtractions(db: Db, attempts: seq<Attempt>, domain: string): nat
    decreases |attempts|
  {
    if attempts == [] then 0
    else (if Dated(attempts[0]) && Extracts(db, attempts[0], domain) then 1 else 0)
         + DatedExtractions(AfterAttempt(db, attempts[0]), attempts[1..], domain)
  }

  /** and those of them that were forgotten. */
  function DatedForgotten(db: Db, attempts: seq<Attempt>, domain: string): nat
    decreases |attempts|
  {
    if attempts == [] then 0
    else (if Dated(attempts[0]) && Forgets(db, attempts[0], domain) then 1 else 0)
         + DatedForgotten(AfterAttempt(db, attempts[0]), attempts[1..], domain)
  }

  /** The attempts on messages of the domain without a date whose extraction returned. */
  function DatelessAttempts(attempts: seq<Attempt>, domain: string): nat {
    if attempts == [] then 0
    else
      var a := attempts[0];
      (if !Dated(a) && a.parts.extraction.Ok? && a.cut > 0 && domain == a.parts.normalize(a.message.fromDomain)
       then 1 else 0)
      + DatelessAttempts(attempts[1..], domain)
  }

  /** The two effects by which a run asks the model and learns the sender, if it does. */
  function Lesson(db: Db, a: Attempt): seq<Effect> {
    var d := a.parts.normalize(a.message.fromDomain);
    if ExtractReceipt(a.parts, a.message, SenderOf(db, d)).None? && a.parts.extraction.Ok?
    then [ReceiptExtracted(d), SenderLearned(d, SenderFrom(a.parts.extraction.value, a.ts))]
    else []
  }

  lemma LessonComesFirst(db: Db, a: Attempt)
    ensures var es, n := Archive(a.parts, db, a.message, a.ts).effects, |Lesson(db, a)|;
            n <= |es| && es[..n] == Lesson(db, a)
            && forall i | n <= i < |es| :: !es[i].ReceiptExtracted? && !es[i].SenderLearned?
  {}

  lemma CommittedLesson(db: Db, a: Attempt, domain: string)
    ensures Extracts(db, a, domain) <==>
              a.cut > 0 && Lesson(db, a) != [] && domain == a.parts.normalize(a.message.fromDomain)
    ensures Lesson(db, a) == [] ==> AfterAttempt(db, a).senders == db.senders
    ensures Lesson(db, a) != [] && a.cut >= 2 ==>
              AfterAttempt(db, a).senders == db.senders[Lesson(db, a)[1].domain := Lesson(db, a)[1].sender]
    ensures Lesson(db, a) != [] && a.cut < 2 ==> AfterAttempt(db, a).senders == db.senders
  {
    LessonComesFirst(db, a);
    var lesson, c := Lesson(db, a), Committed(db, a);
    var es := Archive(a.parts, db, a.message, a.ts).effects;
    assert forall i | 0 <= i < |c| :: c[i] == es[i];
    if lesson == [] {
      KeepsSenders(db, c);
    } else if a.cut >= 2 {
      assert es[0] == es[..2][0] && es[1] == es[..2][1];
      assert c == [c[0]] + ([c[1]] + c[2..]);
      ReplayConcat(db, [c[0]], [c[1]] + c[2..]);
      ReplayConcat(Commit(db, c[0]), [c[1]], c[2..]);
      KeepsSenders(Replay(Commit(db, c[0]), [c[1]]), c[2..]);
    } else {
      assert es[0] == es[..2][0];
      KeepsSenders(db, c);
    }
  }

  /** Exactly when a run asks the model: no curated company and no learned one, or no date. A run
      that asks also learns, unless the process dies in between; nothing is ever unlearned. */
  lemma ExtractsExactly(db: Db, a: Attempt, domain: string)
    ensures Extracts(db, a, domain) <==>
              && a.cut > 0 && a.parts.extraction.Ok? && domain == a.parts.normalize(a.message.fromDomain)
              && (|| ExtractDate(a.parts, a.message).None?
                  || (CuratedCompany(a.parts, a.message.fromDomain).None? && domain !in db.senders))
    ensures Extracts(db, a, domain) ==>
              (domain in AfterAttempt(db, a).senders <==> domain in db.senders || !Forgets(db, a, domain))
    ensures domain in db.senders ==> domain in AfterAttempt(db, a).senders
  {
    CommittedLesson(db, a, domain);
    LessonComesFirst(db, a);
  }

  lemma {:induction false} KeepsSenders(db: Db, es: seq<Effect>)
    requires forall e | e in es :: !e.SenderLearned?
    ensures Replay(db, es).senders == db.senders
    decreases |es|
  {
    if es != [] {
      assert es[0] in es;
      KeepsSenders(Commit(db, es[0]), es[1..]);
    }
  }

  /** However runs are retried after tagging, PDF or save failures, and whatever other messages come
      between them, the messages that carry a date cost at most one extraction per normalised domain,
      plus one for each crash that lost the lesson; and none if the domain is already known. All other
      extractions are those of messages without a date, which are made every time. */
  lemma {:induction false} AtMostOneExtraction(db: Db, attempts: seq<Attempt>, domain: string)
    ensures DatedExtractions(db, attempts, domain)
         <= (if domain in db.senders then 0 else 1) + DatedForgotten(db, attempts, domain)
    ensures CountExtractions(db, attempts, domain)
         == DatedExtractions(db, attempts, domain) + DatelessAttempts(attempts, domain)
    decreases |attempts|
  {
    if attempts != [] {
      var a := attempts[0];
      ExtractsExactly(db, a, domain);
      hide Extracts, Forgets, AfterAttempt;
      AtMostOneExtraction(AfterAttempt(db, a), attempts[1..], domain);
    }
  }

  /** A message without a date is extracted on every run, however often its sender was learned. */
  lemma {:induction false} DatelessAlwaysExtracts(db: Db, a: Attempt, n: nat, domain: string)
    requires ExtractDate(a.parts, a.message).None? && a.parts.extraction.Ok? && a.cut > 0
    requires domain == a.parts.normalize(a.message.fromDomain)
    ensures CountExtractions(db, seq(n, _ => a), domain) == n
    decreases n
  {
    if n > 0 {
      ExtractsExactly(db, a, domain);
      assert seq(n, _ => a)[1..] == seq(n - 1, _ => a);
      DatelessAlwaysExtracts(AfterAttempt(db, a), a, n - 1, domain);
    }
  }

  /** A curated company outranks the learned one, and asks the model nothing. */
  lemma CuratedOutranksLearned(parts: Parts, db: Db, m: Message, ts: string, company: string)
    requires CuratedCompany(parts, m.fromDomain) == Some(company) && ExtractDate(parts, m).Some?
    ensures var r := Archive(parts, db, m, ts);
            && (r.out.Ok? ==> r.out.value.company == company)
            && forall e | e in r.effects :: !e.ReceiptExtracted? && !e.SenderLearned?
  {}
}
