/** The values spork passes around: messages, rules, verdicts, exceptions, and the
    externally visible effects of a run. */
module Model {

  datatype Option<+T> = None | Some(value: T)

  /** A call that either returns or raises. */
  datatype Outcome<+T> = Ok(value: T) | Raised(exn: Exn)

  datatype Message = Message(
    id: string, threadId: string, fromAddress: string, fromDomain: string,
    subject: string, body: string, headers: map<string, string>)

  // ----- Rules -----

  datatype ActionType = Move | Tag | Escalate | Ignore | ArchiveReceipt

  datatype Action = Action(
    kind: ActionType, mailbox: Option<string>, reason: Option<string>, alertImmediately: bool)

  datatype Condition = Condition(
    always: bool, fromDomainIn: Option<seq<string>>, fromIn: Option<seq<string>>,
    categoryIn: Option<seq<string>>)

  datatype Rule = Rule(id: string, description: string, when: Condition, action: Action, enabled: bool)

  datatype RuleVerdict = RuleVerdict(action: Action, matchedRule: Option<string>)

  // ----- Tier 2 -----

  datatype VerdictUrgency = LowUrgency | MediumUrgency | HighUrgency

  datatype Verdict = Verdict(
    category: string, urgency: VerdictUrgency, confidence: real, suggested: Action,
    draftReply: Option<string>)

  /** What the schema of a verdict already guarantees: a terminal suggested action and a
      confidence between 0 and 1. */
  ghost predicate WellShaped(v: Verdict) {
    && v.suggested.kind !in {Escalate, ArchiveReceipt}
    && 0.0 <= v.confidence <= 1.0
  }

  datatype LlmResult = LlmResult(verdict: Verdict, tokensIn: int, tokensOut: int)

  datatype Request = Request(
    subject: string, fromAddress: string, toAddresses: seq<string>, cleanedBody: string,
    priorSubject: Option<string>, userHasReplied: bool, mailboxes: seq<string>,
    categories: seq<string>, snippets: seq<string>)

  // ----- Exceptions -----

  datatype Rejection = CannotEscalate | CannotArchive | NoMailbox | ByBackend

  /** A metadata field that a pipeline module may read or set. */
  datatype Field =
    | TsField | CorrelationField | VerdictField | AuditEventField | ClassifierField
    | ContextField | RequestField | UsageField | BandField

  datatype Exn =
    | MissingMeta(field: Field)
    | UnknownBranch(branch: string)
    | LlmClientError
    | VerdictInvalid
    | ActionRejected(why: Rejection)
    | NoClassifier
    | BadThresholds
    | NegativeTokens
    | PushDisconnected
    | JmapError
    | Failure(what: string)  // any other exception of a collaborator

  /** The failure class that Tier 2 quarantines instead of propagating. */
  predicate Quarantinable(e: Exn) {
    e.LlmClientError? || e.VerdictInvalid? || e.ActionRejected?
  }

  // ----- Effects -----

  datatype AlertUrgency = Low | Normal | Critical

  datatype ProcessedRow = ProcessedRow(
    threadId: string, tier: string, verdict: Option<Verdict>, actionTaken: Option<string>,
    processedAt: string)

  datatype KnownSender = KnownSender(company: string, learnedFrom: string, learnedAt: string)

  /** A JMAP state string is opaque; it names a position in the server's change log. */
  type Cursor = nat

  /** One commit to the state database, or one call that leaves the process. */
  datatype Effect =
    | AuditWritten(ts: string, jmapId: string, event: string, detail: Option<string>)
    | Marked(jmapId: string, row: ProcessedRow)
    | CursorSet(account: string, cursor: Cursor)
    | CallRecorded(date: string, tokensIn: nat, tokensOut: nat)
    | SenderLearned(domain: string, sender: KnownSender)
    | ActionCalled(jmapId: string, action: Action)
    | DraftCreated(jmapId: string, body: string)
    | LlmReturned(date: string, request: Request)
    | ReceiptExtracted(domain: string)
    | KeywordsApplied(jmapId: string, keywords: seq<string>)
    | PdfSaved(jmapId: string)
    | Alerted(correlationId: string, title: string, urgency: AlertUrgency)
    | Traced(correlationId: string, moduleName: string, note: string)

  function TypeName(k: ActionType): string {
    match k
    case Move => "move"
    case Tag => "tag"
    case Escalate => "escalate"
    case Ignore => "ignore"
    case ArchiveReceipt => "archive_receipt"
  }

  /** The calendar date of an ISO timestamp: its first ten characters. */
  function DateOf(ts: string): string {
    if |ts| <= 10 then ts else ts[..10]
  }

  // ----- Strings -----

  predicate StartsWith(s: string, prefix: string) {
    |prefix| <= |s| && s[..|prefix|] == prefix
  }

  function Join(parts: seq<string>, glue: string): string {
    if parts == [] then "" else if |parts| == 1 then parts[0] else parts[0] + glue + Join(parts[1..], glue)
  }
}
