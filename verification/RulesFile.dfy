/** `rules.toml`: writing a list of rules, reading one, and what is kept on the way. */
module RulesFile {
  import opened Model
  import opened TomlText
  import StateDb

  // ----- Writing -----

  function Optional(key: string, v: Option<Value>): seq<Pair> {
    if v.Some? then [(key, v.value)] else []
  }

  function Strings(xs: Option<seq<string>>): Option<Value> {
    if xs.Some? then Some(List(seq(|xs.value|, i requires 0 <= i < |xs.value| => Str(xs.value[i])))) else None
  }

  function Text(s: Option<string>): Option<Value> {
    if s.Some? then Some(Str(s.value)) else None
  }

  /** Fields that are not set are left out. */
  function WhenPairs(c: Condition): seq<Pair> {
    [("always", Bool(c.always))]
    + Optional("from_domain_in", Strings(c.fromDomainIn))
    + Optional("from_in", Strings(c.fromIn))
    + Optional("local_classifier_category_in", Strings(c.categoryIn))
  }

  function ActionPairs(a: Action): seq<Pair> {
    [("type", Str(TypeName(a.kind)))]
    + Optional("mailbox", Text(a.mailbox))
    + Optional("reason", Text(a.reason))
    + [("alert_immediately", Bool(a.alertImmediately))]
  }

  /** A line of a block: a plain value or an inline table. */
  datatype Field = Scalar(key: string, value: Value) | Inline(key: string, pairs: seq<Pair>)

  function Fields(r: Rule): seq<Field> {
    [Scalar("id", Str(r.id))]
    + (if r.description == "" then [] else [Scalar("description", Str(r.description))])
    + [Scalar("enabled", Bool(r.enabled))]
    + [Inline("when", WhenPairs(r.when))]
    + [Inline("action", ActionPairs(r.action))]
  }

  predicate FieldOk(f: Field) {
    && BareKey(f.key)
    && match f
       case Scalar(_, v) => Plain(v)
       case Inline(_, ps) => ps != [] && forall p | p in ps :: Plain(p.1) && BareKey(p.0)
  }

  function Line(f: Field): string
    requires FieldOk(f)
  {
    f.key + " = " + match f case Scalar(_, v) => TomlValue(v) case Inline(_, ps) => InlineTable(ps)
  }

  function Lines(fs: seq<Field>): (r: seq<string>)
    requires forall f | f in fs :: FieldOk(f)
    ensures |r| == |fs| && forall i | 0 <= i < |fs| :: r[i] == Line(fs[i])
  {
    seq(|fs|, i requires 0 <= i < |fs| => Line(fs[i]))
  }

  lemma KeysAreBare()
    ensures BareKey("id") && BareKey("description") && BareKey("enabled") && BareKey("when") && BareKey("action")
    ensures BareKey("always") && BareKey("from_domain_in") && BareKey("from_in")
    ensures BareKey("local_classifier_category_in")
    ensures BareKey("type") && BareKey("mailbox") && BareKey("reason") && BareKey("alert_immediately")
  {}

  ghost predicate FieldsOk(fs: seq<Field>) {
    fs != [] && (forall f | f in fs :: FieldOk(f)) && DistinctFields(fs)
  }

  ghost predicate DistinctFields(fs: seq<Field>) {
    && (forall i, j | 0 <= i < j < |fs| :: fs[i].key != fs[j].key)
    && (forall i | 0 <= i < |fs| && fs[i].Inline? :: DistinctKeys(fs[i].pairs))
  }

  lemma WhenPairsOk(c: Condition)
    ensures WhenPairs(c) != [] && Printable(WhenPairs(c)) && DistinctKeys(WhenPairs(c))
  {
    KeysAreBare();
  }

  lemma ActionPairsOk(a: Action)
    ensures ActionPairs(a) != [] && Printable(ActionPairs(a)) && DistinctKeys(ActionPairs(a))
  {
    KeysAreBare();
  }

  lemma RuleFieldsOk(r: Rule)
    ensures FieldsOk(Fields(r))
  {
    KeysAreBare();
    WhenPairsOk(r.when);
    ActionPairsOk(r.action);
  }

  function Block(r: Rule): string {
    RuleFieldsOk(r);
    Join(["[[rule]]"] + Lines(Fields(r)), "\n")
  }

  function Blocks(rules: seq<Rule>): (bs: seq<string>)
    ensures |bs| == |rules|
  {
    if rules == [] then [] else [Block(rules[0])] + Blocks(rules[1..])
  }

  function Dump(rules: seq<Rule>): string {
    if rules == [] then "" else Join(Blocks(rules), "\n\n") + "\n"
  }

  lemma {:induction false} BlocksGrow(rules: seq<Rule>, r: Rule)
    ensures Blocks(rules + [r]) == Blocks(rules) + [Block(r)]
  {
    if rules == [] {
      assert [] + [r] == [r] && [r][1..] == [];
    } else {
      assert (rules + [r])[1..] == rules[1..] + [r];
      BlocksGrow(rules[1..], r);
    }
  }

  /** The lines of one rule. */
  method RuleLines(rule: Rule) returns (lines: seq<string>)
    ensures Join(lines, "\n") == Block(rule)
  {
    lines := ["[[rule]]", "id = " + TomlString(rule.id)];
    if rule.description != "" {
      lines := lines + ["description = " + TomlString(rule.description)];
    }
    WhenPairsOk(rule.when);
    ActionPairsOk(rule.action);
    lines := lines + ["enabled = " + TomlValue(Bool(rule.enabled))];
    lines := lines + ["when = " + InlineTable(WhenPairs(rule.when))];
    lines := lines + ["action = " + InlineTable(ActionPairs(rule.action))];
    RuleFieldsOk(rule);
    LinesOfRule(rule, lines);
  }

  lemma LineTexts(r: Rule)
    requires FieldsOk(Fields(r))
    ensures Line(Scalar("id", Str(r.id))) == "id = " + TomlString(r.id)
    ensures FieldOk(Scalar("description", Str(r.description)))
    ensures Line(Scalar("description", Str(r.description))) == "description = " + TomlString(r.description)
    ensures Line(Scalar("enabled", Bool(r.enabled))) == "enabled = " + TomlValue(Bool(r.enabled))
  {
    KeysAreBare();
    assert "id = " == "id" + " = " && "description = " == "description" + " = " && "enabled = " == "enabled" + " = ";
  }

  lemma TableTexts(r: Rule)
    requires FieldOk(Inline("when", WhenPairs(r.when))) && FieldOk(Inline("action", ActionPairs(r.action)))
    ensures Line(Inline("when", WhenPairs(r.when))) == "when = " + InlineTable(WhenPairs(r.when))
    ensures Line(Inline("action", ActionPairs(r.action))) == "action = " + InlineTable(ActionPairs(r.action))
  {
    assert "when = " == "when" + " = " && "action = " == "action" + " = ";
  }

  lemma LinesOfRule(r: Rule, lines: seq<string>)
    requires FieldsOk(Fields(r)) && Printable(WhenPairs(r.when)) && Printable(ActionPairs(r.action))
    requires lines == ["[[rule]]", "id = " + TomlString(r.id)]
      + (if r.description == "" then [] else ["description = " + TomlString(r.description)])
      + ["enabled = " + TomlValue(Bool(r.enabled))]
      + ["when = " + InlineTable(WhenPairs(r.when))] + ["action = " + InlineTable(ActionPairs(r.action))]
    ensures ["[[rule]]"] + Lines(Fields(r)) == lines
  {
    LineTexts(r);
    TableTexts(r);
    var text := if r.description == "" then [] else [Scalar("description", Str(r.description))];
    LinesOfFive("[[rule]]", Scalar("id", Str(r.id)), text, Scalar("enabled", Bool(r.enabled)),
      Inline("when", WhenPairs(r.when)), Inline("action", ActionPairs(r.action)));
  }

  lemma LinesOfFive(header: string, id: Field, text: seq<Field>, flag: Field, w: Field, a: Field)
    requires FieldOk(id) && (forall f | f in text :: FieldOk(f)) && FieldOk(flag) && FieldOk(w) && FieldOk(a)
    requires |text| <= 1
    ensures [header] + Lines([id] + text + [flag] + [w] + [a])
         == [header, Line(id)] + (if text == [] then [] else [Line(text[0])]) + [Line(flag)] + [Line(w)] + [Line(a)]
  {
    hide FieldOk, Line;
    if text == [] {
      assert [id] + text + [flag] + [w] + [a] == [id, flag, w, a];
    } else {
      assert [id] + text + [flag] + [w] + [a] == [id, text[0], flag, w, a];
    }
  }

  /** The writer: a block for each rule, the blocks separated by an empty line. */
  method DumpRules(rules: seq<Rule>) returns (text: string)
    ensures text == Dump(rules)
  {
    var blocks: seq<string> := [];
    for i := 0 to |rules|
      invariant blocks == Blocks(rules[..i])
    {
      var lines := RuleLines(rules[i]);
      BlocksGrow(rules[..i], rules[i]);
      assert rules[..i + 1] == rules[..i] + [rules[i]];
      blocks := blocks + [Join(lines, "\n")];
    }
    assert rules[..|rules|] == rules;
    text := if blocks == [] then "" else Join(blocks, "\n\n") + "\n";
  }

  // ----- Reading the file -----

  type Entry = map<string, Value>

  /** Nothing but blanks up to the end of the line. */
  function EndLine(s: string): (r: Option<string>)
    ensures r.Some? ==> |r.value| <= |s|
  {
    var t := SkipSpace(s);
    if t == "" then Some("") else if t[0] == '\n' then Some(t[1..]) else None
  }

  /** The key-value lines up to the next header; a key may not be given twice. */
  function ParseBody(s: string): (r: Option<Parsed<Entry>>)
    ensures r.Some? ==> |r.value.rest| <= |s|
    decreases |s|
  {
    var t := SkipLines(s);
    if t == "" || t[0] == '[' then Some(Parsed(map[], t))
    else
      var p := ParsePairing(t);
      if p.None? || EndLine(p.value.rest).None? then None
      else WithPair(p.value.value, ParseBody(EndLine(p.value.rest).value))
  }

  function WithPair(p: Pair, r: Option<Parsed<Entry>>): Option<Parsed<Entry>> {
    if r.None? || p.0 in r.value.value then None
    else Some(Parsed(r.value.value[p.0 := p.1], r.value.rest))
  }

  /** The entries of the array of tables `rule`. */
  function ParseFile(s: string): Option<seq<Entry>>
    decreases |s|
  {
    var t := SkipLines(s);
    if t == "" then Some([])
    else if !StartsWith(t, "[[rule]]") || EndLine(t[8..]).None? then None
    else
      var b := ParseBody(EndLine(t[8..]).value);
      if b.None? then None
      else
        WithEntry(b.value.value, ParseFile(b.value.rest))
  }

  function WithEntry(e: Entry, more: Option<seq<Entry>>): Option<seq<Entry>> {
    if more.None? then None else Some([e] + more.value)
  }

  // ----- Lines, blocks and files read back -----

  function ValueOf(f: Field): Value {
    match f
    case Scalar(_, v) => v
    case Inline(_, ps) => Table(MapOf(ps))
  }

  ghost predicate CleanField(f: Field) {
    match f
    case Scalar(_, v) => Clean(v)
    case Inline(_, ps) => CleanPairs(ps)
  }

  ghost predicate CleanFields(fs: seq<Field>) {
    forall f | f in fs :: CleanField(f)
  }

  function EntryOf(fs: seq<Field>): Entry {
    if fs == [] then map[] else EntryOf(fs[1..])[fs[0].key := ValueOf(fs[0])]
  }

  lemma LineReadsBack(f: Field, after: string)
    requires FieldOk(f) && (f.Inline? ==> DistinctKeys(f.pairs))
    ensures ParsePairing(Line(f) + after)
         == if CleanField(f) then Some(Parsed((f.key, ValueOf(f)), after)) else None
  {
    match f
    case Scalar(k, v) =>
      assert Line(f) == Pairing((k, v));
      PairingReadsBack((k, v), after);
    case Inline(k, ps) =>
      var text := InlineTable(ps);
      PairingText(k, text, after);
      KeyReadsBack(k, " = " + (text + after));
      assert text[0] == '{' && (text + after)[0] == '{';
      EqualsSkipped(text + after);
      InlineReadsBack(ps, after);
  }

  lemma {:induction false} KeysOfEntry(fs: seq<Field>, k: string)
    ensures k in EntryOf(fs) <==> exists i | 0 <= i < |fs| :: fs[i].key == k
  {
    if fs != [] {
      KeysOfEntry(fs[1..], k);
      assert forall i | 0 < i < |fs| :: fs[i] == fs[1..][i - 1];
      if i :| 0 <= i < |fs[1..]| && fs[1..][i].key == k {
        assert fs[i + 1].key == k;
      }
    }
  }

  lemma SplitFields(fs: seq<Field>)
    requires FieldsOk(fs)
    ensures FieldOk(fs[0]) && (fs[0].Inline? ==> DistinctKeys(fs[0].pairs))
    ensures |fs| > 1 ==> FieldsOk(fs[1..])
    ensures fs[0].key !in EntryOf(fs[1..])
    ensures CleanFields(fs) <==> CleanField(fs[0]) && CleanFields(fs[1..])
  {
    assert fs == [fs[0]] + fs[1..];
    KeysOfEntry(fs[1..], fs[0].key);
  }

  /** What may follow the last line of a block: blank lines, then the end or the next header. */
  predicate Follows(rest: string) {
    rest != "" && rest[0] == '\n' && (SkipLines(rest) == "" || SkipLines(rest)[0] == '[')
  }

  lemma JoinedLines(parts: seq<string>, rest: string)
    requires parts != []
    ensures |parts| == 1 ==> Join(parts, "\n") + rest == parts[0] + rest
    ensures |parts| > 1 ==> Join(parts, "\n") + rest == parts[0] + ("\n" + (Join(parts[1..], "\n") + rest))
  {
    if |parts| > 1 {
      LineGlue(parts[0], Join(parts[1..], "\n"), rest);
    }
  }

  lemma LineGlue(a: string, b: string, c: string)
    ensures a + "\n" + b + c == a + ("\n" + (b + c))
  {}

  lemma FirstOfLine(f: Field, after: string)
    requires FieldOk(f)
    ensures var text := Line(f) + after; text != "" && IsBare(text[0]) && SkipLines(text) == text
  {
    assert (Line(f) + after)[0] == f.key[0];
  }

  /** One line, and then what the rest of the block gives. */
  lemma BodyStep(f: Field, after: string)
    requires FieldOk(f) && (f.Inline? ==> DistinctKeys(f.pairs))
    requires after != "" && after[0] == '\n'
    ensures ParseBody(Line(f) + after)
         == if CleanField(f) then WithPair((f.key, ValueOf(f)), ParseBody(after[1..])) else None
  {
    FirstOfLine(f, after);
    LineReadsBack(f, after);
    assert SkipSpace(after) == after;
  }

  lemma {:induction false} BodyReadsBack(fs: seq<Field>, rest: string)
    requires FieldsOk(fs) && Follows(rest)
    ensures ParseBody(Join(Lines(fs), "\n") + rest)
         == if CleanFields(fs) then Some(Parsed(EntryOf(fs), SkipLines(rest))) else None
  {
    SplitFields(fs);
    JoinedLines(Lines(fs), rest);
    if |fs| == 1 {
      BodyStep(fs[0], rest);
      assert SkipLines(rest[1..]) == SkipLines(rest);
      assert EntryOf(fs[1..]) == map[];
    } else {
      var after := "\n" + (Join(Lines(fs[1..]), "\n") + rest);
      assert Lines(fs)[1..] == Lines(fs[1..]);
      assert after[1..] == Join(Lines(fs[1..]), "\n") + rest;
      BodyStep(fs[0], after);
      BodyReadsBack(fs[1..], rest);
    }
  }

  ghost predicate CleanRule(r: Rule) {
    CleanFields(Fields(r))
  }

  lemma BlockText(r: Rule, rest: string)
    requires FieldsOk(Fields(r))
    ensures Block(r) + rest == "[[rule]]" + ("\n" + (Join(Lines(Fields(r)), "\n") + rest))
  {
    var parts := ["[[rule]]"] + Lines(Fields(r));
    assert parts[1..] == Lines(Fields(r));
    JoinedLines(parts, rest);
  }

  lemma HeaderStep(body: string)
    ensures ParseFile("[[rule]]" + ("\n" + body))
         == (var b := ParseBody(body); if b.None? then None else WithEntry(b.value.value, ParseFile(b.value.rest)))
  {
    var text := "[[rule]]" + ("\n" + body);
    assert text[..8] == "[[rule]]" && text[8..] == "\n" + body && ("\n" + body)[1..] == body;
    assert SkipLines(text) == text && SkipSpace("\n" + body) == "\n" + body;
  }

  lemma BlockReadsBack(r: Rule, rest: string)
    requires Follows(rest)
    ensures ParseFile(Block(r) + rest)
         == if CleanRule(r) then WithEntry(EntryOf(Fields(r)), ParseFile(SkipLines(rest))) else None
  {
    RuleFieldsOk(r);
    BlockText(r, rest);
    HeaderStep(Join(Lines(Fields(r)), "\n") + rest);
    BodyReadsBack(Fields(r), rest);
  }

  function Entries(rules: seq<Rule>): seq<Entry> {
    seq(|rules|, i requires 0 <= i < |rules| => EntryOf(Fields(rules[i])))
  }

  ghost predicate AllCleanRules(rules: seq<Rule>) {
    forall r | r in rules :: CleanRule(r)
  }

  lemma JoinedBlocks(parts: seq<string>)
    requires |parts| > 1
    ensures Join(parts, "\n\n") + "\n" == parts[0] + ("\n" + ("\n" + (Join(parts[1..], "\n\n") + "\n")))
  {
    BlockGlue(parts[0], Join(parts[1..], "\n\n"));
  }

  lemma BlockGlue(a: string, b: string)
    ensures a + "\n\n" + b + "\n" == a + ("\n" + ("\n" + (b + "\n")))
  {
    assert "\n\n" == "\n" + "\n";
  }

  lemma DumpText(rules: seq<Rule>)
    requires rules != []
    ensures |rules| == 1 ==> Dump(rules) == Block(rules[0]) + "\n"
    ensures |rules| > 1 ==> Dump(rules) == Block(rules[0]) + ("\n" + ("\n" + Dump(rules[1..])))
  {
    var bs := Blocks(rules);
    if |rules| > 1 {
      JoinedBlocks(bs);
      assert bs[1..] == Blocks(rules[1..]);
    }
  }

  lemma SplitRules(rules: seq<Rule>)
    requires rules != []
    ensures AllCleanRules(rules) <==> CleanRule(rules[0]) && AllCleanRules(rules[1..])
    ensures Entries(rules) == [EntryOf(Fields(rules[0]))] + Entries(rules[1..])
  {
    hide CleanRule, EntryOf, Fields;
    assert rules == [rules[0]] + rules[1..];
  }

  lemma {:induction false} FileReadsBack(rules: seq<Rule>)
    ensures ParseFile(Dump(rules)) == if AllCleanRules(rules) then Some(Entries(rules)) else None
    decreases |rules|
  {
    if rules == [] {
      assert Entries(rules) == [];
    } else {
      DumpText(rules);
      SplitRules(rules);
      if |rules| == 1 {
        assert SkipLines("\n") == "" && rules[1..] == [];
        BlockReadsBack(rules[0], "\n");
      } else {
        FirstOfDump(rules[1..]);
        FileReadsBack(rules[1..]);
        BlockReadsBack(rules[0], "\n" + ("\n" + Dump(rules[1..])));
      }
    }
  }

  lemma FirstOfDump(rules: seq<Rule>)
    requires rules != []
    ensures Dump(rules) != "" && Dump(rules)[0] == '[' && Follows("\n" + ("\n" + Dump(rules)))
    ensures SkipLines("\n" + ("\n" + Dump(rules))) == Dump(rules)
  {
    var t := Dump(rules);
    RuleFieldsOk(rules[0]);
    BlockText(rules[0], "");
    assert Block(rules[0]) + "" == Block(rules[0]);
    assert ("\n" + ("\n" + t))[1..] == "\n" + t && ("\n" + t)[1..] == t;
    assert SkipLines("\n" + t) == SkipLines(t) == t;
  }

  // ----- From an entry to a rule -----

  function StringsOf(items: seq<Value>): Option<seq<string>> {
    if items == [] then Some([])
    else if !items[0].Str? || StringsOf(items[1..]).None? then None
    else Some([items[0].s] + StringsOf(items[1..]).value)
  }

  /** An optional field: absent, or of the right kind; otherwise the entry is refused. */
  function OptionalStrings(e: Entry, k: string): Option<Option<seq<string>>> {
    if k !in e then Some(None)
    else if !e[k].List? || StringsOf(e[k].items).None? then None
    else Some(Some(StringsOf(e[k].items).value))
  }

  function OptionalText(e: Entry, k: string): Option<Option<string>> {
    if k !in e then Some(None) else if e[k].Str? then Some(Some(e[k].s)) else None
  }

  function Flag(e: Entry, k: string, default: bool): Option<bool> {
    if k !in e then Some(default) else if e[k].Bool? then Some(e[k].b) else None
  }

  predicate WhenKey(k: string) {
    k == "always" || k == "from_domain_in" || k == "from_in" || k == "local_classifier_category_in"
  }

  predicate ActionKey(k: string) {
    k == "type" || k == "mailbox" || k == "reason" || k == "alert_immediately"
  }

  predicate RuleKey(k: string) {
    k == "id" || k == "description" || k == "enabled" || k == "when" || k == "action"
  }

  /** A field the schema does not have is an error, not something to ignore. */
  function ConditionOf(e: Entry): Option<Condition> {
    var always, domains := Flag(e, "always", false), OptionalStrings(e, "from_domain_in");
    var senders, categories := OptionalStrings(e, "from_in"), OptionalStrings(e, "local_classifier_category_in");
    if (exists k | k in e :: !WhenKey(k)) || always.None? then None
    else if domains.None? || senders.None? || categories.None? then None
    else Some(Condition(always.value, domains.value, senders.value, categories.value))
  }

  function KindOf(s: string): Option<ActionType> {
    if s == "move" then Some(Move)
    else if s == "tag" then Some(Tag)
    else if s == "escalate" then Some(Escalate)
    else if s == "ignore" then Some(Ignore)
    else if s == "archive_receipt" then Some(ArchiveReceipt)
    else None
  }

  function ActionOf(e: Entry): Option<Action> {
    var mailbox, reason := OptionalText(e, "mailbox"), OptionalText(e, "reason");
    var alert := Flag(e, "alert_immediately", false);
    if (exists k | k in e :: !ActionKey(k)) || mailbox.None? || reason.None? || alert.None? then None
    else if "type" !in e || !e["type"].Str? || KindOf(e["type"].s).None? then None
    else Some(Action(KindOf(e["type"].s).value, mailbox.value, reason.value, alert.value))
  }

  function RuleOf(e: Entry): Option<Rule> {
    var description, enabled := OptionalText(e, "description"), Flag(e, "enabled", true);
    if (exists k | k in e :: !RuleKey(k)) || description.None? || enabled.None? then None
    else if "id" !in e || !e["id"].Str? then None
    else if "when" !in e || !e["when"].Table? || ConditionOf(e["when"].fields).None? then None
    else if "action" !in e || !e["action"].Table? || ActionOf(e["action"].fields).None? then None
    else
      Some(Rule(e["id"].s, if description.value.Some? then description.value.value else "",
        ConditionOf(e["when"].fields).value, ActionOf(e["action"].fields).value, enabled.value))
  }

  /** The field is a list of strings, if it is there. */
  ghost predicate MayBeStrings(e: Entry, k: string) {
    k in e ==> e[k].List? && forall v | v in e[k].items :: v.Str?
  }

  ghost predicate MayBeText(e: Entry, k: string) {
    k in e ==> e[k].Str?
  }

  ghost predicate MayBeFlag(e: Entry, k: string) {
    k in e ==> e[k].Bool?
  }

  lemma {:induction false} StringsRead(items: seq<Value>)
    ensures StringsOf(items).Some? <==> forall v | v in items :: v.Str?
    ensures StringsOf(items).Some? ==>
              var xs := StringsOf(items).value;
              |xs| == |items| && forall i | 0 <= i < |items| :: items[i] == Str(xs[i])
  {
    if items != [] {
      StringsRead(items[1..]);
      assert items == [items[0]] + items[1..];
    }
  }

  lemma StringsField(e: Entry, k: string)
    ensures OptionalStrings(e, k).Some? <==> MayBeStrings(e, k)
    ensures OptionalStrings(e, k).Some? ==> Strings(OptionalStrings(e, k).value) == if k in e then Some(e[k]) else None
  {
    if k in e && e[k].List? {
      StringsRead(e[k].items);
      if OptionalStrings(e, k).Some? {
        var xs := StringsOf(e[k].items).value;
        assert seq(|xs|, i requires 0 <= i < |xs| => Str(xs[i])) == e[k].items;
      }
    }
  }

  /** The schema of a condition: these four fields and no other, none of them required; a flag that is missing is
      clear, a list that is missing is none. */
  lemma ConditionSchema(e: Entry)
    ensures ConditionOf(e).Some? <==>
              && e.Keys <= {"always", "from_domain_in", "from_in", "local_classifier_category_in"}
              && MayBeFlag(e, "always") && MayBeStrings(e, "from_domain_in") && MayBeStrings(e, "from_in")
              && MayBeStrings(e, "local_classifier_category_in")
    ensures ConditionOf(e).Some? ==>
              var c := ConditionOf(e).value;
              && (c.always <==> "always" in e && e["always"].b)
              && Strings(c.fromDomainIn) == (if "from_domain_in" in e then Some(e["from_domain_in"]) else None)
              && Strings(c.fromIn) == (if "from_in" in e then Some(e["from_in"]) else None)
              && Strings(c.categoryIn)
                 == if "local_classifier_category_in" in e then Some(e["local_classifier_category_in"]) else None
  {
    hide OptionalStrings, Strings, MayBeStrings;
    StringsField(e, "from_domain_in");
    StringsField(e, "from_in");
    StringsField(e, "local_classifier_category_in");
    WhenKeys(e);
  }

  lemma WhenKeys(e: Entry)
    ensures (exists k | k in e :: !WhenKey(k)) <==>
              !(e.Keys <= {"always", "from_domain_in", "from_in", "local_classifier_category_in"})
  {}

  /** Of an action: one of the five types is required; an alert is asked for only by saying so. */
  lemma ActionSchema(e: Entry)
    ensures ActionOf(e).Some? <==>
              && e.Keys <= {"type", "mailbox", "reason", "alert_immediately"}
              && "type" in e && e["type"].Str?
              && e["type"].s in ["move", "tag", "escalate", "ignore", "archive_receipt"]
              && MayBeText(e, "mailbox") && MayBeText(e, "reason") && MayBeFlag(e, "alert_immediately")
    ensures ActionOf(e).Some? ==>
              var a := ActionOf(e).value;
              && TypeName(a.kind) == e["type"].s
              && Text(a.mailbox) == (if "mailbox" in e then Some(e["mailbox"]) else None)
              && Text(a.reason) == (if "reason" in e then Some(e["reason"]) else None)
              && (a.alertImmediately <==> "alert_immediately" in e && e["alert_immediately"].b)
  {
    ActionKeys(e);
    hide ActionKey;
    if "type" in e && e["type"].Str? {
      KindsHaveNames(e["type"].s);
    }
    hide KindOf, TypeName;
  }

  lemma ActionKeys(e: Entry)
    ensures (exists k | k in e :: !ActionKey(k)) <==> !(e.Keys <= {"type", "mailbox", "reason", "alert_immediately"})
  {}

  lemma KindsHaveNames(s: string)
    ensures KindOf(s).Some? <==> s in ["move", "tag", "escalate", "ignore", "archive_receipt"]
    ensures KindOf(s).Some? ==> TypeName(KindOf(s).value) == s
  {}

  /** Of a rule: an id, a condition and an action are required; a rule that does not say so is enabled. */
  lemma RuleSchema(e: Entry)
    ensures RuleOf(e).Some? <==>
              && e.Keys <= {"id", "description", "enabled", "when", "action"}
              && "id" in e && e["id"].Str? && MayBeText(e, "description") && MayBeFlag(e, "enabled")
              && "when" in e && e["when"].Table? && ConditionOf(e["when"].fields).Some?
              && "action" in e && e["action"].Table? && ActionOf(e["action"].fields).Some?
    ensures RuleOf(e).Some? ==>
              var r := RuleOf(e).value;
              && e["id"] == Str(r.id)
              && (if "description" in e then e["description"] == Str(r.description) else r.description == "")
              && (r.enabled <==> ("enabled" in e ==> e["enabled"].b))
              && ConditionOf(e["when"].fields) == Some(r.when) && ActionOf(e["action"].fields) == Some(r.action)
  {
    RuleKeys(e);
    hide RuleKey, ConditionOf, ActionOf;
  }

  lemma RuleKeys(e: Entry)
    ensures (exists k | k in e :: !RuleKey(k)) <==> !(e.Keys <= {"id", "description", "enabled", "when", "action"})
  {}

  lemma {:induction false} MapOfJoin(a: seq<Pair>, b: seq<Pair>)
    ensures MapOf(a + b) == MapOf(b) + MapOf(a)
  {
    if a == [] {
      assert a + b == b;
    } else {
      assert (a + b)[0] == a[0] && (a + b)[1..] == a[1..] + b;
      MapOfJoin(a[1..], b);
    }
  }

  lemma MapOfOptional(k: string, v: Option<Value>)
    ensures MapOf(Optional(k, v)) == if v.Some? then map[k := v.value] else map[]
  {
    if v.Some? {
      assert Optional(k, v)[1..] == [];
    }
  }

  lemma {:induction false} StringsReadBack(xs: seq<string>, i: nat)
    requires i <= |xs|
    ensures StringsOf(Strings(Some(xs)).value.items[i..]) == Some(xs[i..])
    decreases |xs| - i
  {
    var items := Strings(Some(xs)).value.items;
    if i < |xs| {
      StringsReadBack(xs, i + 1);
      assert items[i..][1..] == items[i + 1..] && items[i..][0] == Str(xs[i]);
      assert [xs[i]] + xs[i + 1..] == xs[i..];
    } else {
      assert items[i..] == [] && xs[i..] == [];
    }
  }

  lemma OptionalReadsBack(e: Entry, k: string, xs: Option<seq<string>>)
    requires k in e <==> xs.Some?
    requires xs.Some? ==> e[k] == Strings(xs).value
    ensures OptionalStrings(e, k) == Some(xs)
  {
    if xs.Some? {
      StringsReadBack(xs.value, 0);
      assert Strings(xs).value.items[0..] == Strings(xs).value.items && xs.value[0..] == xs.value;
    }
  }

  lemma WhenReadsBack(c: Condition)
    ensures ConditionOf(MapOf(WhenPairs(c))) == Some(c)
  {
    var a := [("always", Bool(c.always))];
    var b := Optional("from_domain_in", Strings(c.fromDomainIn));
    var d := Optional("from_in", Strings(c.fromIn));
    var f := Optional("local_classifier_category_in", Strings(c.categoryIn));
    MapOfJoin(a + b + d, f);
    MapOfJoin(a + b, d);
    MapOfJoin(a, b);
    MapOfOptional("always", Some(Bool(c.always)));
    MapOfOptional("from_domain_in", Strings(c.fromDomainIn));
    MapOfOptional("from_in", Strings(c.fromIn));
    MapOfOptional("local_classifier_category_in", Strings(c.categoryIn));
    var e := MapOf(WhenPairs(c));
    assert e == MapOf(f) + (MapOf(d) + (MapOf(b) + MapOf(a)));
    OptionalReadsBack(e, "from_domain_in", c.fromDomainIn);
    OptionalReadsBack(e, "from_in", c.fromIn);
    OptionalReadsBack(e, "local_classifier_category_in", c.categoryIn);
  }

  lemma ActionReadsBack(a: Action)
    ensures ActionOf(MapOf(ActionPairs(a))) == Some(a)
  {
    var t := [("type", Str(TypeName(a.kind)))];
    var m, r := Optional("mailbox", Text(a.mailbox)), Optional("reason", Text(a.reason));
    var f := [("alert_immediately", Bool(a.alertImmediately))];
    MapOfJoin(t + m + r, f);
    MapOfJoin(t + m, r);
    MapOfJoin(t, m);
    MapOfOptional("type", Some(Str(TypeName(a.kind))));
    MapOfOptional("mailbox", Text(a.mailbox));
    MapOfOptional("reason", Text(a.reason));
    MapOfOptional("alert_immediately", Some(Bool(a.alertImmediately)));
    assert MapOf(ActionPairs(a)) == MapOf(f) + (MapOf(r) + (MapOf(m) + MapOf(t)));
  }

  lemma {:induction false} EntryOfJoin(a: seq<Field>, b: seq<Field>)
    ensures EntryOf(a + b) == EntryOf(b) + EntryOf(a)
  {
    if a == [] {
      assert a + b == b;
    } else {
      assert (a + b)[0] == a[0] && (a + b)[1..] == a[1..] + b;
      EntryOfJoin(a[1..], b);
    }
  }

  lemma EntryOfOne(f: Field)
    ensures EntryOf([f]) == map[f.key := ValueOf(f)]
  {
    assert [f][1..] == [];
  }

  lemma FiveFields(id: Field, text: seq<Field>, flag: Field, w: Field, a: Field)
    ensures EntryOf([id] + text + [flag] + [w] + [a])
         == map[a.key := ValueOf(a)] + (map[w.key := ValueOf(w)] + (map[flag.key := ValueOf(flag)]
              + (EntryOf(text) + map[id.key := ValueOf(id)])))
  {
    EntryOfJoin([id] + text + [flag] + [w], [a]);
    EntryOfJoin([id] + text + [flag], [w]);
    EntryOfJoin([id] + text, [flag]);
    EntryOfJoin([id], text);
    EntryOfOne(id);
    EntryOfOne(flag);
    EntryOfOne(w);
    EntryOfOne(a);
  }

  /** The entry holds just the fields of the rule. */
  ghost predicate Holds(e: Entry, r: Rule) {
    && (forall k | k in e :: RuleKey(k))
    && "id" in e && e["id"] == Str(r.id)
    && ("description" in e <==> r.description != "")
    && (r.description != "" ==> e["description"] == Str(r.description))
    && "enabled" in e && e["enabled"] == Bool(r.enabled)
    && "when" in e && e["when"] == Table(MapOf(WhenPairs(r.when)))
    && "action" in e && e["action"] == Table(MapOf(ActionPairs(r.action)))
  }

  lemma RuleEntry(r: Rule)
    ensures Holds(EntryOf(Fields(r)), r)
  {
    hide WhenPairs, ActionPairs, MapOf;
    var text := if r.description == "" then [] else [Scalar("description", Str(r.description))];
    FiveFields(Scalar("id", Str(r.id)), text, Scalar("enabled", Bool(r.enabled)),
      Inline("when", WhenPairs(r.when)), Inline("action", ActionPairs(r.action)));
    EntryOfOne(Scalar("description", Str(r.description)));
  }

  lemma RuleReadsBack(r: Rule)
    ensures RuleOf(EntryOf(Fields(r))) == Some(r)
  {
    RuleEntry(r);
    WhenReadsBack(r.when);
    ActionReadsBack(r.action);
  }

  // ----- The loader -----

  datatype Loaded = Rules(rules: seq<Rule>) | NotFound | NotToml | BadRule(index: nat) | DuplicateId(id: string)

  predicate HasId(rules: seq<Rule>, id: string) {
    exists r | r in rules :: r.id == id
  }

  /** The entries in file order, after `done`: each must be a rule, with an id not seen before. */
  function LoadEntries(entries: seq<Entry>, done: seq<Rule>): Loaded
    decreases |entries|
  {
    if entries == [] then Rules(done)
    else
      var r := RuleOf(entries[0]);
      if r.None? then BadRule(|done|)
      else if HasId(done, r.value.id) then DuplicateId(r.value.id)
      else LoadEntries(entries[1..], done + [r.value])
  }

  function Load(file: Option<string>): Loaded {
    if file.None? then NotFound
    else if ParseFile(file.value).None? then NotToml
    else LoadEntries(ParseFile(file.value).value, [])
  }

  /** The loader, with the set of ids it has seen. */
  method LoadRules(file: Option<string>) returns (r: Loaded)
    ensures r == Load(file)
  {
    if file.None? {
      return NotFound;
    }
    var raw := ParseFile(file.value);
    if raw.None? {
      return NotToml;
    }
    var rules: seq<Rule> := [];
    var seen: set<string> := {};
    for index := 0 to |raw.value|
      invariant |rules| == index && (forall id :: id in seen <==> HasId(rules, id))
      invariant LoadEntries(raw.value, []) == LoadEntries(raw.value[index..], rules)
    {
      assert raw.value[index..][0] == raw.value[index] && raw.value[index..][1..] == raw.value[index + 1..];
      var rule := RuleOf(raw.value[index]);
      if rule.None? {
        return BadRule(index);
      }
      if rule.value.id in seen {
        return DuplicateId(rule.value.id);
      }
      HasIdGrows(rules, rule.value);
      seen := seen + {rule.value.id};
      rules := rules + [rule.value];
    }
    r := Rules(rules);
  }

  lemma HasIdGrows(rules: seq<Rule>, r: Rule)
    ensures forall id :: HasId(rules + [r], id) <==> HasId(rules, id) || id == r.id
  {
    forall id ensures HasId(rules + [r], id) <==> HasId(rules, id) || id == r.id {
      assert r in rules + [r];
      if HasId(rules, id) {
        var x :| x in rules && x.id == id;
        assert x in rules + [r];
      }
    }
  }

  // ----- The round trip -----

  ghost predicate DistinctIds(rules: seq<Rule>) {
    forall i, j | 0 <= i < j < |rules| :: rules[i].id != rules[j].id
  }

  ghost predicate CleanStrings(xs: Option<seq<string>>) {
    xs.Some? ==> forall i | 0 <= i < |xs.value| :: CleanString(xs.value[i])
  }

  ghost predicate CleanText(s: Option<string>) {
    s.Some? ==> CleanString(s.value)
  }

  /** No string of the rule holds a control character other than tab. */
  ghost predicate Legible(r: Rule) {
    && CleanString(r.id) && CleanString(r.description)
    && CleanStrings(r.when.fromDomainIn) && CleanStrings(r.when.fromIn) && CleanStrings(r.when.categoryIn)
    && CleanText(r.action.mailbox) && CleanText(r.action.reason)
  }

  lemma StringsClean(k: string, xs: Option<seq<string>>)
    ensures CleanPairs(Optional(k, Strings(xs))) <==> CleanStrings(xs)
  {
    if xs.Some? {
      var items := Strings(xs).value.items;
      assert forall i | 0 <= i < |items| :: items[i] in items && (Clean(items[i]) <==> CleanString(xs.value[i]));
      assert Clean(List(items)) <==> CleanStrings(xs);
      assert (k, List(items)) in Optional(k, Strings(xs));
    }
  }

  lemma TextClean(k: string, s: Option<string>)
    ensures CleanPairs(Optional(k, Text(s))) <==> CleanText(s)
  {
    if s.Some? {
      assert (k, Str(s.value)) in Optional(k, Text(s));
    }
  }

  lemma CleanPairsJoin(a: seq<Pair>, b: seq<Pair>)
    ensures CleanPairs(a + b) <==> CleanPairs(a) && CleanPairs(b)
  {
    assert forall p :: p in a + b <==> p in a || p in b;
  }

  lemma KindIsClean(k: ActionType)
    ensures CleanString(TypeName(k))
  {}

  lemma WhenClean(c: Condition)
    ensures CleanPairs(WhenPairs(c)) <==>
              CleanStrings(c.fromDomainIn) && CleanStrings(c.fromIn) && CleanStrings(c.categoryIn)
  {
    var a := [("always", Bool(c.always))];
    var b, d := Optional("from_domain_in", Strings(c.fromDomainIn)), Optional("from_in", Strings(c.fromIn));
    CleanPairsJoin(a + b + d, Optional("local_classifier_category_in", Strings(c.categoryIn)));
    CleanPairsJoin(a + b, d);
    CleanPairsJoin(a, b);
    StringsClean("from_domain_in", c.fromDomainIn);
    StringsClean("from_in", c.fromIn);
    StringsClean("local_classifier_category_in", c.categoryIn);
  }

  lemma ActionClean(a: Action)
    ensures CleanPairs(ActionPairs(a)) <==> CleanText(a.mailbox) && CleanText(a.reason)
  {
    var t := [("type", Str(TypeName(a.kind)))];
    var m, r := Optional("mailbox", Text(a.mailbox)), Optional("reason", Text(a.reason));
    CleanPairsJoin(t + m + r, [("alert_immediately", Bool(a.alertImmediately))]);
    CleanPairsJoin(t + m, r);
    CleanPairsJoin(t, m);
    KindIsClean(a.kind);
    TextClean("mailbox", a.mailbox);
    TextClean("reason", a.reason);
  }

  lemma CleanFieldsJoin(a: seq<Field>, b: seq<Field>)
    ensures CleanFields(a + b) <==> CleanFields(a) && CleanFields(b)
  {
    assert forall f :: f in a + b <==> f in a || f in b;
  }

  lemma CleanFive(id: Field, text: seq<Field>, flag: Field, w: Field, a: Field)
    ensures CleanFields([id] + text + [flag] + [w] + [a]) <==>
              CleanField(id) && CleanFields(text) && CleanField(flag) && CleanField(w) && CleanField(a)
  {
    CleanFieldsJoin([id] + text + [flag] + [w], [a]);
    CleanFieldsJoin([id] + text + [flag], [w]);
    CleanFieldsJoin([id] + text, [flag]);
    CleanFieldsJoin([id], text);
    assert a in [a] && w in [w] && flag in [flag] && id in [id];
  }

  lemma LegibleIsClean(r: Rule)
    ensures CleanRule(r) <==> Legible(r)
  {
    var text := if r.description == "" then [] else [Scalar("description", Str(r.description))];
    CleanFive(Scalar("id", Str(r.id)), text, Scalar("enabled", Bool(r.enabled)),
      Inline("when", WhenPairs(r.when)), Inline("action", ActionPairs(r.action)));
    WhenClean(r.when);
    ActionClean(r.action);
    assert r.description != "" ==> Scalar("description", Str(r.description)) in text;
  }

  ghost predicate AllLegible(rules: seq<Rule>) {
    forall r | r in rules :: Legible(r)
  }

  /** The first `i` rules are loaded; what comes of the others. */
  lemma {:induction false} EntriesLoad(rules: seq<Rule>, i: nat)
    requires i <= |rules| && DistinctIds(rules[..i])
    ensures var r := LoadEntries(Entries(rules)[i..], rules[..i]);
            if DistinctIds(rules) then r == Rules(rules) else r.DuplicateId?
    decreases |rules| - i
  {
    var entries := Entries(rules)[i..];
    if i == |rules| {
      assert rules[..i] == rules;
    } else {
      assert entries[0] == EntryOf(Fields(rules[i])) && entries[1..] == Entries(rules)[i + 1..];
      assert rules[..i + 1] == rules[..i] + [rules[i]];
      RuleReadsBack(rules[i]);
      NextId(rules, i);
      if !HasId(rules[..i], rules[i].id) {
        EntriesLoad(rules, i + 1);
      }
    }
  }

  lemma NextId(rules: seq<Rule>, i: nat)
    requires i < |rules| && DistinctIds(rules[..i])
    ensures if HasId(rules[..i], rules[i].id) then !DistinctIds(rules) else DistinctIds(rules[..i + 1])
  {
    var before := rules[..i];
    if HasId(before, rules[i].id) {
      var j :| 0 <= j < i && before[j].id == rules[i].id;
      assert rules[j].id == rules[i].id;
    } else {
      assert forall j | 0 <= j < i :: before[j] in before && rules[..i + 1][j] == before[j];
    }
  }

  lemma LoadOfDump(rules: seq<Rule>)
    ensures Load(Some(Dump(rules))) ==
              if AllCleanRules(rules) then LoadEntries(Entries(rules), []) else NotToml
  {
    FileReadsBack(rules);
  }

  lemma LegibleRulesAreClean(rules: seq<Rule>)
    ensures AllLegible(rules) <==> AllCleanRules(rules)
  {
    forall r | r in rules ensures Legible(r) <==> CleanRule(r) {
      LegibleIsClean(r);
    }
  }

  /** The round trip. What is written is read back exactly if the ids are distinct and no string
      holds a control character; otherwise it is refused, and this says as what. */
  lemma RoundTrip(rules: seq<Rule>)
    ensures var r := Load(Some(Dump(rules)));
            && (r == Rules(rules) <==> DistinctIds(rules) && AllLegible(rules))
            && (!AllLegible(rules) ==> r == NotToml)
            && (AllLegible(rules) && !DistinctIds(rules) ==> r.DuplicateId?)
  {
    LoadOfDump(rules);
    LegibleRulesAreClean(rules);
    EntriesLoad(rules, 0);
    assert Entries(rules)[0..] == Entries(rules) && rules[..0] == [];
  }

  // ----- Enabling and disabling -----

  lemma {:induction false} LoadedIdsAreDistinct(entries: seq<Entry>, done: seq<Rule>)
    requires DistinctIds(done)
    ensures var r := LoadEntries(entries, done); r.Rules? ==> DistinctIds(r.rules)
    decreases |entries|
  {
    if entries != [] && RuleOf(entries[0]).Some? {
      var r := RuleOf(entries[0]).value;
      if !HasId(done, r.id) {
        assert forall j | 0 <= j < |done| :: done[j] in done;
        LoadedIdsAreDistinct(entries[1..], done + [r]);
      }
    }
  }

  function Flipped(rules: seq<Rule>, id: string, enabled: bool): (r: seq<Rule>)
    ensures |r| == |rules|
    ensures forall i | 0 <= i < |rules| ::
              r[i] == if rules[i].id == id then rules[i].(enabled := enabled) else rules[i]
  {
    seq(|rules|, i requires 0 <= i < |rules| =>
      if rules[i].id == id then rules[i].(enabled := enabled) else rules[i])
  }

  function FlipEvent(ts: string, enabled: bool, detail: string): Effect {
    AuditWritten(ts, "", if enabled then "rules_enable" else "rules_disable", Some(detail))
  }

  /** The command: load, refuse an unknown id, flip, write the whole file anew, and audit that. */
  method SetEnabled(
    file: Option<string>, id: string, enabled: bool, db: StateDb.StateDB, ts: string, detail: string)
    returns (text: Option<string>)
    requires db.Valid()
    modifies db
    ensures text.Some? <==> Load(file).Rules? && HasId(Load(file).rules, id)
    ensures text.Some? ==> text.value == Dump(Flipped(Load(file).rules, id, enabled))
    ensures db.Valid()
    ensures var entry := AuditWritten(ts, "", if enabled then "rules_enable" else "rules_disable", Some(detail));
            && db.history == old(db.history) + (if text.Some? then [entry] else [])
            && db.View() == if text.Some? then StateDb.Commit(old(db.View()), entry) else old(db.View())
  {
    text := Rewritten(file, id, enabled);
    if text.Some? {
      db.WriteControlPlaneAuditEntry(ts, FlipEvent(ts, enabled, detail).event, Some(detail));
    } else {
      assert db.history + [] == db.history;
    }
  }

  method Rewritten(file: Option<string>, id: string, enabled: bool) returns (text: Option<string>)
    ensures text.Some? <==> Load(file).Rules? && HasId(Load(file).rules, id)
    ensures text.Some? ==> text.value == Dump(Flipped(Load(file).rules, id, enabled))
  {
    var r := LoadRules(file);
    if !r.Rules? || !HasId(r.rules, id) {
      return None;
    }
    var written := DumpRules(Flipped(r.rules, id, enabled));
    text := Some(written);
  }

  /** Enabling or disabling a rule changes the flag of that one rule and nothing else, exactly if the
      rules loaded hold no control characters; otherwise the file written cannot be loaded again. */
  lemma FlipChangesOneFlag(file: Option<string>, id: string, enabled: bool)
    requires Load(file).Rules? && HasId(Load(file).rules, id)
    ensures var rules := Load(file).rules;
            var again := Load(Some(Dump(Flipped(rules, id, enabled))));
            if AllLegible(rules) then
              exists k | 0 <= k < |rules| :: rules[k].id == id
                && again == Rules(rules[k := rules[k].(enabled := enabled)])
            else again == NotToml
  {
    var rules := Load(file).rules;
    LoadedIdsAreDistinct(ParseFile(file.value).value, []);
    var k := FlippedAtOnePlace(rules, id, enabled);
    FlippedIsLegible(rules, id, enabled);
    RoundTrip(Flipped(rules, id, enabled));
  }

  lemma FlippedAtOnePlace(rules: seq<Rule>, id: string, enabled: bool) returns (k: nat)
    requires DistinctIds(rules) && HasId(rules, id)
    ensures k < |rules| && rules[k].id == id && DistinctIds(Flipped(rules, id, enabled))
    ensures Flipped(rules, id, enabled) == rules[k := rules[k].(enabled := enabled)]
  {
    var r :| r in rules && r.id == id;
    k :| 0 <= k < |rules| && rules[k] == r;
  }

  lemma FlippedIsLegible(rules: seq<Rule>, id: string, enabled: bool)
    ensures AllLegible(Flipped(rules, id, enabled)) <==> AllLegible(rules)
  {
    var flipped := Flipped(rules, id, enabled);
    forall i | 0 <= i < |rules| ensures Legible(flipped[i]) <==> Legible(rules[i]) {}
    assert forall i | 0 <= i < |rules| :: rules[i] in rules && flipped[i] in flipped;
  }

  /** A newline in a description: the file that is written cannot be loaded. */
  lemma NewlineIsNotReadBack(r: Rule)
    requires r.description == "two\nlines"
    ensures Load(Some(Dump([r]))) == NotToml
  {
    assert r.description[3] == '\n' && IsControl('\n');
    assert r in [r] && !Legible(r);
    RoundTrip([r]);
  }
}
