/** The TOML that the rules writer emits, and a parser for it: basic strings, booleans, arrays and
    inline tables. What the writer prints, the parser reads back, unless a string holds a control
    character, and then it reads nothing. */
module TomlText {
  import opened Model

  datatype Value = Bool(b: bool) | Str(s: string) | List(items: seq<Value>) | Table(fields: map<string, Value>)

  // ----- Printing -----

  /** Every `c` of `s` becomes `with`. */
  function Replace(s: string, c: char, with: string): string {
    if s == "" then "" else (if s[0] == c then with else [s[0]]) + Replace(s[1..], c, with)
  }

  /** Backslashes first, then quotes. */
  function Escape(s: string): string {
    Replace(Replace(s, '\\', "\\\\"), '"', "\\\"")
  }

  function TomlString(s: string): string {
    "\"" + Escape(s) + "\""
  }

  /** What the printer takes: booleans, strings, and lists of them. */
  predicate Plain(v: Value) {
    match v
    case List(items) => forall x | x in items :: Plain(x)
    case Table(_) => false
    case _ => true
  }

  function TomlValue(v: Value): string
    requires Plain(v)
    decreases v, 0
  {
    match v
    case Bool(b) => if b then "true" else "false"
    case Str(s) => TomlString(s)
    case List(items) => "[" + Join(Printed(items), ", ") + "]"
  }

  function Printed(items: seq<Value>): (r: seq<string>)
    requires forall x | x in items :: Plain(x)
    ensures |r| == |items|
    decreases items, 0
  {
    if items == [] then [] else [TomlValue(items[0])] + Printed(items[1..])
  }

  type Pair = (string, Value)

  function Pairing(p: Pair): string
    requires Plain(p.1)
  {
    p.0 + " = " + TomlValue(p.1)
  }

  function Pairings(ps: seq<Pair>): (r: seq<string>)
    requires forall p | p in ps :: Plain(p.1)
    ensures |r| == |ps|
  {
    if ps == [] then [] else [Pairing(ps[0])] + Pairings(ps[1..])
  }

  function InlineTable(ps: seq<Pair>): string
    requires forall p | p in ps :: Plain(p.1)
  {
    "{ " + Join(Pairings(ps), ", ") + " }"
  }

  // ----- Parsing -----

  datatype Parsed<T> = Parsed(value: T, rest: string)

  /** Control characters other than tab may not stand in a basic string. */
  predicate IsControl(c: char) {
    c != '\t' && (c as int < 0x20 || c as int == 0x7f)
  }

  function Unescape(c: char): Option<char> {
    match c
    case '"' => Some('"')
    case '\\' => Some('\\')
    case 'b' => Some(8 as char)
    case 't' => Some('\t')
    case 'n' => Some('\n')
    case 'f' => Some(12 as char)
    case 'r' => Some('\r')
    case _ => None
  }

  /** The characters up to the closing quote. */
  function ParseChars(s: string): (r: Option<Parsed<string>>)
    ensures r.Some? ==> |r.value.rest| < |s|
    decreases |s|
  {
    if s == "" then None
    else if s[0] == '"' then Some(Parsed("", s[1..]))
    else if s[0] == '\\' then
      if |s| < 2 || Unescape(s[1]).None? then None
      else Prepend(Unescape(s[1]).value, ParseChars(s[2..]))
    else if IsControl(s[0]) then None
    else Prepend(s[0], ParseChars(s[1..]))
  }

  function Prepend(c: char, r: Option<Parsed<string>>): Option<Parsed<string>> {
    if r.Some? then Some(Parsed([c] + r.value.value, r.value.rest)) else None
  }

  function SkipSpace(s: string): (r: string)
    ensures |r| <= |s| && (r != "" ==> r[0] != ' ' && r[0] != '\t')
  {
    if s != "" && (s[0] == ' ' || s[0] == '\t') then SkipSpace(s[1..]) else s
  }

  function SkipLines(s: string): (r: string)
    ensures |r| <= |s| && (r != "" ==> r[0] !in " \t\n")
  {
    if s != "" && s[0] in " \t\n" then SkipLines(s[1..]) else s
  }

  predicate IsBare(c: char) {
    'a' <= c <= 'z' || 'A' <= c <= 'Z' || '0' <= c <= '9' || c == '_' || c == '-'
  }

  function ParseKey(s: string): (r: Parsed<string>)
    ensures s == r.value + r.rest
  {
    if s != "" && IsBare(s[0]) then
      var r := ParseKey(s[1..]);
      Parsed([s[0]] + r.value, r.rest)
    else Parsed("", s)
  }

  function ParseValue(s: string): (r: Option<Parsed<Value>>)
    ensures r.Some? ==> |r.value.rest| < |s|
    decreases |s|, 0
  {
    if s == "" then None
    else if s[0] == '"' then
      var r := ParseChars(s[1..]);
      if r.None? then None else Some(Parsed(Str(r.value.value), r.value.rest))
    else if s[0] == '[' then
      var r := ParseArray(s[1..]);
      if r.None? then None else Some(Parsed(List(r.value.value), r.value.rest))
    else if s[0] == '{' then
      var t := SkipSpace(s[1..]);
      if t != "" && t[0] == '}' then Some(Parsed(Table(map[]), t[1..]))
      else
        var r := ParsePairs(t);
        if r.None? then None else Some(Parsed(Table(r.value.value), r.value.rest))
    else if StartsWith(s, "true") then Some(Parsed(Bool(true), s[4..]))
    else if StartsWith(s, "false") then Some(Parsed(Bool(false), s[5..]))
    else None
  }

  /** The items up to the closing bracket; a comma may stand after the last one. */
  function ParseArray(s: string): (r: Option<Parsed<seq<Value>>>)
    ensures r.Some? ==> |r.value.rest| < |s|
    decreases |s|, 1
  {
    var t := SkipLines(s);
    if t == "" then None
    else if t[0] == ']' then Some(Parsed([], t[1..]))
    else
      var v := ParseValue(t);
      if v.None? then None else AfterItem(v.value.value, SkipLines(v.value.rest))
  }

  function AfterItem(v: Value, u: string): (r: Option<Parsed<seq<Value>>>)
    ensures r.Some? ==> |r.value.rest| < |u|
    decreases |u|, 2
  {
    if u == "" then None
    else if u[0] == ']' then Some(Parsed([v], u[1..]))
    else if u[0] != ',' then None
    else
      var more := ParseArray(u[1..]);
      if more.None? then None else Some(Parsed([v] + more.value.value, more.value.rest))
  }

  /** A key, an equals sign, and the value. */
  function ParsePairing(s: string): (r: Option<Parsed<Pair>>)
    ensures r.Some? ==> |r.value.rest| < |s|
    decreases |s|, 1
  {
    var key := ParseKey(s);
    var t := SkipSpace(key.rest);
    if key.value == "" || t == "" || t[0] != '=' then None
    else
      var v := ParseValue(SkipSpace(t[1..]));
      if v.None? then None else Some(Parsed((key.value, v.value.value), v.value.rest))
  }

  /** The pairs up to the closing brace; a key may not be given twice. */
  function ParsePairs(s: string): (r: Option<Parsed<map<string, Value>>>)
    ensures r.Some? ==> |r.value.rest| < |s|
    decreases |s|, 2
  {
    var p := ParsePairing(s);
    if p.None? then None else AfterPairing(p.value.value, SkipSpace(p.value.rest))
  }

  function AfterPairing(p: Pair, u: string): (r: Option<Parsed<map<string, Value>>>)
    ensures r.Some? ==> |r.value.rest| < |u|
    decreases |u|, 3
  {
    if u == "" then None
    else if u[0] == '}' then Some(Parsed(map[p.0 := p.1], u[1..]))
    else if u[0] != ',' then None
    else
      var more := ParsePairs(SkipSpace(u[1..]));
      if more.None? || p.0 in more.value.value then None
      else Some(Parsed(more.value.value[p.0 := p.1], more.value.rest))
  }

  // ----- Strings read back -----

  lemma {:induction false} ReplaceJoin(a: string, b: string, c: char, with: string)
    ensures Replace(a + b, c, with) == Replace(a, c, with) + Replace(b, c, with)
    decreases |a|
  {
    if a == "" {
      assert a + b == b;
    } else {
      assert (a + b)[0] == a[0] && (a + b)[1..] == a[1..] + b;
      ReplaceJoin(a[1..], b, c, with);
    }
  }

  function EscapeOne(c: char): string {
    if c == '\\' then "\\\\" else if c == '"' then "\\\"" else [c]
  }

  /** The two passes escape each character on its own: the second does not touch what the first
      has put in. */
  lemma EscapeStep(s: string)
    requires s != ""
    ensures Escape(s) == EscapeOne(s[0]) + Escape(s[1..])
  {
    var head := if s[0] == '\\' then "\\\\" else [s[0]];
    ReplaceJoin(head, Replace(s[1..], '\\', "\\\\"), '"', "\\\"");
    if s[0] == '\\' {
      assert head[1..] == "\\" && head[1..][1..] == "";
    } else {
      assert head[1..] == "";
      assert Replace(head, '"', "\\\"") == EscapeOne(s[0]) + "";
    }
  }

  predicate CleanString(s: string) {
    forall i | 0 <= i < |s| :: !IsControl(s[i])
  }

  lemma {:induction false} CharsReadBack(s: string, rest: string)
    ensures ParseChars(Escape(s) + "\"" + rest) == if CleanString(s) then Some(Parsed(s, rest)) else None
    decreases |s|
  {
    var text := Escape(s) + "\"" + rest;
    if s == "" {
      assert text == "\"" + rest;
    } else {
      var tail := Escape(s[1..]) + "\"" + rest;
      EscapeStep(s);
      assert text == EscapeOne(s[0]) + tail;
      CharsReadBack(s[1..], rest);
      assert text[|EscapeOne(s[0])|..] == tail;
      CleanTail(s);
      assert s == [s[0]] + s[1..];
    }
  }

  lemma CleanTail(s: string)
    requires s != ""
    ensures CleanString(s) <==> !IsControl(s[0]) && CleanString(s[1..])
  {
    assert forall i | 0 < i < |s| :: s[i] == s[1..][i - 1];
  }

  // ----- Values read back -----

  predicate Clean(v: Value) {
    match v
    case Bool(_) => true
    case Str(s) => CleanString(s)
    case List(items) => forall x | x in items :: Clean(x)
    case Table(fields) => forall k | k in fields :: Clean(fields[k])
  }

  predicate AllClean(items: seq<Value>) {
    forall x | x in items :: Clean(x)
  }

  predicate AllPlain(items: seq<Value>) {
    forall x | x in items :: Plain(x)
  }

  lemma FirstOfValue(v: Value)
    requires Plain(v)
    ensures TomlValue(v) != "" && TomlValue(v)[0] in "\"[tf"
  {}

  lemma {:induction false} ValueReadsBack(v: Value, rest: string)
    requires Plain(v)
    ensures ParseValue(TomlValue(v) + rest) == if Clean(v) then Some(Parsed(v, rest)) else None
    decreases v, 0
  {
    match v
    case Bool(b) => FlagReadsBack(b, rest);
    case Str(s) => StringReadsBack(s, rest);
    case List(items) =>
      var body := Join(Printed(items), ", ") + ("]" + rest);
      assert TomlValue(v) + rest == "[" + body && ("[" + body)[1..] == body;
      if items == [] {
        assert body == "]" + rest;
        assert SkipLines(body) == body;
      } else {
        ItemsReadBack(items, rest);
      }
  }

  lemma FlagReadsBack(b: bool, rest: string)
    ensures ParseValue(TomlValue(Bool(b)) + rest) == Some(Parsed(Bool(b), rest))
  {
    var text, word := TomlValue(Bool(b)) + rest, TomlValue(Bool(b));
    assert text[|word|..] == rest && text[..|word|] == word;
    assert text[0] == if b then 't' else 'f';
  }

  lemma StringReadsBack(s: string, rest: string)
    ensures ParseValue(TomlString(s) + rest) == if CleanString(s) then Some(Parsed(Str(s), rest)) else None
  {
    var text := TomlString(s) + rest;
    assert text[0] == '"' && text[1..] == Escape(s) + "\"" + rest;
    CharsReadBack(s, rest);
  }

  lemma PaddedArray(text: string)
    ensures ParseArray(" " + text) == ParseArray(text)
  {
    assert (" " + text)[1..] == text;
  }

  lemma CleanItems(items: seq<Value>)
    requires items != []
    ensures AllClean(items) <==> Clean(items[0]) && AllClean(items[1..])
  {
    assert items == [items[0]] + items[1..];
  }

  /** A list's text begins with its first part, and goes on with a comma or ends. */
  lemma JoinedText(parts: seq<string>, close: string)
    requires parts != []
    ensures |parts| == 1 ==> Join(parts, ", ") + close == parts[0] + close
    ensures |parts| > 1 ==> Join(parts, ", ") + close == parts[0] + ("," + (" " + (Join(parts[1..], ", ") + close)))
  {
    if |parts| > 1 {
      Regrouped(parts[0], Join(parts[1..], ", "), close);
    }
  }

  lemma Regrouped(a: string, b: string, c: string)
    ensures a + ", " + b + c == a + ("," + (" " + (b + c)))
  {
    assert ", " == "," + " ";
  }

  lemma {:induction false} FirstItemReadsBack(v: Value, after: string)
    requires Plain(v) && after != "" && after[0] !in " \t\n"
    ensures ParseArray(TomlValue(v) + after) == if Clean(v) then AfterItem(v, after) else None
    decreases v, 1
  {
    FirstOfValue(v);
    ValueReadsBack(v, after);
    assert SkipLines(TomlValue(v) + after) == TomlValue(v) + after;
  }

  lemma {:induction false} ItemsReadBack(items: seq<Value>, rest: string)
    requires items != [] && AllPlain(items)
    ensures ParseArray(Join(Printed(items), ", ") + ("]" + rest))
         == if AllClean(items) then Some(Parsed(items, rest)) else None
    decreases items, 0
  {
    var parts, close := Printed(items), "]" + rest;
    CleanItems(items);
    JoinedText(parts, close);
    if |items| == 1 {
      FirstItemReadsBack(items[0], close);
      assert close[1..] == rest && items == [items[0]];
    } else {
      var tail := Join(parts[1..], ", ") + close;
      var after := "," + (" " + tail);
      FirstItemReadsBack(items[0], after);
      assert after[1..] == " " + tail && parts[1..] == Printed(items[1..]);
      PaddedArray(tail);
      ItemsReadBack(items[1..], rest);
      assert [items[0]] + items[1..] == items;
    }
  }

  // ----- Pairs and inline tables read back -----

  predicate BareKey(k: string) {
    k != "" && forall i | 0 <= i < |k| :: IsBare(k[i])
  }

  lemma {:induction false} KeyReadsBack(k: string, rest: string)
    requires forall i | 0 <= i < |k| :: IsBare(k[i])
    requires rest != "" ==> !IsBare(rest[0])
    ensures ParseKey(k + rest) == Parsed(k, rest)
  {
    if k == "" {
      assert k + rest == rest;
    } else {
      assert (k + rest)[0] == k[0] && (k + rest)[1..] == k[1..] + rest;
      KeyReadsBack(k[1..], rest);
      assert [k[0]] + k[1..] == k;
    }
  }

  lemma PairingText(k: string, v: string, after: string)
    ensures k + " = " + v + after == k + (" = " + (v + after))
  {}

  lemma EqualsSkipped(x: string)
    requires x != "" && x[0] != ' ' && x[0] != '\t'
    ensures var t := SkipSpace(" = " + x); t != "" && t[0] == '=' && SkipSpace(t[1..]) == x
  {
    assert (" = " + x)[1..] == "= " + x;
    assert ("= " + x)[1..] == " " + x && (" " + x)[1..] == x;
    assert SkipSpace(" " + x) == SkipSpace(x) == x;
  }

  lemma {:induction false} PairingReadsBack(p: Pair, after: string)
    requires Plain(p.1) && BareKey(p.0)
    ensures ParsePairing(Pairing(p) + after) == if Clean(p.1) then Some(Parsed(p, after)) else None
  {
    var value := TomlValue(p.1) + after;
    PairingText(p.0, TomlValue(p.1), after);
    KeyReadsBack(p.0, " = " + value);
    FirstOfValue(p.1);
    EqualsSkipped(value);
    ValueReadsBack(p.1, after);
  }

  function MapOf(ps: seq<Pair>): map<string, Value> {
    if ps == [] then map[] else MapOf(ps[1..])[ps[0].0 := ps[0].1]
  }

  ghost predicate DistinctKeys(ps: seq<Pair>) {
    forall i, j | 0 <= i < j < |ps| :: ps[i].0 != ps[j].0
  }

  ghost predicate Printable(ps: seq<Pair>) {
    forall p | p in ps :: Plain(p.1) && BareKey(p.0)
  }

  ghost predicate CleanPairs(ps: seq<Pair>) {
    forall p | p in ps :: Clean(p.1)
  }

  lemma {:induction false} KeysOfMap(ps: seq<Pair>, k: string)
    ensures k in MapOf(ps) <==> exists i | 0 <= i < |ps| :: ps[i].0 == k
  {
    if ps != [] {
      KeysOfMap(ps[1..], k);
      assert forall i | 0 < i < |ps| :: ps[i] == ps[1..][i - 1];
      if i :| 0 <= i < |ps[1..]| && ps[1..][i].0 == k {
        assert ps[i + 1].0 == k;
      }
    }
  }

  lemma SplitPairs(ps: seq<Pair>)
    requires ps != []
    ensures CleanPairs(ps) <==> Clean(ps[0].1) && CleanPairs(ps[1..])
    ensures Printable(ps) ==> Printable(ps[1..]) && Plain(ps[0].1) && BareKey(ps[0].0)
    ensures DistinctKeys(ps) ==> DistinctKeys(ps[1..]) && ps[0].0 !in MapOf(ps[1..])
  {
    assert ps == [ps[0]] + ps[1..];
    KeysOfMap(ps[1..], ps[0].0);
  }

  lemma {:induction false} PairsReadBack(ps: seq<Pair>, rest: string)
    requires ps != [] && Printable(ps) && DistinctKeys(ps)
    ensures ParsePairs(Join(Pairings(ps), ", ") + (" }" + rest))
         == if CleanPairs(ps) then Some(Parsed(MapOf(ps), rest)) else None
  {
    var parts, close := Pairings(ps), " }" + rest;
    SplitPairs(ps);
    JoinedText(parts, close);
    if |ps| == 1 {
      LastPairReadsBack(ps[0], rest);
      assert MapOf(ps[1..]) == map[];
    } else {
      var tail := Join(parts[1..], ", ") + close;
      assert parts[1..] == Pairings(ps[1..]);
      FirstOfPairs(ps[1..], close);
      FirstPairReadsBack(ps[0], tail);
      PairsReadBack(ps[1..], rest);
    }
  }

  lemma LastPairReadsBack(p: Pair, rest: string)
    requires Plain(p.1) && BareKey(p.0)
    ensures ParsePairs(Pairing(p) + (" }" + rest))
         == if Clean(p.1) then Some(Parsed(map[p.0 := p.1], rest)) else None
  {
    var close := " }" + rest;
    PairingReadsBack(p, close);
    assert close[1..] == "}" + rest && ("}" + rest)[1..] == rest;
    assert SkipSpace(close) == "}" + rest;
  }

  lemma FirstPairReadsBack(p: Pair, tail: string)
    requires Plain(p.1) && BareKey(p.0) && SkipSpace(" " + tail) == tail
    ensures var more := ParsePairs(tail);
            ParsePairs(Pairing(p) + ("," + (" " + tail))) ==
              if !Clean(p.1) || more.None? || p.0 in more.value.value then None
              else Some(Parsed(more.value.value[p.0 := p.1], more.value.rest))
  {
    var after := "," + (" " + tail);
    PairingReadsBack(p, after);
    assert after[1..] == " " + tail && SkipSpace(after) == after;
  }

  lemma FirstOfPairs(ps: seq<Pair>, close: string)
    requires ps != [] && Printable(ps)
    ensures var text := Join(Pairings(ps), ", ") + close; text != "" && text[0] == ps[0].0[0] && IsBare(text[0])
    ensures SkipSpace(Join(Pairings(ps), ", ") + close) == Join(Pairings(ps), ", ") + close
    ensures var text := Join(Pairings(ps), ", ") + close; SkipSpace(" " + text) == text
  {
    var text := Join(Pairings(ps), ", ") + close;
    SplitPairs(ps);
    JoinedText(Pairings(ps), close);
    assert Pairing(ps[0])[0] == ps[0].0[0];
    assert (" " + text)[1..] == text;
  }

  lemma InlineReadsBack(ps: seq<Pair>, rest: string)
    requires ps != [] && Printable(ps) && DistinctKeys(ps)
    ensures ParseValue(InlineTable(ps) + rest)
         == if CleanPairs(ps) then Some(Parsed(Table(MapOf(ps)), rest)) else None
  {
    var text := Join(Pairings(ps), ", ") + (" }" + rest);
    assert InlineTable(ps) + rest == "{" + (" " + text);
    assert ("{" + (" " + text))[1..] == " " + text;
    FirstOfPairs(ps, " }" + rest);
    PairsReadBack(ps, rest);
  }
}
