/** The three-tier configuration: merging trees of tables, key by key, and what a merge keeps. */
module ConfigMerge {
  import opened Model

  /** A TOML tree; scalars and arrays are leaves. */
  datatype Toml = Leaf(value: string) | Table(fields: map<string, Toml>)

  /** `over` wins key by key; where both hold a table the tables are merged. */
  function Merge(base: Toml, over: Toml): (r: Toml)
    requires base.Table? && over.Table?
    ensures r.Table? && r.fields.Keys == base.fields.Keys + over.fields.Keys
    decreases over, 1
  {
    Table(map k | k in base.fields.Keys + over.fields.Keys :: Chosen(base, over, k))
  }

  function Chosen(base: Toml, over: Toml, k: string): Toml
    requires base.Table? && over.Table? && (k in base.fields || k in over.fields)
    decreases over, 0
  {
    if k !in over.fields then base.fields[k]
    else if k in base.fields && base.fields[k].Table? && over.fields[k].Table?
    then Merge(base.fields[k], over.fields[k])
    else over.fields[k]
  }

  /** The same with a dictionary that is filled in, in whatever order the keys come. */
  method DeepMerge(base: Toml, over: Toml) returns (merged: Toml)
    requires base.Table? && over.Table?
    ensures merged == Merge(base, over)
    decreases over
  {
    var fields, keys := base.fields, over.fields.Keys;
    while keys != {}
      invariant Filled(base, over, keys, fields)
      decreases |keys|
    {
      var k :| k in keys;
      FillOne(base, over, keys, fields, k);
      var v := over.fields[k];
      if k in fields && fields[k].Table? && v.Table? {
        v := DeepMerge(fields[k], v);
      }
      assert v == Chosen(base, over, k);
      fields, keys := fields[k := v], keys - {k};
    }
    FilledIsMerged(base, over, fields);
    merged := Table(fields);
  }

  /** The dictionary so far: merged at the keys of `over` that are done, as in `base` elsewhere. */
  ghost predicate Filled(base: Toml, over: Toml, keys: set<string>, fields: map<string, Toml>)
    requires base.Table? && over.Table?
  {
    && keys <= over.fields.Keys && fields.Keys == base.fields.Keys + (over.fields.Keys - keys)
    && forall k | k in fields :: fields[k] == if k in keys then base.fields[k] else Chosen(base, over, k)
  }

  lemma FilledIsMerged(base: Toml, over: Toml, fields: map<string, Toml>)
    requires base.Table? && over.Table? && Filled(base, over, {}, fields)
    ensures Table(fields) == Merge(base, over)
  {
    assert fields == Merge(base, over).fields;
  }

  lemma FillOne(base: Toml, over: Toml, keys: set<string>, fields: map<string, Toml>, k: string)
    requires base.Table? && over.Table? && Filled(base, over, keys, fields) && k in keys
    ensures k in over.fields && (k in fields <==> k in base.fields) && (k in fields ==> fields[k] == base.fields[k])
    ensures Filled(base, over, keys - {k}, fields[k := Chosen(base, over, k)])
  {}

  // ----- Paths -----

  type Path = seq<string>

  /** The leaf value at a path, if there is one. */
  function LeafAt(t: Toml, p: Path): Option<string>
    decreases |p|
  {
    if p == [] then (if t.Leaf? then Some(t.value) else None)
    else if t.Table? && p[0] in t.fields then LeafAt(t.fields[p[0]], p[1..])
    else None
  }

  /** The tree holds no value on the path, above it (a leaf) or below it (a table). */
  predicate Untouched(t: Toml, p: Path)
    decreases |p|
  {
    p != [] && t.Table?
    && (p[0] in t.fields ==> Untouched(t.fields[p[0]], p[1..]))
  }

  /** What a merge holds at any path at all: the upper tree's leaf, or the lower tree's where the upper
      one holds nothing on, above or below the path. */
  lemma {:induction false} LeafOfMerge(base: Toml, over: Toml, p: Path)
    requires base.Table? && over.Table?
    ensures LeafAt(Merge(base, over), p) ==
              if LeafAt(over, p).Some? then LeafAt(over, p) else if Untouched(over, p) then LeafAt(base, p) else None
    decreases |p|
  {
    if p != [] {
      var k := p[0];
      if k in base.fields && k in over.fields && base.fields[k].Table? && over.fields[k].Table? {
        LeafOfMerge(base.fields[k], over.fields[k], p[1..]);
      } else if k in over.fields && k in base.fields && base.fields[k].Leaf? {
        LeafUnderLeaf(base.fields[k], p[1..], over.fields[k]);
      }
    }
  }

  lemma LeafUnderLeaf(leaf: Toml, p: Path, over: Toml)
    requires leaf.Leaf?
    ensures Untouched(over, p) ==> LeafAt(leaf, p).None?
  {}

  /** The configuration as loaded: the first system default that exists, then the user's, then the
      enforced tier. */
  function Loaded(system: Toml, user: Toml, enforced: Toml): (r: Toml)
    requires system.Table? && user.Table? && enforced.Table?
    ensures r.Table?
  {
    Merge(Merge(system, user), enforced)
  }

  const NOTHING := Table(map[])

  function FirstOf(candidates: seq<Option<Toml>>): Option<Toml> {
    if candidates == [] then None else if candidates[0].Some? then candidates[0] else FirstOf(candidates[1..])
  }

  predicate AllTables(candidates: seq<Option<Toml>>) {
    forall c | c in candidates && c.Some? :: c.value.Table?
  }

  lemma {:induction false} FirstIsTable(candidates: seq<Option<Toml>>)
    requires AllTables(candidates)
    ensures FirstOf(candidates).Some? ==> FirstOf(candidates).value.Table?
  {
    if candidates != [] {
      assert candidates[0] in candidates;
      FirstIsTable(candidates[1..]);
    }
  }

  /** A tier without a file overrides nothing. */
  function Tier(t: Option<Toml>): (r: Toml)
    requires t.Some? ==> t.value.Table?
    ensures r.Table?
  {
    if t.Some? then t.value else NOTHING
  }

  /** The enforced tier wins: each of its leaves is the configuration's. */
  lemma EnforcedWins(system: Toml, user: Toml, enforced: Toml, p: Path)
    requires system.Table? && user.Table? && enforced.Table? && LeafAt(enforced, p).Some?
    ensures LeafAt(Loaded(system, user, enforced), p) == LeafAt(enforced, p)
  {
    LeafOfMerge(Merge(system, user), enforced, p);
  }

  /** A leaf of a lower tier survives where no higher tier holds a value on, above or below its path. */
  lemma LowerLeavesSurvive(system: Toml, user: Toml, enforced: Toml, p: Path)
    requires system.Table? && user.Table? && enforced.Table? && Untouched(enforced, p)
    ensures LeafAt(user, p).Some? ==> LeafAt(Loaded(system, user, enforced), p) == LeafAt(user, p)
    ensures Untouched(user, p) ==> LeafAt(Loaded(system, user, enforced), p) == LeafAt(system, p)
  {
    LeafOfMerge(Merge(system, user), enforced, p);
    LeafOfMerge(system, user, p);
    UntouchedHasNoLeaf(enforced, p);
    UntouchedHasNoLeaf(user, p);
  }

  lemma {:induction false} UntouchedHasNoLeaf(t: Toml, p: Path)
    ensures Untouched(t, p) ==> LeafAt(t, p).None?
    decreases |p|
  {
    if p != [] && t.Table? && p[0] in t.fields {
      UntouchedHasNoLeaf(t.fields[p[0]], p[1..]);
    }
  }

  /** The file, if there is one, holds nothing on, above or below the path. */
  predicate Free(tier: Option<Toml>, p: Path) {
    tier.Some? ==> Untouched(tier.value, p)
  }

  /** The first of the candidates that exists is number `i`. */
  predicate FirstAt(candidates: seq<Option<Toml>>, i: nat) {
    i < |candidates| && candidates[i].Some? && forall j | 0 <= j < i :: candidates[j].None?
  }

  lemma {:induction false} FirstIsFirst(candidates: seq<Option<Toml>>, i: nat)
    requires FirstAt(candidates, i)
    ensures FirstOf(candidates) == candidates[i]
  {
    if i > 0 {
      FirstIsFirst(candidates[1..], i - 1);
    }
  }

  lemma LoadedLeaf(system: Option<Toml>, user: Option<Toml>, enforced: Option<Toml>, p: Path)
    requires system.Some? ==> system.value.Table?
    requires user.Some? ==> user.value.Table?
    requires enforced.Some? ==> enforced.value.Table?
    ensures var merged := Loaded(Tier(system), Tier(user), Tier(enforced));
            && (enforced.Some? && LeafAt(enforced.value, p).Some? ==> LeafAt(merged, p) == LeafAt(enforced.value, p))
            && (user.Some? && LeafAt(user.value, p).Some? && Free(enforced, p) ==>
                  LeafAt(merged, p) == LeafAt(user.value, p))
            && (system.Some? && p != [] && Free(user, p) && Free(enforced, p) ==>
                  LeafAt(merged, p) == LeafAt(system.value, p))
  {
    if LeafAt(Tier(enforced), p).Some? {
      EnforcedWins(Tier(system), Tier(user), Tier(enforced), p);
      if Free(enforced, p) && enforced.Some? {
        UntouchedHasNoLeaf(enforced.value, p);
      }
    }
    if p != [] && Free(enforced, p) {
      LowerLeavesSurvive(Tier(system), Tier(user), Tier(enforced), p);
    }
  }

  /** The configuration as loaded, on the files that exist: the first system default, the user's file over it, the
      enforced one over both. */
  method LoadConfig(candidates: seq<Option<Toml>>, user: Option<Toml>, enforced: Option<Toml>) returns (merged: Toml)
    requires AllTables(candidates) && (user.Some? ==> user.value.Table?) && (enforced.Some? ==> enforced.value.Table?)
    ensures FirstOf(candidates).Some? ==> FirstOf(candidates).value.Table?
    ensures merged == Loaded(Tier(FirstOf(candidates)), Tier(user), Tier(enforced))
    ensures forall p: Path | enforced.Some? && LeafAt(enforced.value, p).Some? ::
              LeafAt(merged, p) == LeafAt(enforced.value, p)
    ensures forall p: Path | user.Some? && LeafAt(user.value, p).Some? && Free(enforced, p) ::
              LeafAt(merged, p) == LeafAt(user.value, p)
    ensures forall p: Path, i: nat | FirstAt(candidates, i) && p != [] && Free(user, p) && Free(enforced, p) ::
              LeafAt(merged, p) == LeafAt(candidates[i].value, p)
  {
    FirstIsTable(candidates);
    var system := NOTHING;
    for i := 0 to |candidates|
      invariant system == NOTHING && FirstOf(candidates[i..]) == FirstOf(candidates)
    {
      assert candidates[i..][1..] == candidates[i + 1..];
      if candidates[i].Some? {
        system := candidates[i].value;
        break;
      }
    }
    var lower := DeepMerge(system, Tier(user));
    merged := DeepMerge(lower, Tier(enforced));
    forall i: nat | FirstAt(candidates, i) ensures FirstOf(candidates) == candidates[i] {
      FirstIsFirst(candidates, i);
    }
    hide Loaded, Merge, LeafAt, Untouched;
    forall p: Path { LoadedLeaf(FirstOf(candidates), user, enforced, p); }
  }

  // ----- Flattened keys -----

  function Extend(prefix: string, key: string): string {
    if prefix == "" then key else prefix + "." + key
  }

  /** A path written with dots, after `prefix`. */
  function Dotted(prefix: string, p: Path): string
    decreases |p|
  {
    if p == [] then prefix else Dotted(Extend(prefix, p[0]), p[1..])
  }

  /** The keys of the path, joined by dots; an empty key at the front leaves no dot. */
  lemma {:induction false} DottedIsJoined(prefix: string, p: Path)
    ensures prefix != "" ==> Dotted(prefix, p) == Join([prefix] + p, ".")
    ensures p != [] ==> Dotted("", p) == if p[0] == "" then Dotted("", p[1..]) else Join(p, ".")
    decreases |p|
  {
    if p != [] {
      assert p == [p[0]] + p[1..];
      DottedIsJoined(p[0], p[1..]);
      if prefix != "" {
        DottedIsJoined(Extend(prefix, p[0]), p[1..]);
        JoinedFirst(prefix, p[0], p[1..]);
      }
    } else {
      assert [prefix] + p == [prefix];
    }
  }

  lemma JoinedFirst(a: string, b: string, rest: seq<string>)
    ensures Join([a + "." + b] + rest, ".") == Join([a] + ([b] + rest), ".")
  {
    assert ([a] + ([b] + rest))[1..] == [b] + rest && ([b] + rest)[1..] == rest && ([a + "." + b] + rest)[1..] == rest;
    if rest == [] {
      assert [b] + rest == [b] && [a + "." + b] + rest == [a + "." + b];
    } else {
      assert a + "." + (b + "." + Join(rest, ".")) == a + "." + b + "." + Join(rest, ".");
    }
  }

  /** `s` is the dotted form of the path of a leaf. */
  ghost predicate IsLeafPath(t: Toml, prefix: string, s: string) {
    exists p: Path :: LeafAt(t, p).Some? && s == Dotted(prefix, p)
  }

  lemma LeafBelow(t: Toml, prefix: string, k: string, s: string)
    requires t.Table? && k in t.fields && IsLeafPath(t.fields[k], Extend(prefix, k), s)
    ensures IsLeafPath(t, prefix, s)
  {
    var p :| LeafAt(t.fields[k], p).Some? && s == Dotted(Extend(prefix, k), p);
    var q: Path := [k] + p;
    assert q[1..] == p;
    assert LeafAt(t, q).Some? && s == Dotted(prefix, q);
  }

  lemma LeafAbove(t: Toml, prefix: string, s: string) returns (k: string)
    requires t.Table? && IsLeafPath(t, prefix, s)
    ensures k in t.fields && IsLeafPath(t.fields[k], Extend(prefix, k), s)
  {
    var p :| LeafAt(t, p).Some? && s == Dotted(prefix, p);
    k := p[0];
    assert LeafAt(t.fields[k], p[1..]).Some?;
  }

  /** Collects exactly the dotted paths of the leaves; an empty table contributes none. */
  method FlattenKeys(raw: Toml, prefix: string) returns (paths: set<string>)
    requires raw.Table?
    ensures forall s :: s in paths <==> IsLeafPath(raw, prefix, s)
    decreases raw
  {
    var todo := raw.fields.Keys;
    paths := {};
    while todo != {}
      invariant todo <= raw.fields.Keys
      invariant forall s :: s in paths <==>
                  exists k | k in raw.fields && k !in todo :: IsLeafPath(raw.fields[k], Extend(prefix, k), s)
      decreases |todo|
    {
      var key :| key in todo;
      var value, path := raw.fields[key], Extend(prefix, key);
      if value.Table? {
        var below := FlattenKeys(value, path);
        paths := paths + below;
      } else {
        LeafItself(value, path);
        paths := paths + {path};
      }
      todo := todo - {key};
    }
    forall s ensures s in paths <==> IsLeafPath(raw, prefix, s) {
      if IsLeafPath(raw, prefix, s) {
        var k := LeafAbove(raw, prefix, s);
      }
      if s in paths {
        var k :| k in raw.fields && IsLeafPath(raw.fields[k], Extend(prefix, k), s);
        LeafBelow(raw, prefix, k, s);
      }
    }
  }

  lemma LeafItself(leaf: Toml, path: string)
    requires leaf.Leaf?
    ensures forall s :: IsLeafPath(leaf, path, s) <==> s == path
  {
    assert LeafAt(leaf, []).Some? && Dotted(path, []) == path;
  }

  // ----- Algebra -----

  /** Merging a tree into itself, or a second time, changes nothing. */
  lemma {:induction false} MergeWithSelf(t: Toml)
    requires t.Table?
    ensures Merge(t, t) == t
    decreases t
  {
    forall k | k in t.fields ensures Chosen(t, t, k) == t.fields[k] {
      if t.fields[k].Table? {
        MergeWithSelf(t.fields[k]);
      }
    }
    assert Merge(t, t).fields == t.fields;
  }

  /** `over` has a value wherever `base` has one, and a table wherever `base` has a table below which
      it holds something of its own. */
  predicate Absorbs(over: Toml, base: Toml)
    requires base.Table? && over.Table?
    decreases base
  {
    forall k | k in base.fields ::
      k in over.fields && (base.fields[k].Table? && over.fields[k].Table? ==> Absorbs(over.fields[k], base.fields[k]))
  }

  lemma {:induction false} AbsorbedIsLost(base: Toml, over: Toml)
    requires base.Table? && over.Table?
    ensures Merge(base, over) == over <==> Absorbs(over, base)
    decreases base
  {
    forall k | k in base.fields && k in over.fields
      ensures Chosen(base, over, k) == over.fields[k] <==>
                (base.fields[k].Table? && over.fields[k].Table? ==> Absorbs(over.fields[k], base.fields[k]))
    {
      if base.fields[k].Table? && over.fields[k].Table? {
        AbsorbedIsLost(base.fields[k], over.fields[k]);
      }
    }
    if Absorbs(over, base) {
      assert Merge(base, over).fields == over.fields;
    }
  }

  lemma {:induction false} MergedTwice(base: Toml, over: Toml)
    requires base.Table? && over.Table?
    ensures Merge(Merge(base, over), over) == Merge(base, over)
    decreases over
  {
    var m := Merge(base, over);
    forall k | k in m.fields ensures Chosen(m, over, k) == m.fields[k] {
      assert m.fields[k] == Chosen(base, over, k);
      if k in over.fields && over.fields[k].Table? {
        if k in base.fields && base.fields[k].Table? {
          MergedTwice(base.fields[k], over.fields[k]);
        } else {
          MergeWithSelf(over.fields[k]);
        }
      }
    }
    assert Merge(m, over).fields == m.fields;
  }

  /** A scalar in the middle tier hides from the upper tier what the lower tier's table would add:
      grouping to the left loses it, grouping to the right keeps it. Nowhere does that happen. */
  predicate NothingMasked(a: Toml, b: Toml, c: Toml)
    requires a.Table? && b.Table? && c.Table?
    decreases a
  {
    forall k | k in a.fields && k in b.fields && k in c.fields && a.fields[k].Table? && c.fields[k].Table? ::
      if b.fields[k].Table? then NothingMasked(a.fields[k], b.fields[k], c.fields[k])
      else Absorbs(c.fields[k], a.fields[k])
  }

  lemma ThreeAtKey(a: Toml, b: Toml, c: Toml, k: string)
    requires a.Table? && b.Table? && c.Table? && (k in a.fields || k in b.fields || k in c.fields)
    requires !(k in a.fields && k in b.fields && k in c.fields && a.fields[k].Table? && c.fields[k].Table?)
    ensures Chosen(Merge(a, b), c, k) == Chosen(a, Merge(b, c), k)
  {
    var l, r := Merge(a, b), Merge(b, c);
    assert l.Table? && r.Table?;
    assert k in l.fields <==> k in a.fields || k in b.fields;
    assert k in r.fields <==> k in b.fields || k in c.fields;
    assert k in l.fields ==> l.fields[k] == Chosen(a, b, k);
    assert k in r.fields ==> r.fields[k] == Chosen(b, c, k);
  }

  /** Merging is associative exactly where nothing is masked. */
  lemma {:induction false} AssociativeUnlessMasked(a: Toml, b: Toml, c: Toml)
    requires a.Table? && b.Table? && c.Table?
    ensures Merge(Merge(a, b), c) == Merge(a, Merge(b, c)) <==> NothingMasked(a, b, c)
    decreases a
  {
    var l, r := Merge(Merge(a, b), c), Merge(a, Merge(b, c));
    forall k | k in l.fields
      ensures l.fields[k] == r.fields[k] <==>
                (k in a.fields && k in b.fields && k in c.fields && a.fields[k].Table? && c.fields[k].Table? ==>
                   if b.fields[k].Table? then NothingMasked(a.fields[k], b.fields[k], c.fields[k])
                   else Absorbs(c.fields[k], a.fields[k]))
    {
      if k in a.fields && k in b.fields && k in c.fields && a.fields[k].Table? && c.fields[k].Table? {
        assert Merge(a, b).fields[k] == Chosen(a, b, k) && Merge(b, c).fields[k] == Chosen(b, c, k);
        assert l.fields[k] == Chosen(Merge(a, b), c, k) && r.fields[k] == Chosen(a, Merge(b, c), k);
        if b.fields[k].Table? {
          AssociativeUnlessMasked(a.fields[k], b.fields[k], c.fields[k]);
        } else {
          AbsorbedIsLost(a.fields[k], c.fields[k]);
        }
      } else {
        ThreeAtKey(a, b, c, k);
      }
    }
    assert l == r <==> l.fields == r.fields;
  }

  /** The failing case: a table below, a scalar in the middle, a table above. */
  lemma MaskedTable(x: string, y: string, z: string)
    requires x != z
    ensures var low := Table(map["t" := Table(map[x := Leaf("1")])]);
            var middle, high := Table(map["t" := Leaf(y)]), Table(map["t" := Table(map[z := Leaf("2")])]);
            && Merge(Merge(low, middle), high) != Merge(low, Merge(middle, high))
            && LeafAt(Merge(Merge(low, middle), high), ["t", x]).None?
            && LeafAt(Merge(low, Merge(middle, high)), ["t", x]) == Some("1")
  {
    var low := Table(map["t" := Table(map[x := Leaf("1")])]);
    var middle, high := Table(map["t" := Leaf(y)]), Table(map["t" := Table(map[z := Leaf("2")])]);
    var p: Path := ["t", x];
    assert p[1..] == [x] && p[1..][1..] == [];
    assert LeafAt(Table(map[x := Leaf("1")]), [x]) == LeafAt(Leaf("1"), [x][1..]) == Some("1");
    assert LeafAt(low, p) == Some("1");
    LeafOfMerge(low, Merge(middle, high), p);
    LeafOfMerge(middle, high, p);
    LeafOfMerge(Merge(low, middle), high, p);
    LeafOfMerge(low, middle, p);
  }
}
