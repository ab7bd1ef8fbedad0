/** The structured knowledge base: indices built once, against scans of the fixture. */
module Entities {
  import opened Model

  datatype Company = Company(name: string, domains: seq<string>, services: seq<string>)
  datatype ServiceMeta = ServiceMeta(name: string, category: Option<string>)
  datatype Person = Person(name: string, email: Option<string>, company: Option<string>)
  datatype Data = Data(companies: seq<Company>, serviceMetadata: seq<ServiceMeta>, people: seq<Person>)
  datatype Domain = Domain(name: string, company: string)
  datatype Service = Service(name: string, category: Option<string>, providedBy: seq<string>)
  datatype Snippet = Snippet(source: string, text: string)

  /** Case folding, whatever it does. */
  type Fold = string -> string

  // ----- Scans -----

  /** A fixture read as a list of keys and what stands under them. */
  type Listing<V> = seq<(string, V)>

  function Last<V>(xs: Listing<V>, k: string): Option<V> {
    if xs == [] then None
    else if xs[|xs| - 1].0 == k then Some(xs[|xs| - 1].1) else Last(xs[..|xs| - 1], k)
  }

  function First<V>(xs: Listing<V>, k: string): Option<V> {
    if xs == [] then None else if xs[0].0 == k then Some(xs[0].1) else First(xs[1..], k)
  }

  function All<V>(xs: Listing<V>, k: string): seq<V> {
    if xs == [] then [] else All(xs[..|xs| - 1], k) + if xs[|xs| - 1].0 == k then [xs[|xs| - 1].1] else []
  }

  function Companies(fold: Fold, cs: seq<Company>): Listing<Company> {
    if cs == [] then [] else Companies(fold, cs[..|cs| - 1]) + [(fold(cs[|cs| - 1].name), cs[|cs| - 1])]
  }

  function DomainsOf(fold: Fold, c: Company, names: seq<string>): Listing<Domain> {
    if names == [] then []
    else
      var name := names[|names| - 1];
      DomainsOf(fold, c, names[..|names| - 1]) + [(fold(name), Domain(name, c.name))]
  }

  function Domains(fold: Fold, cs: seq<Company>): Listing<Domain> {
    if cs == [] then []
    else Domains(fold, cs[..|cs| - 1]) + DomainsOf(fold, cs[|cs| - 1], cs[|cs| - 1].domains)
  }

  /** Services as mentioned: the name used, and the company that mentions it. */
  function MentionsOf(fold: Fold, c: Company, names: seq<string>): Listing<(string, string)> {
    if names == [] then []
    else
      var name := names[|names| - 1];
      MentionsOf(fold, c, names[..|names| - 1]) + [(fold(name), (name, c.name))]
  }

  function Mentions(fold: Fold, cs: seq<Company>): Listing<(string, string)> {
    if cs == [] then []
    else Mentions(fold, cs[..|cs| - 1]) + MentionsOf(fold, cs[|cs| - 1], cs[|cs| - 1].services)
  }

  function Metas(fold: Fold, ms: seq<ServiceMeta>): Listing<ServiceMeta> {
    if ms == [] then [] else Metas(fold, ms[..|ms| - 1]) + [(fold(ms[|ms| - 1].name), ms[|ms| - 1])]
  }

  function Named(fold: Fold, ps: seq<Person>): Listing<Person> {
    if ps == [] then [] else Named(fold, ps[..|ps| - 1]) + [(fold(ps[|ps| - 1].name), ps[|ps| - 1])]
  }

  predicate HasEmail(p: Person) {
    p.email.Some? && p.email.value != ""
  }

  function Mailed(fold: Fold, ps: seq<Person>): Listing<Person> {
    if ps == [] then []
    else
      var p := ps[|ps| - 1];
      Mailed(fold, ps[..|ps| - 1]) + if HasEmail(p) then [(fold(p.email.value), p)] else []
  }

  /** The first casing wins, among companies and then the metadata. */
  function NameOf(fold: Fold, d: Data, k: string): Option<string> {
    var mention := First(Mentions(fold, d.companies), k);
    if mention.Some? then Some(mention.value.0)
    else
      var meta := First(Metas(fold, d.serviceMetadata), k);
      if meta.Some? then Some(meta.value.name) else None
  }

  function ProvidersOf(fold: Fold, d: Data, k: string): seq<string> {
    Seconds(All(Mentions(fold, d.companies), k))
  }

  function Seconds(xs: seq<(string, string)>): seq<string> {
    seq(|xs|, i requires 0 <= i < |xs| => xs[i].1)
  }

  function CategoryOf(fold: Fold, d: Data, k: string): Option<string> {
    var meta := Last(Metas(fold, d.serviceMetadata), k);
    if meta.Some? then meta.value.category else None
  }

  function ServiceOf(fold: Fold, d: Data, k: string): Option<Service> {
    var name := NameOf(fold, d, k);
    if name.None? then None else Some(Service(name.value, CategoryOf(fold, d, k), ProvidersOf(fold, d, k)))
  }

  function PersonOf(fold: Fold, d: Data, k: string): Option<Person> {
    var mailed := Last(Mailed(fold, d.people), k);
    if mailed.Some? then mailed else Last(Named(fold, d.people), k)
  }

  // ----- An index agrees with a scan -----

  /** The index gives, for every key, what the last entry under it is. */
  ghost predicate IndexesLast<V>(m: map<string, V>, xs: Listing<V>) {
    forall k :: Last(xs, k) == if k in m then Some(m[k]) else None
  }

  lemma LastAppended<V>(xs: Listing<V>, k: string, v: V)
    ensures forall q :: Last(xs + [(k, v)], q) == if q == k then Some(v) else Last(xs, q)
  {
    assert (xs + [(k, v)])[..|xs|] == xs;
  }

  lemma {:induction false} FirstAppended<V>(xs: Listing<V>, k: string, v: V, q: string)
    ensures First(xs + [(k, v)], q) ==
              if First(xs, q).Some? then First(xs, q) else if q == k then Some(v) else None
  {
    if xs == [] {
      assert xs + [(k, v)] == [(k, v)];
      assert [(k, v)][1..] == [];
    } else {
      assert (xs + [(k, v)])[1..] == xs[1..] + [(k, v)];
      FirstAppended(xs[1..], k, v, q);
    }
  }

  lemma AllAppended<V>(xs: Listing<V>, k: string, v: V, q: string)
    ensures All(xs + [(k, v)], q) == if q == k then All(xs, q) + [v] else All(xs, q)
  {
    var more := xs + [(k, v)];
    assert more[..|more| - 1] == xs && more[|more| - 1] == (k, v);
    assert All(xs, q) + [] == All(xs, q);
  }

  method IndexCompanies(fold: Fold, cs: seq<Company>) returns (m: map<string, Company>)
    ensures IndexesLast(m, Companies(fold, cs))
  {
    m := map[];
    for i := 0 to |cs|
      invariant IndexesLast(m, Companies(fold, cs[..i]))
    {
      assert cs[..i + 1][..i] == cs[..i];
      LastAppended(Companies(fold, cs[..i]), fold(cs[i].name), cs[i]);
      m := m[fold(cs[i].name) := cs[i]];
    }
    assert cs[..|cs|] == cs;
  }

  method IndexDomains(fold: Fold, cs: seq<Company>) returns (m: map<string, Domain>)
    ensures IndexesLast(m, Domains(fold, cs))
  {
    m := map[];
    for i := 0 to |cs|
      invariant IndexesLast(m, Domains(fold, cs[..i]))
    {
      var c := cs[i];
      ghost var before := Domains(fold, cs[..i]);
      assert before + DomainsOf(fold, c, c.domains[..0]) == before;
      for j := 0 to |c.domains|
        invariant IndexesLast(m, before + DomainsOf(fold, c, c.domains[..j]))
      {
        var name := c.domains[j];
        ghost var upTo := before + DomainsOf(fold, c, c.domains[..j]);
        assert c.domains[..j + 1][..j] == c.domains[..j];
        assert upTo + [(fold(name), Domain(name, c.name))] == before + DomainsOf(fold, c, c.domains[..j + 1]);
        LastAppended(upTo, fold(name), Domain(name, c.name));
        m := m[fold(name) := Domain(name, c.name)];
      }
      assert c.domains[..|c.domains|] == c.domains && cs[..i + 1][..i] == cs[..i];
    }
    assert cs[..|cs|] == cs;
  }

  ghost predicate NamesFirst(names: map<string, string>, xs: Listing<(string, string)>) {
    forall k :: (k in names <==> First(xs, k).Some?) && (k in names ==> names[k] == First(xs, k).value.0)
  }

  ghost predicate ListsAll(providers: map<string, seq<string>>, xs: Listing<(string, string)>) {
    forall k :: (if k in providers then providers[k] else []) == Seconds(All(xs, k))
  }

  /** One mention: the name stays if there is one, */
  lemma NameMentioned(names: map<string, string>, xs: Listing<(string, string)>, k: string, v: (string, string))
    requires NamesFirst(names, xs)
    ensures NamesFirst(if k in names then names else names[k := v.0], xs + [(k, v)])
  {
    forall q ensures First(xs + [(k, v)], q) ==
      if First(xs, q).Some? then First(xs, q) else if q == k then Some(v) else None
    {
      FirstAppended(xs, k, v, q);
    }
  }

  lemma SecondsAppended(xs: seq<(string, string)>, v: (string, string))
    ensures Seconds(xs + [v]) == Seconds(xs) + [v.1]
  {}

  /** and the company is appended to those that mention it. */
  lemma ProviderMentioned(providers: map<string, seq<string>>, xs: Listing<(string, string)>, k: string,
    v: (string, string))
    requires ListsAll(providers, xs)
    ensures ListsAll(providers[k := (if k in providers then providers[k] else []) + [v.1]], xs + [(k, v)])
  {
    hide All, Seconds;
    forall q ensures Seconds(All(xs + [(k, v)], q)) == Seconds(All(xs, q)) + if q == k then [v.1] else [] {
      AllAppended(xs, k, v, q);
      SecondsAppended(All(xs, q), v);
      assert Seconds(All(xs, q)) + [] == Seconds(All(xs, q));
    }
  }

  method IndexMentions(fold: Fold, cs: seq<Company>)
    returns (names: map<string, string>, providers: map<string, seq<string>>)
    ensures NamesFirst(names, Mentions(fold, cs)) && ListsAll(providers, Mentions(fold, cs))
  {
    names, providers := map[], map[];
    for i := 0 to |cs|
      invariant NamesFirst(names, Mentions(fold, cs[..i])) && ListsAll(providers, Mentions(fold, cs[..i]))
    {
      var c := cs[i];
      ghost var before := Mentions(fold, cs[..i]);
      assert before + MentionsOf(fold, c, c.services[..0]) == before;
      for j := 0 to |c.services|
        invariant NamesFirst(names, before + MentionsOf(fold, c, c.services[..j]))
        invariant ListsAll(providers, before + MentionsOf(fold, c, c.services[..j]))
      {
        var name, key := c.services[j], fold(c.services[j]);
        ghost var upTo := before + MentionsOf(fold, c, c.services[..j]);
        assert c.services[..j + 1][..j] == c.services[..j];
        assert upTo + [(key, (name, c.name))] == before + MentionsOf(fold, c, c.services[..j + 1]);
        NameMentioned(names, upTo, key, (name, c.name));
        ProviderMentioned(providers, upTo, key, (name, c.name));
        if key !in names {
          names := names[key := name];
        }
        providers := providers[key := (if key in providers then providers[key] else []) + [c.name]];
      }
      assert c.services[..|c.services|] == c.services && cs[..i + 1][..i] == cs[..i];
    }
    assert cs[..|cs|] == cs;
  }

  /** After the companies the metadata may name a service, and always gives its category. */
  ghost predicate NamesThen(names: map<string, string>, xs: Listing<(string, string)>, ms: Listing<ServiceMeta>) {
    forall k ::
      if First(xs, k).Some? then k in names && names[k] == First(xs, k).value.0
      else (k in names <==> First(ms, k).Some?) && (k in names ==> names[k] == First(ms, k).value.name)
  }

  method IndexMetadata(fold: Fold, metas: seq<ServiceMeta>, mentioned: map<string, string>,
    ghost xs: Listing<(string, string)>)
    returns (names: map<string, string>, metaOf: map<string, ServiceMeta>)
    requires NamesFirst(mentioned, xs)
    ensures NamesThen(names, xs, Metas(fold, metas)) && IndexesLast(metaOf, Metas(fold, metas))
  {
    names, metaOf := mentioned, map[];
    for i := 0 to |metas|
      invariant NamesThen(names, xs, Metas(fold, metas[..i])) && IndexesLast(metaOf, Metas(fold, metas[..i]))
    {
      var meta, key := metas[i], fold(metas[i].name);
      ghost var before := Metas(fold, metas[..i]);
      assert metas[..i + 1][..i] == metas[..i];
      LastAppended(before, key, meta);
      forall q ensures First(before + [(key, meta)], q) ==
        if First(before, q).Some? then First(before, q) else if q == key then Some(meta) else None
      {
        FirstAppended(before, key, meta, q);
      }
      if key !in names {
        names := names[key := meta.name];
      }
      metaOf := metaOf[key := meta];
    }
    assert metas[..|metas|] == metas;
  }

  method IndexPeople(fold: Fold, ps: seq<Person>) returns (byEmail: map<string, Person>, byName: map<string, Person>)
    ensures IndexesLast(byEmail, Mailed(fold, ps)) && IndexesLast(byName, Named(fold, ps))
  {
    byEmail, byName := map[], map[];
    for i := 0 to |ps|
      invariant IndexesLast(byEmail, Mailed(fold, ps[..i])) && IndexesLast(byName, Named(fold, ps[..i]))
    {
      var p := ps[i];
      assert ps[..i + 1][..i] == ps[..i];
      LastAppended(Named(fold, ps[..i]), fold(p.name), p);
      byName := byName[fold(p.name) := p];
      if HasEmail(p) {
        LastAppended(Mailed(fold, ps[..i]), fold(p.email.value), p);
        byEmail := byEmail[fold(p.email.value) := p];
      } else {
        assert Mailed(fold, ps[..i]) + [] == Mailed(fold, ps[..i]);
      }
    }
    assert ps[..|ps|] == ps;
  }

  // ----- The company found for a domain -----

  /** The company operates a domain that folds to `k`. */
  predicate Operates(fold: Fold, c: Company, k: string) {
    exists name | name in c.domains :: fold(name) == k
  }

  /** The last company of the fixture that operates the domain: the one its entry names. */
  ghost predicate Owns(fold: Fold, cs: seq<Company>, k: string, o: nat) {
    && o < |cs| && Operates(fold, cs[o], k)
    && forall j | o < j < |cs| :: !Operates(fold, cs[j], k)
  }

  lemma {:induction false} ListedDomain(fold: Fold, c: Company, names: seq<string>, k: string)
    ensures var d := Last(DomainsOf(fold, c, names), k);
            && (d.Some? <==> exists name | name in names :: fold(name) == k)
            && (d.Some? ==> d.value.company == c.name && d.value.name in names && fold(d.value.name) == k)
  {
    if names != [] {
      var n := |names| - 1;
      var before := DomainsOf(fold, c, names[..n]);
      LastAppended(before, fold(names[n]), Domain(names[n], c.name));
      ListedDomain(fold, c, names[..n], k);
      assert names == names[..n] + [names[n]];
    }
  }

  lemma {:induction false} LastOfJoin<V>(a: Listing<V>, b: Listing<V>, k: string)
    ensures Last(a + b, k) == if Last(b, k).Some? then Last(b, k) else Last(a, k)
    decreases |b|
  {
    if b == [] {
      assert a + b == a;
    } else {
      var n := |b| - 1;
      assert (a + b)[|a| + n] == b[n] && (a + b)[..|a| + n] == a + b[..n];
      LastOfJoin(a, b[..n], k);
    }
  }

  /** Where the last company under a folded name stands. */
  lemma {:induction false} CompanyIsListed(fold: Fold, cs: seq<Company>, c: Company) returns (f: nat)
    requires c in cs
    ensures f < |cs| && Last(Companies(fold, cs), fold(c.name)) == Some(cs[f]) && fold(cs[f].name) == fold(c.name)
    ensures forall j | f < j < |cs| :: fold(cs[j].name) != fold(c.name)
  {
    var n := |cs| - 1;
    LastAppended(Companies(fold, cs[..n]), fold(cs[n].name), cs[n]);
    if fold(cs[n].name) == fold(c.name) {
      f := n;
    } else {
      assert c in cs[..n];
      f := CompanyIsListed(fold, cs[..n], c);
      assert forall j | f < j < n :: cs[..n][j] == cs[j];
    }
  }

  lemma {:induction false} EntryOwner(fold: Fold, cs: seq<Company>, k: string) returns (o: nat)
    ensures var d := Last(Domains(fold, cs), k);
            if d.None? then forall j | 0 <= j < |cs| :: !Operates(fold, cs[j], k)
            else Owns(fold, cs, k, o) && Names(fold, d.value, cs[o], k)
  {
    if cs == [] {
      o := 0;
    } else {
      var n := |cs| - 1;
      var before, mine := Domains(fold, cs[..n]), DomainsOf(fold, cs[n], cs[n].domains);
      LastOfJoin(before, mine, k);
      ListedDomain(fold, cs[n], cs[n].domains, k);
      assert Last(mine, k).Some? <==> Operates(fold, cs[n], k);
      o := EntryOwner(fold, cs[..n], k);
      assert forall j | 0 <= j < n :: cs[..n][j] == cs[j];
      hide Operates, Domains, DomainsOf, Last;
      if Operates(fold, cs[n], k) {
        o := n;
      }
    }
  }

  /** The entry is for this company and this domain. */
  ghost predicate Names(fold: Fold, d: Domain, c: Company, k: string) {
    d.company == c.name && d.name in c.domains && fold(d.name) == k
  }

  /** A domain is found exactly if some company operates it, and its entry names the last that does. */
  lemma DomainFound(fold: Fold, cs: seq<Company>, k: string)
    ensures Last(Domains(fold, cs), k).Some? <==> exists j | 0 <= j < |cs| :: Operates(fold, cs[j], k)
    ensures Last(Domains(fold, cs), k).Some? <==> exists o: nat :: Owns(fold, cs, k, o)
    ensures forall o: nat | Owns(fold, cs, k, o) ::
              Last(Domains(fold, cs), k).Some? && Names(fold, Last(Domains(fold, cs), k).value, cs[o], k)
  {
    hide Operates, Domains, Last;
    var o := EntryOwner(fold, cs, k);
  }

  /** For every fixture, whatever names repeat, a domain that is found names a company that is found. */
  lemma DomainResolves(fold: Fold, cs: seq<Company>, k: string)
    requires Last(Domains(fold, cs), k).Some?
    ensures var d := Last(Domains(fold, cs), k).value;
            var found := Last(Companies(fold, cs), fold(d.company));
            found.Some? && found.value in cs && fold(found.value.name) == fold(d.company)
  {
    DomainFound(fold, cs, k);
    var o: nat :| Owns(fold, cs, k, o);
    var f := CompanyIsListed(fold, cs, cs[o]);
  }

  /** The company found for a domain is the one that operates it if and only if no company further down
      the fixture folds to that one's name; otherwise it is a company that does not operate the domain. */
  lemma OwnerFoundExactly(fold: Fold, cs: seq<Company>, k: string, o: nat)
    requires Owns(fold, cs, k, o)
    ensures var d := Last(Domains(fold, cs), k);
            && d.Some?
            && var found := Last(Companies(fold, cs), fold(d.value.company));
            && found.Some?
            && (found.value == cs[o] <==> forall j | o < j < |cs| :: fold(cs[j].name) != fold(cs[o].name))
            && (found.value != cs[o] ==> !Operates(fold, found.value, k))
  {
    DomainFound(fold, cs, k);
    var f := CompanyIsListed(fold, cs, cs[o]);
    assert o <= f;
  }

  /** Person `p` has an address, and that folds to `k`. */
  predicate WritesFrom(fold: Fold, p: Person, k: string) {
    p.email.Some? && p.email.value != "" && fold(p.email.value) == k
  }

  /** A sender is found by address exactly if somebody has that address, and is the last who does. */
  lemma {:induction false} SenderFound(fold: Fold, ps: seq<Person>, k: string)
    ensures Last(Mailed(fold, ps), k).Some? <==> exists j | 0 <= j < |ps| :: WritesFrom(fold, ps[j], k)
    ensures forall j | 0 <= j < |ps| && WritesFrom(fold, ps[j], k) ::
              (forall i | j < i < |ps| :: !WritesFrom(fold, ps[i], k)) ==> Last(Mailed(fold, ps), k) == Some(ps[j])
  {
    if ps != [] {
      var before, p := ps[..|ps| - 1], ps[|ps| - 1];
      SenderFound(fold, before, k);
      if HasEmail(p) {
        LastAppended(Mailed(fold, before), fold(p.email.value), p);
      } else {
        assert Mailed(fold, before) + [] == Mailed(fold, before);
      }
      assert forall j | 0 <= j < |before| :: before[j] == ps[j];
      if WritesFrom(fold, p, k) {
        assert ps[|ps| - 1] == p;
      }
    }
  }

  // ----- The provider -----

  function RenderCompany(c: Company): string {
    c.name
    + (if c.domains == [] then "" else " operates " + Join(c.domains, ", "))
    + (if c.services == [] then "" else " and provides " + Join(c.services, ", "))
    + "."
  }

  function RenderPerson(p: Person): string
    requires p.company.Some?
  {
    p.name + " is affiliated with " + p.company.value + "."
  }

  /** The context of a message, straight from the fixture. */
  function ContextOf(fold: Fold, d: Data, fromDomain: string, fromAddress: string): seq<Snippet> {
    var domain := Last(Domains(fold, d.companies), fold(fromDomain));
    if domain.None? then []
    else
      DomainResolves(fold, d.companies, fold(fromDomain));
      var company := Last(Companies(fold, d.companies), fold(domain.value.company)).value;
      var person := PersonOf(fold, d, fold(fromAddress));
      [Snippet(domain.value.name, RenderCompany(company))]
      + if person.Some? && person.value.company.Some? then [Snippet(fromAddress, RenderPerson(person.value))] else []
  }

  lemma ServiceIndexed(fold: Fold, d: Data, names: map<string, string>, metaOf: map<string, ServiceMeta>,
    providers: map<string, seq<string>>, k: string)
    requires NamesThen(names, Mentions(fold, d.companies), Metas(fold, d.serviceMetadata))
    requires IndexesLast(metaOf, Metas(fold, d.serviceMetadata)) && ListsAll(providers, Mentions(fold, d.companies))
    ensures ServiceOf(fold, d, k) ==
      if k in names then
        Some(Service(names[k], if k in metaOf then metaOf[k].category else None,
          if k in providers then providers[k] else []))
      else None
  {}

  method IndexServices(fold: Fold, d: Data) returns (services: map<string, Service>)
    ensures forall k :: ServiceOf(fold, d, k) == if k in services then Some(services[k]) else None
  {
    var mentioned, providers := IndexMentions(fold, d.companies);
    var names, metaOf := IndexMetadata(fold, d.serviceMetadata, mentioned, Mentions(fold, d.companies));
    services := map k | k in names :: Service(names[k], if k in metaOf then metaOf[k].category else None,
      if k in providers then providers[k] else []);
    forall k ensures ServiceOf(fold, d, k) == if k in services then Some(services[k]) else None {
      ServiceIndexed(fold, d, names, metaOf, providers, k);
    }
  }

  class EntityContextProvider {
    const fold: Fold
    var companies: map<string, Company>
    var domains: map<string, Domain>
    var services: map<string, Service>
    var byEmail: map<string, Person>
    var byName: map<string, Person>

    /** Every index agrees with a scan of the fixture. */
    ghost predicate Agrees(d: Data)
      reads this
    {
      && IndexesLast(companies, Companies(fold, d.companies))
      && IndexesLast(domains, Domains(fold, d.companies))
      && (forall k :: ServiceOf(fold, d, k) == if k in services then Some(services[k]) else None)
      && IndexesLast(byEmail, Mailed(fold, d.people))
      && IndexesLast(byName, Named(fold, d.people))
    }

    constructor (fold: Fold, data: Data)
      ensures this.fold == fold && Agrees(data)
    {
      var companies := IndexCompanies(fold, data.companies);
      var domains := IndexDomains(fold, data.companies);
      var services := IndexServices(fold, data);
      var byEmail, byName := IndexPeople(fold, data.people);
      this.fold, this.companies, this.domains, this.services := fold, companies, domains, services;
      this.byEmail, this.byName := byEmail, byName;
    }

    method LookupDomain(domain: string, ghost d: Data) returns (r: Option<Domain>)
      requires Agrees(d)
      ensures r == Last(Domains(fold, d.companies), fold(domain))
    {
      r := if fold(domain) in domains then Some(domains[fold(domain)]) else None;
    }

    method LookupCompany(name: string, ghost d: Data) returns (r: Option<Company>)
      requires Agrees(d)
      ensures r == Last(Companies(fold, d.companies), fold(name))
    {
      r := if fold(name) in companies then Some(companies[fold(name)]) else None;
    }

    method LookupService(name: string, ghost d: Data) returns (r: Option<Service>)
      requires Agrees(d)
      ensures r == ServiceOf(fold, d, fold(name))
    {
      r := if fold(name) in services then Some(services[fold(name)]) else None;
    }

    /** By email first, then by name. */
    method LookupPerson(identifier: string, ghost d: Data) returns (r: Option<Person>)
      requires Agrees(d)
      ensures r == PersonOf(fold, d, fold(identifier))
    {
      var key := fold(identifier);
      r := if key in byEmail then Some(byEmail[key]) else if key in byName then Some(byName[key]) else None;
    }

    /** The assertion in the middle never fails. */
    method GetContext(fromDomain: string, fromAddress: string, ghost d: Data) returns (snippets: seq<Snippet>)
      requires Agrees(d)
      ensures snippets == ContextOf(fold, d, fromDomain, fromAddress)
      ensures |snippets| > 0 ==>
                var domain := Last(Domains(fold, d.companies), fold(fromDomain)).value;
                var found := Last(Companies(fold, d.companies), fold(domain.company));
                && found.Some?
                && var c := found.value;
                snippets[0] == Snippet(domain.name, c.name
                  + (if c.domains == [] then "" else " operates " + Join(c.domains, ", "))
                  + (if c.services == [] then "" else " and provides " + Join(c.services, ", ")) + ".")
      ensures |snippets| > 1 ==>
                var p := PersonOf(fold, d, fold(fromAddress)).value;
                snippets[1] == Snippet(fromAddress, p.name + " is affiliated with " + p.company.value + ".")
    {
      var domain := LookupDomain(fromDomain, d);
      if domain.None? {
        return [];
      }
      var company := LookupCompany(domain.value.company, d);
      DomainResolves(fold, d.companies, fold(fromDomain));
      assert company.Some?;
      snippets := [Snippet(domain.value.name, RenderCompany(company.value))];
      var person := LookupPerson(fromAddress, d);
      if person.Some? && person.value.company.Some? {
        snippets := snippets + [Snippet(fromAddress, RenderPerson(person.value))];
      }
    }
  }

  /** When two companies fold to one name, the company found for a domain need not be its owner: the
      last of the two is, whatever it operates. */
  lemma FoldedNamesHideAnOwner(fold: Fold, a: Company, b: Company, domain: string)
    requires fold(a.name) == fold(b.name) && a.domains == [domain] && b.domains == []
    ensures var d := Last(Domains(fold, [a, b]), fold(domain));
            && d == Some(Domain(domain, a.name))
            && Last(Companies(fold, [a, b]), fold(d.value.company)) == Some(b)
  {
    var xs := [a, b];
    assert xs[..1] == [a] && [a][..0] == [];
    assert DomainsOf(fold, a, a.domains) == [(fold(domain), Domain(domain, a.name))] by {
      assert a.domains[..0] == [];
    }
    assert Domains(fold, [a]) == DomainsOf(fold, a, a.domains);
    assert Domains(fold, xs) == Domains(fold, [a]) + DomainsOf(fold, b, []);
    assert Domains(fold, xs) == [(fold(domain), Domain(domain, a.name))];
  }
}
