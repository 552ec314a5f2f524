/**
 What the geosite decoder guarantees: its answers are exactly those of the single supported site,
 any malformed byte at any nesting level silences every selector, and decoding inverts encoding.
 */
module GeositeTheorems {
  import opened Wrappers
  import opened ProtobufWire
  import opened Geosite

  // ---------- Lookup ----------

  lemma {:induction false} MatchingMembers(sites: seq<Site>, code: string)
    ensures |Matching(sites, code)| > 0 <==> exists k :: 0 <= k < |sites| && sites[k].code == code
    ensures |Matching(sites, code)| > 1 <==> exists j,
        k :: 0 <= j < k < |sites| && sites[j].code == code && sites[k].code == code
    ensures |Matching(sites, code)| == 1 ==>
      exists k :: 0 <= k < |sites| && sites[k] == Matching(sites, code)[0] && sites[k].code == code
  {
    if sites != [] {
      var front, last := sites[..|sites| - 1], |sites| - 1;
      MatchingMembers(front, code);
      if sites[last].code == code && |Matching(front, code)| > 0 {
        var k :| 0 <= k < |front| && front[k].code == code;
        assert sites[k].code == code && sites[last].code == code;
      }
      if |Matching(front, code)| == 1 && sites[last].code != code {
        var k :| 0 <= k < |front| && front[k] == Matching(front, code)[0] && front[k].code == code;
        assert sites[k] == front[k];
      }
      if |Matching(sites, code)| > 1 && |Matching(front, code)| > 1 {
        var j, k :| 0 <= j < k < |front| && front[j].code == code && front[k].code == code;
        assert sites[j].code == code && sites[k].code == code;
      }
    }
  }

  /** A selector gets rules exactly when one site bears its name and every entry of that site is supported. */
  lemma LookupExact(text: Text, sites: seq<Site>, selector: string, rules: seq<GeositeRule>)
    ensures Lookup(text, sites, selector) == Some(rules) <==>
      '@' !in selector && exists k :: OnlySite(sites, selector, k) && SiteRules(text, sites[k].entries) == Some(rules)
  {
    MatchingMembers(sites, selector);
    if k :| OnlySite(sites, selector, k) {
      assert sites[k].code == selector;
      assert |Matching(sites, selector)| == 1;
    }
    if |Matching(sites, selector)| == 1 {
      var k :| 0 <= k < |sites| && sites[k] == Matching(sites, selector)[0] && sites[k].code == selector;
      assert OnlySite(sites, selector, k);
    }
  }

  ghost predicate OnlySite(sites: seq<Site>, selector: string, k: int) {
    0 <= k < |sites| && sites[k].code == selector && forall j :: 0 <= j < |sites| && sites[j].code == selector ==>
      j == k
  }

  // ---------- Fail closed ----------

  /** Every field of the message parses, and so does every message nested in it. */
  ghost predicate WellFormedDomain(bytes: Bytes) {
    && ReadFieldsAt(bytes, 0).Some?
    && forall f :: f in ReadFieldsAt(bytes, 0).value && f.number == 3 ==>
         f.payload.BytesPayload? && ReadFieldsAt(f.payload.bytes, 0).Some?
  }

  ghost predicate WellFormedSite(bytes: Bytes) {
    && ReadFieldsAt(bytes, 0).Some?
    && forall f :: f in ReadFieldsAt(bytes, 0).value && f.number == 2 ==>
         f.payload.BytesPayload? && WellFormedDomain(f.payload.bytes)
  }

  ghost predicate WellFormedContent(content: Bytes) {
    && ReadFieldsAt(content, 0).Some?
    && forall f :: f in ReadFieldsAt(content, 0).value && f.number == 1 ==>
         f.payload.BytesPayload? && WellFormedSite(f.payload.bytes)
  }

  lemma {:induction false} FoldAccepts<A>(fields: seq<WireField>, update: (WireField, A) -> Option<A>, acc: A,
      f: WireField) returns (at: A)
    requires FoldFields(fields, update, acc).Some? && f in fields
    ensures update(f, at).Some?
    decreases |fields|
  {
    if fields[0] == f {
      at := acc;
    } else {
      at := FoldAccepts(fields[1..], update, update(fields[0], acc).value, f);
    }
  }

  lemma DomainIsWellFormed(text: Text, bytes: Bytes)
    requires DomainOf(text, bytes).Some?
    ensures WellFormedDomain(bytes)
  {
    forall f | f in ReadFieldsAt(bytes, 0).value && f.number == 3
      ensures f.payload.BytesPayload? && ReadFieldsAt(f.payload.bytes, 0).Some?
    {
      var at := FoldAccepts(ReadFieldsAt(bytes, 0).value, DomainUpdate(text), Domain(0, ""), f);
    }
  }

  lemma SiteIsWellFormed(text: Text, bytes: Bytes)
    requires SiteOf(text, bytes).Some?
    ensures WellFormedSite(bytes)
  {
    forall f | f in ReadFieldsAt(bytes, 0).value && f.number == 2
      ensures f.payload.BytesPayload? && WellFormedDomain(f.payload.bytes)
    {
      var at := FoldAccepts(ReadFieldsAt(bytes, 0).value, EntriesUpdate(text), [], f);
      DomainIsWellFormed(text, f.payload.bytes);
    }
  }

  /** One answer is given only if all of the content, whether selected or not, is well-formed and within the budgets. */
  lemma FailClosed(text: Text, content: Bytes, selectors: seq<string>, selector: string)
    requires selector in Decode(text, content, selectors) && Decode(text, content, selectors)[selector].Some?
    ensures WellFormedContent(content)
    ensures 0 < |content| <= MAX_CONTENT_BYTES
    ensures SitesOf(text, content).Some? && TotalEntries(SitesOf(text, content).value) <= MAX_ENTRIES
  {
    forall f | f in ReadFieldsAt(content, 0).value && f.number == 1
      ensures f.payload.BytesPayload? && WellFormedSite(f.payload.bytes)
    {
      var at := FoldAccepts(ReadFieldsAt(content, 0).value, SitesUpdate(text), [], f);
      SiteIsWellFormed(text, f.payload.bytes);
    }
  }

  // ---------- The encoder ----------

  datatype SourceAttribute = SourceAttribute(key: Bytes, value: nat)
  datatype SourceDomain = SourceDomain(kind: nat, value: Bytes, attributes: seq<SourceAttribute>)
  datatype SourceSite = SourceSite(code: Bytes, domains: seq<SourceDomain>)

  function AttributeFields(a: SourceAttribute): seq<WireField> {
    [WireField(1, BytesPayload(a.key)), WireField(2, VarintPayload(a.value))]
  }

  function AttributesFields(attributes: seq<SourceAttribute>): (r: seq<WireField>)
    ensures forall f :: f in r <==> exists k :: 0 <= k < |attributes| && f == WireField(3,
        BytesPayload(EncodeFields(AttributeFields(attributes[k]))))
  {
    if attributes == [] then []
    else
      assert attributes == [attributes[0]] + attributes[1..];
      [WireField(3, BytesPayload(EncodeFields(AttributeFields(attributes[0]))))] + AttributesFields(attributes[1..])
  }

  /** The default kind is omitted, as proto3 encoders do. */
  function DomainFields(d: SourceDomain): seq<WireField> {
    (if d.kind == 0 then [] else [WireField(1, VarintPayload(d.kind))]) + [WireField(2, BytesPayload(d.value))] + AttributesFields(d.attributes)
  }

  function EntryFields(domains: seq<SourceDomain>): (r: seq<WireField>)
    ensures forall f :: f in r <==> exists k :: 0 <= k < |domains| && f == WireField(2,
        BytesPayload(EncodeFields(DomainFields(domains[k]))))
  {
    if domains == [] then []
    else
      assert domains == [domains[0]] + domains[1..];
      [WireField(2, BytesPayload(EncodeFields(DomainFields(domains[0]))))] + EntryFields(domains[1..])
  }

  function SiteFields(s: SourceSite): seq<WireField> {
    [WireField(1, BytesPayload(s.code))] + EntryFields(s.domains)
  }

  function ListFields(sites: seq<SourceSite>): (r: seq<WireField>)
    ensures forall f :: f in r <==> exists k :: 0 <= k < |sites| && f == WireField(1,
        BytesPayload(EncodeFields(SiteFields(sites[k]))))
  {
    if sites == [] then []
    else
      assert sites == [sites[0]] + sites[1..];
      [WireField(1, BytesPayload(EncodeFields(SiteFields(sites[0]))))] + ListFields(sites[1..])
  }

  function EncodeList(sites: seq<SourceSite>): Bytes {
    EncodeFields(ListFields(sites))
  }

  // ---------- What a source list means ----------

  predicate ValidAttributes(text: Text, attributes: seq<SourceAttribute>) {
    forall k :: 0 <= k < |attributes| ==> StringOf(text, attributes[k].key).Some? && attributes[k].value < TWO_TO_64
  }

  predicate ValidDomain(text: Text, d: SourceDomain) {
    && d.kind <= MAX_SAFE_INTEGER
    && StringOf(text, d.value).Some? && StringOf(text, d.value).value != ""
    && ValidAttributes(text, d.attributes)
  }

  predicate ValidSite(text: Text, s: SourceSite) {
    StringOf(text, s.code).Some? && forall k :: 0 <= k < |s.domains| ==> ValidDomain(text, s.domains[k])
  }

  function DomainMeaning(text: Text, d: SourceDomain): Domain
    requires ValidDomain(text, d)
  {
    Domain(d.kind, StringOf(text, d.value).value)
  }

  function EntriesMeaning(text: Text, domains: seq<SourceDomain>): (r: seq<Domain>)
    requires forall k :: 0 <= k < |domains| ==> ValidDomain(text, domains[k])
    ensures |r| == |domains| && forall k :: 0 <= k < |domains| ==> r[k] == DomainMeaning(text, domains[k])
  {
    if domains == [] then [] else [DomainMeaning(text, domains[0])] + EntriesMeaning(text, domains[1..])
  }

  function SiteMeaning(text: Text, s: SourceSite): Site
    requires ValidSite(text, s)
  {
    Site(text.normalizeCode(StringOf(text, s.code).value), EntriesMeaning(text, s.domains))
  }

  function Meaning(text: Text, sites: seq<SourceSite>): (r: seq<Site>)
    requires forall k :: 0 <= k < |sites| ==> ValidSite(text, sites[k])
    ensures |r| == |sites| && forall k :: 0 <= k < |sites| ==> r[k] == SiteMeaning(text, sites[k])
  {
    if sites == [] then [] else [SiteMeaning(text, sites[0])] + Meaning(text, sites[1..])
  }

  /** The lists the decoder promises to read: valid values, at most 16 MiB and 250 000 entries. */
  predicate InBudget(text: Text, sites: seq<SourceSite>) {
    && sites != [] && |EncodeList(sites)| <= MAX_CONTENT_BYTES
    && (forall k :: 0 <= k < |sites| ==> ValidSite(text, sites[k]))
    && TotalEntries(Meaning(text, sites)) <= MAX_ENTRIES
  }

  // ---------- Round trip ----------

  lemma {:induction false} NestedFits(fields: seq<WireField>, f: WireField)
    requires f in fields && f.payload.BytesPayload?
    ensures |f.payload.bytes| <= |EncodeFields(fields)|
    decreases |fields|
  {
    if fields[0] != f {
      NestedFits(fields[1..], f);
    }
  }

  lemma {:induction false} FoldAppend<A>(a: seq<WireField>, b: seq<WireField>, update: (WireField, A) -> Option<A>,
      acc: A)
    ensures FoldFields(a + b, update, acc) ==
      if FoldFields(a, update, acc).None? then None else FoldFields(b, update, FoldFields(a, update, acc).value)
    decreases |a|
  {
    if a == [] {
      assert a + b == b;
    } else {
      assert (a + b)[1..] == a[1..] + b;
      var next := update(a[0], acc);
      if next.Some? {
        FoldAppend(a[1..], b, update, next.value);
      }
    }
  }

  lemma StringsAreShort(text: Text, bytes: Bytes)
    requires StringOf(text, bytes).Some?
    ensures 0 < |bytes| <= MAX_VALUE_BYTES
  {
  }

  lemma AttributeRoundTrip(text: Text, a: SourceAttribute)
    requires StringOf(text, a.key).Some? && a.value < TWO_TO_64
    ensures ReadMessageAt(EncodeFields(AttributeFields(a)), 0, AttributeUpdate(text), ()).Some?
  {
    hide EncodeFields, ReadFieldsAt, StringOf;
    var key, value := WireField(1, BytesPayload(a.key)), WireField(2, VarintPayload(a.value));
    StringsAreShort(text, a.key);
    assert Encodable(key) && Encodable(value);
    FieldsRoundTrip(AttributeFields(a));
    assert AttributeFields(a) == [key] + [value];
    FoldAppend([key], [value], AttributeUpdate(text), ());
    FoldOne(key, AttributeUpdate(text), ());
    FoldOne(value, AttributeUpdate(text), ());
  }

  lemma {:induction false} AttributesFold(text: Text, attributes: seq<SourceAttribute>, acc: Domain)
    requires ValidAttributes(text, attributes)
    ensures FoldFields(AttributesFields(attributes), DomainUpdate(text), acc) == Some(acc)
    decreases |attributes|
  {
    if attributes != [] {
      AttributeRoundTrip(text, attributes[0]);
      AttributesFold(text, attributes[1..], acc);
      assert AttributesFields(attributes)[1..] == AttributesFields(attributes[1..]);
    }
  }

  predicate Plain(f: WireField) {
    1 <= f.number <= MAX_FIELD && (f.payload.BytesPayload? || (f.payload.VarintPayload? && f.payload.value < TWO_TO_64))
  }

  lemma SmallFieldsEncode(fields: seq<WireField>)
    requires |EncodeFields(fields)| <= MAX_CONTENT_BYTES
    requires forall f :: f in fields ==> Plain(f)
    ensures ReadFieldsAt(EncodeFields(fields), 0) == Some(fields)
  {
    forall f | f in fields ensures Encodable(f) {
      if f.payload.BytesPayload? {
        NestedFits(fields, f);
      }
    }
    FieldsRoundTrip(fields);
  }

  lemma DomainRoundTrip(text: Text, d: SourceDomain)
    requires ValidDomain(text, d) && |EncodeFields(DomainFields(d))| <= MAX_CONTENT_BYTES
    ensures DomainOf(text, EncodeFields(DomainFields(d))) == Some(DomainMeaning(text, d))
  {
    var kind := if d.kind == 0 then [] else [WireField(1, VarintPayload(d.kind))];
    var value := [WireField(2, BytesPayload(d.value))];
    var update := DomainUpdate(text);
    SmallFieldsEncode(DomainFields(d));
    FoldAppend(kind + value, AttributesFields(d.attributes), update, Domain(0, ""));
    FoldAppend(kind, value, update, Domain(0, ""));
    AttributesFold(text, d.attributes, DomainMeaning(text, d));
    FoldOne(WireField(2, BytesPayload(d.value)), update, Domain(d.kind, ""));
    if d.kind != 0 {
      FoldOne(kind[0], update, Domain(0, ""));
    }
  }

  lemma FoldOne<A>(f: WireField, update: (WireField, A) -> Option<A>, acc: A)
    ensures FoldFields([f], update, acc) == update(f, acc)
  {
    assert [f][1..] == [];
  }

  lemma {:induction false} EntriesFold(text: Text, domains: seq<SourceDomain>, acc: seq<Domain>, code: string)
    requires forall k :: 0 <= k < |domains| ==>
      ValidDomain(text, domains[k]) && |EncodeFields(DomainFields(domains[k]))| <= MAX_CONTENT_BYTES
    ensures FoldFields(EntryFields(domains), EntriesUpdate(text), acc) == Some(acc + EntriesMeaning(text, domains))
    ensures FoldFields(EntryFields(domains), CodeUpdate(text), code) == Some(code)
    decreases |domains|
  {
    if domains == [] {
      assert acc + [] == acc;
    } else {
      var first := DomainMeaning(text, domains[0]);
      DomainRoundTrip(text, domains[0]);
      EntriesFold(text, domains[1..], acc + [first], code);
      assert EntryFields(domains)[1..] == EntryFields(domains[1..]);
      assert acc + EntriesMeaning(text, domains) == (acc + [first]) + EntriesMeaning(text, domains[1..]);
    }
  }

  lemma SiteRoundTrip(text: Text, s: SourceSite)
    requires ValidSite(text, s) && |EncodeFields(SiteFields(s))| <= MAX_CONTENT_BYTES
    ensures SiteOf(text, EncodeFields(SiteFields(s))) == Some(SiteMeaning(text, s))
  {
    hide EncodeFields, ReadFieldsAt, StringOf, EntriesMeaning, EntriesUpdate, CodeUpdate;
    var code, entries := WireField(1, BytesPayload(s.code)), EntryFields(s.domains);
    SmallFieldsEncode(SiteFields(s));
    forall k | 0 <= k < |s.domains| ensures |EncodeFields(DomainFields(s.domains[k]))| <= MAX_CONTENT_BYTES {
      var f := WireField(2, BytesPayload(EncodeFields(DomainFields(s.domains[k]))));
      assert f in entries;
      NestedFits(SiteFields(s), f);
    }
    EntriesFold(text, s.domains, [], StringOf(text, s.code).value);
    FoldAppend([code], entries, EntriesUpdate(text), []);
    FoldAppend([code], entries, CodeUpdate(text), "");
    FoldOne(code, EntriesUpdate(text), []);
    FoldOne(code, CodeUpdate(text), "");
    CodeFieldUpdates(text, s.code);
    assert [] + EntriesMeaning(text, s.domains) == EntriesMeaning(text, s.domains);
  }

  lemma CodeFieldUpdates(text: Text, code: Bytes)
    requires StringOf(text, code).Some?
    ensures EntriesUpdate(text)(WireField(1, BytesPayload(code)), []) == Some([])
    ensures CodeUpdate(text)(WireField(1, BytesPayload(code)), "") == StringOf(text, code)
  {
  }

  lemma {:induction false} ListFold(text: Text, sites: seq<SourceSite>, acc: seq<Site>)
    requires forall k :: 0 <= k < |sites| ==>
      ValidSite(text, sites[k]) && |EncodeFields(SiteFields(sites[k]))| <= MAX_CONTENT_BYTES
    ensures FoldFields(ListFields(sites), SitesUpdate(text), acc) == Some(acc + Meaning(text, sites))
    decreases |sites|
  {
    if sites == [] {
      assert acc + [] == acc;
    } else {
      var first := SiteMeaning(text, sites[0]);
      SiteRoundTrip(text, sites[0]);
      ListFold(text, sites[1..], acc + [first]);
      assert ListFields(sites)[1..] == ListFields(sites[1..]);
      assert acc + Meaning(text, sites) == (acc + [first]) + Meaning(text, sites[1..]);
    }
  }

  /** Decoding the encoding of an in-budget list recovers every site. */
  lemma ListRoundTrip(text: Text, sites: seq<SourceSite>)
    requires InBudget(text, sites)
    ensures SitesOf(text, EncodeList(sites)) == Some(Meaning(text, sites))
  {
    hide EncodeFields, ReadFieldsAt, Meaning, ValidSite;
    var fields := ListFields(sites);
    SmallFieldsEncode(fields);
    SitesFit(sites);
    ListFold(text, sites, []);
    assert [] + Meaning(text, sites) == Meaning(text, sites);
    EncodingIsNonEmpty(fields);
  }

  lemma SitesFit(sites: seq<SourceSite>)
    requires |EncodeList(sites)| <= MAX_CONTENT_BYTES
    ensures forall k :: 0 <= k < |sites| ==> |EncodeFields(SiteFields(sites[k]))| <= MAX_CONTENT_BYTES
  {
    forall k | 0 <= k < |sites| ensures |EncodeFields(SiteFields(sites[k]))| <= MAX_CONTENT_BYTES {
      var f := WireField(1, BytesPayload(EncodeFields(SiteFields(sites[k]))));
      assert f in ListFields(sites);
      NestedFits(ListFields(sites), f);
    }
  }

  lemma EncodingIsNonEmpty(fields: seq<WireField>)
    requires fields != []
    ensures |EncodeFields(fields)| > 0
  {
  }

  ghost predicate OnlySupportedSite(text: Text, sites: seq<SourceSite>, selector: string, k: int,
      rules: seq<GeositeRule>)
    requires InBudget(text, sites)
  {
    OnlySite(Meaning(text, sites), selector, k) && SiteRules(text, EntriesMeaning(text, sites[k].domains)) == Some(rules)
  }

  /**
   The promise to the caller: a bounded selector gets exactly the rules of the single fully supported
   site of that name; an absent, duplicated or partly unsupported site, or an `@` selector, gets none.
   */
  lemma DecodeInvertsEncode(text: Text, sites: seq<SourceSite>, selectors: seq<string>, selector: string,
      rules: seq<GeositeRule>)
    requires InBudget(text, sites) && selector in BoundedSelectors(text, selectors)
    ensures selector in Decode(text, EncodeList(sites), selectors)
    ensures Decode(text, EncodeList(sites), selectors)[selector] == Some(rules) <==>
      '@' !in selector && exists k :: OnlySupportedSite(text, sites, selector, k, rules)
  {
    hide Meaning, EntriesMeaning, SitesOf, Lookup, EncodeList;
    ListRoundTrip(text, sites);
    LookupExact(text, Meaning(text, sites), selector, rules);
    forall k ensures OnlySupportedSite(text, sites, selector, k, rules)
      <==> (OnlySite(Meaning(text, sites), selector, k) && SiteRules(text, Meaning(text, sites)[k].entries) == Some(rules))
    {
    }
  }

  // ---------- The answers in terms of what was encoded ----------

  /** The bytes are a text that the decoder accepts. */
  predicate Reads(text: Text, bytes: Bytes, value: string) {
    1 <= |bytes| <= 4_096 && text.utf8(bytes) == Some(value) && forall k :: 0 <= k < |value| ==> value[k] != '\0'
  }

  /** What an encoded entry asks for: type 0 a keyword, type 2 a domain with all below it, type 3 one host name. */
  predicate Says(text: Text, d: SourceDomain, rule: GeositeRule) {
    var decoded := text.utf8(d.value);
    decoded.Some? && Reads(text, d.value, decoded.value) &&
    match rule.kind
    case KeywordRule => d.kind == 0 && text.keyword(decoded.value) == Some(rule.value)
    case SuffixRule => d.kind == 2 && text.domain(decoded.value) == Some(rule.value)
    case ExactRule => d.kind == 3 && text.domain(decoded.value) == Some(rule.value)
  }

  /** The rules of a list of encoded entries, one for each in their order. */
  predicate SayAll(text: Text, domains: seq<SourceDomain>, rules: seq<GeositeRule>) {
    |rules| == |domains| && forall k :: 0 <= k < |domains| ==> Says(text, domains[k], rules[k])
  }

  /** The name of an encoded site. */
  predicate IsNamed(text: Text, s: SourceSite, name: string) {
    var decoded := text.utf8(s.code);
    decoded.Some? && text.normalizeCode(decoded.value) == name
  }

  /** Site `k`, and no other, bears the name, and its entries all ask for a rule: these. */
  ghost predicate IsAnsweredBy(text: Text, sites: seq<SourceSite>, name: string, k: int, rules: seq<GeositeRule>) {
    && 0 <= k < |sites| && IsNamed(text, sites[k], name)
    && (forall j :: 0 <= j < |sites| && IsNamed(text, sites[j], name) ==> j == k)
    && SayAll(text, sites[k].domains, rules)
  }

  lemma SaysIff(text: Text, d: SourceDomain, rule: GeositeRule)
    requires ValidDomain(text, d)
    ensures Says(text, d, rule) <==>
      Materialize(text, DomainMeaning(text, d).kind, DomainMeaning(text, d).value) == Some(rule)
  {
  }

  lemma SayAllIff(text: Text, domains: seq<SourceDomain>, rules: seq<GeositeRule>)
    requires forall k :: 0 <= k < |domains| ==> ValidDomain(text, domains[k])
    ensures SayAll(text, domains, rules) <==> SiteRules(text, EntriesMeaning(text, domains)) == Some(rules)
  {
    hide Says, Materialize, ValidDomain;
    var entries := EntriesMeaning(text, domains);
    forall k, rule | 0 <= k < |domains|
      ensures Says(text, domains[k], rule) <==> Materialize(text, entries[k].kind, entries[k].value) == Some(rule)
    {
      SaysIff(text, domains[k], rule);
    }
    if SayAll(text, domains, rules) {
      forall k | 0 <= k < |entries| ensures Materialize(text, entries[k].kind, entries[k].value) == Some(rules[k]) {
        assert Says(text, domains[k], rules[k]);
      }
      assert Rules(text, entries) == rules;
    }
    if SiteRules(text, entries) == Some(rules) {
      forall k | 0 <= k < |domains| ensures Says(text, domains[k], rules[k]) {
        assert Materialize(text, entries[k].kind, entries[k].value) == Some(rules[k]);
      }
    }
  }

  lemma NamedIff(text: Text, sites: seq<SourceSite>, name: string, k: int)
    requires InBudget(text, sites) && 0 <= k < |sites|
    ensures IsNamed(text, sites[k], name) <==> Meaning(text, sites)[k].code == name
  {
    hide EncodeList, EntriesMeaning, TotalEntries;
    assert ValidSite(text, sites[k]);
  }

  /**
   Decoding an encoded list within the budgets answers a selector with these rules exactly when it has no @ and one site
   alone bears its name, whose entries ask for these rules, in terms of the encoded types and bytes alone.
   */
  lemma DecodeAnswersWhatWasEncoded(text: Text, sites: seq<SourceSite>, selectors: seq<string>, selector: string,
      rules: seq<GeositeRule>)
    requires InBudget(text, sites) && selector in BoundedSelectors(text, selectors)
    ensures selector in Decode(text, EncodeList(sites), selectors)
    ensures Decode(text, EncodeList(sites), selectors)[selector] == Some(rules) <==>
      '@' !in selector && exists k :: IsAnsweredBy(text, sites, selector, k, rules)
  {
    hide InBudget, Decode, EncodeList, BoundedSelectors, OnlySupportedSite, IsAnsweredBy;
    DecodeInvertsEncode(text, sites, selectors, selector, rules);
    forall k ensures OnlySupportedSite(text, sites, selector, k, rules) <==>
        IsAnsweredBy(text, sites, selector, k, rules) {
      AnsweredIff(text, sites, selector, k, rules);
    }
  }

  lemma AnsweredIff(text: Text, sites: seq<SourceSite>, selector: string, k: int, rules: seq<GeositeRule>)
    requires InBudget(text, sites)
    ensures OnlySupportedSite(text, sites, selector, k, rules) <==> IsAnsweredBy(text, sites, selector, k, rules)
  {
    hide EncodeList, IsNamed, SayAll, SiteRules, TotalEntries, ValidDomain, StringOf;
    forall j | 0 <= j < |sites| ensures IsNamed(text, sites[j], selector) <==>
        Meaning(text, sites)[j].code == selector {
      NamedIff(text, sites, selector, j);
    }
    if 0 <= k < |sites| {
      assert ValidSite(text, sites[k]);
      SayAllIff(text, sites[k].domains, rules);
    }
  }

  // ---------- The bounded selectors ----------

  /** The names that a list of selectors asks for. */
  ghost function NamesIn(text: Text, selectors: seq<string>): set<string> {
    set selector | selector in selectors && text.normalizeSelector(selector) != "" :: text.normalizeSelector(selector)
  }

  ghost predicate HasNames(names: seq<string>, all: set<string>) {
    && |names| == (if |all| < 64 then |all| else 64)
    && (forall name :: name in names ==> name in all) && (|all| <= 64 ==> forall name :: name in all ==> name in names)
  }

  lemma {:induction false} BoundedHasNames(text: Text, selectors: seq<string>)
    ensures HasNames(BoundedSelectors(text, selectors), NamesIn(text, selectors))
    decreases |selectors|
  {
    if selectors != [] {
      var front, name := selectors[..|selectors| - 1], text.normalizeSelector(selectors[|selectors| - 1]);
      BoundedHasNames(text, front);
      NamesOfMore(text, front, selectors[|selectors| - 1]);
      assert selectors == front + [selectors[|selectors| - 1]];
      OneMoreName(BoundedSelectors(text, front), NamesIn(text, front), name);
    }
  }

  lemma NamesOfMore(text: Text, front: seq<string>, last: string)
    ensures NamesIn(text, front + [last]) ==
      NamesIn(text, front) + (if text.normalizeSelector(last) == "" then {} else {text.normalizeSelector(last)})
  {
    assert last in front + [last];
    assert forall selector :: selector in front + [last] <==> selector in front || selector == last;
  }

  lemma OneMoreName(names: seq<string>, all: set<string>, name: string)
    requires HasNames(names, all)
    ensures HasNames(if name == "" || name in names || |names| == 64 then names else names + [name],
      all + (if name == "" then {} else {name}))
  {
    if name == "" {
      assert all + {} == all;
    } else if name in all {
      assert all + {name} == all;
    } else {
      assert |all + {name}| == |all| + 1;
    }
  }

  /** The selector at `k` asks for the name, and fewer than 64 other names were asked for before it. */
  ghost predicate AsksInTime(text: Text, selectors: seq<string>, name: string, k: nat) {
    && k < |selectors| && text.normalizeSelector(selectors[k]) == name && name != ""
    && |NamesIn(text, selectors[..k])| < 64
  }

  /** Exactly the first 64 names that the selectors ask for are answered. */
  lemma {:induction false} BoundedIff(text: Text, selectors: seq<string>, name: string)
    ensures name in BoundedSelectors(text, selectors) <==> exists k: nat :: AsksInTime(text, selectors, name, k)
    decreases |selectors|
  {
    hide NamesIn, HasNames;
    if selectors != [] {
      var n := |selectors| - 1;
      var front := selectors[..n];
      BoundedIff(text, front, name);
      BoundedHasNames(text, front);
      RoomLeft(BoundedSelectors(text, front), NamesIn(text, front));
      forall k: nat | k < n ensures AsksInTime(text, front, name, k) <==> AsksInTime(text, selectors, name, k) {
        assert front[..k] == selectors[..k];
      }
      if name in BoundedSelectors(text, front) {
        var k: nat :| AsksInTime(text, front, name, k);
        assert AsksInTime(text, selectors, name, k);
      } else if name in BoundedSelectors(text, selectors) {
        assert AsksInTime(text, selectors, name, n);
      }
    }
  }

  lemma RoomLeft(names: seq<string>, all: set<string>)
    requires HasNames(names, all)
    ensures |names| < 64 <==> |all| < 64
  {
  }
}
