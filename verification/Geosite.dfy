/**
 The bounded decoder of `geosite.dat`. The imperative readers are proved against a reference that
 first parses the whole content and then looks a selector up; the reference is proved total,
 fail-closed, and the inverse of an encoder for every site list within the decoder's budgets.
 */
module Geosite {
  import opened Wrappers
  import opened ProtobufWire

  const MAX_CONTENT_BYTES := 16 * 1024 * 1024
  const MAX_ENTRIES := 250_000
  const MAX_SELECTORS := 64
  const MAX_VALUE_BYTES := 4_096

  datatype RuleKind = ExactRule | SuffixRule | KeywordRule
  datatype GeositeRule = GeositeRule(kind: RuleKind, value: string)
  type Categories = map<string, Option<seq<GeositeRule>>>

  /** Text handling the decoder calls: strict UTF-8, trimming and lower-casing, code, keyword and domain rules. */
  datatype Text = Text(
    utf8: Bytes -> Option<string>,
    normalizeSelector: string -> string,
    normalizeCode: string -> string,
    keyword: string -> Option<string>,
    domain: string -> Option<string>)

  // ---------- What single values mean ----------

  function StringOf(text: Text, bytes: Bytes): Option<string> {
    if |bytes| == 0 || |bytes| > MAX_VALUE_BYTES then None
    else
      var decoded := text.utf8(bytes);
      if decoded.None? || '\0' in decoded.value then None else decoded
  }

  function Materialize(text: Text, kind: nat, value: string): Option<GeositeRule> {
    if kind == 0 then
      var keyword := text.keyword(value);
      if keyword.None? then None else Some(GeositeRule(KeywordRule, keyword.value))
    else if kind == 2 || kind == 3 then
      var domain := text.domain(value);
      if domain.None? then None else Some(GeositeRule(if kind == 2 then SuffixRule else ExactRule, domain.value))
    else None
  }

  predicate IsString(text: Text, payload: Payload) {
    payload.BytesPayload? && StringOf(text, payload.bytes).Some?
  }

  // ---------- Messages as folds over fields ----------

  function AttributeUpdate(text: Text): (WireField, ()) -> Option<()> {
    (f: WireField, acc: ()) =>
      if f.number == 1 then (if IsString(text, f.payload) then Some(()) else None)
      else if f.number == 2 || f.number == 3 then (if f.payload.VarintPayload? then Some(()) else None)
      else Some(())
  }

  datatype Domain = Domain(kind: nat, value: string)

  function DomainUpdate(text: Text): (WireField, Domain) -> Option<Domain> {
    (f: WireField, acc: Domain) =>
      if f.number == 1 then
        (if f.payload.VarintPayload? && f.payload.value <= MAX_SAFE_INTEGER then Some(acc.(kind := f.payload.value))
            else None)
      else if f.number == 2 then
        (if IsString(text, f.payload) then Some(acc.(value := StringOf(text, f.payload.bytes).value)) else None)
      else if f.number == 3 then
        (if f.payload.BytesPayload? && ReadMessageAt(f.payload.bytes, 0, AttributeUpdate(text), ()).Some? then Some(acc)
            else None)
      else Some(acc)
  }

  /** A domain entry, or nothing if it is malformed or has no value. */
  function DomainOf(text: Text, bytes: Bytes): Option<Domain> {
    var domain := ReadMessageAt(bytes, 0, DomainUpdate(text), Domain(0, ""));
    if domain.Some? && domain.value.value == "" then None else domain
  }

  function CodeUpdate(text: Text): (WireField, string) -> Option<string> {
    (f: WireField, acc: string) =>
      if f.number == 1 then (if IsString(text, f.payload) then StringOf(text, f.payload.bytes) else None)
      else if f.number == 2 || f.number == 3 then (if f.payload.BytesPayload? then Some(acc) else None)
      else if f.number == 4 || f.number == 68_000 then (if IsString(text, f.payload) then Some(acc) else None)
      else Some(acc)
  }

  function EntriesUpdate(text: Text): (WireField, seq<Domain>) -> Option<seq<Domain>> {
    (f: WireField, acc: seq<Domain>) =>
      if f.number == 2 then
        (if f.payload.BytesPayload? && DomainOf(text, f.payload.bytes).Some? then Some(acc + [DomainOf(text, f.payload.bytes).value]) else None)
      else if f.number == 3 then (if f.payload.BytesPayload? then Some(acc) else None)
      else if f.number == 1 || f.number == 4 || f.number == 68_000 then (if IsString(text, f.payload) then Some(acc)
          else None)
      else Some(acc)
  }

  datatype Site = Site(code: string, entries: seq<Domain>)

  function SiteOf(text: Text, bytes: Bytes): Option<Site> {
    var code := ReadMessageAt(bytes, 0, CodeUpdate(text), "");
    var entries := ReadMessageAt(bytes, 0, EntriesUpdate(text), []);
    if code.None? || entries.None? then None else Some(Site(text.normalizeCode(code.value), entries.value))
  }

  function SitesUpdate(text: Text): (WireField, seq<Site>) -> Option<seq<Site>> {
    (f: WireField, acc: seq<Site>) =>
      if f.number == 1 then
        (if f.payload.BytesPayload? && SiteOf(text, f.payload.bytes).Some? then Some(acc + [SiteOf(text, f.payload.bytes).value]) else None)
      else Some(acc)
  }

  // ---------- The reference ----------

  function TotalEntries(sites: seq<Site>): nat {
    if sites == [] then 0 else TotalEntries(sites[..|sites| - 1]) + |sites[|sites| - 1].entries|
  }

  /** Every site of a content that is well-formed throughout and within the size and entry budgets. */
  function SitesOf(text: Text, content: Bytes): Option<seq<Site>> {
    if |content| == 0 || |content| > MAX_CONTENT_BYTES then None
    else
      var sites := ReadMessageAt(content, 0, SitesUpdate(text), []);
      if sites.Some? && TotalEntries(sites.value) > MAX_ENTRIES then None else sites
  }

  predicate Supported(text: Text, entries: seq<Domain>) {
    forall k :: 0 <= k < |entries| ==> Materialize(text, entries[k].kind, entries[k].value).Some?
  }

  function Rules(text: Text, entries: seq<Domain>): (rules: seq<GeositeRule>)
    requires Supported(text, entries)
    ensures |rules| == |entries|
    ensures forall k :: 0 <= k < |entries| ==> Some(rules[k]) == Materialize(text, entries[k].kind, entries[k].value)
  {
    if entries == [] then []
    else Rules(text, entries[..|entries| - 1]) + [Materialize(text, entries[|entries| - 1].kind, entries[|entries| - 1].value).value]
  }

  function SiteRules(text: Text, entries: seq<Domain>): Option<seq<GeositeRule>> {
    if Supported(text, entries) then Some(Rules(text, entries)) else None
  }

  function Matching(sites: seq<Site>, code: string): seq<Site> {
    if sites == [] then []
    else
      var last := sites[|sites| - 1];
      Matching(sites[..|sites| - 1], code) + if last.code == code then [last] else []
  }

  /** The rules of the single site with that code, if there is exactly one and all of it is supported. */
  function Lookup(text: Text, sites: seq<Site>, selector: string): Option<seq<GeositeRule>> {
    var found := Matching(sites, selector);
    if '@' in selector || |found| != 1 then None else SiteRules(text, found[0].entries)
  }

  function Decode(text: Text, content: Bytes, selectors: seq<string>): Categories {
    Answers(text, SitesOf(text, content), BoundedSelectors(text, selectors))
  }

  function Answer(text: Text, sites: Option<seq<Site>>, selector: string): Option<seq<GeositeRule>> {
    if sites.None? then None else Lookup(text, sites.value, selector)
  }

  /** One answer for each selector; without sites every answer is empty. */
  function Answers(text: Text, sites: Option<seq<Site>>, bounded: seq<string>): (r: Categories)
    ensures forall selector :: selector in r <==> selector in bounded
    ensures forall selector :: selector in bounded ==> r[selector] == Answer(text, sites, selector)
  {
    if bounded == [] then map[]
    else
      var last := bounded[|bounded| - 1];
      Answers(text, sites, bounded[..|bounded| - 1])[last := Answer(text, sites, last)]
  }

  /** The first 64 distinct non-empty normalized selectors. */
  function BoundedSelectors(text: Text, selectors: seq<string>): (r: seq<string>)
    ensures |r| <= MAX_SELECTORS
    ensures forall j, k :: 0 <= j < k < |r| ==> r[j] != r[k]
    ensures "" !in r
  {
    if selectors == [] then []
    else
      var r := BoundedSelectors(text, selectors[..|selectors| - 1]);
      var normalized := text.normalizeSelector(selectors[|selectors| - 1]);
      if normalized == "" || normalized in r || |r| == MAX_SELECTORS then r else r + [normalized]
  }

  // ---------- The imperative decoder ----------

  method DecodeString(text: Text, value: Bytes) returns (r: Result<string, string>)
    ensures r.Ok? <==> StringOf(text, value).Some?
    ensures r.Ok? ==> StringOf(text, value) == Some(r.value)
  {
    if |value| == 0 || |value| > MAX_VALUE_BYTES {
      return Err("invalid geosite string length");
    }
    var decoded := text.utf8(value);
    if decoded.None? {
      return Err("invalid UTF-8");
    }
    r := if '\0' in decoded.value then Err("invalid geosite string") else Ok(decoded.value);
  }

  /** A required length-delimited string. */
  method ReadString(text: Text, buffer: Bytes, cursor: Cursor, wireType: nat) returns (r: Result<string, string>)
    requires InBounds(buffer, cursor)
    modifies cursor
    ensures r.Ok? ==> InBounds(buffer, cursor)
    ensures var parsed := ReadPayloadAt(buffer, old(cursor.offset), wireType);
      && (r.Ok? <==> parsed.Some? && IsString(text, parsed.value.value))
      && (r.Ok? ==> cursor.offset == parsed.value.next && StringOf(text, parsed.value.value.bytes) == Some(r.value))
  {
    var bytes :- ReadDelimited(buffer, cursor, wireType);
    r := DecodeString(text, bytes);
  }

  method ValidateAttribute(text: Text, attribute: Bytes) returns (r: Result<(), string>)
    requires |attribute| <= MAX_SAFE_INTEGER
    ensures r.Ok? <==> ReadMessageAt(attribute, 0, AttributeUpdate(text), ()).Some?
  {
    hide ReadMessageAt, ReadKeyAt, ReadPayloadAt, RawVarint, IsString;
    var cursor := new Cursor(|attribute|);
    ghost var update := AttributeUpdate(text);
    while cursor.offset < cursor.end
      invariant InBounds(attribute, cursor)
      invariant ReadMessageAt(attribute, cursor.offset, update, ()) == ReadMessageAt(attribute, 0, update, ())
      decreases cursor.end - cursor.offset
    {
      ReadMessageStep(attribute, cursor.offset, update, ());
      var key :- ReadKey(attribute, cursor);
      if key.field == 1 {
        var ignored :- ReadString(text, attribute, cursor, key.wireType);
      } else if key.field == 2 || key.field == 3 {
        if key.wireType != 0 {
          PayloadKind(attribute, cursor.offset, key.wireType);
          return Err("invalid protobuf wire type for known field");
        }
        PayloadKind(attribute, cursor.offset, 0);
        var skipped :- SkipField(attribute, cursor, 0);
      } else {
        var skipped :- SkipField(attribute, cursor, key.wireType);
      }
    }
    MessageEnds(attribute, cursor.offset, update, ());
    r := Ok(());
  }

  lemma MessageEnds<A>(b: Bytes, pos: nat, update: (WireField, A) -> Option<A>, acc: A)
    requires pos >= |b|
    ensures ReadMessageAt(b, pos, update, acc) == Some(acc)
  {
  }

  lemma PayloadKind(b: Bytes, pos: nat, wireType: nat)
    ensures var parsed := ReadPayloadAt(b, pos, wireType);
      parsed.Some? ==> (parsed.value.value.VarintPayload? <==>
          wireType == 0) && (parsed.value.value.BytesPayload? <==> wireType == 2)
  {
  }

  method ReadSiteCode(text: Text, site: Bytes) returns (r: Result<string, string>)
    requires |site| <= MAX_SAFE_INTEGER
    ensures r.Ok? <==> ReadMessageAt(site, 0, CodeUpdate(text), "").Some?
    ensures r.Ok? ==> r.value == text.normalizeCode(ReadMessageAt(site, 0, CodeUpdate(text), "").value)
  {
    hide ReadMessageAt, ReadKeyAt, ReadPayloadAt, RawVarint, IsString;
    var cursor := new Cursor(|site|);
    var code := "";
    ghost var update := CodeUpdate(text);
    while cursor.offset < cursor.end
      invariant InBounds(site, cursor)
      invariant ReadMessageAt(site, cursor.offset, update, code) == ReadMessageAt(site, 0, update, "")
      decreases cursor.end - cursor.offset
    {
      ReadMessageStep(site, cursor.offset, update, code);
      var key :- ReadKey(site, cursor);
      PayloadKind(site, cursor.offset, key.wireType);
      if key.field == 1 {
        code :- ReadString(text, site, cursor, key.wireType);
      } else if key.field == 2 || key.field == 3 {
        var ignored :- ReadDelimited(site, cursor, key.wireType);
      } else if key.field == 4 || key.field == 68_000 {
        var ignored :- ReadString(text, site, cursor, key.wireType);
      } else {
        var skipped :- SkipField(site, cursor, key.wireType);
      }
    }
    MessageEnds(site, cursor.offset, update, code);
    r := Ok(text.normalizeCode(code));
  }

  /** The type field of a domain entry. */
  method ReadKind(buffer: Bytes, cursor: Cursor, wireType: nat) returns (r: Result<nat, string>)
    requires InBounds(buffer, cursor)
    modifies cursor
    ensures r.Ok? ==> InBounds(buffer, cursor)
    ensures var parsed := ReadPayloadAt(buffer, old(cursor.offset), wireType);
      && (r.Ok? <==> parsed.Some? && parsed.value.value.VarintPayload? && parsed.value.value.value <= MAX_SAFE_INTEGER)
      && (r.Ok? ==> parsed.value == Parsed(VarintPayload(r.value), cursor.offset))
  {
    if wireType != 0 {
      return Err("invalid protobuf wire type for known field");
    }
    r := ReadVarint(buffer, cursor);
  }

  method ReadDomainFields(text: Text, domain: Bytes) returns (r: Result<Domain, string>)
    requires |domain| <= MAX_SAFE_INTEGER
    ensures r.Ok? <==> ReadMessageAt(domain, 0, DomainUpdate(text), Domain(0, "")).Some?
    ensures r.Ok? ==> ReadMessageAt(domain, 0, DomainUpdate(text), Domain(0, "")) == Some(r.value)
  {
    hide ReadMessageAt, ReadKeyAt, ReadPayloadAt, RawVarint, IsString;
    var cursor := new Cursor(|domain|);
    var kind, value := 0, "";
    ghost var update := DomainUpdate(text);
    while cursor.offset < cursor.end
      invariant InBounds(domain, cursor)
      invariant ReadMessageAt(domain, cursor.offset, update, Domain(kind, value)) == ReadMessageAt(domain, 0, update,
          Domain(0, ""))
      decreases cursor.end - cursor.offset
    {
      ReadMessageStep(domain, cursor.offset, update, Domain(kind, value));
      var key :- ReadKey(domain, cursor);
      PayloadKind(domain, cursor.offset, key.wireType);
      if key.field == 1 {
        kind :- ReadKind(domain, cursor, key.wireType);
      } else if key.field == 2 {
        value :- ReadString(text, domain, cursor, key.wireType);
      } else if key.field == 3 {
        var attribute :- ReadDelimited(domain, cursor, key.wireType);
        var valid :- ValidateAttribute(text, attribute);
      } else {
        var skipped :- SkipField(domain, cursor, key.wireType);
      }
    }
    MessageEnds(domain, cursor.offset, update, Domain(kind, value));
    r := Ok(Domain(kind, value));
  }

  /** One entry: always checked in full, materialized only on request. */
  method ReadDomainRule(text: Text, domain: Bytes, materialize: bool) returns (r: Result<(Option<GeositeRule>, bool),
      string>)
    requires |domain| <= MAX_SAFE_INTEGER
    ensures r.Ok? <==> DomainOf(text, domain).Some?
    ensures r.Ok? && materialize ==>
      r.value.0 == Materialize(text, DomainOf(text, domain).value.kind, DomainOf(text, domain).value.value) && r.value.1 == r.value.0.Some?
    ensures r.Ok? && !materialize ==> r.value.0.None?
  {
    var fields :- ReadDomainFields(text, domain);
    if fields.value == "" {
      return Err("missing geosite domain value");
    }
    if !materialize {
      return Ok((None, fields.kind == 0 || fields.kind == 2 || fields.kind == 3));
    }
    var rule := Materialize(text, fields.kind, fields.value);
    r := Ok((rule, rule.Some?));
  }

  // ---------- Sites ----------

  lemma {:induction false} FoldGrows<A>(fields: seq<WireField>, update: (WireField, A) -> Option<A>, size: A -> nat,
      acc: A)
    requires forall f, a :: update(f, a).Some? ==> size(update(f, a).value) >= size(a)
    requires FoldFields(fields, update, acc).Some?
    ensures size(FoldFields(fields, update, acc).value) >= size(acc)
    decreases |fields|
  {
    if fields != [] {
      FoldGrows(fields[1..], update, size, update(fields[0], acc).value);
    }
  }

  lemma EntriesGrow(text: Text, b: Bytes, pos: nat, acc: seq<Domain>)
    requires ReadMessageAt(b, pos, EntriesUpdate(text), acc).Some?
    ensures |ReadMessageAt(b, pos, EntriesUpdate(text), acc).value| >= |acc|
  {
    FoldGrows(ReadFieldsAt(b, pos).value, EntriesUpdate(text), (ds: seq<Domain>) => |ds|, acc);
  }

  lemma SitesGrow(text: Text, b: Bytes, pos: nat, acc: seq<Site>)
    requires ReadMessageAt(b, pos, SitesUpdate(text), acc).Some?
    ensures TotalEntries(ReadMessageAt(b, pos, SitesUpdate(text), acc).value) >= TotalEntries(acc)
  {
    forall f, a: seq<Site> | SitesUpdate(text)(f, a).Some?
      ensures TotalEntries(SitesUpdate(text)(f, a).value) >= TotalEntries(a)
    {
      if f.number == 1 {
        var site := SiteOf(text, f.payload.bytes).value;
        assert (a + [site])[..|a|] == a;
      }
    }
    FoldGrows(ReadFieldsAt(b, pos).value, SitesUpdate(text), TotalEntries, acc);
  }

  /** One entry under the `supported` flag: it sticks at false, and clears the rules collected so far. */
  lemma SupportStep(text: Text, entries: seq<Domain>, last: Domain)
    ensures Supported(text, entries + [last]) <==>
      Supported(text, entries) && Materialize(text, last.kind, last.value).Some?
    ensures Supported(text, entries + [last]) ==>
      Rules(text, entries + [last]) == Rules(text, entries) + [Materialize(text, last.kind, last.value).value]
  {
    var more := entries + [last];
    assert more[..|entries|] == entries;
    assert forall k :: 0 <= k < |entries| ==> more[k] == entries[k];
    assert more[|entries|] == last;
  }

  ghost predicate Collected(text: Text, materialize: bool, entries: seq<Domain>, supported: bool,
      rules: seq<GeositeRule>) {
    materialize ==> (supported <==> Supported(text, entries)) && (supported ==> rules == Rules(text, entries))
  }

  method ReadSiteRules(text: Text, site: Bytes, materialize: bool, remainingEntries: nat)
    returns (r: Result<(nat, Option<seq<GeositeRule>>), string>)
    requires |site| <= MAX_SAFE_INTEGER
    ensures var entries := ReadMessageAt(site, 0, EntriesUpdate(text), []);
      && (r.Ok? <==> entries.Some? && |entries.value| <= remainingEntries && |entries.value| <= MAX_ENTRIES)
      && (r.Ok? ==> r.value == (|entries.value|, if materialize then SiteRules(text, entries.value) else None))
  {
    hide ReadMessageAt, ReadKeyAt, ReadPayloadAt, RawVarint, IsString, Supported, Rules, Materialize;
    var cursor := new Cursor(|site|);
    var rules, entries, supported: bool := [], 0, true;
    ghost var update, read: seq<Domain> := EntriesUpdate(text), [];
    NothingCollected(text);
    while cursor.offset < cursor.end
      invariant InBounds(site, cursor)
      invariant ReadMessageAt(site, cursor.offset, update, read) == ReadMessageAt(site, 0, update, [])
      invariant entries == |read| <= remainingEntries && entries <= MAX_ENTRIES
      invariant Collected(text, materialize, read, supported, rules)
      decreases cursor.end - cursor.offset
    {
      ReadMessageStep(site, cursor.offset, update, read);
      var key :- ReadKey(site, cursor);
      PayloadKind(site, cursor.offset, key.wireType);
      if key.field == 2 {
        entries := entries + 1;
        if entries > remainingEntries || entries > MAX_ENTRIES {
          BudgetExceeded(text, site, read, cursor.offset, key.wireType);
          return Err("geosite entry budget exceeded");
        }
        var bytes :- ReadDelimited(site, cursor, key.wireType);
        var decoded :- ReadDomainRule(text, bytes, materialize && supported);
        SupportStep(text, read, DomainOf(text, bytes).value);
        if !decoded.1 {
          supported, rules := false, [];
        } else if decoded.0.Some? {
          rules := rules + [decoded.0.value];
        }
        read := read + [DomainOf(text, bytes).value];
      } else if key.field == 3 {
        var ignored :- ReadDelimited(site, cursor, key.wireType);
      } else if key.field == 1 || key.field == 4 || key.field == 68_000 {
        var ignored :- ReadString(text, site, cursor, key.wireType);
      } else {
        var skipped :- SkipField(site, cursor, key.wireType);
      }
    }
    MessageEnds(site, cursor.offset, update, read);
    r := Ok((entries, if materialize && supported then Some(rules) else None));
  }

  lemma NothingCollected(text: Text)
    ensures Supported(text, []) && Rules(text, []) == []
  {
  }

  lemma BudgetExceeded(text: Text, site: Bytes, read: seq<Domain>, pos: nat, wireType: nat)
    ensures var payload := ReadPayloadAt(site, pos, wireType);
      payload.Some? ==>
        var after := AfterField(site, Some(Parsed(WireField(2, payload.value.value), payload.value.next)),
            EntriesUpdate(text), read);
        after.Some? ==> |after.value| > |read|
  {
    var payload := ReadPayloadAt(site, pos, wireType);
    if payload.Some? {
      var next := EntriesUpdate(text)(WireField(2, payload.value.value), read);
      if next.Some? && ReadMessageAt(site, payload.value.next, EntriesUpdate(text), next.value).Some? {
        EntriesGrow(text, site, payload.value.next, next.value);
      }
    }
  }

  // ---------- The whole content ----------

  lemma LookupStep(text: Text, sites: seq<Site>, site: Site, selector: string)
    ensures Matching(sites + [site], selector) == Matching(sites, selector) + if site.code == selector then [site]
        else []
    ensures site.code != selector ==> Lookup(text, sites + [site], selector) == Lookup(text, sites, selector)
    ensures site.code == selector && '@' !in selector && Matching(sites, selector) == [] ==>
      Lookup(text, sites + [site], selector) == SiteRules(text, site.entries)
    ensures site.code == selector && Matching(sites, selector) != [] ==> Lookup(text, sites + [site], selector) == None
  {
    assert (sites + [site])[..|sites|] == sites;
  }

  /** The answers after the sites read so far. */
  ghost predicate Answered(text: Text, bounded: seq<string>, sites: seq<Site>, result: Categories, seen: set<string>) {
    && result.Keys == (set selector | selector in bounded)
    && (forall selector :: selector in result ==> result[selector] == Lookup(text, sites, selector))
    && (forall selector :: selector in result && '@' !in selector ==>
      (selector in seen <==> Matching(sites, selector) != []))
  }

  lemma AnswerStep(text: Text, bounded: seq<string>, sites: seq<Site>, result: Categories, seen: set<string>,
      site: Site,
                   result': Categories, seen': set<string>)
    requires Answered(text, bounded, sites, result, seen)
    requires var selected := site.code in result && '@' !in site.code;
      if !selected then result' == result && seen' == seen
      else if site.code in seen then result' == result[site.code := None] && seen' == seen
      else result' == result[site.code := SiteRules(text, site.entries)] && seen' == seen + {site.code}
    ensures Answered(text, bounded, sites + [site], result', seen')
  {
    forall selector | selector in result
      ensures result'[selector] == Lookup(text, sites + [site], selector)
      ensures '@' !in selector ==> (selector in seen' <==> Matching(sites + [site], selector) != [])
    {
      LookupStep(text, sites, site, selector);
    }
  }

  /** Both passes over one site, and what it does to the answers. */
  method DecodeSite(text: Text, site: Bytes, ghost bounded: seq<string>, result: Categories, seen: set<string>,
                    remainingEntries: nat, ghost sites: seq<Site>)
    returns (r: Result<(Categories, set<string>, nat), string>)
    requires |site| <= MAX_SAFE_INTEGER && remainingEntries <= MAX_ENTRIES
    requires Answered(text, bounded, sites, result, seen)
    ensures r.Ok? <==> SiteOf(text, site).Some? && |SiteOf(text, site).value.entries| <= remainingEntries
    ensures r.Ok? ==> r.value.2 == |SiteOf(text, site).value.entries|
    ensures r.Ok? ==> Answered(text, bounded, sites + [SiteOf(text, site).value], r.value.0, r.value.1)
  {
    hide ReadMessageAt, Answered;
    var code :- ReadSiteCode(text, site);
    var selected := code in result && '@' !in code;
    var duplicate := selected && code in seen;
    var decoded :- ReadSiteRules(text, site, selected && !duplicate, remainingEntries);
    var result', seen' := result, seen;
    if duplicate {
      result' := result[code := None];
    } else if selected {
      seen' := seen + {code};
      result' := result[code := decoded.1];
    }
    AnswerStep(text, bounded, sites, result, seen, SiteOf(text, site).value, result', seen');
    r := Ok((result', seen', decoded.0));
  }

  /** The loop over the sites, which stops at the first malformed byte. */
  method DecodeSites(text: Text, content: Bytes, bounded: seq<string>) returns (r: Result<Categories, string>)
    requires 0 < |content| <= MAX_CONTENT_BYTES
    ensures r.Ok? <==> SitesOf(text, content).Some?
    ensures r.Ok? ==> r.value == Answers(text, SitesOf(text, content), bounded)
  {
    hide ReadMessageAt, ReadKeyAt, ReadPayloadAt, RawVarint, Lookup, Matching, SiteRules;
    var result := Answers(text, None, bounded);
    var seen: set<string>, totalEntries := {}, 0;
    var cursor := new Cursor(|content|);
    ghost var update, sites: seq<Site> := SitesUpdate(text), [];
    NothingFound(text, bounded);
    while cursor.offset < cursor.end
      invariant InBounds(content, cursor)
      invariant ReadMessageAt(content, cursor.offset, update, sites) == ReadMessageAt(content, 0, update, [])
      invariant totalEntries == TotalEntries(sites) <= MAX_ENTRIES
      invariant Answered(text, bounded, sites, result, seen)
      decreases cursor.end - cursor.offset
    {
      ReadMessageStep(content, cursor.offset, update, sites);
      var key :- ReadKey(content, cursor);
      PayloadKind(content, cursor.offset, key.wireType);
      if key.field != 1 {
        var skipped :- SkipField(content, cursor, key.wireType);
        continue;
      }
      var site :- ReadDelimited(content, cursor, key.wireType);
      EntryBudget(text, content, cursor.offset, sites, site);
      var decoded :- DecodeSite(text, site, bounded, result, seen, MAX_ENTRIES - totalEntries, sites);
      result, seen, totalEntries := decoded.0, decoded.1, totalEntries + decoded.2;
      sites := sites + [SiteOf(text, site).value];
    }
    MessageEnds(content, cursor.offset, update, sites);
    r := Ok(result);
  }

  lemma NothingFound(text: Text, bounded: seq<string>)
    ensures Answered(text, bounded, [], Answers(text, None, bounded), {})
  {
  }

  /** A site that does not fit the remaining budget puts the whole list over the budget. */
  lemma EntryBudget(text: Text, content: Bytes, pos: nat, sites: seq<Site>, site: Bytes)
    ensures var parsed := SiteOf(text, site);
      parsed.Some? ==>
        && TotalEntries(sites + [parsed.value]) == TotalEntries(sites) + |parsed.value.entries|
        && var after := ReadMessageAt(content, pos, SitesUpdate(text), sites + [parsed.value]);
           after.Some? ==> TotalEntries(after.value) >= TotalEntries(sites) + |parsed.value.entries|
  {
    var parsed := SiteOf(text, site);
    if parsed.Some? {
      assert (sites + [parsed.value])[..|sites|] == sites;
      if ReadMessageAt(content, pos, SitesUpdate(text), sites + [parsed.value]).Some? {
        SitesGrow(text, content, pos, sites + [parsed.value]);
      }
    }
  }

  method BoundActiveSelectors(text: Text, selectors: seq<string>) returns (result: seq<string>)
    ensures result == BoundedSelectors(text, selectors)
  {
    result := [];
    var seen: set<string>, k := {}, 0;
    while k < |selectors|
      invariant 0 <= k <= |selectors|
      invariant result == BoundedSelectors(text, selectors[..k])
      invariant seen == set x | x in result
      invariant |result| < MAX_SELECTORS
    {
      assert selectors[..k + 1][..k] == selectors[..k];
      var normalized := text.normalizeSelector(selectors[k]);
      k := k + 1;
      if normalized == "" || normalized in seen {
        continue;
      }
      seen := seen + {normalized};
      result := result + [normalized];
      if |result| >= MAX_SELECTORS {
        FullStaysFull(text, selectors, k);
        return;
      }
    }
    assert selectors[..k] == selectors;
  }

  lemma {:induction false} FullStaysFull(text: Text, selectors: seq<string>, k: nat)
    requires k <= |selectors| && |BoundedSelectors(text, selectors[..k])| == MAX_SELECTORS
    ensures BoundedSelectors(text, selectors) == BoundedSelectors(text, selectors[..k])
    decreases |selectors| - k
  {
    if k == |selectors| {
      assert selectors[..k] == selectors;
    } else {
      assert selectors[..k + 1][..k] == selectors[..k];
      FullStaysFull(text, selectors, k + 1);
    }
  }

  method DecodeActiveGeositeCategories(text: Text, content: Bytes, selectors: seq<string>) returns (result: Categories)
    ensures result == Decode(text, content, selectors)
  {
    var bounded := BoundActiveSelectors(text, selectors);
    result := Answers(text, None, bounded);
    if |content| == 0 || |content| > MAX_CONTENT_BYTES {
      return;
    }
    var decoded := DecodeSites(text, content, bounded);
    if decoded.Ok? {
      result := decoded.value;
    }
  }
}
