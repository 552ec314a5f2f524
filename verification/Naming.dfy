/**
 Proxy names: collecting proxies of one name into an entry, and giving every proxy a name of its own that no proxy
 group uses.
 */
module Naming {

  /** A proxy: its name and everything else that identifies it. */
  datatype Proxy = Proxy(name: string, settings: string)

  // ---------- Unique names ----------

  function Digits(n: nat): string {
    if n < 10 then [Digit(n)] else Digits(n / 10) + [Digit(n % 10)]
  }

  function Digit(n: nat): char
    requires n < 10
  {
    ('0' as int + n) as char
  }

  function Suffixed(name: string, n: nat): string {
    name + "-" + Digits(n)
  }

  lemma {:induction false} DigitsAreInjective(m: nat, n: nat)
    requires Digits(m) == Digits(n)
    ensures m == n
    decreases m
  {
    OneDigit(m);
    OneDigit(n);
    var a, b := Digits(m), Digits(n);
    assert a[|a| - 1] == Digit(m % 10) && b[|b| - 1] == Digit(n % 10);
    assert m % 10 == n % 10;
    if m >= 10 {
      assert a[..|a| - 1] == Digits(m / 10) && b[..|b| - 1] == Digits(n / 10);
      DigitsAreInjective(m / 10, n / 10);
    }
  }

  lemma OneDigit(n: nat)
    ensures |Digits(n)| > 0 && (|Digits(n)| == 1 <==> n < 10)
  {
  }

  lemma SuffixedIsInjective(name: string, m: nat, n: nat)
    requires Suffixed(name, m) == Suffixed(name, n)
    ensures m == n
  {
    assert Suffixed(name, m)[|name| + 1..] == Digits(m);
    assert Suffixed(name, n)[|name| + 1..] == Digits(n);
    DigitsAreInjective(m, n);
  }

  /** The suffixed names below `n`, all of them taken. */
  function Tried(name: string, n: nat): set<string> {
    if n <= 2 then {} else Tried(name, n - 1) + {Suffixed(name, n - 1)}
  }

  lemma {:induction false} TriedMembers(name: string, n: nat, k: nat)
    ensures Suffixed(name, k) in Tried(name, n) <==> 2 <= k < n
    decreases n
  {
    if n > 2 {
      TriedMembers(name, n - 1, k);
      if Suffixed(name, k) == Suffixed(name, n - 1) {
        SuffixedIsInjective(name, k, n - 1);
      }
    }
  }

  lemma {:induction false} TriedCount(name: string, n: nat)
    ensures |Tried(name, n)| == if n <= 2 then 0 else n - 2
    decreases n
  {
    if n > 2 {
      TriedCount(name, n - 1);
      TriedMembers(name, n - 1, n - 1);
    }
  }

  lemma {:induction false} SubsetIsSmaller(a: set<string>, b: set<string>)
    requires a <= b
    ensures |a| <= |b|
    decreases a
  {
    if a != {} {
      var x :| x in a;
      SubsetIsSmaller(a - {x}, b - {x});
    }
  }

  /** Only as many suffixes can be taken as there are used names. */
  lemma TakenSuffixesAreBounded(used: set<string>, name: string, n: nat)
    requires Tried(name, n) <= used
    ensures n <= |used| + 2
  {
    TriedCount(name, n);
    SubsetIsSmaller(Tried(name, n), used);
  }

  predicate FirstFree(used: set<string>, name: string, n: nat) {
    n >= 2 && Suffixed(name, n) !in used && forall k :: 2 <= k < n ==> Suffixed(name, k) in used
  }

  /** The smallest number from 2 whose suffixed name is free: the search always ends. */
  method FindFreeSuffix(used: set<string>, name: string) returns (n: nat)
    ensures FirstFree(used, name, n)
  {
    n := 2;
    while Suffixed(name, n) in used
      invariant n >= 2 && Tried(name, n) <= used && n <= |used| + 2
      invariant forall k :: 2 <= k < n ==> Suffixed(name, k) in used
      decreases |used| + 2 - n
    {
      n := n + 1;
      TakenSuffixesAreBounded(used, name, n);
    }
  }

  /** What the new name of one proxy is, given the names used before it. */
  ghost predicate Renames(used: set<string>, p: Proxy, q: Proxy) {
    && q.settings == p.settings
    && (if p.name !in used then q.name == p.name
        else exists n: nat :: FirstFree(used, p.name, n) && q.name == Suffixed(p.name, n))
  }

  function UsedBefore(reserved: set<string>, output: seq<Proxy>, k: nat): set<string>
    requires k <= |output|
  {
    if k == 0 then reserved else UsedBefore(reserved, output, k - 1) + {output[k - 1].name}
  }

  /**
   Each proxy keeps everything but its name, and its name is decided by the reserved names and the names given before
   it.
   */
  ghost predicate Deduped(reserved: set<string>, input: seq<Proxy>, output: seq<Proxy>) {
    |output| == |input| && forall k :: 0 <= k < |input| ==>
      Renames(UsedBefore(reserved, output, k), input[k], output[k])
  }

  method DedupeNames(proxies: seq<Proxy>, reserved: set<string>) returns (output: seq<Proxy>)
    ensures Deduped(reserved, proxies, output)
  {
    hide Deduped, FirstFree;
    var used := reserved;
    output := [];
    NothingDeduped(reserved);
    for k := 0 to |proxies|
      invariant |output| == k && used == UsedBefore(reserved, output, k) && Deduped(reserved, proxies[..k], output)
    {
      var p := proxies[k];
      var renamed := p;
      if p.name in used {
        var n := FindFreeSuffix(used, p.name);
        renamed := p.(name := Suffixed(p.name, n));
      }
      DedupedAppend(reserved, proxies[..k], output, p, renamed);
      assert proxies[..k + 1] == proxies[..k] + [p];
      output := output + [renamed];
      used := used + {renamed.name};
    }
    assert proxies[..|proxies|] == proxies;
  }

  lemma NothingDeduped(reserved: set<string>)
    ensures Deduped(reserved, [], [])
  {
  }

  lemma DedupedAppend(reserved: set<string>, input: seq<Proxy>, output: seq<Proxy>, p: Proxy, q: Proxy)
    requires Deduped(reserved, input, output) && Renames(UsedBefore(reserved, output, |output|), p, q)
    ensures Deduped(reserved, input + [p], output + [q])
    ensures UsedBefore(reserved, output + [q], |output| + 1) == UsedBefore(reserved, output, |output|) + {q.name}
  {
    hide Renames;
    var inputs, outputs := input + [p], output + [q];
    UsedOfPrefix(reserved, output, q, |output|);
    UsedGrows(reserved, output, q);
    hide UsedBefore;
    forall k | 0 <= k < |inputs| ensures Renames(UsedBefore(reserved, outputs, k), inputs[k], outputs[k]) {
      UsedOfPrefix(reserved, output, q, k);
      if k < |input| {
        assert inputs[k] == input[k] && outputs[k] == output[k];
      }
    }
  }

  lemma UsedGrows(reserved: set<string>, output: seq<Proxy>, q: Proxy)
    ensures UsedBefore(reserved, output + [q], |output| + 1) == UsedBefore(reserved, output + [q], |output|) + {q.name}
  {
  }

  lemma {:induction false} UsedOfPrefix(reserved: set<string>, output: seq<Proxy>, last: Proxy, k: nat)
    requires k <= |output|
    ensures UsedBefore(reserved, output + [last], k) == UsedBefore(reserved, output, k)
    decreases k
  {
    if k > 0 {
      UsedOfPrefix(reserved, output, last, k - 1);
    }
  }

  lemma {:induction false} UsedContains(reserved: set<string>, output: seq<Proxy>, j: nat, k: nat)
    requires j < k <= |output|
    ensures output[j].name in UsedBefore(reserved, output, k) && reserved <= UsedBefore(reserved, output, k)
    decreases k
  {
    if k > j + 1 {
      UsedContains(reserved, output, j, k - 1);
    } else {
      ReservedIsUsed(reserved, output, j);
    }
  }

  lemma {:induction false} ReservedIsUsed(reserved: set<string>, output: seq<Proxy>, k: nat)
    requires k <= |output|
    ensures reserved <= UsedBefore(reserved, output, k)
    decreases k
  {
    if k > 0 {
      ReservedIsUsed(reserved, output, k - 1);
    }
  }

  lemma NewNameIsFree(used: set<string>, p: Proxy, q: Proxy)
    requires Renames(used, p, q)
    ensures q.name !in used
  {
  }

  /** All new names are distinct, and none is reserved. */
  lemma DedupedNamesAreUnique(reserved: set<string>, input: seq<Proxy>, output: seq<Proxy>)
    requires Deduped(reserved, input, output)
    ensures forall j, k :: 0 <= j < k < |output| ==> output[j].name != output[k].name
    ensures forall k :: 0 <= k < |output| ==> output[k].name !in reserved
  {
    hide Renames, UsedBefore;
    forall j, k | 0 <= j < k < |output| ensures output[j].name != output[k].name {
      NewNameIsFree(UsedBefore(reserved, output, k), input[k], output[k]);
      UsedContains(reserved, output, j, k);
    }
    forall k | 0 <= k < |output| ensures output[k].name !in reserved {
      NewNameIsFree(UsedBefore(reserved, output, k), input[k], output[k]);
      ReservedIsUsed(reserved, output, k);
    }
  }

  lemma {:induction false} UsedMembers(reserved: set<string>, output: seq<Proxy>, k: nat, name: string)
    requires k <= |output|
    ensures name in UsedBefore(reserved, output, k) <==>
      name in reserved || exists j :: 0 <= j < k && output[j].name == name
    decreases k
  {
    if k > 0 {
      UsedMembers(reserved, output, k - 1, name);
    }
  }

  /** A proxy keeps its name exactly when the name is neither reserved nor given to an earlier proxy. */
  lemma NameIsKeptIffFree(reserved: set<string>, input: seq<Proxy>, output: seq<Proxy>, k: nat)
    requires Deduped(reserved, input, output) && k < |input|
    ensures output[k] == input[k] <==> input[k].name !in reserved && forall j :: 0 <= j < k ==>
      output[j].name != input[k].name
    ensures output[k].settings == input[k].settings
  {
    hide UsedBefore;
    assert Renames(UsedBefore(reserved, output, k), input[k], output[k]);
    UsedMembers(reserved, output, k, input[k].name);
    NewNameIsFree(UsedBefore(reserved, output, k), input[k], output[k]);
  }

  // ---------- Entries by name ----------

  /** A name with several distinct profiles is a group, otherwise a single proxy. */
  datatype Entry = Single(proxy: Proxy) | Group(base: string, members: seq<Proxy>)

  /** The names in the order in which they first appear. */
  function Names(input: seq<Proxy>): seq<string> {
    if input == [] then []
    else
      var before, last := Names(input[..|input| - 1]), input[|input| - 1];
      if last.name in before then before else before + [last.name]
  }

  /** The profiles of one name in input order, exact duplicates dropped. */
  function Members(input: seq<Proxy>, name: string): seq<Proxy> {
    if input == [] then []
    else
      var before, last := Members(input[..|input| - 1], name), input[|input| - 1];
      if last.name == name && last !in before then before + [last] else before
  }

  function EntryOf(name: string, members: seq<Proxy>): Entry
    requires members != []
  {
    if |members| > 1 then Group(name, members) else Single(members[0])
  }

  function MembersOf(entry: Entry): seq<Proxy> {
    match entry
    case Single(proxy) => [proxy]
    case Group(_, members) => members
  }

  lemma {:induction false} NamesCover(input: seq<Proxy>)
    ensures forall p :: p in input ==> p.name in Names(input)
    ensures forall j, k :: 0 <= j < k < |Names(input)| ==> Names(input)[j] != Names(input)[k]
    ensures forall name :: name in Names(input) ==> Members(input, name) != []
    decreases |input|
  {
    if input != [] {
      var init, last := input[..|input| - 1], input[|input| - 1];
      assert input == init + [last];
      NamesCover(init);
    }
  }

  lemma {:induction false} MembersOfName(input: seq<Proxy>, name: string)
    ensures forall p :: p in Members(input, name) <==> p in input && p.name == name
    ensures forall j, k :: 0 <= j < k < |Members(input, name)| ==> Members(input, name)[j] != Members(input, name)[k]
    decreases |input|
  {
    if input != [] {
      var init, last := input[..|input| - 1], input[|input| - 1];
      assert input == init + [last];
      MembersOfName(init, name);
    }
  }

  /** One entry for each name in order of first appearance, holding exactly that name's profiles. */
  predicate Grouped(input: seq<Proxy>, entries: seq<Entry>) {
    && |entries| == |Names(input)|
    && forall k :: 0 <= k < |entries| ==> IsEntry(input, Names(input)[k], entries[k])
  }

  predicate IsEntry(input: seq<Proxy>, name: string, entry: Entry) {
    Members(input, name) != [] && entry == EntryOf(name, Members(input, name))
  }

  lemma NothingNamed()
    ensures Names([]) == []
  {
  }

  lemma NamesExtend(input: seq<Proxy>, p: Proxy)
    ensures Names(input + [p]) == if p.name in Names(input) then Names(input) else Names(input) + [p.name]
  {
    assert (input + [p])[..|input|] == input;
  }

  function Extended(input: seq<Proxy>, p: Proxy, name: string): seq<Proxy> {
    if p.name == name && p !in Members(input, name) then Members(input, name) + [p] else Members(input, name)
  }

  lemma MembersExtend(input: seq<Proxy>, p: Proxy, name: string)
    ensures Members(input + [p], name) == Extended(input, p, name)
  {
    assert (input + [p])[..|input|] == input;
  }

  lemma NewNameHasNoMembers(input: seq<Proxy>, name: string)
    ensures name !in Names(input) ==> Members(input, name) == []
  {
    hide Members, Names;
    NamesCover(input);
    MembersOfName(input, name);
    var members := Members(input, name);
    assert members != [] ==> members[0] in members;
  }

  method GroupProxies(proxies: seq<Proxy>) returns (entries: seq<Entry>)
    ensures Grouped(proxies, entries)
  {
    hide Members, Names;
    NothingNamed();
    var order: seq<string> := [];
    var byName: map<string, seq<Proxy>> := map[];
    for k := 0 to |proxies|
      invariant order == Names(proxies[..k])
      invariant forall name :: name in byName <==> name in order
      invariant forall name :: name in order ==> byName[name] == Members(proxies[..k], name)
    {
      var p := proxies[k];
      assert proxies[..k + 1] == proxies[..k] + [p];
      NamesExtend(proxies[..k], p);
      NewNameHasNoMembers(proxies[..k], p.name);
      if p.name !in byName {
        assert Members(proxies[..k], p.name) + [p] == [p];
        byName := byName[p.name := [p]];
        order := order + [p.name];
      } else if p !in byName[p.name] {
        byName := byName[p.name := byName[p.name] + [p]];
      }
      assert byName[p.name] == Extended(proxies[..k], p, p.name);
      forall name | name in order ensures byName[name] == Members(proxies[..k + 1], name) {
        MembersExtend(proxies[..k], p, name);
        assert name != p.name ==> name in Names(proxies[..k]);
      }
    }
    assert proxies[..|proxies|] == proxies;
    NamesCover(proxies);
    entries := [];
    for k := 0 to |order|
      invariant |entries| == k && forall j :: 0 <= j < k ==> IsEntry(proxies, order[j], entries[j])
    {
      entries := entries + [EntryOf(order[k], byName[order[k]])];
    }
  }

  function Flatten(entries: seq<Entry>): seq<Proxy> {
    if entries == [] then [] else MembersOf(entries[0]) + Flatten(entries[1..])
  }

  function FlattenNames(input: seq<Proxy>, names: seq<string>): seq<Proxy> {
    if names == [] then [] else Members(input, names[0]) + FlattenNames(input, names[1..])
  }

  lemma {:induction false} FlattenIsByName(input: seq<Proxy>, names: seq<string>, entries: seq<Entry>)
    requires |entries| == |names| && forall k :: 0 <= k < |entries| ==> IsEntry(input, names[k], entries[k])
    ensures Flatten(entries) == FlattenNames(input, names)
    decreases |names|
  {
    if names != [] {
      assert IsEntry(input, names[0], entries[0]);
      FlattenIsByName(input, names[1..], entries[1..]);
    }
  }

  lemma {:induction false} DistinctCount(s: seq<Proxy>, p: Proxy)
    requires forall j, k :: 0 <= j < k < |s| ==> s[j] != s[k]
    ensures multiset(s)[p] == if p in s then 1 else 0
    decreases |s|
  {
    if s != [] {
      var init, last := s[..|s| - 1], s[|s| - 1];
      assert s == init + [last];
      DistinctCount(init, p);
      assert last !in init;
    }
  }

  lemma {:induction false} CountByName(input: seq<Proxy>, names: seq<string>, p: Proxy)
    requires forall j, k :: 0 <= j < k < |names| ==> names[j] != names[k]
    ensures multiset(FlattenNames(input, names))[p] == if p.name in names && p in input then 1 else 0
    decreases |names|
  {
    if names != [] {
      MembersOfName(input, names[0]);
      DistinctCount(Members(input, names[0]), p);
      CountByName(input, names[1..], p);
      assert names == [names[0]] + names[1..];
      assert names[0] !in names[1..];
    }
  }

  /** Flattened, the entries are the input without its exact duplicates: every distinct proxy occurs exactly once. */
  lemma EntriesFlattenToInput(input: seq<Proxy>, entries: seq<Entry>, p: Proxy)
    requires Grouped(input, entries)
    ensures multiset(Flatten(entries))[p] == if p in input then 1 else 0
  {
    hide Members, Names, IsEntry;
    NamesCover(input);
    FlattenIsByName(input, Names(input), entries);
    CountByName(input, Names(input), p);
  }

  /** Each name of the input is in exactly one entry, and that entry has all its distinct profiles. */
  lemma EachNameHasOneEntry(input: seq<Proxy>, entries: seq<Entry>, p: Proxy)
    requires Grouped(input, entries) && p in input
    ensures exists k :: 0 <= k < |entries| && p in MembersOf(entries[k])
    ensures forall j, k :: 0 <= j < |entries| && 0 <= k < |entries| && HasName(entries[j], p.name) && HasName(entries[k], p.name) ==> j == k
  {
    hide Members, Names;
    NamesCover(input);
    MembersOfName(input, p.name);
    var i :| 0 <= i < |Names(input)| && Names(input)[i] == p.name;
    assert IsEntry(input, p.name, entries[i]);
    assert MembersOf(entries[i]) == Members(input, p.name);
    forall j | 0 <= j < |entries| && HasName(entries[j], p.name) ensures Names(input)[j] == p.name {
      assert IsEntry(input, Names(input)[j], entries[j]);
      MembersOfName(input, Names(input)[j]);
    }
  }

  predicate HasName(entry: Entry, name: string) {
    exists q :: q in MembersOf(entry) && q.name == name
  }
}
