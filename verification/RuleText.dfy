/**
 The text of the local rule file: markers, lines, the managed block, and the pure function that
 rewrites the block. Library host-name checks are a parameter of which only line safety is known.
 */
module RuleText {
  import opened Wrappers

  const BEGIN := "# BEGIN SUBMERGE MANAGED"
  const END := "# END SUBMERGE MANAGED"
  const MAX_CUSTOM_BYTES := 1024 * 1024
  const MAX_RULE_COUNT := 10_000

  datatype StoreError = MigrationRequired | ReconciliationRequired | Unavailable | Unsafe

  /** What every accepted rule satisfies, whatever else the host-name check demands. */
  predicate LineSafe(rule: string) {
    rule != "" && '\n' !in rule && '\r' !in rule && rule[0] != '#'
  }

  /** `validateDomainRule`: accepts only line-safe rules. */
  type RuleCheck = f: string -> bool | forall rule :: f(rule) ==> LineSafe(rule)
    witness (rule: string) => false

  // ---------- Searching ----------

  predicate Occurs(s: string, token: string, i: int) {
    0 <= i && i + |token| <= |s| && s[i..i + |token|] == token
  }

  function IndexOf(s: string, token: string, from: nat): (r: Option<nat>)
    ensures r.Some? ==> from <= r.value && Occurs(s, token, r.value) && forall j :: from <= j < r.value ==>
      !Occurs(s, token, j)
    ensures r.None? ==> forall j :: from <= j ==> !Occurs(s, token, j)
    decreases |s| - from
  {
    if from + |token| > |s| then None
    else if Occurs(s, token, from) then Some(from)
    else IndexOf(s, token, from + 1)
  }

  /** Non-overlapping occurrences, scanning from the left. */
  function Count(s: string, token: string, from: nat): nat
    requires |token| > 0
    decreases |s| - from
  {
    var i := IndexOf(s, token, from);
    if i.None? then 0 else 1 + Count(s, token, i.value + |token|)
  }

  method CountOccurrences(value: string, token: string) returns (count: nat)
    requires |token| > 0
    ensures count == Count(value, token, 0)
  {
    count := 0;
    var index := 0;
    while true
      invariant index <= |value| && count + Count(value, token, index) == Count(value, token, 0)
      decreases |value| - index
    {
      var occurrence := IndexOf(value, token, index);
      if occurrence.None? {
        return;
      }
      count := count + 1;
      index := occurrence.value + |token|;
    }
  }

  predicate StartsWithAt(s: string, prefix: string, i: int) {
    Occurs(s, prefix, i)
  }

  predicate IsCompleteLineAt(s: string, i: nat, token: string) {
    var end := i + |token|;
    && (i == 0 || (i <= |s| && s[i - 1] == '\n'))
    && (end == |s| || StartsWithAt(s, "\n", end) || StartsWithAt(s, "\r\n", end))
  }

  predicate MarkersOk(content: string) {
    var beginIndex, endIndex := IndexOf(content, BEGIN, 0), IndexOf(content, END, 0);
    && Count(content, BEGIN, 0) == Count(content, END, 0) <= 1
    && (beginIndex.Some? ==> IsCompleteLineAt(content, beginIndex.value, BEGIN))
    && (endIndex.Some? ==> IsCompleteLineAt(content, endIndex.value, END))
    && (beginIndex.Some? ==> endIndex.Some? && endIndex.value >= beginIndex.value)
  }

  // ---------- Lines ----------

  function SplitLines(s: string): (r: seq<string>)
    ensures |r| > 0
  {
    if s == "" then [""]
    else
      var rest := SplitLines(s[1..]);
      if s[0] == '\n' then [""] + rest else [[s[0]] + rest[0]] + rest[1..]
  }

  function StripReturn(line: string): string {
    if |line| > 0 && line[|line| - 1] == '\r' then line[..|line| - 1] else line
  }

  predicate IsRuleLine(line: string) {
    line != "" && line[0] != '#'
  }

  /** The lines that are neither empty nor comments, without their carriage returns. */
  function RuleLines(lines: seq<string>): seq<string> {
    if lines == [] then []
    else
      var line := StripReturn(lines[0]);
      (if IsRuleLine(line) then [line] else []) + RuleLines(lines[1..])
  }

  predicate Distinct(rules: seq<string>) {
    forall j, k :: 0 <= j < k < |rules| ==> rules[j] != rules[k]
  }

  predicate ValidRules(check: RuleCheck, rules: seq<string>) {
    |rules| <= MAX_RULE_COUNT && (forall rule :: rule in rules ==> check(rule)) && Distinct(rules)
  }

  method ValidateDomainRules(check: RuleCheck, rules: seq<string>) returns (ok: bool)
    ensures ok <==> ValidRules(check, rules)
  {
    if |rules| > MAX_RULE_COUNT {
      return false;
    }
    var uniqueRules: set<string> := {};
    for k := 0 to |rules|
      invariant forall rule :: rule in rules[..k] ==> check(rule)
      invariant Distinct(rules[..k]) && uniqueRules == set rule | rule in rules[..k]
    {
      assert rules[..k + 1] == rules[..k] + [rules[k]];
      if !check(rules[k]) {
        return false;
      }
      if rules[k] in uniqueRules {
        assert exists j :: 0 <= j < k && rules[j] == rules[k];
        return false;
      }
      uniqueRules := uniqueRules + {rules[k]};
    }
    assert rules[..|rules|] == rules;
    ok := true;
  }

  function Utf8Length(s: string): nat {
    if s == "" then 0
    else
      var code := s[0] as int;
      (if code < 0x80 then 1 else if code < 0x800 then 2 else if code < 0x1_0000 then 3 else 4) + Utf8Length(s[1..])
  }

  predicate NoStrayReturn(lines: seq<string>) {
    forall k :: 0 <= k < |lines| ==> '\r' !in StripReturn(lines[k])
  }

  /** `validateCompleteRuleList`: the number of rules of an acceptable file. */
  function ValidateComplete(check: RuleCheck, content: string): Result<nat, StoreError> {
    var lines := SplitLines(content);
    if Utf8Length(content) > MAX_CUSTOM_BYTES || !MarkersOk(content) || !NoStrayReturn(lines) || !ValidRules(check,
        RuleLines(lines))
    then Err(Unsafe)
    else Ok(|RuleLines(lines)|)
  }

  method ValidateCompleteRuleList(check: RuleCheck, content: string) returns (r: Result<nat, StoreError>)
    ensures r == ValidateComplete(check, content)
  {
    hide MarkersOk, Utf8Length, SplitLines, ValidRules, StripReturn;
    if Utf8Length(content) > MAX_CUSTOM_BYTES || !MarkersOk(content) {
      return Err(Unsafe);
    }
    var rules: seq<string>, lines := [], SplitLines(content);
    for k := 0 to |lines|
      invariant NoStrayReturn(lines[..k]) && rules == RuleLines(lines[..k])
    {
      assert lines[..k + 1] == lines[..k] + [lines[k]];
      RuleLinesAppend(lines[..k], lines[k]);
      var line := StripReturn(lines[k]);
      if '\r' in line {
        return Err(Unsafe);
      }
      if line == "" || line[0] == '#' || line == BEGIN || line == END {
        continue;
      }
      rules := rules + [line];
    }
    assert lines[..|lines|] == lines;
    var ok := ValidateDomainRules(check, rules);
    r := if ok then Ok(|rules|) else Err(Unsafe);
  }

  lemma {:induction false} RuleLinesAppend(lines: seq<string>, last: string)
    ensures RuleLines(lines + [last]) == RuleLines(lines) + if IsRuleLine(StripReturn(last)) then [StripReturn(last)]
        else []
    decreases |lines|
  {
    if lines != [] {
      assert (lines + [last])[1..] == lines[1..] + [last];
      RuleLinesAppend(lines[1..], last);
    }
  }

  // ---------- The managed block ----------

  /** `managedDomainRules`: the rules between the markers of an acceptable file. */
  function ManagedRules(check: RuleCheck, content: string): Result<seq<string>, StoreError> {
    if ValidateComplete(check, content).Err? then Err(Unsafe)
    else
      var beginIndex, endIndex := IndexOf(content, BEGIN, 0), IndexOf(content, END, 0);
      if beginIndex.None? then Ok([])
      else
        var start := beginIndex.value + |BEGIN|;
        if endIndex.None? || endIndex.value < start then Ok([])
        else Ok(RuleLines(SplitLines(content[start..endIndex.value])))
  }

  /** Lexicographic order of code units, as JavaScript's default sort. */
  predicate StringLeq(a: string, b: string) {
    a == "" || (b != "" && (a[0] < b[0] || (a[0] == b[0] && StringLeq(a[1..], b[1..]))))
  }

  function InsertSorted(rule: string, rules: seq<string>): (r: seq<string>)
    ensures multiset(r) == multiset(rules) + multiset{rule}
  {
    if rules == [] then [rule]
    else if StringLeq(rule, rules[0]) then [rule] + rules
    else
      assert rules == [rules[0]] + rules[1..];
      [rules[0]] + InsertSorted(rule, rules[1..])
  }

  function Sorted(rules: seq<string>): (r: seq<string>)
    ensures multiset(r) == multiset(rules)
  {
    if rules == [] then []
    else
      assert rules == [rules[0]] + rules[1..];
      InsertSorted(rules[0], Sorted(rules[1..]))
  }

  function Join(rules: seq<string>): string {
    if rules == [] then "" else if |rules| == 1 then rules[0] else rules[0] + "\n" + Join(rules[1..])
  }

  function Block(rules: seq<string>): string {
    var managed := Join(Sorted(rules));
    BEGIN + "\n" + managed + (if managed != "" then "\n" else "") + END + "\n"
  }

  datatype RulesUpdate = RulesUpdate(content: string, changed: bool)

  /** Where the text behind the END line starts: one line terminator belongs to the block. */
  function SuffixIndex(existing: string, endIndex: nat): (i: nat)
    requires Occurs(existing, END, endIndex)
    ensures i <= |existing|
  {
    var endLine := endIndex + |END|;
    if StartsWithAt(existing, "\r\n", endLine) then endLine + 2
    else if StartsWithAt(existing, "\n", endLine) then endLine + 1
    else endLine
  }

  function Before(existing: string): string
    requires MarkersOk(existing)
  {
    var beginIndex := IndexOf(existing, BEGIN, 0);
    if beginIndex.Some? then existing[..beginIndex.value]
    else if existing == "" || existing[|existing| - 1] == '\n' then existing
    else existing + "\n"
  }

  function After(existing: string): string
    requires MarkersOk(existing)
  {
    var beginIndex, endIndex := IndexOf(existing, BEGIN, 0), IndexOf(existing, END, 0);
    if beginIndex.None? then "" else existing[SuffixIndex(existing, endIndex.value)..]
  }

  /** `updateManagedDomainRules`. */
  function Update(check: RuleCheck, existing: string, rules: seq<string>): Result<RulesUpdate, StoreError> {
    if !ValidRules(check, rules) || !MarkersOk(existing) then Err(Unsafe)
    else
      var content := Before(existing) + Block(rules) + After(existing);
      if ValidateComplete(check, content).Err? then Err(Unsafe)
      else Ok(RulesUpdate(content, content != existing))
  }

  // ---------- The delta ----------

  /** `Set.delete` on an insertion-ordered set. */
  function Without(rules: seq<string>, deleted: string): seq<string>
    decreases |rules|
  {
    if rules == [] then [] else (if rules[0] == deleted then [] else [rules[0]]) + Without(rules[1..], deleted)
  }

  function DeleteAll(rules: seq<string>, deletes: seq<string>): seq<string>
    decreases |deletes|
  {
    if deletes == [] then rules else DeleteAll(Without(rules, deletes[0]), deletes[1..])
  }

  /** `Set.add` on an insertion-ordered set. */
  function Add(rules: seq<string>, rule: string): seq<string> {
    if rule in rules then rules else rules + [rule]
  }

  function AddAll(rules: seq<string>, upserts: seq<string>): seq<string>
    decreases |upserts|
  {
    if upserts == [] then rules else AddAll(Add(rules, upserts[0]), upserts[1..])
  }

  function AfterDelta(managed: seq<string>, deletes: seq<string>, upserts: seq<string>): seq<string> {
    AddAll(DeleteAll(AddAll([], managed), deletes), upserts)
  }

  function DeltaUpdate(check: RuleCheck, content: string, deletes: seq<string>,
      upserts: seq<string>): Result<RulesUpdate, StoreError> {
    var managed :- ManagedRules(check, content);
    Update(check, content, AfterDelta(managed, deletes, upserts))
  }

  /** `applyDelta`, with the source's insertion-ordered set as a duplicate-free list. */
  method ApplyDelta(check: RuleCheck, content: string, deletes: seq<string>, upserts: seq<string>)
      returns (r: Result<RulesUpdate, StoreError>)
    ensures r == DeltaUpdate(check, content, deletes, upserts)
  {
    hide Update, ManagedRules, Without, Add;
    var managed := ManagedRules(check, content);
    if managed.Err? {
      return Err(managed.error);
    }
    var current := AddAll([], managed.value);
    for k := 0 to |deletes|
      invariant DeleteAll(current, deletes[k..]) == DeleteAll(AddAll([], managed.value), deletes)
    {
      assert deletes[k..][1..] == deletes[k + 1..];
      current := Without(current, deletes[k]);
    }
    assert deletes[|deletes|..] == [];
    for k := 0 to |upserts|
      invariant AddAll(current, upserts[k..]) == AfterDelta(managed.value, deletes, upserts)
    {
      assert upserts[k..][1..] == upserts[k + 1..];
      current := Add(current, upserts[k]);
    }
    assert upserts[|upserts|..] == [];
    r := Update(check, content, current);
  }
}
