/**
 What the printer and the parser of the managed block promise each other: parsing an updated file gives the
 sorted rules, the text around the block is kept, and the result depends only on the set of rules.
 */
module RuleTextTheorems {
  import opened Wrappers
  import opened RuleText

  // ---------- Finding the markers again ----------

  /** The first character of the token does not come back inside it, so occurrences cannot overlap. */
  predicate NoSelfOverlap(token: string) {
    |token| > 0 && forall k :: 0 < k < |token| ==> token[k] != token[0]
  }

  lemma MarkersDoNotOverlap()
    ensures NoSelfOverlap(BEGIN) && NoSelfOverlap(END)
  {
  }

  lemma CharOf(s: string, token: string, i: nat, k: nat)
    requires Occurs(s, token, i) && k < |token|
    ensures s[i + k] == token[k]
  {
    assert s[i..i + |token|][k] == s[i + k];
  }

  lemma OccurrencesAreApart(s: string, token: string, i: nat, j: nat)
    requires NoSelfOverlap(token) && Occurs(s, token, i) && Occurs(s, token, j) && i < j
    ensures i + |token| <= j
  {
    if j < i + |token| {
      CharOf(s, token, j, 0);
      CharOf(s, token, i, j - i);
      assert false;
    }
  }

  lemma TwoOccurrences(s: string, token: string, i: nat, j: nat)
    requires |token| > 0 && IndexOf(s, token, 0) == Some(i) && Occurs(s, token, j) && i + |token| <= j
    ensures Count(s, token, 0) >= 2
  {
    assert IndexOf(s, token, i + |token|).Some?;
    assert Count(s, token, i + |token|) >= 1;
  }

  /** When a token occurs at most once, any place where it occurs is the one that is found. */
  lemma SoleOccurrence(s: string, token: string, i: nat)
    requires NoSelfOverlap(token) && Occurs(s, token, i) && Count(s, token, 0) <= 1
    ensures IndexOf(s, token, 0) == Some(i)
  {
    var first := IndexOf(s, token, 0);
    assert first.Some? && first.value <= i;
    if first.value < i {
      OccurrencesAreApart(s, token, first.value, i);
      TwoOccurrences(s, token, first.value, i);
    }
  }

  lemma OccursInside(before: string, token: string, after: string)
    ensures Occurs(before + token + after, token, |before|)
  {
    assert (before + token + after)[|before|..|before| + |token|] == token;
  }

  // ---------- Lines ----------

  /** Each rule followed by a newline. */
  function Terminated(rules: seq<string>): string {
    if rules == [] then "" else rules[0] + "\n" + Terminated(rules[1..])
  }

  lemma {:induction false} JoinIsTerminated(rules: seq<string>)
    requires forall k :: 0 <= k < |rules| ==> rules[k] != ""
    ensures Join(rules) == "" <==> rules == []
    ensures rules != [] ==> Join(rules) + "\n" == Terminated(rules)
    decreases |rules|
  {
    if |rules| > 1 {
      JoinIsTerminated(rules[1..]);
      assert Join(rules) + "\n" == rules[0] + "\n" + (Join(rules[1..]) + "\n");
    } else if |rules| == 1 {
      assert rules[1..] == [];
      assert rules[0] + "\n" + "" == rules[0] + "\n";
    }
  }

  lemma {:induction false} SplitFirstLine(line: string, rest: string)
    requires '\n' !in line
    ensures SplitLines(line + "\n" + rest) == [line] + SplitLines(rest)
    decreases |line|
  {
    var s := line + "\n" + rest;
    if line == "" {
      assert s[1..] == rest;
    } else {
      assert s[1..] == line[1..] + "\n" + rest;
      SplitFirstLine(line[1..], rest);
      assert [line[0]] + line[1..] == line;
    }
  }

  lemma NoLines()
    ensures SplitLines("") == [""] && RuleLines([""]) == []
  {
    assert RuleLines([""][1..]) == [];
  }

  lemma KeptLine(rule: string, lines: seq<string>)
    requires LineSafe(rule)
    ensures RuleLines([rule] + lines) == [rule] + RuleLines(lines)
  {
    assert ([rule] + lines)[1..] == lines;
    assert rule[|rule| - 1] in rule;
  }

  lemma {:induction false} RuleLinesOfTerminated(rules: seq<string>)
    requires forall rule :: rule in rules ==> LineSafe(rule)
    ensures RuleLines(SplitLines(Terminated(rules))) == rules
    decreases |rules|
  {
    hide SplitLines;
    if rules == [] {
      NoLines();
    } else {
      var rest := Terminated(rules[1..]);
      assert LineSafe(rules[0]);
      SplitFirstLine(rules[0], rest);
      RuleLinesOfTerminated(rules[1..]);
      KeptLine(rules[0], SplitLines(rest));
      assert rules == [rules[0]] + rules[1..];
    }
  }

  lemma RuleLinesOfBlock(rules: seq<string>)
    requires forall rule :: rule in rules ==> LineSafe(rule)
    ensures RuleLines(SplitLines("\n" + Terminated(rules))) == rules
  {
    hide LineSafe;
    RuleLinesOfTerminated(rules);
    SplitFirstLine("", Terminated(rules));
    assert "" + "\n" + Terminated(rules) == "\n" + Terminated(rules);
    var lines := [""] + SplitLines(Terminated(rules));
    assert lines[1..] == SplitLines(Terminated(rules));
    assert RuleLines(lines) == [] + RuleLines(lines[1..]);
  }

  // ---------- The printed block ----------

  lemma SortedRulesAreLineSafe(check: RuleCheck, rules: seq<string>)
    requires ValidRules(check, rules)
    ensures forall rule :: rule in Sorted(rules) ==> LineSafe(rule)
  {
    forall rule | rule in Sorted(rules) ensures LineSafe(rule) {
      assert rule in multiset(Sorted(rules));
      assert rule in rules;
      assert check(rule);
    }
  }

  lemma BlockText(check: RuleCheck, rules: seq<string>)
    requires ValidRules(check, rules)
    ensures Block(rules) == BEGIN + ("\n" + Terminated(Sorted(rules))) + END + "\n"
  {
    hide Sorted, Join, ValidRules, RuleText.BEGIN, RuleText.END;
    SortedRulesAreLineSafe(check, rules);
    var sorted := Sorted(rules);
    forall k | 0 <= k < |sorted| ensures sorted[k] != "" {
      assert LineSafe(sorted[k]);
    }
    JoinIsTerminated(sorted);
    var managed := Join(sorted);
    assert managed + (if managed != "" then "\n" else "") == Terminated(sorted);
    assert BEGIN + "\n" + managed + (if managed != "" then "\n" else "") + END + "\n"
        == BEGIN + ("\n" + (managed + (if managed != "" then "\n" else ""))) + END + "\n";
  }

  lemma TokensFound(begin: string, end: string, before: string, inner: string, after: string, content: string)
    requires NoSelfOverlap(begin) && NoSelfOverlap(end)
    requires content == before + begin + inner + end + "\n" + after
    requires Count(content, begin, 0) <= 1 && Count(content, end, 0) <= 1
    ensures IndexOf(content, begin, 0) == Some(|before|)
    ensures IndexOf(content, end, 0) == Some(|before| + |begin| + |inner|)
  {
    hide NoSelfOverlap, Count, IndexOf, Occurs;
    var rest := inner + end + "\n" + after;
    assert content == before + begin + rest;
    OccursInside(before, begin, rest);
    SoleOccurrence(content, begin, |before|);
    var front := before + begin + inner;
    assert content == front + end + ("\n" + after);
    OccursInside(front, end, "\n" + after);
    SoleOccurrence(content, end, |front|);
  }

  /** In an accepted file around a printed block both markers are found where they were printed. */
  lemma MarkersFound(before: string, inner: string, after: string, content: string)
    requires content == before + BEGIN + inner + END + "\n" + after && MarkersOk(content)
    ensures IndexOf(content, BEGIN, 0) == Some(|before|)
    ensures IndexOf(content, END, 0) == Some(|before| + |BEGIN| + |inner|)
  {
    hide Count, IndexOf, Occurs, IsCompleteLineAt, NoSelfOverlap;
    MarkersDoNotOverlap();
    TokensFound(BEGIN, END, before, inner, after, content);
  }

  lemma UpdatedText(check: RuleCheck, existing: string, rules: seq<string>) returns (inner: string)
    requires Update(check, existing, rules).Ok?
    ensures MarkersOk(existing) && ValidRules(check, rules) && inner == "\n" + Terminated(Sorted(rules))
    ensures Update(check, existing, rules).value.content == Before(existing) + BEGIN + inner + END + "\n" + After(existing)
    ensures MarkersOk(Update(check, existing, rules).value.content)
    ensures ValidateComplete(check, Update(check, existing, rules).value.content).Ok?
  {
    hide ValidRules, MarkersOk, Before, After, Block, Sorted, Terminated, ValidateComplete;
    BlockText(check, rules);
    inner := "\n" + Terminated(Sorted(rules));
    ValidFilesHaveGoodMarkers(check, Update(check, existing, rules).value.content);
    Regroup(Before(existing), BEGIN, inner, END, After(existing));
  }

  lemma Regroup(before: string, begin: string, inner: string, end: string, after: string)
    ensures before + (begin + inner + end + "\n") + after == before + begin + inner + end + "\n" + after
  {
  }

  lemma ValidFilesHaveGoodMarkers(check: RuleCheck, content: string)
    requires ValidateComplete(check, content).Ok?
    ensures MarkersOk(content)
  {
    hide MarkersOk, Utf8Length, SplitLines, RuleLines, ValidRules, NoStrayReturn;
  }

  // ---------- Parsing an updated file ----------

  /** Parsing what an update wrote gives exactly the sorted rules. */
  lemma UpdateThenParse(check: RuleCheck, existing: string, rules: seq<string>)
    requires Update(check, existing, rules).Ok?
    ensures ManagedRules(check, Update(check, existing, rules).value.content) == Ok(Sorted(rules))
  {
    hide Update, ValidateComplete, MarkersOk, Before, After, Sorted, Terminated, SplitLines, RuleLines, IndexOf,
      ValidRules;
    var content := Update(check, existing, rules).value.content;
    var inner := UpdatedText(check, existing, rules);
    MarkersFound(Before(existing), inner, After(existing), content);
    var start := |Before(existing)| + |BEGIN|;
    assert content[start..start + |inner|] == inner;
    SortedRulesAreLineSafe(check, rules);
    RuleLinesOfBlock(Sorted(rules));
  }

  /** The text before the block and the text after it are the same before and after an update. */
  lemma UpdateKeepsOutside(check: RuleCheck, existing: string, rules: seq<string>)
    requires Update(check, existing, rules).Ok?
    ensures MarkersOk(existing) && MarkersOk(Update(check, existing, rules).value.content)
    ensures Before(Update(check, existing, rules).value.content) == Before(existing)
    ensures After(Update(check, existing, rules).value.content) == After(existing)
  {
    hide Update, ValidateComplete, MarkersOk, Sorted, Terminated, ValidRules, IndexOf;
    var content := Update(check, existing, rules).value.content;
    var inner := UpdatedText(check, existing, rules);
    var before, after := Before(existing), After(existing);
    KeptAround(before, inner, after, content);
  }

  lemma KeptAround(before: string, inner: string, after: string, content: string)
    requires content == before + BEGIN + inner + END + "\n" + after && MarkersOk(content)
    ensures Before(content) == before && After(content) == after
  {
    hide MarkersOk, IndexOf;
    MarkersFound(before, inner, after, content);
    assert content[..|before|] == before;
    var endIndex := |before| + |BEGIN| + |inner|;
    var endLine := endIndex + |END|;
    assert content[endLine] == '\n';
    assert content[endLine..endLine + 1] == "\n";
    assert !StartsWithAt(content, "\r\n", endLine) by {
      if StartsWithAt(content, "\r\n", endLine) {
        CharOf(content, "\r\n", endLine, 0);
      }
    }
    assert content[endLine + 1..] == after;
  }

  /** How the kept text relates to the file: at most one line terminator is added or dropped. */
  lemma OutsideOfFile(existing: string)
    requires MarkersOk(existing)
    ensures IndexOf(existing, BEGIN, 0).None? ==>
      After(existing) == "" && (Before(existing) == existing || Before(existing) == existing + "\n")
    ensures IndexOf(existing, BEGIN, 0).Some? ==> OutsideOfBlock(existing)
  {
    hide IndexOf, Count, OutsideOfBlock, IsCompleteLineAt;
    if IndexOf(existing, BEGIN, 0).Some? {
      OutsideOfFileWithBlock(existing);
    }
  }

  lemma OutsideOfFileWithBlock(existing: string)
    requires MarkersOk(existing) && IndexOf(existing, BEGIN, 0).Some?
    ensures OutsideOfBlock(existing)
  {
    hide IndexOf, Count, IsCompleteLineAt, SuffixIndex, IsTerminator;
    var begin, end := IndexOf(existing, BEGIN, 0).value, IndexOf(existing, END, 0).value;
    assert Occurs(existing, BEGIN, begin) && Occurs(existing, END, end) && begin <= end;
    TerminatorOfBlock(existing, end);
    BlockIsBetween(existing, begin, end, SuffixIndex(existing, end));
    assert Surrounds(Before(existing), existing[begin + |BEGIN|..end],
        existing[end + |END|..SuffixIndex(existing, end)], After(existing), existing);
  }

  lemma TerminatorOfBlock(existing: string, end: nat)
    requires Occurs(existing, END, end)
    ensures end + |END| <= SuffixIndex(existing, end)
    ensures IsTerminator(existing[end + |END|..SuffixIndex(existing, end)])
  {
    var i, j := end + |END|, SuffixIndex(existing, end);
    if StartsWithAt(existing, "\r\n", i) {
      assert existing[i..j] == "\r\n";
    } else if StartsWithAt(existing, "\n", i) {
      assert existing[i..j] == "\n";
    } else {
      assert existing[i..j] == "";
    }
  }

  predicate IsTerminator(s: string) {
    s == "" || s == "\n" || s == "\r\n"
  }

  predicate Surrounds(before: string, inner: string, terminator: string, after: string, content: string) {
    IsTerminator(terminator) && content == before + BEGIN + inner + END + terminator + after
  }

  ghost predicate OutsideOfBlock(existing: string)
    requires MarkersOk(existing)
  {
    exists inner, terminator :: Surrounds(Before(existing), inner, terminator, After(existing), existing)
  }

  lemma BlockIsBetween(existing: string, begin: nat, end: nat, suffix: nat)
    requires Occurs(existing, BEGIN, begin) && Occurs(existing, END, end) && begin <= end
    requires end + |END| <= suffix <= |existing|
    ensures begin + |BEGIN| <= end
    ensures existing == existing[..begin] + BEGIN + existing[begin + |BEGIN|..end] + END + existing[end + |END|..suffix] + existing[suffix..]
  {
    MarkersAreApart(existing, begin, end);
    Slices(existing, begin, begin + |BEGIN|, end, end + |END|, suffix);
  }

  lemma MarkersAreApart(existing: string, begin: nat, end: nat)
    requires Occurs(existing, BEGIN, begin) && Occurs(existing, END, end) && begin <= end
    ensures begin + |BEGIN| <= end
  {
    if end < begin + |BEGIN| {
      CharOf(existing, END, end, 0);
      CharOf(existing, END, end, 2);
      CharOf(existing, BEGIN, begin, 2);
      CharOf(existing, BEGIN, begin, end - begin);
      assert false;
    }
  }

  lemma Slices(s: string, i: nat, j: nat, k: nat, l: nat, m: nat)
    requires i <= j <= k <= l <= m <= |s|
    ensures s == s[..i] + s[i..j] + s[j..k] + s[k..l] + s[l..m] + s[m..]
  {
  }

  // ---------- The printed order is canonical ----------

  lemma {:induction false} StringLeqTotal(a: string, b: string)
    ensures StringLeq(a, b) || StringLeq(b, a)
    decreases |a|
  {
    if a != "" && b != "" && a[0] == b[0] {
      StringLeqTotal(a[1..], b[1..]);
    }
  }

  lemma {:induction false} StringLeqAntisymmetric(a: string, b: string)
    requires StringLeq(a, b) && StringLeq(b, a)
    ensures a == b
    decreases |a|
  {
    if a != "" {
      StringLeqAntisymmetric(a[1..], b[1..]);
      assert a == [a[0]] + a[1..] && b == [b[0]] + b[1..];
    }
  }

  lemma {:induction false} StringLeqTransitive(a: string, b: string, c: string)
    requires StringLeq(a, b) && StringLeq(b, c)
    ensures StringLeq(a, c)
    decreases |a|
  {
    if a != "" && a[0] == b[0] == c[0] {
      StringLeqTransitive(a[1..], b[1..], c[1..]);
    }
  }

  predicate LeqAll(rule: string, rules: seq<string>) {
    forall k :: 0 <= k < |rules| ==> StringLeq(rule, rules[k])
  }

  predicate Ordered(rules: seq<string>)
    decreases |rules|
  {
    rules == [] || (LeqAll(rules[0], rules[1..]) && Ordered(rules[1..]))
  }

  lemma {:induction false} InsertIsOrdered(rule: string, rules: seq<string>)
    requires Ordered(rules)
    ensures Ordered(InsertSorted(rule, rules))
    decreases |rules|
  {
    hide StringLeq;
    if rules == [] {
    } else if StringLeq(rule, rules[0]) {
      forall k | 0 <= k < |rules| ensures StringLeq(rule, rules[k]) {
        if k > 0 {
          assert rules[1..][k - 1] == rules[k];
          StringLeqTransitive(rule, rules[0], rules[k]);
        }
      }
      assert ([rule] + rules)[1..] == rules;
    } else {
      StringLeqTotal(rule, rules[0]);
      var rest := InsertSorted(rule, rules[1..]);
      InsertIsOrdered(rule, rules[1..]);
      InsertKeepsBound(rules[0], rule, rules[1..]);
      assert ([rules[0]] + rest)[1..] == rest;
    }
  }

  lemma InsertKeepsBound(bound: string, rule: string, rules: seq<string>)
    requires StringLeq(bound, rule) && LeqAll(bound, rules)
    ensures LeqAll(bound, InsertSorted(rule, rules))
  {
    hide StringLeq, InsertSorted;
    var inserted := InsertSorted(rule, rules);
    forall k | 0 <= k < |inserted| ensures StringLeq(bound, inserted[k]) {
      assert inserted[k] in multiset(inserted);
      assert inserted[k] == rule || inserted[k] in rules;
    }
  }

  lemma {:induction false} SortedIsOrdered(rules: seq<string>)
    ensures Ordered(Sorted(rules))
    decreases |rules|
  {
    if rules != [] {
      SortedIsOrdered(rules[1..]);
      InsertIsOrdered(rules[0], Sorted(rules[1..]));
    }
  }

  lemma HeadIsLeast(rules: seq<string>, other: string)
    requires Ordered(rules) && rules != [] && other in rules
    ensures StringLeq(rules[0], other)
  {
    StringLeqTotal(other, other);
    if other != rules[0] {
      assert other in rules[1..];
    }
  }

  lemma {:induction false} OrderedIsUnique(a: seq<string>, b: seq<string>)
    requires Ordered(a) && Ordered(b) && multiset(a) == multiset(b)
    ensures a == b
    decreases |a|
  {
    hide StringLeq, LeqAll;
    assert |a| == |multiset(a)| == |multiset(b)| == |b|;
    if a != [] {
      SameHead(a, b);
      TailElements(a);
      TailElements(b);
      OrderedIsUnique(a[1..], b[1..]);
      assert a == [a[0]] + a[1..] && b == [b[0]] + b[1..];
    }
  }

  lemma TailElements(a: seq<string>)
    requires a != []
    ensures multiset(a[1..]) == multiset(a) - multiset{a[0]}
  {
    assert a == [a[0]] + a[1..];
  }

  lemma SameHead(a: seq<string>, b: seq<string>)
    requires Ordered(a) && Ordered(b) && a != [] && b != [] && multiset(a) == multiset(b)
    ensures a[0] == b[0]
  {
    hide StringLeq, LeqAll, Ordered;
    assert a[0] in multiset(b) && b[0] in multiset(a);
    HeadIsLeast(a, b[0]);
    HeadIsLeast(b, a[0]);
    StringLeqAntisymmetric(a[0], b[0]);
  }

  function Elements(rules: seq<string>): set<string> {
    set rule | rule in rules
  }

  lemma {:induction false} DistinctCounts(rules: seq<string>, x: string)
    requires Distinct(rules)
    ensures multiset(rules)[x] == if x in rules then 1 else 0
    decreases |rules|
  {
    if rules != [] {
      var init, last := rules[..|rules| - 1], rules[|rules| - 1];
      assert rules == init + [last];
      DistinctCounts(init, x);
      assert last !in init;
    }
  }

  /** Duplicate-free lists of the same rules print alike. */
  lemma SameSetSortsAlike(a: seq<string>, b: seq<string>)
    requires Distinct(a) && Distinct(b) && Elements(a) == Elements(b)
    ensures Sorted(a) == Sorted(b)
  {
    hide Sorted, Distinct, Ordered;
    forall x: string ensures multiset(a)[x] == multiset(b)[x] {
      DistinctCounts(a, x);
      DistinctCounts(b, x);
      assert x in a <==> x in Elements(a);
      assert x in b <==> x in Elements(b);
    }
    assert multiset(a) == multiset(b);
    SortedIsOrdered(a);
    SortedIsOrdered(b);
    OrderedIsUnique(Sorted(a), Sorted(b));
  }

  /** The intended content depends only on the set of rules, not on the order they are listed in. */
  lemma UpdateDependsOnSetOnly(check: RuleCheck, existing: string, a: seq<string>, b: seq<string>)
    requires ValidRules(check, a) && ValidRules(check, b) && Elements(a) == Elements(b)
    ensures Update(check, existing, a) == Update(check, existing, b)
  {
    hide Sorted, ValidateComplete, Before, After, MarkersOk;
    SameSetSortsAlike(a, b);
  }

  /** Writing the same rules a second time, in any order, reports no change. */
  lemma UpdateIsIdempotent(check: RuleCheck, existing: string, rules: seq<string>, again: seq<string>)
    requires Update(check, existing, rules).Ok?
    requires ValidRules(check, again) && Elements(again) == Elements(rules)
    ensures var content := Update(check, existing, rules).value.content;
      Update(check, content, again) == Ok(RulesUpdate(content, false))
  {
    hide Sorted, ValidateComplete, Before, After, MarkersOk, ValidRules;
    var content := Update(check, existing, rules).value.content;
    UpdatedRulesAreValid(check, existing, rules);
    ValidRulesAreDistinct(check, rules);
    ValidRulesAreDistinct(check, again);
    SameSetSortsAlike(rules, again);
    UpdateKeepsOutside(check, existing, rules);
  }

  lemma ValidRulesAreDistinct(check: RuleCheck, rules: seq<string>)
    requires ValidRules(check, rules)
    ensures Distinct(rules)
  {
  }

  // ---------- The delta as set arithmetic ----------

  lemma {:induction false} WithoutMember(rules: seq<string>, deleted: string, x: string)
    ensures x in Without(rules, deleted) <==> x in rules && x != deleted
    decreases |rules|
  {
    if rules != [] {
      WithoutMember(rules[1..], deleted, x);
      assert rules == [rules[0]] + rules[1..];
    }
  }

  lemma {:induction false} WithoutIsDistinct(rules: seq<string>, deleted: string)
    requires Distinct(rules)
    ensures Distinct(Without(rules, deleted))
    decreases |rules|
  {
    if rules != [] {
      WithoutIsDistinct(rules[1..], deleted);
      WithoutMember(rules[1..], deleted, rules[0]);
    }
  }

  lemma WithoutElements(rules: seq<string>, deleted: string)
    ensures Elements(Without(rules, deleted)) == Elements(rules) - {deleted}
    ensures Distinct(rules) ==> Distinct(Without(rules, deleted))
  {
    hide Without, Distinct;
    forall x: string ensures x in Elements(Without(rules, deleted)) <==> x in Elements(rules) - {deleted} {
      WithoutMember(rules, deleted, x);
    }
    if Distinct(rules) {
      WithoutIsDistinct(rules, deleted);
    }
  }

  lemma {:induction false} DeleteAllElements(rules: seq<string>, deletes: seq<string>)
    ensures Elements(DeleteAll(rules, deletes)) == Elements(rules) - Elements(deletes)
    ensures Distinct(rules) ==> Distinct(DeleteAll(rules, deletes))
    decreases |deletes|
  {
    hide Distinct, Without;
    if deletes != [] {
      WithoutElements(rules, deletes[0]);
      DeleteAllElements(Without(rules, deletes[0]), deletes[1..]);
      assert deletes == [deletes[0]] + deletes[1..];
    }
  }

  lemma AddElements(rules: seq<string>, rule: string)
    ensures Elements(Add(rules, rule)) == Elements(rules) + {rule}
    ensures Distinct(rules) ==> Distinct(Add(rules, rule))
  {
  }

  lemma {:induction false} AddAllElements(rules: seq<string>, upserts: seq<string>)
    ensures Elements(AddAll(rules, upserts)) == Elements(rules) + Elements(upserts)
    ensures Distinct(rules) ==> Distinct(AddAll(rules, upserts))
    decreases |upserts|
  {
    hide Distinct, Add;
    if upserts != [] {
      AddElements(rules, upserts[0]);
      AddAllElements(Add(rules, upserts[0]), upserts[1..]);
      assert upserts == [upserts[0]] + upserts[1..];
    }
  }

  /** A delta removes its deletes and then adds its upserts, whatever their order and repetitions. */
  lemma AfterDeltaElements(managed: seq<string>, deletes: seq<string>, upserts: seq<string>)
    ensures Elements(AfterDelta(managed, deletes, upserts)) == Elements(managed) - Elements(deletes) + Elements(upserts)
    ensures Distinct(AfterDelta(managed, deletes, upserts))
  {
    hide Distinct, AddAll, DeleteAll;
    DistinctEmpty();
    AddAllElements([], managed);
    DeleteAllElements(AddAll([], managed), deletes);
    AddAllElements(DeleteAll(AddAll([], managed), deletes), upserts);
  }

  lemma DistinctEmpty()
    ensures Distinct([]) && Elements([]) == {}
  {
  }

  /** The managed rules of a file, as a set. */
  function ManagedSet(check: RuleCheck, content: string): set<string> {
    var managed := ManagedRules(check, content);
    if managed.Ok? then Elements(managed.value) else {}
  }

  lemma SortedElements(rules: seq<string>)
    ensures Elements(Sorted(rules)) == Elements(rules)
  {
    forall x: string ensures x in Elements(Sorted(rules)) <==> x in Elements(rules) {
      assert x in Sorted(rules) <==> x in multiset(Sorted(rules));
      assert x in rules <==> x in multiset(rules);
    }
  }

  /** After an accepted delta the file parses to the old rules without the deletes and with the upserts. */
  lemma DeltaThenParse(check: RuleCheck, content: string, deletes: seq<string>, upserts: seq<string>)
    requires DeltaUpdate(check, content, deletes, upserts).Ok?
    ensures var written := DeltaUpdate(check, content, deletes, upserts).value.content;
      ManagedRules(check, written).Ok? && ManagedSet(check, written) == ManagedSet(check, content) - Elements(deletes) + Elements(upserts)
  {
    hide Update, AfterDelta, ManagedRules, Sorted;
    var managed := ManagedRules(check, content).value;
    var rules := AfterDelta(managed, deletes, upserts);
    AfterDeltaElements(managed, deletes, upserts);
    UpdateThenParse(check, content, rules);
    SortedElements(rules);
  }

  /** Applying an accepted delta to its own result reports no change. */
  lemma DeltaIsIdempotent(check: RuleCheck, content: string, deletes: seq<string>, upserts: seq<string>)
    requires DeltaUpdate(check, content, deletes, upserts).Ok?
    ensures var written := DeltaUpdate(check, content, deletes, upserts).value.content;
      DeltaUpdate(check, written, deletes, upserts) == Ok(RulesUpdate(written, false))
  {
    hide Update, AfterDelta, ManagedRules, Sorted, Distinct, ValidRules, ValidateComplete;
    var managed := ManagedRules(check, content).value;
    var rules := AfterDelta(managed, deletes, upserts);
    var written := Update(check, content, rules).value.content;
    DeltaThenParse(check, content, deletes, upserts);
    var managedAgain := ManagedRules(check, written).value;
    var again := AfterDelta(managedAgain, deletes, upserts);
    AfterDeltaElements(managed, deletes, upserts);
    AfterDeltaElements(managedAgain, deletes, upserts);
    assert Elements(again) == Elements(rules);
    UpdatedRulesAreValid(check, content, rules);
    SameSetIsValid(check, rules, again);
    UpdateIsIdempotent(check, content, rules, again);
  }

  lemma UpdatedRulesAreValid(check: RuleCheck, existing: string, rules: seq<string>)
    requires Update(check, existing, rules).Ok?
    ensures ValidRules(check, rules)
  {
    hide ValidRules, MarkersOk, Before, After, ValidateComplete;
  }

  lemma SameSetIsValid(check: RuleCheck, a: seq<string>, b: seq<string>)
    requires ValidRules(check, a) && Distinct(b) && Elements(a) == Elements(b)
    ensures ValidRules(check, b)
  {
    SameSetSortsAlike(a, b);
    assert |a| == |multiset(Sorted(a))| == |multiset(Sorted(b))| == |b|;
    forall rule | rule in b ensures check(rule) {
      assert rule in Elements(b);
    }
  }

  /** A delta is a pair of sets: the order of its entries, and their repetition, do not influence the file. */
  lemma DeltaOrderIsImmaterial(check: RuleCheck, content: string, deletes: seq<string>, upserts: seq<string>,
                               otherDeletes: seq<string>, otherUpserts: seq<string>)
    requires Elements(deletes) == Elements(otherDeletes) && Elements(upserts) == Elements(otherUpserts)
    ensures DeltaUpdate(check, content, deletes, upserts) == DeltaUpdate(check, content, otherDeletes, otherUpserts)
  {
    hide Update, AfterDelta, ManagedRules, ValidRules, Distinct, Elements;
    if ManagedRules(check, content).Ok? {
      var managed := ManagedRules(check, content).value;
      AfterDeltaElements(managed, deletes, upserts);
      AfterDeltaElements(managed, otherDeletes, otherUpserts);
      SameSetUpdates(check, content, AfterDelta(managed, deletes, upserts),
          AfterDelta(managed, otherDeletes, otherUpserts));
    }
  }

  lemma SameSetUpdates(check: RuleCheck, existing: string, a: seq<string>, b: seq<string>)
    requires Distinct(a) && Distinct(b) && Elements(a) == Elements(b)
    ensures Update(check, existing, a) == Update(check, existing, b)
  {
    hide Sorted, ValidateComplete, Before, After, MarkersOk, ValidRules, Distinct, Elements;
    if ValidRules(check, a) {
      SameSetIsValid(check, a, b);
      UpdateDependsOnSetOnly(check, existing, a, b);
    } else if ValidRules(check, b) {
      SameSetIsValid(check, b, a);
    }
  }
}
