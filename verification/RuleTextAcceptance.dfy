/**
 Which rule files are acceptable and which updates succeed: the markers in terms of where they occur, the order of rules
 in terms of where they differ, and an update of an acceptable file in terms of its rules alone.
 */
module RuleTextAcceptance {
  import opened Wrappers
  import opened RuleText
  import opened RuleTextTheorems

  // ---------- The order of rules ----------

  /** `a` is `b`, a beginning of it, or smaller where they first differ. */
  predicate SortsBefore(a: string, b: string) {
    exists k :: 0 <= k <= |a| && k <= |b| && a[..k] == b[..k] && (k == |a| || (k < |b| && a[k] < b[k]))
  }

  lemma {:induction false} LeqIff(a: string, b: string)
    ensures StringLeq(a, b) <==> SortsBefore(a, b)
    decreases |a|
  {
    if a == "" {
      assert a[..0] == b[..0];
    } else if b != "" && a[0] == b[0] {
      LeqIff(a[1..], b[1..]);
      if SortsBefore(a[1..], b[1..]) {
        var k :| 0 <= k <= |a[1..]| && k <= |b[1..]| && a[1..][..k] == b[1..][..k]
          && (k == |a[1..]| || (k < |b[1..]| && a[1..][k] < b[1..][k]));
        SharedStart(a, b, k);
        assert k + 1 == |a| || (k + 1 < |b| && a[k + 1] < b[k + 1]);
      }
      if SortsBefore(a, b) {
        var k :| 0 <= k <= |a| && k <= |b| && a[..k] == b[..k] && (k == |a| || (k < |b| && a[k] < b[k]));
        SharedStart(a, b, k - 1);
        assert k - 1 == |a[1..]| || (k - 1 < |b[1..]| && a[1..][k - 1] < b[1..][k - 1]);
      }
    } else if b != "" {
      assert a[..0] == b[..0];
      if SortsBefore(a, b) {
        var k :| 0 <= k <= |a| && k <= |b| && a[..k] == b[..k] && (k == |a| || (k < |b| && a[k] < b[k]));
        HeadsAgree(a, b, k);
      }
    }
  }

  lemma HeadsAgree(a: string, b: string, k: nat)
    requires k <= |a| && k <= |b| && a[..k] == b[..k]
    ensures k == 0 || a[0] == b[0]
  {
    if k > 0 {
      assert a[..k][0] == a[0] && b[..k][0] == b[0];
    }
  }

  lemma SharedStart(a: string, b: string, k: nat)
    requires a != "" && b != "" && a[0] == b[0] && k < |a| && k < |b|
    ensures a[..k + 1] == b[..k + 1] <==> a[1..][..k] == b[1..][..k]
  {
    assert a[..k + 1] == [a[0]] + a[1..][..k];
    assert b[..k + 1] == [b[0]] + b[1..][..k];
  }

  /** Rules are written in ascending order. */
  lemma SortedAscends(rules: seq<string>, j: nat, k: nat)
    requires j < k < |Sorted(rules)|
    ensures SortsBefore(Sorted(rules)[j], Sorted(rules)[k])
  {
    SortedIsOrdered(rules);
    OrderedAscends(Sorted(rules), j, k);
    LeqIff(Sorted(rules)[j], Sorted(rules)[k]);
  }

  lemma {:induction false} OrderedAscends(rules: seq<string>, j: nat, k: nat)
    requires Ordered(rules) && j < k < |rules|
    ensures StringLeq(rules[j], rules[k])
    decreases |rules|
  {
    if j == 0 {
      assert rules[1..][k - 1] == rules[k];
    } else {
      OrderedAscends(rules[1..], j - 1, k - 1);
    }
  }

  // ---------- The markers ----------

  /** The token occurs at `i` and nowhere else. */
  ghost predicate OnlyAt(s: string, token: string, i: int) {
    forall k :: Occurs(s, token, k) <==> k == i
  }

  ghost predicate Nowhere(s: string, token: string) {
    forall k :: !Occurs(s, token, k)
  }

  /** A marker stands on a line of its own. */
  predicate OnOwnLine(s: string, i: nat, token: string) {
    && i + |token| <= |s| && (i == 0 || s[i - 1] == '\n')
    && (i + |token| == |s| || s[i + |token|] == '\n'
        || (s[i + |token|] == '\r' && i + |token| + 1 < |s| && s[i + |token| + 1] == '\n'))
  }

  /** Neither marker, or each of them once, on a line of its own, the beginning first. */
  ghost predicate WellMarked(s: string) {
    || (Nowhere(s, BEGIN) && Nowhere(s, END))
    || exists i: nat, j: nat :: MarkedAt(s, i, j)
  }

  ghost predicate MarkedAt(s: string, i: nat, j: nat) {
    OnlyAt(s, BEGIN, i) && OnlyAt(s, END, j) && i <= j && OnOwnLine(s, i, BEGIN) && OnOwnLine(s, j, END)
  }

  lemma CountZero(s: string, token: string)
    requires |token| > 0
    ensures Count(s, token, 0) == 0 <==> Nowhere(s, token)
  {
    if IndexOf(s, token, 0).None? {
      forall k ensures !Occurs(s, token, k) {
      }
    }
  }

  lemma CountOne(s: string, token: string)
    requires NoSelfOverlap(token)
    ensures Count(s, token, 0) == 1 <==> IndexOf(s, token, 0).Some? && OnlyAt(s, token, IndexOf(s, token, 0).value)
  {
    var first := IndexOf(s, token, 0);
    if first.Some? {
      var i := first.value;
      var next := IndexOf(s, token, i + |token|);
      if OnlyAt(s, token, i) {
        assert next.None?;
        assert Count(s, token, i + |token|) == 0;
      }
      if Count(s, token, 0) == 1 {
        forall k ensures Occurs(s, token, k) <==> k == i {
          if Occurs(s, token, k) {
            SoleOccurrence(s, token, k);
          }
        }
      }
    }
  }

  lemma OwnLineIff(s: string, i: nat, token: string)
    requires Occurs(s, token, i)
    ensures IsCompleteLineAt(s, i, token) <==> OnOwnLine(s, i, token)
  {
    var end := i + |token|;
    OneChar(s, end);
    TwoChars(s, end);
  }

  lemma OneChar(s: string, i: nat)
    ensures StartsWithAt(s, "\n", i) <==> i < |s| && s[i] == '\n'
  {
    if i < |s| {
      assert s[i..i + 1] == [s[i]];
    }
  }

  lemma TwoChars(s: string, i: nat)
    ensures StartsWithAt(s, "\r\n", i) <==> i + 1 < |s| && s[i] == '\r' && s[i + 1] == '\n'
  {
    if i + 1 < |s| {
      assert s[i..i + 2] == [s[i], s[i + 1]];
    }
  }

  lemma FoundWhereOnly(s: string, token: string, i: nat)
    requires OnlyAt(s, token, i)
    ensures IndexOf(s, token, 0) == Some(i)
  {
    assert Occurs(s, token, i);
  }

  /** The marker check accepts exactly the well-marked files. */
  lemma MarkersIff(s: string)
    ensures MarkersOk(s) <==> WellMarked(s)
  {
    hide MarkersOk, WellMarked;
    if MarkersOk(s) {
      MarkedIfOk(s);
    }
    if WellMarked(s) {
      OkIfMarked(s);
    }
  }

  lemma MarkedIfOk(s: string)
    requires MarkersOk(s)
    ensures WellMarked(s)
  {
    hide Count, IndexOf, IsCompleteLineAt, OnOwnLine, NoSelfOverlap, Nowhere, OnlyAt;
    MarkersDoNotOverlap();
    CountZero(s, BEGIN);
    CountZero(s, END);
    CountOne(s, BEGIN);
    CountOne(s, END);
    if Count(s, BEGIN, 0) == 1 {
      var i, j := IndexOf(s, BEGIN, 0).value, IndexOf(s, END, 0).value;
      OwnLineIff(s, i, BEGIN);
      OwnLineIff(s, j, END);
      assert MarkedAt(s, i, j);
    }
  }

  lemma OkIfMarked(s: string)
    requires WellMarked(s)
    ensures MarkersOk(s)
  {
    hide Count, IsCompleteLineAt, OnOwnLine, NoSelfOverlap, OnlyAt;
    MarkersDoNotOverlap();
    CountZero(s, BEGIN);
    CountZero(s, END);
    CountOne(s, BEGIN);
    CountOne(s, END);
    if i: nat, j: nat :| MarkedAt(s, i, j) {
      FoundWhereOnly(s, BEGIN, i);
      FoundWhereOnly(s, END, j);
      OwnLineIff(s, i, BEGIN);
      OwnLineIff(s, j, END);
    }
  }

  // ---------- Texts made of parts ----------

  /** How many bytes a character takes (RFC 3629, section 3). */
  lemma BytesOfChar(c: char)
    ensures Utf8Length([c]) == 1 <==> c as int <= 0x7F
    ensures Utf8Length([c]) == 2 <==> 0x80 <= c as int <= 0x7FF
    ensures Utf8Length([c]) == 3 <==> 0x800 <= c as int <= 0xFFFF
    ensures Utf8Length([c]) == 4 <==> 0x1_0000 <= c as int
  {
    assert [c][1..] == "";
  }

  lemma {:induction false} Utf8Adds(a: string, b: string)
    ensures Utf8Length(a + b) == Utf8Length(a) + Utf8Length(b)
  {
    if a == "" {
      assert a + b == b;
    } else {
      assert (a + b)[1..] == a[1..] + b;
      Utf8Adds(a[1..], b);
    }
  }

  /** Lines end at newlines, so a text cut at one has the lines of both parts. */
  lemma {:induction false} LinesOfParts(a: string, b: string)
    ensures SplitLines(a + "\n" + b) == SplitLines(a) + SplitLines(b)
    decreases |a|
  {
    var s := a + "\n" + b;
    if a == "" {
      assert s[1..] == b;
    } else {
      assert s[1..] == a[1..] + "\n" + b;
      LinesOfParts(a[1..], b);
    }
  }

  lemma {:induction false} RulesOfParts(a: seq<string>, b: seq<string>)
    ensures RuleLines(a + b) == RuleLines(a) + RuleLines(b)
  {
    hide StripReturn, IsRuleLine;
    if a == [] {
      assert a + b == b && [] + RuleLines(b) == RuleLines(b);
    } else {
      var line, rest := StripReturn(a[0]), a[1..];
      var head := if IsRuleLine(line) then [line] else [];
      assert (a + b)[1..] == rest + b;
      RulesOfParts(rest, b);
      assert head + (RuleLines(rest) + RuleLines(b)) == (head + RuleLines(rest)) + RuleLines(b);
    }
  }

  lemma StrayInParts(a: seq<string>, b: seq<string>)
    ensures NoStrayReturn(a + b) <==> NoStrayReturn(a) && NoStrayReturn(b)
  {
    hide StripReturn;
    if NoStrayReturn(a + b) {
      forall k | 0 <= k < |a| ensures '\r' !in StripReturn(a[k]) {
        assert (a + b)[k] == a[k];
      }
      forall k | 0 <= k < |b| ensures '\r' !in StripReturn(b[k]) {
        assert (a + b)[|a| + k] == b[k];
      }
    }
  }

  /** A token without a newline occurs within a line: in one of two parts that a newline separates. */
  lemma OccursInPart(a: string, b: string, token: string, k: int)
    requires token != "" && '\n' !in token
    ensures Occurs(a + "\n" + b, token, k) <==>
      (k + |token| <= |a| && Occurs(a, token, k)) || (k > |a| && Occurs(b, token, k - |a| - 1))
  {
    var s := a + "\n" + b;
    if 0 <= k && k + |token| <= |a| {
      assert s[k..k + |token|] == a[k..k + |token|];
    } else if k > |a| && k + |token| <= |s| {
      assert s[k..k + |token|] == b[k - |a| - 1..k - |a| - 1 + |token|];
    } else if 0 <= k <= |a| && k + |token| <= |s| {
      assert s[k..k + |token|][|a| - k] == '\n';
      assert s[k..k + |token|] == token ==> '\n' in token;
    }
  }

  lemma NowhereInParts(a: string, b: string, token: string)
    requires token != "" && '\n' !in token
    ensures Nowhere(a + "\n" + b, token) <==> Nowhere(a, token) && Nowhere(b, token)
  {
    hide Occurs;
    forall k: int ensures Occurs(a + "\n" + b, token, k) <==>
      (k + |token| <= |a| && Occurs(a, token, k)) || (k > |a| && Occurs(b, token, k - |a| - 1))
    {
      OccursInPart(a, b, token, k);
    }
    if Nowhere(a + "\n" + b, token) {
      forall k: int ensures !Occurs(a, token, k) && !Occurs(b, token, k) {
        assert !Occurs(a + "\n" + b, token, k) && !Occurs(a + "\n" + b, token, k + |a| + 1);
        if Occurs(a, token, k) {
          OccursWithin(a, token, k);
        }
        if Occurs(b, token, k) {
          OccursWithin(b, token, k);
        }
      }
    }
  }

  lemma OccursWithin(s: string, token: string, k: int)
    requires Occurs(s, token, k)
    ensures 0 <= k && k + |token| <= |s|
  {
  }

  lemma {:induction false} NowhereInRules(rules: seq<string>, token: string)
    requires token != "" && '\n' !in token
    ensures Nowhere(Terminated(rules), token) <==> forall rule :: rule in rules ==> Nowhere(rule, token)
    decreases |rules|
  {
    hide Nowhere;
    if rules == [] {
      NowhereInNothing(token);
    } else {
      assert rules == [rules[0]] + rules[1..];
      NowhereInRules(rules[1..], token);
      NowhereInParts(rules[0], Terminated(rules[1..]), token);
    }
  }

  lemma NowhereInNothing(token: string)
    requires token != ""
    ensures Nowhere("", token)
  {
  }

  // ---------- Text around a block ----------

  predicate EndsLine(s: string) {
    s == "" || s[|s| - 1] == '\n'
  }

  /** The lines of a text that ends with a newline, without the empty one behind it. */
  function WholeLines(s: string): seq<string>
    requires EndsLine(s)
  {
    if s == "" then [] else SplitLines(s[..|s| - 1])
  }

  lemma LinesAfter(front: string, rest: string)
    requires EndsLine(front)
    ensures SplitLines(front + rest) == WholeLines(front) + SplitLines(rest)
  {
    if front == "" {
      assert front + rest == rest;
    } else {
      var cut := front[..|front| - 1];
      assert front + rest == cut + "\n" + rest;
      LinesOfParts(cut, rest);
    }
  }

  /** A token occurs in a text after whole lines where it occurs in them or in the rest. */
  lemma OccursAfter(front: string, rest: string, token: string, k: int)
    requires EndsLine(front) && token != "" && '\n' !in token
    ensures Occurs(front + rest, token, k) <==> Occurs(front, token, k) || Occurs(rest, token, k - |front|)
  {
    if front == "" {
      assert front + rest == rest;
    } else {
      var cut := front[..|front| - 1];
      assert front + rest == cut + "\n" + rest && front == cut + "\n" + "";
      OccursInPart(cut, rest, token, k);
      OccursInPart(cut, "", token, k);
    }
  }

  lemma OnlyAfter(front: string, rest: string, token: string, at: nat)
    requires EndsLine(front) && token != "" && '\n' !in token && Occurs(rest, token, at)
    ensures OnlyAt(front + rest, token, |front| + at) <==> Nowhere(front, token) && OnlyAt(rest, token, at)
  {
    hide Occurs;
    forall k: int ensures Occurs(front + rest, token, k) <==>
        Occurs(front, token, k) || Occurs(rest, token, k - |front|) {
      OccursAfter(front, rest, token, k);
    }
    forall k | Occurs(front, token, k) ensures k + |token| <= |front| {
      OccursWithin(front, token, k);
    }
    if OnlyAt(front + rest, token, |front| + at) {
      forall k ensures !Occurs(front, token, k) {
        assert Occurs(front + rest, token, k) <==> k == |front| + at;
      }
      forall k ensures Occurs(rest, token, k) <==> k == at {
        assert Occurs(front + rest, token, |front| + k) <==> k == at;
      }
    }
  }

  lemma NowhereAfter(front: string, rest: string, token: string)
    requires EndsLine(front) && token != "" && '\n' !in token
    ensures Nowhere(front + rest, token) <==> Nowhere(front, token) && Nowhere(rest, token)
  {
    hide Occurs;
    forall k: int ensures Occurs(front + rest, token, k) <==>
        Occurs(front, token, k) || Occurs(rest, token, k - |front|) {
      OccursAfter(front, rest, token, k);
    }
    if Nowhere(front + rest, token) {
      forall k ensures !Occurs(rest, token, k) {
        assert !Occurs(front + rest, token, k + |front|);
      }
    }
  }

  // ---------- The markers of an updated file ----------

  /** The text of a file around a block with these rules. */
  function Around(before: string, rules: seq<string>, after: string): string {
    before + (BEGIN + "\n" + (Terminated(rules) + (END + "\n" + after)))
  }

  lemma {:induction false} TerminatedEndsLine(rules: seq<string>)
    ensures EndsLine(Terminated(rules))
  {
    if rules != [] {
      TerminatedEndsLine(rules[1..]);
    }
  }

  lemma OneMarker(token: string, other: string)
    requires (token == BEGIN && other == END) || (token == END && other == BEGIN)
    ensures OnlyAt(token, token, 0) && Nowhere(token, other) && '\n' !in token
  {
    forall k ensures Occurs(token, token, k) <==> k == 0 {
      assert token[0..0 + |token|] == token;
    }
    forall k ensures !Occurs(token, other, k) {
      if Occurs(token, other, k) {
        CharOf(token, other, k, 0);
        CharOf(token, other, k, 2);
      }
    }
  }

  /** A marker line, followed by more text. */
  lemma MarkerLine(token: string, other: string, rest: string)
    requires (token == BEGIN && other == END) || (token == END && other == BEGIN)
    ensures Occurs(token + "\n" + rest, token, 0)
    ensures OnlyAt(token + "\n" + rest, token, 0) <==> Nowhere(rest, token)
    ensures Nowhere(token + "\n", other) && EndsLine(token + "\n")
  {
    OneMarker(token, other);
    hide Occurs;
    forall k: int ensures Occurs(token + "\n" + rest, token, k) <==> k == 0 || Occurs(rest, token, k - |token| - 1) {
      OccursInPart(token, rest, token, k);
      if Occurs(token, token, k) {
        OccursWithin(token, token, k);
      }
      if Occurs(rest, token, k - |token| - 1) {
        OccursWithin(rest, token, k - |token| - 1);
      }
    }
    assert Occurs(token + "\n" + rest, token, 0);
    if OnlyAt(token + "\n" + rest, token, 0) {
      forall k ensures !Occurs(rest, token, k) {
        assert Occurs(token + "\n" + rest, token, k + |token| + 1) <==> k + |token| + 1 == 0;
        if Occurs(rest, token, k) {
          OccursWithin(rest, token, k);
        }
      }
    }
    NowhereInParts(token, "", other);
    NowhereInNothing(other);
    assert token + "\n" + "" == token + "\n";
  }

  ghost predicate Unmarked(s: string) {
    Nowhere(s, BEGIN) && Nowhere(s, END)
  }

  /** Where the markers of a printed block are, and when they are nowhere else. */
  lemma BlockMarkers(before: string, rules: seq<string>, after: string)
    requires EndsLine(before) && Unmarked(before) && Unmarked(after)
    ensures var content, text := Around(before, rules, after), Terminated(rules);
      && Occurs(content, BEGIN, |before|) && Occurs(content, END, |before| + |BEGIN| + 1 + |text|)
      && (OnlyAt(content, BEGIN, |before|) <==> Nowhere(text, BEGIN))
      && (OnlyAt(content, END, |before| + |BEGIN| + 1 + |text|) <==> Nowhere(text, END))
  {
    hide Occurs, OnlyAt, Nowhere;
    var text := Terminated(rules);
    var close := END + "\n" + after;
    var inside := text + close;
    var block := BEGIN + "\n" + inside;
    OneMarker(BEGIN, END);
    OneMarker(END, BEGIN);
    TerminatedEndsLine(rules);
    MarkerLine(BEGIN, END, inside);
    MarkerLine(END, BEGIN, after);
    NowhereAfter(END + "\n", after, BEGIN);
    NowhereAfter(text, close, BEGIN);
    OccursAfter(before, block, BEGIN, |before|);
    OnlyAfter(before, block, BEGIN, 0);
    OccursAfter(text, close, END, |text|);
    OnlyAfter(text, close, END, 0);
    assert block == (BEGIN + "\n") + inside;
    OccursAfter(BEGIN + "\n", inside, END, |BEGIN| + 1 + |text|);
    OnlyAfter(BEGIN + "\n", inside, END, |text|);
    OccursAfter(before, block, END, |before| + |BEGIN| + 1 + |text|);
    OnlyAfter(before, block, END, |BEGIN| + 1 + |text|);
  }

  lemma BlockLines(before: string, rules: seq<string>, after: string)
    requires EndsLine(before)
    ensures OnOwnLine(Around(before, rules, after), |before|, BEGIN)
    ensures OnOwnLine(Around(before, rules, after), |before| + |BEGIN| + 1 + |Terminated(rules)|, END)
  {
    hide Terminated;
    var text, content := Terminated(rules), Around(before, rules, after);
    TerminatedEndsLine(rules);
    var i, j := |before|, |before| + |BEGIN| + 1 + |text|;
    assert content == (before + BEGIN) + "\n" + (text + (END + "\n" + after));
    assert content[i + |BEGIN|] == '\n';
    if i > 0 {
      assert content[i - 1] == before[|before| - 1];
    }
    assert content == (before + BEGIN + "\n" + text + END) + "\n" + after;
    assert content[j + |END|] == '\n';
    if text == "" {
      assert content[j - 1] == '\n';
    } else {
      assert content == (before + BEGIN + "\n" + text) + (END + "\n" + after);
      assert content[j - 1] == text[|text| - 1];
    }
  }

  /** A printed block is well marked exactly when no marker hides in its rules. */
  lemma BlockIsMarkedIff(before: string, rules: seq<string>, after: string)
    requires EndsLine(before) && Unmarked(before) && Unmarked(after)
    ensures WellMarked(Around(before, rules, after)) <==> forall rule :: rule in rules ==> Unmarked(rule)
  {
    hide Occurs, Nowhere, OnOwnLine, Around, Terminated;
    var content, i := Around(before, rules, after), |before|;
    var j := |before| + |BEGIN| + 1 + |Terminated(rules)|;
    BlockMarkers(before, rules, after);
    BlockLines(before, rules, after);
    OneMarker(BEGIN, END);
    OneMarker(END, BEGIN);
    NowhereInRules(rules, BEGIN);
    NowhereInRules(rules, END);
    if forall rule :: rule in rules ==> Unmarked(rule) {
      assert MarkedAt(content, i, j);
    }
    if WellMarked(content) {
      OccursSomewhere(content, BEGIN, i);
      var k: nat, l: nat :| MarkedAt(content, k, l);
      assert k == i && l == j;
    }
  }

  lemma OccursSomewhere(s: string, token: string, k: int)
    requires Occurs(s, token, k)
    ensures !Nowhere(s, token)
  {
  }

  // ---------- What surrounds the block of an acceptable file ----------

  lemma OccursInSlice(s: string, i: nat, j: nat, token: string, k: int)
    requires i <= j <= |s| && Occurs(s[i..j], token, k)
    ensures Occurs(s, token, k + i) && k + i >= i && k + i + |token| <= j
  {
    var slice, n := s[i..j], |token|;
    forall x | 0 <= x < n ensures s[k + i..k + i + n][x] == token[x] {
      assert slice[k..k + n][x] == token[x] && slice[k + x] == s[i + (k + x)];
    }
    assert s[k + i..k + i + n] == token;
  }

  lemma SliceIsUnmarked(s: string, i: nat, j: nat)
    requires i <= j <= |s|
    requires forall k :: Occurs(s, BEGIN, k) || Occurs(s, END, k) ==> k < i || k >= j
    ensures Unmarked(s[i..j])
  {
    hide Occurs;
    forall k ensures !Occurs(s[i..j], BEGIN, k) && !Occurs(s[i..j], END, k) {
      if Occurs(s[i..j], BEGIN, k) {
        OccursInSlice(s, i, j, BEGIN, k);
      }
      if Occurs(s[i..j], END, k) {
        OccursInSlice(s, i, j, END, k);
      }
    }
  }

  lemma OutsideIsUnmarked(existing: string)
    requires MarkersOk(existing)
    ensures EndsLine(Before(existing)) && Unmarked(Before(existing)) && Unmarked(After(existing))
  {
    hide Occurs, Count, OnOwnLine, IsCompleteLineAt, Nowhere;
    MarkersIff(existing);
    OneMarker(BEGIN, END);
    OneMarker(END, BEGIN);
    NowhereInNothing(BEGIN);
    NowhereInNothing(END);
    var found := IndexOf(existing, BEGIN, 0);
    if found.None? {
      UnmarkedFile(existing);
      NowhereInParts(existing, "", BEGIN);
      NowhereInParts(existing, "", END);
      assert existing + "\n" + "" == existing + "\n";
    } else {
      MarkedOutside(existing);
    }
  }

  lemma UnmarkedFile(existing: string)
    requires WellMarked(existing) && IndexOf(existing, BEGIN, 0).None?
    ensures Unmarked(existing)
  {
    hide Occurs, OnOwnLine;
    if i: nat, j: nat :| MarkedAt(existing, i, j) {
      FoundWhereOnly(existing, BEGIN, i);
    }
  }

  lemma MarkedOutside(existing: string)
    requires MarkersOk(existing) && IndexOf(existing, BEGIN, 0).Some?
    ensures EndsLine(Before(existing)) && Unmarked(Before(existing)) && Unmarked(After(existing))
  {
    hide Occurs, IsCompleteLineAt, SuffixIndex, Nowhere, Unmarked, Count;
    MarkersIff(existing);
    FirstOccurs(existing, BEGIN);
    var i: nat, j: nat :| MarkedAt(existing, i, j);
    FoundWhereOnly(existing, BEGIN, i);
    FoundWhereOnly(existing, END, j);
    var suffix := SuffixIndex(existing, j);
    SuffixIsBehind(existing, j);
    SliceIsUnmarked(existing, 0, i);
    SliceIsUnmarked(existing, suffix, |existing|);
    assert existing[0..i] == existing[..i] && existing[suffix..|existing|] == existing[suffix..];
  }

  lemma FirstOccurs(s: string, token: string)
    requires IndexOf(s, token, 0).Some?
    ensures !Nowhere(s, token)
  {
    assert Occurs(s, token, IndexOf(s, token, 0).value);
  }

  lemma SuffixIsBehind(s: string, j: nat)
    requires Occurs(s, END, j)
    ensures SuffixIndex(s, j) >= j + |END|
  {
  }

  // ---------- The lines of an updated file ----------

  lemma {:induction false} LinesOfRules(rules: seq<string>, rest: string)
    requires forall rule :: rule in rules ==> '\n' !in rule
    ensures SplitLines(Terminated(rules) + rest) == rules + SplitLines(rest)
    decreases |rules|
  {
    hide SplitLines;
    if rules == [] {
      assert Terminated(rules) + rest == rest;
      assert rules + SplitLines(rest) == SplitLines(rest);
    } else {
      var more := Terminated(rules[1..]);
      LinesOfRules(rules[1..], rest);
      SplitFirstLine(rules[0], more + rest);
      assert (rules[0] + "\n" + more) + rest == rules[0] + "\n" + (more + rest);
      assert [rules[0]] + (rules[1..] + SplitLines(rest)) == ([rules[0]] + rules[1..]) + SplitLines(rest);
      assert rules == [rules[0]] + rules[1..];
    }
  }

  lemma LinesOfBlock(before: string, rules: seq<string>, after: string)
    requires EndsLine(before) && forall rule :: rule in rules ==> '\n' !in rule
    ensures SplitLines(Around(before, rules, after)) == WholeLines(before) + ([BEGIN] + (rules + ([END] + SplitLines(after))))
  {
    hide SplitLines, Terminated;
    var close := END + "\n" + after;
    OneMarker(BEGIN, END);
    OneMarker(END, BEGIN);
    SplitFirstLine(END, after);
    LinesOfRules(rules, close);
    SplitFirstLine(BEGIN, Terminated(rules) + close);
    LinesAfter(before, BEGIN + "\n" + (Terminated(rules) + close));
  }

  lemma SafeLines(rules: seq<string>)
    requires forall rule :: rule in rules ==> LineSafe(rule)
    ensures RuleLines(rules) == rules && NoStrayReturn(rules)
    decreases |rules|
  {
    if rules != [] {
      SafeLines(rules[1..]);
      assert rules == [rules[0]] + rules[1..];
      KeptLine(rules[0], rules[1..]);
      forall k | 0 <= k < |rules| ensures '\r' !in StripReturn(rules[k]) {
        assert LineSafe(rules[k]);
      }
    }
  }

  lemma CommentLines()
    ensures RuleLines([BEGIN]) == [] && RuleLines([END]) == [] && NoStrayReturn([BEGIN]) && NoStrayReturn([END])
  {
    assert [BEGIN][1..] == [] && [END][1..] == [];
  }

  /** The rule lines of a file around its block, and whether its lines are free of stray carriage returns. */
  lemma RulesAround(before: string, rules: seq<string>, after: string)
    requires EndsLine(before) && forall rule :: rule in rules ==> LineSafe(rule)
    ensures RuleLines(SplitLines(Around(before, rules, after)))
      == RuleLines(WholeLines(before)) + (rules + RuleLines(SplitLines(after)))
    ensures NoStrayReturn(SplitLines(Around(before, rules, after)))
      <==> NoStrayReturn(WholeLines(before)) && NoStrayReturn(SplitLines(after))
  {
    hide SplitLines, RuleLines, NoStrayReturn, WholeLines, Around;
    LinesOfBlock(before, rules, after);
    SafeLines(rules);
    CommentLines();
    var tail := SplitLines(after);
    RulesOfParts([END], tail);
    RulesOfParts(rules, [END] + tail);
    RulesOfParts([BEGIN], rules + ([END] + tail));
    RulesOfParts(WholeLines(before), [BEGIN] + (rules + ([END] + tail)));
    StrayInParts([END], tail);
    StrayInParts(rules, [END] + tail);
    StrayInParts([BEGIN], rules + ([END] + tail));
    StrayInParts(WholeLines(before), [BEGIN] + (rules + ([END] + tail)));
  }

  // ---------- The lines around the block of an acceptable file ----------

  /** The rules of a file outside its managed block. */
  function OutsideRules(existing: string): seq<string>
    requires MarkersOk(existing) && EndsLine(Before(existing))
  {
    RuleLines(WholeLines(Before(existing))) + RuleLines(SplitLines(After(existing)))
  }

  lemma {:induction false} DistinctParts(a: seq<string>, b: seq<string>, c: seq<string>)
    requires Distinct(a + (b + c))
    ensures Distinct(a + c)
  {
    forall j, k | 0 <= j < k < |a + c| ensures (a + c)[j] != (a + c)[k] {
      var s := a + (b + c);
      var l, m := if j < |a| then j else j + |b|, if k < |a| then k else k + |b|;
      assert (a + c)[j] == s[l] && (a + c)[k] == s[m];
    }
  }

  lemma PartsAreValid(check: RuleCheck, a: seq<string>, b: seq<string>, c: seq<string>)
    requires ValidRules(check, a + (b + c))
    ensures ValidRules(check, a + c)
  {
    hide Distinct;
    DistinctParts(a, b, c);
    forall rule | rule in a + c ensures check(rule) {
      assert rule in a + (b + c);
    }
  }

  /** Adding a list of distinct valid rules between others gives a valid list exactly when none is there yet and all fit. */
  lemma JoinIsValidIff(check: RuleCheck, a: seq<string>, b: seq<string>, c: seq<string>)
    requires ValidRules(check, a + c) && ValidRules(check, b)
    ensures ValidRules(check, a + (b + c)) <==> |a + c| + |b| <= 10_000 && forall rule :: rule in b ==> rule !in a + c
  {
    var s := a + (b + c);
    forall rule | rule in s ensures check(rule) {
      assert rule in a + c || rule in b;
    }
    if forall rule :: rule in b ==> rule !in a + c {
      forall j, k | 0 <= j < k < |s| ensures s[j] != s[k] {
        JoinDiffers(check, a, b, c, j, k);
      }
    }
    if rule :| rule in b && rule in a + c {
      var k :| 0 <= k < |b| && b[k] == rule;
      var j :| 0 <= j < |a + c| && (a + c)[j] == rule;
      assert s[|a| + k] == rule && s[if j < |a| then j else j + |b|] == rule;
    }
  }

  lemma JoinDiffers(check: RuleCheck, a: seq<string>, b: seq<string>, c: seq<string>, j: nat, k: nat)
    requires ValidRules(check, a + c) && ValidRules(check, b) && forall rule :: rule in b ==> rule !in a + c
    requires j < k < |a + (b + c)|
    ensures (a + (b + c))[j] != (a + (b + c))[k]
  {
    var s := a + (b + c);
    var inB := (i: nat) => |a| <= i < |a| + |b|;
    var at := (i: nat) => if i < |a| then i else i - |b|;
    if inB(j) && inB(k) {
      assert s[j] == b[j - |a|] && s[k] == b[k - |a|];
    } else if inB(j) {
      assert s[j] == b[j - |a|] && s[j] in b && s[k] == (a + c)[at(k)];
    } else if inB(k) {
      assert s[k] == b[k - |a|] && s[k] in b && s[j] == (a + c)[at(j)];
    } else {
      assert s[j] == (a + c)[at(j)] && s[k] == (a + c)[at(k)];
    }
  }

  /** What surrounds the block of an acceptable file is acceptable itself. */
  lemma OutsideIsValid(check: RuleCheck, existing: string)
    requires ValidateComplete(check, existing).Ok?
    ensures MarkersOk(existing) && EndsLine(Before(existing)) && Unmarked(Before(existing)) && Unmarked(After(existing))
    ensures ValidRules(check, OutsideRules(existing))
    ensures NoStrayReturn(WholeLines(Before(existing))) && NoStrayReturn(SplitLines(After(existing)))
  {
    hide MarkersOk, SplitLines, RuleLines, NoStrayReturn, ValidRules, Before, After, WholeLines, Unmarked;
    ValidFilesHaveGoodMarkers(check, existing);
    OutsideIsUnmarked(existing);
    var middle, last := LinesAround(existing);
    var before, after := WholeLines(Before(existing)), SplitLines(After(existing));
    StrayInParts(before, middle + last);
    StrayInParts(middle, last);
    RulesOfParts(before, middle + last);
    RulesOfParts(middle, last);
    PartsAreValid(check, RuleLines(before), RuleLines(middle), RuleLines(last));
    NothingStray();
  }

  lemma NothingStray()
    ensures NoStrayReturn(SplitLines("")) && RuleLines(SplitLines("")) == [] && RuleLines([]) == []
  {
    NoLines();
  }

  /** The lines of a file: those before its block, some between, and those behind it, if there are any. */
  lemma LinesAround(existing: string) returns (middle: seq<string>, last: seq<string>)
    requires MarkersOk(existing) && EndsLine(Before(existing))
    ensures SplitLines(existing) == WholeLines(Before(existing)) + (middle + last)
    ensures last == SplitLines(After(existing)) || (last == [] && After(existing) == "")
  {
    hide SplitLines, WholeLines, MarkersOk, IndexOf;
    if IndexOf(existing, BEGIN, 0).None? {
      middle, last := UnblockedLines(existing);
    } else {
      middle, last := BlockedLines(existing);
    }
  }

  lemma UnblockedLines(existing: string) returns (middle: seq<string>, last: seq<string>)
    requires MarkersOk(existing) && EndsLine(Before(existing)) && IndexOf(existing, BEGIN, 0).None?
    ensures SplitLines(existing) == WholeLines(Before(existing)) + (middle + last)
    ensures last == [] && After(existing) == ""
  {
    hide SplitLines, MarkersOk;
    NoLines();
    last := [];
    if EndsLine(existing) {
      middle := [""];
      LinesAfter(existing, "");
      assert existing + "" == existing;
    } else {
      middle := [];
      assert Before(existing) == existing + "\n" && (existing + "\n")[..|existing|] == existing;
      assert SplitLines(existing) + ([] + []) == SplitLines(existing);
    }
  }

  lemma BlockedLines(existing: string) returns (middle: seq<string>, last: seq<string>)
    requires MarkersOk(existing) && EndsLine(Before(existing)) && IndexOf(existing, BEGIN, 0).Some?
    ensures SplitLines(existing) == WholeLines(Before(existing)) + (middle + last)
    ensures last == SplitLines(After(existing)) || (last == [] && After(existing) == "")
  {
    hide SplitLines, WholeLines, Occurs, Count, IsCompleteLineAt, Nowhere, EndsLine;
    MarkersIff(existing);
    FirstOccurs(existing, BEGIN);
    var i: nat, j: nat :| MarkedAt(existing, i, j);
    FoundWhereOnly(existing, BEGIN, i);
    FoundWhereOnly(existing, END, j);
    assert Occurs(existing, END, j);
    assert existing == existing[..i] + existing[i..];
    LinesAfter(existing[..i], existing[i..]);
    middle, last := BlockAndAfter(existing, i, j);
  }

  lemma BlockAndAfter(existing: string, i: nat, j: nat) returns (middle: seq<string>, last: seq<string>)
    requires Occurs(existing, END, j) && OnOwnLine(existing, j, END) && i <= j
    ensures SplitLines(existing[i..]) == middle + last
    ensures var after := existing[SuffixIndex(existing, j)..];
      last == SplitLines(after) || (last == [] && after == "")
  {
    hide SplitLines, OnOwnLine, SuffixIndex;
    var suffix, rest := SuffixIndex(existing, j), existing[i..];
    SuffixEnds(existing, j);
    if suffix == |existing| && suffix == j + |END| {
      middle, last := SplitLines(rest), [];
      assert middle + last == middle;
    } else {
      var cut := existing[i..suffix - 1];
      assert rest == cut + "\n" + existing[suffix..];
      LinesOfParts(cut, existing[suffix..]);
      middle, last := SplitLines(cut), SplitLines(existing[suffix..]);
    }
  }

  /** Behind the end marker: the end of the file, or a newline that belongs to the block. */
  lemma SuffixEnds(s: string, j: nat)
    requires Occurs(s, END, j) && OnOwnLine(s, j, END)
    ensures SuffixIndex(s, j) == j + |END| == |s| || (SuffixIndex(s, j) > j + |END| && s[SuffixIndex(s, j) - 1] == '\n')
  {
    OneChar(s, j + |END|);
    TwoChars(s, j + |END|);
  }

  // ---------- When an update succeeds ----------

  /** The new rules are valid, hide no marker, are not among the rules outside the block, and all of it fits in the file. */
  ghost predicate Fits(check: RuleCheck, existing: string, rules: seq<string>)
    requires MarkersOk(existing) && EndsLine(Before(existing))
  {
    && ValidRules(check, rules) && (forall rule :: rule in rules ==> Unmarked(rule))
    && (forall rule :: rule in rules ==> rule !in OutsideRules(existing))
    && |OutsideRules(existing)| + |rules| <= 10_000
    && Utf8Length(Before(existing)) + Utf8Length(Block(rules)) + Utf8Length(After(existing)) <= 1_048_576
  }

  lemma WrittenText(check: RuleCheck, existing: string, rules: seq<string>)
    requires MarkersOk(existing) && ValidRules(check, rules)
    ensures Before(existing) + Block(rules) + After(existing) == Around(Before(existing), Sorted(rules), After(existing))
    ensures Utf8Length(Before(existing) + Block(rules) + After(existing))
      == Utf8Length(Before(existing)) + Utf8Length(Block(rules)) + Utf8Length(After(existing))
  {
    hide MarkersOk, Before, After, Block, Sorted, Terminated, Utf8Length, ValidRules;
    BlockText(check, rules);
    var before, text, after := Before(existing), Terminated(Sorted(rules)), After(existing);
    assert before + (BEGIN + ("\n" + text) + END + "\n") + after == before + (BEGIN + "\n" + (text + (END + "\n" + after)));
    Utf8Adds(before + Block(rules), after);
    Utf8Adds(before, Block(rules));
  }

  lemma SortedHasSame(rules: seq<string>)
    ensures |Sorted(rules)| == |rules| && forall rule :: rule in Sorted(rules) <==> rule in rules
  {
    assert |multiset(Sorted(rules))| == |multiset(rules)|;
    forall rule ensures rule in Sorted(rules) <==> rule in rules {
      assert rule in multiset(Sorted(rules)) <==> rule in multiset(rules);
    }
  }

  lemma SortedIsValid(check: RuleCheck, rules: seq<string>)
    requires ValidRules(check, rules)
    ensures ValidRules(check, Sorted(rules))
  {
    hide Sorted;
    SortedHasSame(rules);
    DistinctStays(rules, Sorted(rules));
  }

  lemma DistinctStays(a: seq<string>, b: seq<string>)
    requires Distinct(a) && multiset(a) == multiset(b)
    ensures Distinct(b)
  {
    forall j, k | 0 <= j < k < |b| ensures b[j] != b[k] {
      DistinctCounts(a, b[j]);
      if b[j] == b[k] {
        TwoOfAKind(b, j, k);
      }
    }
  }

  lemma TwoOfAKind(s: seq<string>, j: nat, k: nat)
    requires j < k < |s| && s[j] == s[k]
    ensures multiset(s)[s[j]] >= 2
  {
    assert s == s[..k] + s[k..];
    assert s[j] in s[..k] && s[k] in s[k..];
  }

  /**
   An update of an acceptable file succeeds exactly when the new rules are valid, hide no marker, do not repeat a rule
   outside the block, and everything fits.
   */
  lemma UpdateSucceedsIff(check: RuleCheck, existing: string, rules: seq<string>)
    requires ValidateComplete(check, existing).Ok?
    ensures MarkersOk(existing) && EndsLine(Before(existing))
    ensures Update(check, existing, rules).Ok? <==> Fits(check, existing, rules)
  {
    hide MarkersOk, Before, After, Block, Sorted, Utf8Length, SplitLines, RuleLines, NoStrayReturn, ValidRules,
        Unmarked, WholeLines,
      Around;
    OutsideIsValid(check, existing);
    if ValidRules(check, rules) {
      var before, sorted, after := Before(existing), Sorted(rules), After(existing);
      var content := before + Block(rules) + after;
      WrittenText(check, existing, rules);
      SortedHasSame(rules);
      SortedIsValid(check, rules);
      SortedRulesAreLineSafe(check, rules);
      MarkersIff(content);
      BlockIsMarkedIff(before, sorted, after);
      RulesAround(before, sorted, after);
      JoinIsValidIff(check, RuleLines(WholeLines(before)), sorted, RuleLines(SplitLines(after)));
    }
  }
}
