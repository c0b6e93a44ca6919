/**
 * The syntax highlighter of the name editor (class PrefHighlighter of
 * raphodo/nameeditor.py): it finds every `<label>` token in the editor's text
 * and records where each one starts and ends, in a sorted list.
 */
module NameEditorHighlighter {
  import opened PyStr
  import opened NameEditorPrefs

  // ---------------------------------------------------------------------------
  // find_all

  /**
   * The positions `find_all` yields when the search resumes at `start`: each
   * match found by `text.find`, the next search resuming after the match.
   */
  function Occurrences(text: string, pat: string, start: nat): seq<int>
    requires |pat| > 0
    decreases |text| - start
  {
    var i := Find(text, pat, start);
    if i == -1 then []
    else [i] + Occurrences(text, pat, i + |pat|)
  }

  /** Every position yielded is a match at or after `start`, and each comes after the previous match ends. */
  lemma {:induction false} OccurrencesMatch(text: string, pat: string, start: nat)
    requires |pat| > 0
    ensures forall k :: 0 <= k < |Occurrences(text, pat, start)| ==>
              start <= Occurrences(text, pat, start)[k] && OccursAt(text, pat, Occurrences(text, pat, start)[k])
    ensures forall k, m :: 0 <= k < m < |Occurrences(text, pat, start)| ==>
              Occurrences(text, pat, start)[k] + |pat| <= Occurrences(text, pat, start)[m]
    decreases |text| - start
  {
    var i := Find(text, pat, start);
    if i != -1 {
      OccurrencesMatch(text, pat, i + |pat|);
      var rest := Occurrences(text, pat, i + |pat|);
      var r := Occurrences(text, pat, start);
      assert r == [i] + rest;
      forall k | 0 <= k < |r|
        ensures start <= r[k] && OccursAt(text, pat, r[k])
      {
        if k > 0 {
          assert r[k] == rest[k - 1];
        }
      }
      forall k, m | 0 <= k < m < |r|
        ensures r[k] + |pat| <= r[m]
      {
        assert r[m] == rest[m - 1];
        if k > 0 {
          assert r[k] == rest[k - 1];
        }
      }
    }
  }

  /** Everything `find_all` yields: nothing for an empty pattern, else the matches from the start of the text. */
  function AllOccurrences(text: string, pat: string): seq<int> {
    if |pat| == 0 then [] else Occurrences(text, pat, 0)
  }

  /**
   * The scan misses no match it does not overlap: every occurrence at or after
   * `start` lies within a yielded match, the `k`-th, and is that match when it
   * starts where the match starts.
   */
  lemma {:induction false} OccurrencesComplete(text: string, pat: string, start: nat, j: int) returns (k: nat)
    requires |pat| > 0 && start <= j && OccursAt(text, pat, j)
    ensures k < |Occurrences(text, pat, start)|
    ensures Occurrences(text, pat, start)[k] <= j < Occurrences(text, pat, start)[k] + |pat|
    decreases |text| - start
  {
    var i := Find(text, pat, start);
    assert i != -1 && i <= j;
    var rest := Occurrences(text, pat, i + |pat|);
    var all := Occurrences(text, pat, start);
    assert all == [i] + rest;
    if j < i + |pat| {
      k := 0;
      assert all[k] == i;
    } else {
      var m := OccurrencesComplete(text, pat, i + |pat|, j);
      k := m + 1;
      assert all[k] == rest[m];
    }
  }

  /** Nothing is yielded once no match remains, and the matches are yielded in increasing order, none overlapping. */
  lemma AllOccurrencesOrdered(text: string, pat: string)
    ensures forall k :: 0 <= k < |AllOccurrences(text, pat)| ==> OccursAt(text, pat, AllOccurrences(text, pat)[k])
    ensures forall k, m :: 0 <= k < m < |AllOccurrences(text, pat)| ==>
              AllOccurrences(text, pat)[k] + |pat| <= AllOccurrences(text, pat)[m]
    ensures |pat| == 0 ==> AllOccurrences(text, pat) == []
    ensures (forall j :: !OccursAt(text, pat, j)) ==> AllOccurrences(text, pat) == []
  {
    if |pat| > 0 {
      OccurrencesMatch(text, pat, 0);
      if forall j :: !OccursAt(text, pat, j) {
        assert Find(text, pat, 0) == -1;
      }
    }
  }

  /** The `m`-th position yielded is a match. */
  lemma OccurrenceMatches(text: string, pat: string, m: int)
    requires 0 <= m < |AllOccurrences(text, pat)|
    ensures OccursAt(text, pat, AllOccurrences(text, pat)[m])
  {
    OccurrencesMatch(text, pat, 0);
  }

  // ---------------------------------------------------------------------------
  // The boundaries of one block

  /** The rule for a pref label: its text as it appears in the editor, `<label>`. */
  function RuleText(pref: string): string {
    "<" + pref + ">"
  }

  /** The `(start, end)` pairs of matches of a pattern of length `len` at the given positions. */
  function Spans(positions: seq<int>, len: int): seq<Boundary> {
    seq(|positions|, k requires 0 <= k < |positions| => (positions[k], positions[k] + len - 1))
  }

  /** Every boundary `highlightBlock` records for the first `n` rules, rule by rule. */
  function RuleBoundaries(text: string, rules: seq<string>, n: nat): seq<Boundary>
    requires n <= |rules|
  {
    if n == 0 then []
    else RuleBoundaries(text, rules, n - 1) + Spans(AllOccurrences(text, rules[n - 1]), |rules[n - 1]|)
  }

  /**
   * A boundary recorded for a rule is a token for the editor: it frames
   * `<label>` with the label in the editor's table.
   */
  lemma RuleBoundariesAreTokens(text: string, labels: seq<string>, table: map<string, Triple>)
    requires forall l :: l in labels ==> l in table
    ensures AllTokens(text, RuleBoundaries(text, Rules(labels), |labels|), table)
  {
    var rules := Rules(labels);
    var all := RuleBoundaries(text, rules, |labels|);
    forall j | 0 <= j < |all|
      ensures IsToken(text, all[j], table)
    {
      RuleBoundaryIsToken(text, labels, rules, table, |labels|, j);
    }
  }

  /** One boundary recorded for the first `n` rules is a token. */
  lemma {:induction false} RuleBoundaryIsToken(text: string, labels: seq<string>, rules: seq<string>,
                                               table: map<string, Triple>, n: nat, j: int)
    requires forall l :: l in labels ==> l in table
    requires |rules| == |labels| && forall k :: 0 <= k < |rules| ==> rules[k] == RuleText(labels[k])
    requires n <= |rules| && 0 <= j < |RuleBoundaries(text, rules, n)|
    ensures IsToken(text, RuleBoundaries(text, rules, n)[j], table)
  {
    var earlier := RuleBoundaries(text, rules, n - 1);
    var spans := Spans(AllOccurrences(text, rules[n - 1]), |rules[n - 1]|);
    assert RuleBoundaries(text, rules, n) == earlier + spans;
    if j < |earlier| {
      RuleBoundaryIsToken(text, labels, rules, table, n - 1, j);
      assert RuleBoundaries(text, rules, n)[j] == earlier[j];
    } else {
      var pref := labels[n - 1];
      assert pref in labels;
      assert rules[n - 1] == RuleText(pref);
      RuleMatchIsToken(text, pref, table, j - |earlier|);
    }
  }

  /** The span of the `m`-th match of `<pref>` is a token when `pref` is a known label. */
  lemma RuleMatchIsToken(text: string, pref: string, table: map<string, Triple>, m: int)
    requires pref in table
    requires 0 <= m < |AllOccurrences(text, RuleText(pref))|
    ensures IsToken(text, Spans(AllOccurrences(text, RuleText(pref)), |RuleText(pref)|)[m], table)
  {
    OccurrenceMatches(text, RuleText(pref), m);
    RuleSpanIsToken(text, pref, AllOccurrences(text, RuleText(pref))[m], table);
  }

  /** A match of `<label>` at `i` is a token spanning `i` to `i + |label| + 1`. */
  lemma RuleSpanIsToken(text: string, pref: string, i: int, table: map<string, Triple>)
    requires OccursAt(text, RuleText(pref), i) && pref in table
    ensures IsToken(text, (i, i + |RuleText(pref)| - 1), table)
  {
    var w := text[i..i + |pref| + 2];
    assert w == "<" + pref + ">";
    assert text[i] == w[0] == '<';
    assert text[i + |pref| + 1] == w[|pref| + 1] == '>';
    assert forall m :: 0 <= m < |pref| ==> w[1..|pref| + 1][m] == w[m + 1] == pref[m];
    assert text[i + 1..i + |pref| + 1] == w[1..|pref| + 1] == pref;
  }

  /** The rules of the highlighter: one per label, in the order of the labels. */
  function Rules(labels: seq<string>): seq<string> {
    seq(|labels|, k requires 0 <= k < |labels| => RuleText(labels[k]))
  }

  // ---------------------------------------------------------------------------
  // SortedList.add

  /** Adding to a sorted list keeps it sorted and adds exactly the one element. */
  function Insert(b: seq<Boundary>, x: Boundary): (r: seq<Boundary>)
    requires Sorted(b)
    ensures Sorted(r)
    ensures multiset(r) == multiset(b) + multiset{x}
  {
    if |b| == 0 then [x]
    else if Below(x, b[0]) then
      assert forall k :: 0 <= k < |b| ==> !Below(b[k], b[0]);
      [x] + b
    else
      var rest := Insert(b[1..], x);
      InsertAfterHead(b, x, rest);
      [b[0]] + rest
  }

  lemma InsertAfterHead(b: seq<Boundary>, x: Boundary, rest: seq<Boundary>)
    requires Sorted(b) && |b| > 0 && !Below(x, b[0])
    requires Sorted(rest) && multiset(rest) == multiset(b[1..]) + multiset{x}
    ensures Sorted([b[0]] + rest)
    ensures multiset([b[0]] + rest) == multiset(b) + multiset{x}
  {
    assert b == [b[0]] + b[1..];
    var r := [b[0]] + rest;
    forall j | 1 <= j < |r|
      ensures !Below(r[j], b[0])
    {
      assert r[j] == rest[j - 1];
      assert r[j] in multiset(rest);
      if r[j] != x {
        assert r[j] in multiset(b[1..]);
        var m :| 1 <= m < |b| && b[m] == r[j];
      }
    }
    forall i, j | 0 <= i < j < |r|
      ensures !Below(r[j], r[i])
    {
      if i > 0 {
        assert r[i] == rest[i - 1] && r[j] == rest[j - 1];
      }
    }
  }

  // ---------------------------------------------------------------------------
  // The highlighter

  class PrefHighlighter {
    /** The highlighting rules: each rule's text and its colour (the colour stands for the rule's text format). */
    const rules: seq<(string, string)>
    /** Where the tokens of the last highlighted block start and end, sorted. */
    var boundaries: seq<Boundary>

    /** The texts of the rules. */
    function Patterns(): seq<string> {
      PatternsOf(rules)
    }

    /** One rule per label, `<label>` with that text's colour; the colour table must hold every rule's text. */
    constructor (prefDefnStrings: seq<string>, prefColor: map<string, string>)
      requires forall l :: l in prefDefnStrings ==> RuleText(l) in prefColor
      ensures |rules| == |prefDefnStrings|
      ensures forall k :: 0 <= k < |rules| ==> rules[k] == (RuleText(prefDefnStrings[k]), prefColor[RuleText(prefDefnStrings[k])])
      ensures Patterns() == Rules(prefDefnStrings)
      ensures boundaries == []
    {
      var made: seq<(string, string)> := [];
      for i := 0 to |prefDefnStrings|
        invariant |made| == i
        invariant forall k :: 0 <= k < i ==> made[k] == (RuleText(prefDefnStrings[k]), prefColor[RuleText(prefDefnStrings[k])])
      {
        var pref := RuleText(prefDefnStrings[i]);
        made := made + [(pref, prefColor[pref])];
      }
      rules := made;
      boundaries := [];
      new;
      assert PatternsOf(rules) == Rules(prefDefnStrings);
    }

    /** `find_all`: the match positions `text.find` visits, each search resuming after the previous match. */
    method FindAll(text: string, pat: string) returns (positions: seq<int>)
      ensures positions == AllOccurrences(text, pat)
    {
      positions := [];
      if |pat| == 0 {
        return;
      }
      var start := 0;
      while true
        invariant 0 <= start <= |text| + |pat|
        invariant positions + Occurrences(text, pat, start) == Occurrences(text, pat, 0)
        decreases |text| + |pat| - start
      {
        var found := Find(text, pat, start);
        OccurrencesStep(text, pat, start, positions, found);
        if found == -1 {
          return;
        }
        positions := positions + [found];
        start := found + |pat|;
      }
    }

    /**
     * `highlightBlock`: rebuilds the boundaries from scratch, adding
     * `(i, i + length - 1)` for every match `i` of every rule; the list
     * stays sorted and holds exactly those pairs.
     */
    method HighlightBlock(text: string)
      modifies this`boundaries
      ensures Sorted(boundaries)
      ensures multiset(boundaries) == multiset(RuleBoundaries(text, Patterns(), |rules|))
    {
      boundaries := [];
      for r := 0 to |rules|
        invariant Sorted(boundaries)
        invariant multiset(boundaries) == multiset(RuleBoundaries(text, Patterns(), r))
      {
        AddMatches(text, rules[r].0);
      }
    }

    /** `self.boundaries.add`: the pair joins the sorted list. */
    method AddBoundary(bd: Boundary)
      requires Sorted(boundaries)
      modifies this`boundaries
      ensures Sorted(boundaries)
      ensures multiset(boundaries) == multiset(old(boundaries)) + multiset{bd}
    {
      boundaries := Insert(boundaries, bd);
    }

    /** The inner loop of `highlightBlock`: one boundary per match of one rule's text. */
    method AddMatches(text: string, expression: string)
      requires Sorted(boundaries)
      modifies this`boundaries
      ensures Sorted(boundaries)
      ensures multiset(boundaries) == multiset(old(boundaries)) + multiset(Spans(AllOccurrences(text, expression), |expression|))
    {
      var found := FindAll(text, expression);
      ghost var start := multiset(boundaries);
      ghost var added: multiset<Boundary> := multiset{};
      for k := 0 to |found|
        invariant Sorted(boundaries)
        invariant added == multiset(Spans(found[..k], |expression|))
        invariant multiset(boundaries) == start + added
      {
        var index := found[k];
        var length := |expression|;
        AddBoundary((index, index + length - 1));
        SpansSnoc(found, k, length);
        added := added + multiset{(index, index + length - 1)};
      }
      assert found[..|found|] == found;
    }
  }

  /** One turn of `find_all`'s loop: the match found is the next position yielded, or there is none left. */
  lemma OccurrencesStep(text: string, pat: string, start: nat, positions: seq<int>, found: int)
    requires |pat| > 0 && found == Find(text, pat, start)
    ensures found == -1 ==> positions == positions + Occurrences(text, pat, start)
    ensures found != -1 ==> start <= found && found + |pat| <= |text|
    ensures found != -1 ==>
              (positions + [found]) + Occurrences(text, pat, found + |pat|) == positions + Occurrences(text, pat, start)
  {
    var all := Occurrences(text, pat, start);
    if found == -1 {
      assert all == [];
      assert positions + [] == positions;
    } else {
      assert OccursAt(text, pat, found);
      var rest := Occurrences(text, pat, found + |pat|);
      assert all == [found] + rest;
      assert (positions + [found]) + rest == positions + ([found] + rest);
    }
  }

  /** One more position adds its span to the multiset of spans. */
  lemma SpansSnoc(found: seq<int>, k: nat, len: int)
    requires k < |found|
    ensures multiset(Spans(found[..k + 1], len)) == multiset(Spans(found[..k], len)) + multiset{(found[k], found[k] + len - 1)}
  {
    assert found[..k + 1][..k] == found[..k];
    var spans := Spans(found[..k], len);
    assert Spans(found[..k + 1], len) == spans + [(found[k], found[k] + len - 1)];
  }

  function PatternsOf(rules: seq<(string, string)>): seq<string> {
    seq(|rules|, k requires 0 <= k < |rules| => rules[k].0)
  }

  /**
   * What the editor's `generatePrefList` needs of the highlighter: every
   * boundary it records frames a `<label>` of a label it was built with.
   */
  lemma HighlightedAreTokens(text: string, labels: seq<string>, table: map<string, Triple>, b: seq<Boundary>)
    requires forall l :: l in labels ==> l in table
    requires multiset(b) == multiset(RuleBoundaries(text, Rules(labels), |labels|))
    ensures AllTokens(text, b, table)
  {
    var all := RuleBoundaries(text, Rules(labels), |labels|);
    RuleBoundariesAreTokens(text, labels, table);
    forall i | 0 <= i < |b|
      ensures IsToken(text, b[i], table)
    {
      assert b[i] in multiset(all);
      var j :| 0 <= j < |all| && all[j] == b[i];
    }
  }
}
