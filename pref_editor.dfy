/**
 * The text model behind the file-renaming and subfolder editor (class
 * PrefEditor of raphodo/nameeditor.py). The user edits plain text in which
 * pref values appear as `<label>` tokens; the highlighter reports where the
 * tokens are as sorted `(start, end)` boundaries, and the editor turns text plus
 * boundaries into the flat pref list `[kind, value, variant, kind, ...]` with
 * one colour per triple, and turns a pref list back into text.
 */
module NameEditorPrefs {
  import opened Wrappers
  import opened PyStr

  /** A token's first and last character positions, the `<` and the `>`. */
  type Boundary = (int, int)

  type Triple = (string, string, string)

  /**
   * The constants TEXT and SEPARATOR of generatenameconfig, which are not part
   * of this model, and the path separator `os.sep`.
   */
  datatype PrefConfig = PrefConfig(text: string, separator: string, sep: char)

  // ---------------------------------------------------------------------------
  // Boundaries and locatePrefValue

  /** The tuple order a SortedList keeps the boundaries in. */
  predicate Below(x: Boundary, y: Boundary) {
    x.0 < y.0 || (x.0 == y.0 && x.1 < y.1)
  }

  predicate Sorted(b: seq<Boundary>) {
    forall i, j :: 0 <= i < j < |b| ==> !Below(b[j], b[i])
  }

  /** Boundaries as the highlighter makes them: a token starts at or after 0 and ends at or after its start. */
  predicate WellFormed(b: seq<Boundary>) {
    forall i :: 0 <= i < |b| ==> 0 <= b[i].0 <= b[i].1
  }

  /** `SortedList.bisect_left(key)`: the first index whose boundary is not below `key`. */
  function BisectLeft(b: seq<Boundary>, key: Boundary): (i: nat)
    requires Sorted(b)
    ensures i <= |b|
    ensures forall j :: 0 <= j < i ==> Below(b[j], key)
    ensures forall j :: i <= j < |b| ==> !Below(b[j], key)
  {
    if |b| == 0 || !Below(b[0], key) then 0
    else
      var i := 1 + BisectLeft(b[1..], key);
      assert forall j :: 1 <= j < |b| ==> b[1..][j - 1] == b[j];
      i
  }

  datatype PrefPosition = NotHere | At | OnLeft | OnLeftAndAt | PositionedIn

  /** The 5-tuple `(pref_position, start, end, left_start, left_end)`; -1 marks a position not found. */
  datatype Location = Location(position: PrefPosition, start: int, end: int, leftStart: int, leftEnd: int)

  /**
   * `locatePrefValue`: where the pref values lie relative to a cursor
   * position. A token found at or around the position is reported in
   * `start`/`end`, a token ending just before it in `leftStart`/`leftEnd`;
   * both are boundaries, and the position is reported as `at` (or
   * `on_left_and_at`) exactly when some token starts there.
   */
  function LocatePrefValue(b: seq<Boundary>, position: int): (r: Location)
    requires Sorted(b) && WellFormed(b) && position >= 0
    ensures |b| == 0 ==> r == Location(NotHere, -1, -1, -1, -1)
    ensures r.position in {At, OnLeftAndAt, PositionedIn} ==> (r.start, r.end) in b
    ensures r.position !in {At, OnLeftAndAt, PositionedIn} ==> r.start == -1 && r.end == -1
    ensures r.position in {OnLeft, OnLeftAndAt} ==> (r.leftStart, r.leftEnd) in b && r.leftEnd == position - 1
    ensures r.position !in {OnLeft, OnLeftAndAt} ==> r.leftStart == -1 && r.leftEnd == -1
    ensures r.position in {At, OnLeftAndAt} ==> r.start == position
    ensures r.position == PositionedIn ==> r.start < position <= r.end
    ensures (exists j :: 0 <= j < |b| && b[j].0 == position) <==> r.position in {At, OnLeftAndAt}
  {
    if |b| == 0 then Location(NotHere, -1, -1, -1, -1)
    else
      var index := BisectLeft(b, (position, 0));
      if index == 0 then
        if b[0].0 == position then Location(At, b[0].0, b[0].1, -1, -1)
        else Location(NotHere, -1, -1, -1, -1)
      else if index == |b| then
        var last := b[|b| - 1];
        if position <= last.1 then Location(PositionedIn, last.0, last.1, -1, -1)
        else if last.1 == position - 1 then Location(OnLeft, -1, -1, last.0, last.1)
        else Location(NotHere, -1, -1, -1, -1)
      else
        var left := b[index - 1];
        var right := b[index];
        var at := right.0 == position;
        var toLeft := left.1 == position - 1;
        if at && toLeft then Location(OnLeftAndAt, right.0, right.1, left.0, left.1)
        else if at then Location(At, right.0, right.1, -1, -1)
        else if toLeft then Location(OnLeft, -1, -1, left.0, left.1)
        else if position <= left.1 then Location(PositionedIn, left.0, left.1, -1, -1)
        else Location(NotHere, -1, -1, -1, -1)
  }

  // ---------------------------------------------------------------------------
  // From pref list to text: displayPrefList

  /**
   * The text of one triple: the `<label>` of a mapped pref value, the
   * SEPARATOR itself, or the text of a TEXT triple; any other triple fails
   * the source's assertion.
   */
  function TripleValue(cfg: PrefConfig, mapper: map<Triple, string>, t: Triple): Option<string> {
    if t in mapper then Some("<" + mapper[t] + ">")
    else if t.0 == cfg.separator then Some(cfg.separator)
    else if t.0 == cfg.text then Some(t.1)
    else None
  }

  /** Both texts, one after the other, when neither failed. */
  function AppendText(a: Option<string>, b: Option<string>): Option<string> {
    if a.Some? && b.Some? then Some(a.value + b.value) else None
  }

  lemma AppendAssoc(a: Option<string>, b: Option<string>, c: Option<string>)
    ensures AppendText(a, AppendText(b, c)) == AppendText(AppendText(a, b), c)
  {
    if a.Some? && b.Some? && c.Some? {
      assert a.value + (b.value + c.value) == a.value + b.value + c.value;
    }
  }

  lemma AppendEmpty(a: Option<string>)
    ensures AppendText(Some(""), a) == a
    ensures AppendText(a, Some("")) == a
  {
    if a.Some? {
      assert "" + a.value == a.value;
      assert a.value + "" == a.value;
    }
  }

  /** The text `displayPrefList` shows for a pref list, or None when the list is malformed. */
  function Display(cfg: PrefConfig, mapper: map<Triple, string>, p: seq<string>): Option<string>
    decreases |p|
  {
    if |p| == 0 then Some("")
    else if |p| < 3 then None
    else AppendText(TripleValue(cfg, mapper, (p[0], p[1], p[2])), Display(cfg, mapper, p[3..]))
  }

  /** A list of one triple shows that triple's text. */
  lemma DisplayOne(cfg: PrefConfig, mapper: map<Triple, string>, t: Triple)
    ensures Display(cfg, mapper, [t.0, t.1, t.2]) == TripleValue(cfg, mapper, t)
  {
    var p := [t.0, t.1, t.2];
    assert p[3..] == [];
    AppendEmpty(TripleValue(cfg, mapper, t));
  }

  /** Displaying two whole lists of triples one after the other shows their texts one after the other. */
  lemma {:induction false} DisplayAppend(cfg: PrefConfig, mapper: map<Triple, string>, x: seq<string>, y: seq<string>, n: nat)
    requires |x| == 3 * n
    ensures Display(cfg, mapper, x + y) == AppendText(Display(cfg, mapper, x), Display(cfg, mapper, y))
    decreases |x|
  {
    if |x| == 0 {
      assert x + y == y;
      AppendEmpty(Display(cfg, mapper, y));
    } else {
      var xy := x + y;
      assert xy[0] == x[0] && xy[1] == x[1] && xy[2] == x[2];
      assert xy[3..] == x[3..] + y;
      DisplayAppend(cfg, mapper, x[3..], y, n - 1);
      AppendAssoc(TripleValue(cfg, mapper, (x[0], x[1], x[2])), Display(cfg, mapper, x[3..]), Display(cfg, mapper, y));
    }
  }

  // ---------------------------------------------------------------------------
  // From text to pref list: _parseTextFragment and generatePrefList

  /** The pref list and the colour list the editor builds side by side. */
  datatype UserPrefs = UserPrefs(list: seq<string>, colors: seq<string>)

  function Join2(a: UserPrefs, b: UserPrefs): UserPrefs {
    UserPrefs(a.list + b.list, a.colors + b.colors)
  }

  lemma Join2Assoc(a: UserPrefs, b: UserPrefs, c: UserPrefs)
    ensures Join2(Join2(a, b), c) == Join2(a, Join2(b, c))
  {
    assert a.list + b.list + c.list == a.list + (b.list + c.list);
    assert a.colors + b.colors + c.colors == a.colors + (b.colors + c.colors);
  }

  /** A list is whole triples with one colour per triple. */
  predicate Balanced(u: UserPrefs) {
    |u.list| == 3 * |u.colors|
  }

  /** Displaying two pref lists one after the other shows their texts one after the other. */
  lemma DisplayJoin(cfg: PrefConfig, mapper: map<Triple, string>, u: UserPrefs, v: UserPrefs)
    requires Balanced(u)
    ensures Display(cfg, mapper, Join2(u, v).list) == AppendText(Display(cfg, mapper, u.list), Display(cfg, mapper, v.list))
  {
    DisplayAppend(cfg, mapper, u.list, v.list, |u.colors|);
  }

  /** A TEXT triple for a non-empty piece, with its empty colour. */
  function TextPrefs(cfg: PrefConfig, piece: string): (r: UserPrefs)
    ensures Balanced(r)
  {
    if piece != "" then UserPrefs([cfg.text, piece, ""], [""]) else UserPrefs([], [])
  }

  /** A SEPARATOR triple, with its empty colour, when more pieces follow. */
  function SeparatorPrefs(cfg: PrefConfig, more: bool): (r: UserPrefs)
    ensures Balanced(r)
  {
    if more then UserPrefs([cfg.separator, "", ""], [""]) else UserPrefs([], [])
  }

  /** What subfolder mode adds for the first `n` pieces of a fragment split on the path separator. */
  function PiecesPrefs(cfg: PrefConfig, pieces: seq<string>, n: nat): (r: UserPrefs)
    requires n <= |pieces|
    ensures Balanced(r)
  {
    if n == 0 then UserPrefs([], [])
    else
      Join2(PiecesPrefs(cfg, pieces, n - 1),
            Join2(TextPrefs(cfg, pieces[n - 1]), SeparatorPrefs(cfg, n - 1 < |pieces| - 1)))
  }

  /**
   * The triples and colours `_parseTextFragment` adds: in subfolder mode a
   * TEXT triple for every non-empty piece between separators and a SEPARATOR
   * triple between pieces; in file-name mode one TEXT triple, even for an
   * empty fragment.
   */
  function FragmentPrefs(cfg: PrefConfig, subfolder: bool, fragment: string): (r: UserPrefs)
    ensures Balanced(r)
  {
    if subfolder then
      var pieces := Split(fragment, cfg.sep);
      PiecesPrefs(cfg, pieces, |pieces|)
    else
      UserPrefs([cfg.text, fragment, ""], [""])
  }

  /** A boundary that frames `<label>` for a label the editor knows. */
  predicate IsToken(text: string, bd: Boundary, labels: map<string, Triple>) {
    0 <= bd.0 < bd.1 < |text| && text[bd.0] == '<' && text[bd.1] == '>' && text[bd.0 + 1..bd.1] in labels
  }

  predicate AllTokens(text: string, b: seq<Boundary>, labels: map<string, Triple>) {
    forall i :: 0 <= i < |b| ==> IsToken(text, b[i], labels)
  }

  /** The editor's tables: pref values and their labels, and the colour of every `<label>`. */
  datatype Tables = Tables(mapper: map<Triple, string>, labels: map<string, Triple>, colors: map<string, string>)

  /**
   * `string_to_pref_mapper` inverts `pref_mapper`, and the highlighter was
   * built with a colour for every label.
   */
  predicate TablesValid(t: Tables) {
    && (forall k :: k in t.labels ==> t.labels[k] in t.mapper && t.mapper[t.labels[k]] == k)
    && (forall v :: v in t.mapper ==> t.mapper[v] in t.labels)
    && (forall k :: k in t.labels ==> "<" + k + ">" in t.colors)
  }

  /** The text of a token, `<` label `>`, has a colour. */
  lemma TokenColored(t: Tables, text: string, bd: Boundary)
    requires TablesValid(t) && IsToken(text, bd, t.labels)
    ensures text[bd.0..bd.1 + 1] in t.colors
  {
    var k := text[bd.0 + 1..bd.1];
    assert text[bd.0..bd.1 + 1] == "<" + k + ">";
  }

  /** The tables are consistent and every boundary frames a `<label>` they know. */
  predicate Tokenized(t: Tables, text: string, b: seq<Boundary>) {
    TablesValid(t) && WellFormed(b) && AllTokens(text, b, t.labels)
  }

  /** The pref triple and the colour `generatePrefList` adds for a token. */
  function TokenPrefs(t: Tables, text: string, bd: Boundary): (r: UserPrefs)
    requires TablesValid(t) && IsToken(text, bd, t.labels)
    ensures Balanced(r)
  {
    TokenColored(t, text, bd);
    var v := t.labels[text[bd.0 + 1..bd.1]];
    UserPrefs([v.0, v.1, v.2], [t.colors[text[bd.0..bd.1 + 1]]])
  }

  /** The text between token `i` and token `i + 1`. */
  function Gap(text: string, b: seq<Boundary>, i: nat): string
    requires i + 1 < |b| && WellFormed(b)
  {
    Slice(text, b[i].1 + 1, b[i + 1].0)
  }

  /** What one turn of the loop of `generatePrefList` adds: the `i`-th token and the text up to the next one. */
  function Step(cfg: PrefConfig, subfolder: bool, t: Tables, text: string, b: seq<Boundary>, i: nat): (r: UserPrefs)
    requires Tokenized(t, text, b)
    requires i + 1 < |b|
    ensures Balanced(r)
  {
    Join2(TokenPrefs(t, text, b[i]), FragmentPrefs(cfg, subfolder, Gap(text, b, i)))
  }

  /** What the loop of `generatePrefList` adds for the first `n` tokens and the text after each. */
  function Segments(cfg: PrefConfig, subfolder: bool, t: Tables, text: string, b: seq<Boundary>, n: nat): (r: UserPrefs)
    requires Tokenized(t, text, b)
    requires n < |b|
    ensures Balanced(r)
  {
    if n == 0 then UserPrefs([], [])
    else
      Join2(Segments(cfg, subfolder, t, text, b, n - 1), Step(cfg, subfolder, t, text, b, n - 1))
  }

  /** One more turn of the loop adds one step to what came before. */
  lemma SegmentsSnoc(cfg: PrefConfig, subfolder: bool, t: Tables, text: string, b: seq<Boundary>, i: nat, start: UserPrefs)
    requires Tokenized(t, text, b) && i + 1 < |b|
    ensures Join2(Join2(start, Segments(cfg, subfolder, t, text, b, i)), Step(cfg, subfolder, t, text, b, i))
            == Join2(start, Segments(cfg, subfolder, t, text, b, i + 1))
  {
    Join2Assoc(start, Segments(cfg, subfolder, t, text, b, i), Step(cfg, subfolder, t, text, b, i));
  }

  /** The text before the first token, when there is some. */
  function Leading(cfg: PrefConfig, subfolder: bool, text: string, b: seq<Boundary>): (r: UserPrefs)
    ensures Balanced(r)
  {
    if |b| > 0 && b[0].0 > 0 then FragmentPrefs(cfg, subfolder, Slice(text, 0, b[0].0)) else UserPrefs([], [])
  }

  /** Where the text after the last token starts: after its `>`, or 0 without tokens. */
  function Final(b: seq<Boundary>): int {
    if |b| > 0 then b[|b| - 1].1 + 1 else 0
  }

  /** The text after the last token, when there is some. */
  function Trailing(cfg: PrefConfig, subfolder: bool, text: string, b: seq<Boundary>): (r: UserPrefs)
    requires WellFormed(b)
    ensures Balanced(r)
  {
    if Final(b) < |text| then FragmentPrefs(cfg, subfolder, text[Final(b)..]) else UserPrefs([], [])
  }

  /**
   * The pref list and colours `generatePrefList` builds from the text and the
   * highlighter's boundaries: the leading text, then each token followed by
   * the text up to the next token, then the last token and the trailing text.
   */
  function GeneratedPrefs(cfg: PrefConfig, subfolder: bool, t: Tables, text: string, b: seq<Boundary>): UserPrefs
    requires Tokenized(t, text, b)
  {
    var lead := Leading(cfg, subfolder, text, b);
    var trail := Trailing(cfg, subfolder, text, b);
    if |b| == 0 then Join2(lead, trail)
    else
      Join2(Join2(lead, Segments(cfg, subfolder, t, text, b, |b| - 1)),
            Join2(TokenPrefs(t, text, b[|b| - 1]), trail))
  }

  /**
   * The assertion that ends `generatePrefList`: there are as many colours as
   * triples, whatever the text and boundaries.
   */
  lemma GeneratedBalanced(cfg: PrefConfig, subfolder: bool, t: Tables, text: string, b: seq<Boundary>)
    requires Tokenized(t, text, b)
    ensures Balanced(GeneratedPrefs(cfg, subfolder, t, text, b))
  {
  }

  // ---------------------------------------------------------------------------
  // Round trips

  /** TEXT and SEPARATOR triples are distinct from each other and from every pref value, and SEPARATOR is `os.sep`. */
  predicate Distinguishable(cfg: PrefConfig, mapper: map<Triple, string>) {
    && cfg.text != cfg.separator
    && cfg.separator == [cfg.sep]
    && (forall v :: v in mapper ==> v.0 != cfg.text && v.0 != cfg.separator)
  }

  /** The first `n` pieces joined, with the separator that follows piece `n - 1` when more pieces come. */
  function JoinedUpTo(pieces: seq<string>, n: nat, c: char): string
    requires n <= |pieces|
  {
    if n == 0 then ""
    else JoinedUpTo(pieces, n - 1, c) + pieces[n - 1] + (if n - 1 < |pieces| - 1 then [c] else [])
  }

  lemma {:induction false} JoinedUpToJoin(pieces: seq<string>, n: nat, c: char)
    requires 1 <= n <= |pieces|
    ensures JoinedUpTo(pieces, n, c) == Join(pieces[..n], c) + (if n < |pieces| then [c] else [])
  {
    if n == 1 {
      assert pieces[..1] == [pieces[0]];
      assert JoinedUpTo(pieces, 0, c) == "";
    } else {
      JoinedUpToJoin(pieces, n - 1, c);
      JoinSnoc(pieces[..n], c);
      assert pieces[..n][..n - 1] == pieces[..n - 1];
    }
  }

  lemma PieceDisplay(cfg: PrefConfig, mapper: map<Triple, string>, piece: string, more: bool)
    requires Distinguishable(cfg, mapper)
    ensures Display(cfg, mapper, Join2(TextPrefs(cfg, piece), SeparatorPrefs(cfg, more)).list)
            == Some(piece + (if more then [cfg.sep] else []))
  {
    var x := TextPrefs(cfg, piece).list;
    var y := SeparatorPrefs(cfg, more).list;
    DisplayJoin(cfg, mapper, TextPrefs(cfg, piece), SeparatorPrefs(cfg, more));
    assert Display(cfg, mapper, x) == Some(piece) by {
      if piece != "" {
        DisplayOne(cfg, mapper, (cfg.text, piece, ""));
      }
    }
    assert Display(cfg, mapper, y) == Some(if more then [cfg.sep] else []) by {
      if more {
        DisplayOne(cfg, mapper, (cfg.separator, "", ""));
      }
    }
  }

  lemma {:induction false} PiecesDisplay(cfg: PrefConfig, mapper: map<Triple, string>, pieces: seq<string>, n: nat)
    requires Distinguishable(cfg, mapper)
    requires n <= |pieces|
    ensures Display(cfg, mapper, PiecesPrefs(cfg, pieces, n).list) == Some(JoinedUpTo(pieces, n, cfg.sep))
  {
    if n > 0 {
      var i := n - 1;
      var more := i < |pieces| - 1;
      var prev := PiecesPrefs(cfg, pieces, i);
      var step := Join2(TextPrefs(cfg, pieces[i]), SeparatorPrefs(cfg, more));
      assert PiecesPrefs(cfg, pieces, n) == Join2(prev, step);
      PiecesDisplay(cfg, mapper, pieces, i);
      PieceDisplay(cfg, mapper, pieces[i], more);
      DisplayJoin(cfg, mapper, prev, step);
      var tail: string := if more then [cfg.sep] else [];
      assert JoinedUpTo(pieces, i, cfg.sep) + (pieces[i] + tail) == JoinedUpTo(pieces, n, cfg.sep);
    }
  }

  /** Displaying the triples `_parseTextFragment` makes for a fragment gives back the fragment. */
  lemma FragmentRoundTrip(cfg: PrefConfig, mapper: map<Triple, string>, subfolder: bool, fragment: string)
    requires Distinguishable(cfg, mapper)
    ensures Display(cfg, mapper, FragmentPrefs(cfg, subfolder, fragment).list) == Some(fragment)
  {
    if subfolder {
      var pieces := Split(fragment, cfg.sep);
      PiecesDisplay(cfg, mapper, pieces, |pieces|);
      JoinedUpToJoin(pieces, |pieces|, cfg.sep);
      assert pieces[..|pieces|] == pieces;
      JoinSplit(fragment, cfg.sep);
      assert JoinedUpTo(pieces, |pieces|, cfg.sep) == Join(pieces, cfg.sep) + [];
      assert Join(pieces, cfg.sep) + [] == fragment;
    } else {
      DisplayOne(cfg, mapper, (cfg.text, fragment, ""));
    }
  }

  lemma SliceSplit(s: string, lo: int, mid: int, hi: int)
    requires 0 <= lo <= mid <= hi <= |s|
    ensures s[lo..mid] + s[mid..hi] == s[lo..hi]
  {
  }

  /** The tokens follow one another in the text without overlapping. */
  predicate Disjoint(b: seq<Boundary>) {
    forall i, j :: 0 <= i < j < |b| ==> b[i].1 < b[j].0
  }

  /** A token's triple displays as the token's own text. */
  lemma TokenRoundTrip(cfg: PrefConfig, t: Tables, text: string, bd: Boundary)
    requires TablesValid(t) && IsToken(text, bd, t.labels)
    ensures Display(cfg, t.mapper, TokenPrefs(t, text, bd).list) == Some(text[bd.0..bd.1 + 1])
  {
    var k := text[bd.0 + 1..bd.1];
    var v := t.labels[k];
    DisplayOne(cfg, t.mapper, v);
    assert text[bd.0..bd.1 + 1] == "<" + k + ">";
  }

  /** Token `i` followed by the gap after it displays as the text from the token to the next one. */
  lemma StepRoundTrip(cfg: PrefConfig, subfolder: bool, t: Tables, text: string, b: seq<Boundary>, i: nat)
    requires Tokenized(t, text, b) && Disjoint(b)
    requires Distinguishable(cfg, t.mapper)
    requires i + 1 < |b|
    ensures Display(cfg, t.mapper, Step(cfg, subfolder, t, text, b, i).list) == Some(text[b[i].0..b[i + 1].0])
  {
    DisplayJoin(cfg, t.mapper, TokenPrefs(t, text, b[i]), FragmentPrefs(cfg, subfolder, Gap(text, b, i)));
    TokenRoundTrip(cfg, t, text, b[i]);
    FragmentRoundTrip(cfg, t.mapper, subfolder, Gap(text, b, i));
    SliceSplit(text, b[i].0, b[i].1 + 1, b[i + 1].0);
  }

  lemma {:induction false} SegmentsRoundTrip(cfg: PrefConfig, subfolder: bool, t: Tables, text: string, b: seq<Boundary>, n: nat)
    requires Tokenized(t, text, b) && Disjoint(b)
    requires Distinguishable(cfg, t.mapper)
    requires n < |b|
    ensures b[0].0 <= b[n].0
    ensures Display(cfg, t.mapper, Segments(cfg, subfolder, t, text, b, n).list) == Some(text[b[0].0..b[n].0])
  {
    if n > 0 {
      var i := n - 1;
      SegmentsRoundTrip(cfg, subfolder, t, text, b, i);
      StepRoundTrip(cfg, subfolder, t, text, b, i);
      var step := Step(cfg, subfolder, t, text, b, i);
      DisplayJoin(cfg, t.mapper, Segments(cfg, subfolder, t, text, b, i), step);
      assert Segments(cfg, subfolder, t, text, b, n) == Join2(Segments(cfg, subfolder, t, text, b, i), step);
      SliceSplit(text, b[0].0, b[i].0, b[n].0);
    } else {
      assert text[b[0].0..b[0].0] == "";
    }
  }

  /** The leading text displays as the text before the first token. */
  lemma LeadingRoundTrip(cfg: PrefConfig, mapper: map<Triple, string>, subfolder: bool, text: string, b: seq<Boundary>)
    requires Distinguishable(cfg, mapper) && |b| > 0 && 0 <= b[0].0 <= |text|
    ensures Display(cfg, mapper, Leading(cfg, subfolder, text, b).list) == Some(text[..b[0].0])
  {
    if b[0].0 > 0 {
      FragmentRoundTrip(cfg, mapper, subfolder, Slice(text, 0, b[0].0));
    }
  }

  /** The trailing text displays as the text after the last token. */
  lemma TrailingRoundTrip(cfg: PrefConfig, mapper: map<Triple, string>, subfolder: bool, text: string, b: seq<Boundary>)
    requires Distinguishable(cfg, mapper) && WellFormed(b) && 0 <= Final(b) <= |text|
    ensures Display(cfg, mapper, Trailing(cfg, subfolder, text, b).list) == Some(text[Final(b)..])
  {
    if Final(b) < |text| {
      FragmentRoundTrip(cfg, mapper, subfolder, text[Final(b)..]);
    } else {
      assert text[Final(b)..] == "";
    }
  }

  /**
   * `displayPrefList` undoes `generatePrefList`: the pref list built from a
   * text and its token boundaries displays as that same text, in subfolder
   * and in file-name mode.
   */
  lemma GeneratedRoundTrip(cfg: PrefConfig, subfolder: bool, t: Tables, text: string, b: seq<Boundary>)
    requires Tokenized(t, text, b) && Disjoint(b)
    requires Distinguishable(cfg, t.mapper)
    ensures Display(cfg, t.mapper, GeneratedPrefs(cfg, subfolder, t, text, b).list) == Some(text)
  {
    var mapper := t.mapper;
    var lead := Leading(cfg, subfolder, text, b);
    var trail := Trailing(cfg, subfolder, text, b);
    if |b| == 0 {
      TrailingRoundTrip(cfg, mapper, subfolder, text, b);
      DisplayJoin(cfg, mapper, lead, trail);
      AppendEmpty(Some(text));
    } else {
      var last := b[|b| - 1];
      var front := Join2(lead, Segments(cfg, subfolder, t, text, b, |b| - 1));
      var back := Join2(TokenPrefs(t, text, last), trail);
      FrontRoundTrip(cfg, subfolder, t, text, b);
      BackRoundTrip(cfg, subfolder, t, text, b);
      DisplayJoin(cfg, mapper, front, back);
      SliceSplit(text, 0, last.0, |text|);
      assert text[0..|text|] == text;
    }
  }

  /** Everything before the last token displays as the text before it. */
  lemma FrontRoundTrip(cfg: PrefConfig, subfolder: bool, t: Tables, text: string, b: seq<Boundary>)
    requires Tokenized(t, text, b) && Disjoint(b) && |b| > 0
    requires Distinguishable(cfg, t.mapper)
    ensures 0 <= b[|b| - 1].0 <= |text|
    ensures Display(cfg, t.mapper, Join2(Leading(cfg, subfolder, text, b), Segments(cfg, subfolder, t, text, b, |b| - 1)).list)
            == Some(text[0..b[|b| - 1].0])
  {
    var last := b[|b| - 1];
    var lead := Leading(cfg, subfolder, text, b);
    var segments := Segments(cfg, subfolder, t, text, b, |b| - 1);
    assert IsToken(text, b[0], t.labels) && IsToken(text, last, t.labels);
    SegmentsRoundTrip(cfg, subfolder, t, text, b, |b| - 1);
    LeadingRoundTrip(cfg, t.mapper, subfolder, text, b);
    JoinRoundTrip(cfg, t.mapper, lead, segments, text[..b[0].0], text[b[0].0..last.0]);
    assert text[..b[0].0] + text[b[0].0..last.0] == text[0..last.0] by {
      SliceSplit(text, 0, b[0].0, last.0);
      assert text[..b[0].0] == text[0..b[0].0];
    }
  }

  /** Two pref lists that display as `x` and `y` display, joined, as `x + y`. */
  lemma JoinRoundTrip(cfg: PrefConfig, mapper: map<Triple, string>, u: UserPrefs, v: UserPrefs, x: string, y: string)
    requires Balanced(u)
    requires Display(cfg, mapper, u.list) == Some(x) && Display(cfg, mapper, v.list) == Some(y)
    ensures Display(cfg, mapper, Join2(u, v).list) == Some(x + y)
  {
    DisplayJoin(cfg, mapper, u, v);
  }

  /** The last token and the text after it display as the text from that token on. */
  lemma BackRoundTrip(cfg: PrefConfig, subfolder: bool, t: Tables, text: string, b: seq<Boundary>)
    requires Tokenized(t, text, b) && |b| > 0
    requires Distinguishable(cfg, t.mapper)
    ensures 0 <= b[|b| - 1].0 <= |text|
    ensures Display(cfg, t.mapper, Join2(TokenPrefs(t, text, b[|b| - 1]), Trailing(cfg, subfolder, text, b)).list)
            == Some(text[b[|b| - 1].0..])
  {
    var last := b[|b| - 1];
    DisplayJoin(cfg, t.mapper, TokenPrefs(t, text, last), Trailing(cfg, subfolder, text, b));
    TokenRoundTrip(cfg, t, text, last);
    TrailingRoundTrip(cfg, t.mapper, subfolder, text, b);
    SliceSplit(text, last.0, last.1 + 1, |text|);
    assert text[last.1 + 1..] == text[last.1 + 1..|text|] && text[last.0..] == text[last.0..|text|];
  }

  // ---------------------------------------------------------------------------
  // The editor

  class PrefEditor {
    /** True when the editor edits subfolder generation, false for file renaming. */
    const subfolder: bool
    const cfg: PrefConfig
    const tables: Tables
    var userPrefList: seq<string>
    var userPrefColors: seq<string>
    /** The editor's plain text. */
    var documentText: string

    ghost predicate Valid()
      reads this
    {
      TablesValid(tables)
    }

    /** The editor once `setPrefMapper` has installed its tables. */
    constructor (subfolder: bool, cfg: PrefConfig, tables: Tables)
      requires TablesValid(tables)
      ensures Valid()
      ensures this.subfolder == subfolder && this.cfg == cfg && this.tables == tables
      ensures userPrefList == [] && userPrefColors == [] && documentText == ""
    {
      this.subfolder := subfolder;
      this.cfg := cfg;
      this.tables := tables;
      userPrefList := [];
      userPrefColors := [];
      documentText := "";
    }

    /**
     * `displayPrefList`: builds the text triple by triple and replaces the
     * document with it; a malformed list raises before the document is touched.
     */
    method DisplayPrefList(prefList: seq<string>)
      modifies this`documentText
      ensures Display(cfg, tables.mapper, prefList).Some? ==> documentText == Display(cfg, tables.mapper, prefList).value
      ensures Display(cfg, tables.mapper, prefList).None? ==> documentText == old(documentText)
    {
      var values: seq<string> := [];
      var i := 0;
      assert prefList[0..] == prefList;
      AppendEmpty(Display(cfg, tables.mapper, prefList));
      while i < |prefList|
        invariant 0 <= i <= |prefList|
        invariant documentText == old(documentText)
        invariant Display(cfg, tables.mapper, prefList) == AppendText(Some(Concat(values)), Display(cfg, tables.mapper, prefList[i..]))
      {
        if i + 2 >= |prefList| {
          // the triple is cut short: IndexError
          assert Display(cfg, tables.mapper, prefList[i..]).None?;
          return;
        }
        assert prefList[i..][3..] == prefList[i + 3..];
        var value := TripleValue(cfg, tables.mapper, (prefList[i], prefList[i + 1], prefList[i + 2]));
        assert Display(cfg, tables.mapper, prefList[i..]) == AppendText(value, Display(cfg, tables.mapper, prefList[i + 3..]));
        if value.None? {
          // neither a pref value, a separator nor text: the assertion fails
          return;
        }
        AppendAssoc(Some(Concat(values)), value, Display(cfg, tables.mapper, prefList[i + 3..]));
        ghost var before := values;
        values := values + [value.value];
        assert values[..|values| - 1] == before;
        i := i + 3;
      }
      assert prefList[i..] == [];
      AppendEmpty(Some(Concat(values)));
      documentText := Concat(values);
    }

    /** `_parseTextFragment`: appends the fragment's triples, with an empty colour for each. */
    method ParseTextFragment(fragment: string)
      modifies this`userPrefList, this`userPrefColors
      ensures UserPrefs(userPrefList, userPrefColors)
              == Join2(UserPrefs(old(userPrefList), old(userPrefColors)), FragmentPrefs(cfg, subfolder, fragment))
    {
      if subfolder {
        var pieces := Split(fragment, cfg.sep);
        var index := 0;
        while index < |pieces|
          invariant 0 <= index <= |pieces|
          invariant UserPrefs(userPrefList, userPrefColors)
                    == Join2(UserPrefs(old(userPrefList), old(userPrefColors)), PiecesPrefs(cfg, pieces, index))
        {
          ghost var before := UserPrefs(userPrefList, userPrefColors);
          if pieces[index] != "" {
            userPrefList := userPrefList + [cfg.text, pieces[index], ""];
            userPrefColors := userPrefColors + [""];
          }
          assert UserPrefs(userPrefList, userPrefColors) == Join2(before, TextPrefs(cfg, pieces[index]));
          ghost var middle := UserPrefs(userPrefList, userPrefColors);
          if index < |pieces| - 1 {
            userPrefList := userPrefList + [cfg.separator, "", ""];
            userPrefColors := userPrefColors + [""];
          }
          assert UserPrefs(userPrefList, userPrefColors) == Join2(middle, SeparatorPrefs(cfg, index < |pieces| - 1));
          ghost var piece := Join2(TextPrefs(cfg, pieces[index]), SeparatorPrefs(cfg, index < |pieces| - 1));
          Join2Assoc(before, TextPrefs(cfg, pieces[index]), SeparatorPrefs(cfg, index < |pieces| - 1));
          Join2Assoc(UserPrefs(old(userPrefList), old(userPrefColors)), PiecesPrefs(cfg, pieces, index), piece);
          assert PiecesPrefs(cfg, pieces, index + 1) == Join2(PiecesPrefs(cfg, pieces, index), piece);
          index := index + 1;
        }
        assert FragmentPrefs(cfg, subfolder, fragment) == PiecesPrefs(cfg, pieces, |pieces|);
      } else {
        userPrefList := userPrefList + [cfg.text, fragment, ""];
        userPrefColors := userPrefColors + [""];
        assert FragmentPrefs(cfg, subfolder, fragment) == UserPrefs([cfg.text, fragment, ""], [""]);
      }
    }

    /** `_addColor` together with the extend before it: the token's pref triple and colour. */
    method AddToken(text: string, bd: Boundary)
      requires Valid() && IsToken(text, bd, tables.labels)
      modifies this`userPrefList, this`userPrefColors
      ensures UserPrefs(userPrefList, userPrefColors)
              == Join2(UserPrefs(old(userPrefList), old(userPrefColors)), TokenPrefs(tables, text, bd))
    {
      var start, end := bd.0, bd.1;
      TokenColored(tables, text, bd);
      var v := tables.labels[text[start + 1..end]];
      userPrefList := userPrefList + [v.0, v.1, v.2];
      userPrefColors := userPrefColors + [tables.colors[text[start..end + 1]]];
    }

    /** One pass of the loop in `generatePrefList`: token `i` and the text up to token `i + 1`. */
    method AddSegment(text: string, b: seq<Boundary>, i: nat)
      requires Valid() && Tokenized(tables, text, b) && i + 1 < |b|
      modifies this`userPrefList, this`userPrefColors
      ensures UserPrefs(userPrefList, userPrefColors)
              == Join2(UserPrefs(old(userPrefList), old(userPrefColors)), Step(cfg, subfolder, tables, text, b, i))
    {
      ghost var before := UserPrefs(userPrefList, userPrefColors);
      AddToken(text, b[i]);
      ParseTextFragment(Slice(text, b[i].1 + 1, b[i + 1].0));
      Join2Assoc(before, TokenPrefs(tables, text, b[i]), FragmentPrefs(cfg, subfolder, Gap(text, b, i)));
    }

    /** The loop of `generatePrefList`: every token but the last, each followed by the text up to the next token. */
    method AddSegments(text: string, b: seq<Boundary>)
      requires Valid() && Tokenized(tables, text, b) && |b| > 1
      modifies this`userPrefList, this`userPrefColors
      ensures UserPrefs(userPrefList, userPrefColors)
              == Join2(UserPrefs(old(userPrefList), old(userPrefColors)), Segments(cfg, subfolder, tables, text, b, |b| - 1))
    {
      ghost var start := UserPrefs(userPrefList, userPrefColors);
      var index := 0;
      assert Join2(start, Segments(cfg, subfolder, tables, text, b, 0)) == start;
      while index < |b| - 1
        invariant 0 <= index <= |b| - 1
        invariant UserPrefs(userPrefList, userPrefColors) == Join2(start, Segments(cfg, subfolder, tables, text, b, index))
      {
        AddNextSegment(text, b, index, start);
        index := index + 1;
      }
    }

    /** A turn of that loop as progress towards all the segments. */
    method AddNextSegment(text: string, b: seq<Boundary>, index: nat, ghost start: UserPrefs)
      requires Valid() && Tokenized(tables, text, b) && index + 1 < |b|
      requires UserPrefs(userPrefList, userPrefColors) == Join2(start, Segments(cfg, subfolder, tables, text, b, index))
      modifies this`userPrefList, this`userPrefColors
      ensures UserPrefs(userPrefList, userPrefColors) == Join2(start, Segments(cfg, subfolder, tables, text, b, index + 1))
    {
      AddSegment(text, b, index);
      SegmentsSnoc(cfg, subfolder, tables, text, b, index, start);
    }

    /** The end of `generatePrefList`: the text after the last token, if any. */
    method AddTrailing(text: string, b: seq<Boundary>)
      requires Tokenized(tables, text, b)
      modifies this`userPrefList, this`userPrefColors
      ensures UserPrefs(userPrefList, userPrefColors)
              == Join2(UserPrefs(old(userPrefList), old(userPrefColors)), Trailing(cfg, subfolder, text, b))
    {
      var final := if |b| > 0 then b[|b| - 1].1 + 1 else 0;
      if final < |text| {
        ParseTextFragment(text[final..]);
      } else {
        ghost var before := UserPrefs(userPrefList, userPrefColors);
        assert Join2(before, UserPrefs([], [])) == before;
      }
    }

    /** The last token of `generatePrefList`'s text, then the text after it. */
    method AddLast(text: string, b: seq<Boundary>)
      requires Valid() && Tokenized(tables, text, b) && |b| > 0
      modifies this`userPrefList, this`userPrefColors
      ensures UserPrefs(userPrefList, userPrefColors)
              == Join2(UserPrefs(old(userPrefList), old(userPrefColors)),
                       Join2(TokenPrefs(tables, text, b[|b| - 1]), Trailing(cfg, subfolder, text, b)))
    {
      ghost var before := UserPrefs(userPrefList, userPrefColors);
      AddToken(text, b[|b| - 1]);
      AddTrailing(text, b);
      Join2Assoc(before, TokenPrefs(tables, text, b[|b| - 1]), Trailing(cfg, subfolder, text, b));
    }

    /**
     * `generatePrefList`: rebuilds the pref list and colours from the text and
     * the highlighter's boundaries, ending with as many colours as triples.
     */
    method GeneratePrefList(text: string, b: seq<Boundary>)
      requires Valid() && Tokenized(tables, text, b)
      modifies this`userPrefList, this`userPrefColors
      ensures UserPrefs(userPrefList, userPrefColors) == GeneratedPrefs(cfg, subfolder, tables, text, b)
      ensures |userPrefList| == 3 * |userPrefColors|
    {
      userPrefList := [];
      userPrefColors := [];
      if |b| > 0 && b[0].0 > 0 {
        ParseTextFragment(Slice(text, 0, b[0].0));
      }
      ghost var lead := Leading(cfg, subfolder, text, b);
      assert UserPrefs(userPrefList, userPrefColors) == lead;
      if |b| == 0 {
        AddTrailing(text, b);
      } else {
        if |b| > 1 {
          AddSegments(text, b);
        } else {
          assert Join2(lead, Segments(cfg, subfolder, tables, text, b, 0)) == lead;
        }
        AddLast(text, b);
      }
      GeneratedBalanced(cfg, subfolder, tables, text, b);
    }
  }
}
