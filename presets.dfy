/**
 * Preset bookkeeping of the file-renaming and subfolder editor dialog
 * (raphodo/nameeditor.py): the menu text of a built-in preset, the item list
 * of the preset combo box with its "(edited)" / "(New Custom Preset)" header
 * and its "Update Custom Preset" footer, the save-button rule of the dialog
 * that names a new preset, and the dialog's parallel lists of custom preset
 * names and pref lists, kept most-recently-used first.
 */
module NameEditorPresets {
  import opened Wrappers
  import opened PyStr

  // ---------------------------------------------------------------------------
  // make_subfolder_menu_entry

  /** `"<description> - <elements joined by os.sep>"` for a pref tuple. */
  function MenuEntry(pref: seq<string>, sep: char): string
    requires |pref| >= 1
  {
    pref[0] + " - " + Join(pref[1..], sep)
  }

  /** The description and the path elements can be read back from the entry. */
  lemma MenuEntryParts(pref: seq<string>, sep: char)
    requires |pref| >= 2
    requires forall i :: 1 <= i < |pref| ==> sep !in pref[i]
    ensures |MenuEntry(pref, sep)| >= |pref[0]| + 3
    ensures MenuEntry(pref, sep)[..|pref[0]|] == pref[0]
    ensures MenuEntry(pref, sep)[|pref[0]|..|pref[0]| + 3] == " - "
    ensures Split(MenuEntry(pref, sep)[|pref[0]| + 3..], sep) == pref[1..]
  {
    var elements := pref[1..];
    forall i | 0 <= i < |elements| ensures sep !in elements[i] {
      assert elements[i] == pref[i + 1];
    }
    SplitJoin(elements, sep);
    assert MenuEntry(pref, sep)[|pref[0]| + 3..] == Join(elements, sep);
  }

  function MenuEntries(prefs: seq<seq<string>>, sep: char): (r: seq<string>)
    requires forall i :: 0 <= i < |prefs| ==> |prefs[i]| >= 1
    ensures |r| == |prefs|
    ensures forall i :: 0 <= i < |prefs| ==> r[i] == MenuEntry(prefs[i], sep)
  {
    seq(|prefs|, i requires 0 <= i < |prefs| => MenuEntry(prefs[i], sep))
  }

  // ---------------------------------------------------------------------------
  // Combo box items

  /** The data a combo box item carries. */
  datatype PresetClass = Builtin | Custom | NewPreset | RemoveAll | Edited | UpdatePreset

  datatype ComboItem = Entry(text: string, cls: PresetClass, enabled: bool) | SeparatorLine

  /** QComboBox::insertItem: an index at or past the end appends, one at or below zero prepends. */
  function QtInsert(items: seq<ComboItem>, i: int, x: ComboItem): seq<ComboItem> {
    if i <= 0 then [x] + items
    else if i >= |items| then items + [x]
    else items[..i] + [x] + items[i..]
  }

  /** QComboBox::removeItem: an index out of range removes nothing. */
  function QtRemove(items: seq<ComboItem>, i: int): seq<ComboItem> {
    if 0 <= i < |items| then items[..i] + items[i + 1..] else items
  }

  lemma QtInsertAt(front: seq<ComboItem>, back: seq<ComboItem>, x: ComboItem)
    ensures QtInsert(front + back, |front|, x) == front + [x] + back
  {
    var s := front + back;
    if |front| == 0 {
      assert s == back;
    } else if |front| >= |s| {
      assert back == [];
      assert s == front;
    } else {
      assert s[..|front|] == front;
      assert s[|front|..] == back;
    }
  }

  lemma QtRemoveAt(front: seq<ComboItem>, y: ComboItem, back: seq<ComboItem>)
    ensures QtRemove(front + [y] + back, |front|) == front + back
  {
    var s := front + [y] + back;
    assert s[..|front|] == front;
    assert s[|front| + 1..] == back;
  }

  function SetEnabled(item: ComboItem, enabled: bool): ComboItem {
    match item
    case Entry(text, cls, _) => Entry(text, cls, enabled)
    case SeparatorLine => SeparatorLine
  }

  const NewPresetText := "(New Custom Preset)"
  const SaveNewText := "Save New Custom Preset..."
  const RemoveAllText := "Remove All Custom Presets..."

  function EditedText(name: string): string {
    name + " (edited)"
  }

  function UpdateText(name: string): string {
    "Update Custom Preset \"" + name + "\""
  }

  /** Whether the header shows an unsaved edit, and of which preset. */
  datatype Mode = Plain | NewCustom | EditedPreset(name: string)

  function Header(m: Mode): seq<ComboItem> {
    match m
    case Plain => []
    case NewCustom => [Entry(NewPresetText, Edited, true), SeparatorLine]
    case EditedPreset(name) => [Entry(EditedText(name), Edited, true), SeparatorLine]
  }

  function Footer(m: Mode): seq<ComboItem> {
    if m.EditedPreset? then [Entry(UpdateText(m.name), UpdatePreset, true)] else []
  }

  function Entries(names: seq<string>, cls: PresetClass): (r: seq<ComboItem>)
    ensures |r| == |names|
    ensures forall i :: 0 <= i < |names| ==> r[i] == Entry(names[i], cls, true)
  {
    seq(|names|, i requires 0 <= i < |names| => Entry(names[i], cls, true))
  }

  lemma EntriesAppend(xs: seq<string>, ys: seq<string>, cls: PresetClass)
    ensures Entries(xs + ys, cls) == Entries(xs, cls) + Entries(ys, cls)
  {
    var l := Entries(xs + ys, cls);
    var r := Entries(xs, cls) + Entries(ys, cls);
    forall i | 0 <= i < |l| ensures l[i] == r[i] {
      if i < |xs| {
        assert (xs + ys)[i] == xs[i];
      } else {
        assert (xs + ys)[i] == ys[i - |xs|];
      }
    }
  }

  function CustomBlock(customs: seq<string>): seq<ComboItem> {
    if |customs| == 0 then [] else [SeparatorLine] + Entries(customs, Custom)
  }

  function Actions(removeAllEnabled: bool): seq<ComboItem> {
    [SeparatorLine, Entry(SaveNewText, NewPreset, true), Entry(RemoveAllText, RemoveAll, removeAllEnabled)]
  }

  /** The list without header and footer: built-in presets, custom presets, actions. */
  function Body(builtins: seq<string>, customs: seq<string>, removeAllEnabled: bool): seq<ComboItem> {
    Entries(builtins, Builtin) + CustomBlock(customs) + Actions(removeAllEnabled)
  }

  /**
   * The items the combo box is meant to show: the header, the built-in
   * presets, a separator and the custom presets when there are any, a
   * separator, the two actions, and the footer.
   */
  function Layout(builtins: seq<string>, customs: seq<string>, m: Mode, removeAllEnabled: bool): seq<ComboItem> {
    Header(m) + Body(builtins, customs, removeAllEnabled) + Footer(m)
  }

  /** The rows: header, built-in presets, the custom block when there are custom presets, three action rows, footer. */
  lemma LayoutLength(builtins: seq<string>, customs: seq<string>, m: Mode, removeAllEnabled: bool)
    ensures |Layout(builtins, customs, m, removeAllEnabled)|
            == |Header(m)| + |builtins| + (if |customs| == 0 then 0 else |customs| + 1) + 3 + |Footer(m)|
  {
  }

  /** The `i`-th built-in preset sits `i` rows below the header. */
  lemma LayoutBuiltinRow(builtins: seq<string>, customs: seq<string>, m: Mode, removeAllEnabled: bool, i: nat)
    requires i < |builtins|
    ensures Layout(builtins, customs, m, removeAllEnabled)[|Header(m)| + i] == Entry(builtins[i], Builtin, true)
  {
    var e, c, a := Entries(builtins, Builtin), CustomBlock(customs), Actions(removeAllEnabled);
    IndexInMiddle(Header(m), e + c + a, Footer(m), i);
    IndexInFront(e + c, a, i);
    IndexInFront(e, c, i);
  }

  /**
   * Below the built-in presets, when there are custom presets: a separator,
   * then the `i`-th custom preset `i` rows further down.
   */
  lemma LayoutCustomRow(builtins: seq<string>, customs: seq<string>, m: Mode, removeAllEnabled: bool, i: nat)
    requires i < |customs|
    ensures Layout(builtins, customs, m, removeAllEnabled)[|Header(m)| + |builtins|] == SeparatorLine
    ensures Layout(builtins, customs, m, removeAllEnabled)[|Header(m)| + |builtins| + 1 + i] == Entry(customs[i], Custom, true)
  {
    var h, e, c, a := Header(m), Entries(builtins, Builtin), CustomBlock(customs), Actions(removeAllEnabled);
    var entries := Entries(customs, Custom);
    assert c == [SeparatorLine] + entries;
    IndexInMiddle(h, e + c + a, Footer(m), |e|);
    IndexInMiddle(h, e + c + a, Footer(m), |e| + 1 + i);
    IndexInFront(e + c, a, |e|);
    IndexInFront(e + c, a, |e| + 1 + i);
    IndexInMiddle(e, c, [], 0);
    IndexInMiddle(e, c, [], 1 + i);
    assert e + c + [] == e + c;
  }

  lemma IndexInFront<T>(a: seq<T>, b: seq<T>, i: nat)
    requires i < |a|
    ensures (a + b)[i] == a[i]
  {
  }

  lemma IndexInMiddle<T>(a: seq<T>, b: seq<T>, c: seq<T>, i: nat)
    requires i < |b|
    ensures (a + b + c)[|a| + i] == b[i]
  {
  }

  lemma Assoc(a: seq<ComboItem>, b: seq<ComboItem>, c: seq<ComboItem>)
    ensures a + b + c == a + (b + c)
  {
  }

  lemma SliceParts(front: seq<ComboItem>, middle: seq<ComboItem>, back: seq<ComboItem>)
    ensures (front + middle + back)[..|front|] == front
    ensures (front + middle + back)[|front| + |middle|..] == back
  {
  }

  lemma PlainLayout(builtins: seq<string>, customs: seq<string>, removeAllEnabled: bool)
    ensures Layout(builtins, customs, Plain, removeAllEnabled) == Body(builtins, customs, removeAllEnabled)
  {
    var body := Body(builtins, customs, removeAllEnabled);
    assert [] + body + [] == body;
  }

  /** The layout as what surrounds the custom-preset block, and the block. */
  lemma LayoutParts(builtins: seq<string>, customs: seq<string>, m: Mode, removeAllEnabled: bool)
    ensures Layout(builtins, customs, m, removeAllEnabled)
            == (Header(m) + Entries(builtins, Builtin)) + CustomBlock(customs) + (Actions(removeAllEnabled) + Footer(m))
  {
    var h, e, c, a, f := Header(m), Entries(builtins, Builtin), CustomBlock(customs), Actions(removeAllEnabled), Footer(m);
    calc {
      h + (e + c + a) + f;
      { Assoc(h, e + c, a); }
      h + (e + c) + a + f;
      { Assoc(h, e, c); }
      h + e + c + a + f;
      { Assoc(h + e + c, a, f); }
      h + e + c + (a + f);
    }
  }

  /** The layout as the header line, its separator, and the rest. */
  lemma HeaderLayout(builtins: seq<string>, customs: seq<string>, m: Mode, removeAllEnabled: bool)
    requires m != Plain
    ensures Layout(builtins, customs, m, removeAllEnabled)
            == [Header(m)[0]] + ([SeparatorLine] + (Body(builtins, customs, removeAllEnabled) + Footer(m)))
  {
    var h, body, f := Header(m), Body(builtins, customs, removeAllEnabled), Footer(m);
    assert h == [h[0]] + [SeparatorLine];
    Assoc(h, body, f);
    Assoc([h[0]], [SeparatorLine], body + f);
  }

  /** The layout as what comes before "Remove All Custom Presets...", that item, and the footer. */
  lemma RemoveAllRow(builtins: seq<string>, customs: seq<string>, m: Mode, removeAllEnabled: bool)
    ensures var front := Header(m) + Entries(builtins, Builtin) + CustomBlock(customs)
                         + [SeparatorLine, Entry(SaveNewText, NewPreset, true)];
            Layout(builtins, customs, m, removeAllEnabled)
            == front + [Entry(RemoveAllText, RemoveAll, removeAllEnabled)] + Footer(m)
  {
    var p := Header(m) + Entries(builtins, Builtin) + CustomBlock(customs);
    var two := [SeparatorLine, Entry(SaveNewText, NewPreset, true)];
    var last := [Entry(RemoveAllText, RemoveAll, removeAllEnabled)];
    var f := Footer(m);
    LayoutParts(builtins, customs, m, removeAllEnabled);
    assert Actions(removeAllEnabled) == two + last;
    calc {
      p + (two + last + f);
      { Assoc(two, last, f); }
      p + (two + (last + f));
      { Assoc(p, two, last + f); }
      p + two + (last + f);
      { Assoc(p + two, last, f); }
      p + two + last + f;
    }
  }

  /** Cutting the custom-preset block (its separator and its entries) out of the layout. */
  lemma RemoveCustomBlock(all: seq<ComboItem>, builtins: seq<string>, customs: seq<string>, m: Mode,
                          removeAllEnabled: bool, start: int, end: int)
    requires all == Layout(builtins, customs, m, removeAllEnabled)
    requires |customs| > 0 && start == |Header(m)| + |builtins| && end == start + |customs|
    ensures 0 <= start <= end < |all|
    ensures all[..start] + all[end + 1..] == Layout(builtins, [], m, removeAllEnabled)
  {
    var front := Header(m) + Entries(builtins, Builtin);
    var back := Actions(removeAllEnabled) + Footer(m);
    var block := CustomBlock(customs);
    assert |front| == |Header(m)| + |builtins| && |block| == |customs| + 1;
    assert all == front + block + back by {
      LayoutParts(builtins, customs, m, removeAllEnabled);
    }
    assert Layout(builtins, [], m, removeAllEnabled) == front + back by {
      LayoutParts(builtins, [], m, removeAllEnabled);
      assert front + CustomBlock([]) + back == front + back;
    }
    SliceParts(front, block, back);
  }

  /** Removing the last row kept of a range that is being removed bottom-up. */
  lemma RemoveRowStep(all: seq<ComboItem>, row: int, end: int)
    requires 0 <= row <= end < |all|
    ensures QtRemove(all[..row + 1] + all[end + 1..], row) == all[..row] + all[end + 1..]
  {
    assert all[..row + 1] == all[..row] + [all[row]];
    QtRemoveAt(all[..row], all[row], all[end + 1..]);
  }

  lemma QtRemoveFront(y: ComboItem, back: seq<ComboItem>)
    ensures QtRemove([y] + back, 0) == back
  {
    assert ([y] + back)[1..] == back;
  }

  lemma QtRemoveLast(front: seq<ComboItem>, y: ComboItem)
    ensures QtRemove(front + [y], |front|) == front
  {
    assert (front + [y])[..|front|] == front;
  }

  /** Removing the first two rows of a layout with a header, and then the footer if any, leaves the body. */
  lemma ResetRows(builtins: seq<string>, customs: seq<string>, m: Mode, removeAllEnabled: bool)
    requires m != Plain
    ensures var rest := QtRemove(QtRemove(Layout(builtins, customs, m, removeAllEnabled), 0), 0);
            && (m.EditedPreset? ==> QtRemove(rest, |rest| - 1) == Body(builtins, customs, removeAllEnabled))
            && (!m.EditedPreset? ==> rest == Body(builtins, customs, removeAllEnabled))
  {
    var body, footer := Body(builtins, customs, removeAllEnabled), Footer(m);
    HeaderLayout(builtins, customs, m, removeAllEnabled);
    QtRemoveFront(Header(m)[0], [SeparatorLine] + (body + footer));
    QtRemoveFront(SeparatorLine, body + footer);
    if m.EditedPreset? {
      assert footer == [footer[0]];
      QtRemoveLast(body, footer[0]);
    } else {
      assert body + footer == body;
    }
  }

  /** Adding the only custom preset: its separator at the end of the built-ins, then the name. */
  lemma InsertOnlyCustom(builtins: seq<string>, removeAllEnabled: bool, text: string)
    ensures var withSeparator := QtInsert(Body(builtins, [], removeAllEnabled), |builtins|, SeparatorLine);
            QtInsert(withSeparator, |builtins| + 1, Entry(text, Custom, true)) == Body(builtins, [text], removeAllEnabled)
  {
    var e, a := Entries(builtins, Builtin), Actions(removeAllEnabled);
    var item := Entry(text, Custom, true);
    assert Body(builtins, [], removeAllEnabled) == e + a;
    QtInsertAt(e, a, SeparatorLine);
    QtInsertAt(e + [SeparatorLine], a, item);
    assert Entries([text], Custom) == [item];
    Assoc(e, [SeparatorLine], [item]);
  }

  /** Adding a custom preset when there are some: the name goes first among them. */
  lemma InsertFirstCustom(builtins: seq<string>, customs: seq<string>, removeAllEnabled: bool, text: string)
    requires |customs| > 0
    ensures QtInsert(Body(builtins, customs, removeAllEnabled), |builtins| + 1, Entry(text, Custom, true))
            == Body(builtins, [text] + customs, removeAllEnabled)
  {
    var e, a := Entries(builtins, Builtin), Actions(removeAllEnabled);
    var item := Entry(text, Custom, true);
    var rest := Entries(customs, Custom);
    calc {
      Body(builtins, customs, removeAllEnabled);
      e + ([SeparatorLine] + rest) + a;
      { Assoc(e, [SeparatorLine], rest); }
      e + [SeparatorLine] + rest + a;
      { Assoc(e + [SeparatorLine], rest, a); }
      e + [SeparatorLine] + (rest + a);
    }
    QtInsertAt(e + [SeparatorLine], rest + a, item);
    EntriesAppend([text], customs, Custom);
    assert Entries([text], Custom) == [item];
    calc {
      e + [SeparatorLine] + [item] + (rest + a);
      { Assoc(e + [SeparatorLine] + [item], rest, a); }
      e + [SeparatorLine] + [item] + rest + a;
      { Assoc(e + [SeparatorLine], [item], rest); }
      e + [SeparatorLine] + ([item] + rest) + a;
      { Assoc(e, [SeparatorLine], [item] + rest); }
      e + ([SeparatorLine] + ([item] + rest)) + a;
    }
  }

  /**
   * Without a header shown, and with the separator flag telling the truth,
   * the source's steps give the layout with the new preset first among the
   * custom presets.
   */
  lemma AddCustomAsWrittenWithoutHeader(builtins: seq<string>, customs: seq<string>, removeAllEnabled: bool,
                                        text: string)
    ensures AddCustomItemsAsWritten(Layout(builtins, customs, Plain, removeAllEnabled), |builtins|, |customs| > 0,
                                    Plain, text)
            == Layout(builtins, [text] + customs, Plain, removeAllEnabled)
  {
    PlainLayout(builtins, customs, removeAllEnabled);
    PlainLayout(builtins, [text] + customs, removeAllEnabled);
    if |customs| == 0 {
      InsertOnlyCustom(builtins, removeAllEnabled, text);
      assert [text] + customs == [text];
    } else {
      InsertFirstCustom(builtins, customs, removeAllEnabled, text);
    }
  }

  /** The source's add-custom-preset steps, in its order, on the item list. */
  function AddCustomItemsAsWritten(items: seq<ComboItem>, builtinCount: nat, presetSeparator: bool,
                                   m: Mode, text: string): seq<ComboItem>
  {
    var withSeparator := if !presetSeparator then QtInsert(items, builtinCount, SeparatorLine) else items;
    var reset := if m != Plain then ResetItems(withSeparator, m) else withSeparator;
    QtInsert(reset, builtinCount + 1, Entry(text, Custom, true))
  }

  /** resetPresetList on the item list: two lines off the top, and the footer when editing. */
  function ResetItems(items: seq<ComboItem>, m: Mode): seq<ComboItem> {
    var top := QtRemove(QtRemove(items, 0), 0);
    if m.EditedPreset? then QtRemove(top, |top| - 1) else top
  }

  /**
   * Adding the first custom preset while the "(New Custom Preset)" header is
   * shown: the separator goes in before the header is removed, so it lands two
   * rows too high, between two built-in presets, and the new preset has no
   * separator above it.
   */
  lemma FirstCustomPresetSeparatorMisplaced(b0: string, b1: string, b2: string, name: string)
    ensures var builtins := [b0, b1, b2];
            var shown := AddCustomItemsAsWritten(Layout(builtins, [], NewCustom, false), 3, false, NewCustom, name);
            && shown == [Entry(b0, Builtin, true), SeparatorLine, Entry(b1, Builtin, true), Entry(b2, Builtin, true),
                         Entry(name, Custom, true)] + Actions(false)
            && shown != Layout(builtins, [name], Plain, false)
  {
    var builtins := [b0, b1, b2];
    var e0, e1, e2 := Entry(b0, Builtin, true), Entry(b1, Builtin, true), Entry(b2, Builtin, true);
    var hd := Entry(NewPresetText, Edited, true);
    var item := Entry(name, Custom, true);
    var a := Actions(false);
    var start := Layout(builtins, [], NewCustom, false);
    var s1 := [hd, SeparatorLine, e0, SeparatorLine, e1, e2] + a;
    var s2 := [e0, SeparatorLine, e1, e2] + a;
    assert start == [hd, SeparatorLine, e0] + ([e1, e2] + a) by {
      assert Entries(builtins, Builtin) == [e0, e1, e2];
    }
    assert QtInsert(start, 3, SeparatorLine) == s1 by {
      QtInsertAt([hd, SeparatorLine, e0], [e1, e2] + a, SeparatorLine);
    }
    assert ResetItems(s1, NewCustom) == s2 by {
      assert s1 == [hd] + ([SeparatorLine] + s2);
      QtRemoveFront(hd, [SeparatorLine] + s2);
      QtRemoveFront(SeparatorLine, s2);
    }
    assert QtInsert(s2, 4, item) == [e0, SeparatorLine, e1, e2, item] + a by {
      QtInsertAt([e0, SeparatorLine, e1, e2], a, item);
    }
    assert Layout(builtins, [name], Plain, false)[1] == e1 by {
      PlainLayout(builtins, [name], false);
    }
  }

  /**
   * removeAllCustomPresets takes the custom-preset separator out but leaves
   * the flag that says it is there set: the next preset added goes in with no
   * separator, directly above "Save New Custom Preset...".
   */
  lemma StaleSeparatorAfterRemoveAll(b0: string, c0: string, name: string)
    ensures var before := Layout([b0], [c0], Plain, true);
            var removed := before[..1] + before[3..];
            var shown := AddCustomItemsAsWritten(removed, 1, true, Plain, name);
            && shown == [Entry(b0, Builtin, true), SeparatorLine, Entry(name, Custom, true),
                         Entry(SaveNewText, NewPreset, true), Entry(RemoveAllText, RemoveAll, true)]
            && shown != Layout([b0], [name], Plain, true)
  {
    var e0 := Entry(b0, Builtin, true);
    var before := Layout([b0], [c0], Plain, true);
    assert Entries([b0], Builtin) == [e0];
    assert Entries([c0], Custom) == [Entry(c0, Custom, true)];
    assert before == [e0, SeparatorLine, Entry(c0, Custom, true)] + Actions(true);
    var removed := before[..1] + before[3..];
    assert removed == [e0, SeparatorLine] + Actions(true)[1..];
    QtInsertAt([e0, SeparatorLine], Actions(true)[1..], Entry(name, Custom, true));
    assert Layout([b0], [name], Plain, true)[3] == SeparatorLine;
  }

  // ---------------------------------------------------------------------------
  // PresetComboBox

  class PresetComboBox {
    /** The menu texts of the built-in presets. */
    const builtinPresets: seq<string>
    var items: seq<ComboItem>
    var currentIndex: int
    var presetEdited: bool
    var newPreset: bool
    /** Whether the separator above the custom presets is shown. */
    var presetSeparator: bool
    ghost var customs: seq<string>
    ghost var mode: Mode
    ghost var removeAllEnabled: bool

    ghost predicate Valid()
      reads this
    {
      && items == Layout(builtinPresets, customs, mode, removeAllEnabled)
      && presetSeparator == (|customs| > 0)
      && newPreset == mode.NewCustom?
      && presetEdited == mode.EditedPreset?
    }

    /** The combo box with the built-in presets of one kind and the saved custom preset names. */
    constructor (builtinPrefs: seq<seq<string>>, sep: char, presetNames: seq<string>)
      requires forall i :: 0 <= i < |builtinPrefs| ==> |builtinPrefs[i]| >= 1
      ensures Valid()
      ensures builtinPresets == MenuEntries(builtinPrefs, sep)
      ensures customs == presetNames && mode == Plain
      ensures removeAllEnabled == (|presetNames| > 0)
    {
      var entries := MenuEntries(builtinPrefs, sep);
      var list: seq<ComboItem> := [];
      var i := 0;
      while i < |builtinPrefs|
        invariant 0 <= i <= |builtinPrefs|
        invariant list == Entries(entries[..i], Builtin)
      {
        EntriesAppend(entries[..i], [entries[i]], Builtin);
        assert entries[..i + 1] == entries[..i] + [entries[i]];
        list := list + [Entry(MenuEntry(builtinPrefs[i], sep), Builtin, true)];
        i := i + 1;
      }
      assert entries[..i] == entries;
      var block: seq<ComboItem> := [];
      if |presetNames| > 0 {
        block := [SeparatorLine];
        var j := 0;
        while j < |presetNames|
          invariant 0 <= j <= |presetNames|
          invariant block == [SeparatorLine] + Entries(presetNames[..j], Custom)
        {
          EntriesAppend(presetNames[..j], [presetNames[j]], Custom);
          assert presetNames[..j + 1] == presetNames[..j] + [presetNames[j]];
          block := block + [Entry(presetNames[j], Custom, true)];
          j := j + 1;
        }
        assert presetNames[..j] == presetNames;
      }
      PlainLayout(entries, presetNames, true);
      builtinPresets := entries;
      items := list + block + Actions(true);
      currentIndex := 0;
      presetEdited := false;
      newPreset := false;
      presetSeparator := |presetNames| > 0;
      customs := presetNames;
      mode := Plain;
      removeAllEnabled := true;
      new;
      SetRemoveAllCustomEnabled(|presetNames| > 0);
    }

    /**
     * `setRemoveAllCustomEnabled`: the row it computes from the item count is
     * the "Remove All Custom Presets..." item, whatever the header and footer.
     */
    method SetRemoveAllCustomEnabled(enabled: bool)
      requires Valid()
      modifies this`items, this`removeAllEnabled
      ensures Valid()
      ensures removeAllEnabled == enabled
    {
      var front := Header(mode) + Entries(builtinPresets, Builtin) + CustomBlock(customs)
                   + [SeparatorLine, Entry(SaveNewText, NewPreset, true)];
      RemoveAllRow(builtinPresets, customs, mode, removeAllEnabled);
      RemoveAllRow(builtinPresets, customs, mode, enabled);
      var row := if presetEdited then |items| - 2 else |items| - 1;
      assert row == |front|;
      var item := Entry(RemoveAllText, RemoveAll, enabled);
      assert items[row := item] == front + [item] + Footer(mode);
      items := items[row := SetEnabled(items[row], enabled)];
      removeAllEnabled := enabled;
    }

    /** `resetPresetList`: drops the header line, its separator and, after an edit, the footer. */
    method ResetPresetList()
      requires Valid()
      requires newPreset || presetEdited
      modifies this`items, this`newPreset, this`presetEdited, this`mode
      ensures Valid()
      ensures mode == Plain
      ensures items == Body(builtinPresets, customs, removeAllEnabled)
    {
      ResetRows(builtinPresets, customs, mode, removeAllEnabled);
      items := QtRemove(items, 0);
      items := QtRemove(items, 0);
      if presetEdited {
        items := QtRemove(items, |items| - 1);
      }
      presetEdited := false;
      newPreset := false;
      mode := Plain;
      PlainLayout(builtinPresets, customs, removeAllEnabled);
    }

    /** `setPresetNew`: shows "(New Custom Preset)" on top, once. */
    method SetPresetNew()
      requires Valid()
      requires !presetEdited
      modifies this`items, this`newPreset, this`currentIndex, this`mode
      ensures Valid()
      ensures mode == NewCustom
      ensures !old(newPreset) ==> 0 <= currentIndex < |items| && items[currentIndex] == Entry(NewPresetText, Edited, true)
      ensures old(newPreset) ==> items == old(items) && currentIndex == old(currentIndex)
    {
      if newPreset {
        return;
      }
      var body := Body(builtinPresets, customs, removeAllEnabled);
      PlainLayout(builtinPresets, customs, removeAllEnabled);
      var top := Entry(NewPresetText, Edited, true);
      items := QtInsert(items, 0, top);
      QtInsertAt([top], body, SeparatorLine);
      items := QtInsert(items, 1, SeparatorLine);
      newPreset := true;
      mode := NewCustom;
      currentIndex := 0;
      assert Header(mode) == [top] + [SeparatorLine];
      assert items == Header(mode) + body + Footer(mode);
    }

    /** `setPresetEdited`: shows "<name> (edited)" on top and an update action at the bottom. */
    method SetPresetEdited(text: string)
      requires Valid()
      requires !newPreset && !presetEdited
      modifies this`items, this`presetEdited, this`currentIndex, this`mode
      ensures Valid()
      ensures mode == EditedPreset(text)
      ensures 0 <= currentIndex < |items| && items[currentIndex] == Entry(EditedText(text), Edited, true)
      ensures items[|items| - 1] == Entry(UpdateText(text), UpdatePreset, true)
    {
      var body := Body(builtinPresets, customs, removeAllEnabled);
      PlainLayout(builtinPresets, customs, removeAllEnabled);
      var top := Entry(EditedText(text), Edited, true);
      items := QtInsert(items, 0, top);
      QtInsertAt([top], body, SeparatorLine);
      items := QtInsert(items, 1, SeparatorLine);
      items := items + [Entry(UpdateText(text), UpdatePreset, true)];
      presetEdited := true;
      mode := EditedPreset(text);
      currentIndex := 0;
      assert Header(mode) == [top] + [SeparatorLine];
    }

    /**
     * `addCustomPreset`, with the header removed before the separator goes
     * in: the new name becomes the first custom preset and the current item.
     */
    method AddCustomPreset(text: string)
      requires Valid()
      modifies this`items, this`newPreset, this`presetEdited, this`presetSeparator, this`currentIndex,
               this`customs, this`mode
      ensures Valid()
      ensures customs == [text] + old(customs) && mode == Plain
      ensures 0 <= currentIndex < |items| && items[currentIndex] == Entry(text, Custom, true)
    {
      if newPreset || presetEdited {
        ResetPresetList();
      } else {
        PlainLayout(builtinPresets, customs, removeAllEnabled);
      }
      assert items == Body(builtinPresets, customs, removeAllEnabled);
      ghost var newItems := Body(builtinPresets, [text] + customs, removeAllEnabled);
      var item := Entry(text, Custom, true);
      if !presetSeparator {
        assert customs == [] && [text] + customs == [text];
        InsertOnlyCustom(builtinPresets, removeAllEnabled, text);
        items := QtInsert(items, |builtinPresets|, SeparatorLine);
        presetSeparator := true;
      } else {
        InsertFirstCustom(builtinPresets, customs, removeAllEnabled, text);
      }
      var idx := |builtinPresets| + 1;
      items := QtInsert(items, idx, item);
      assert items == newItems;
      currentIndex := idx;
      customs := [text] + customs;
      PlainLayout(builtinPresets, customs, removeAllEnabled);
    }

    /** The source's loop that removes rows `end` down to `start`, one `removeItem` at a time. */
    method RemoveRows(start: int, end: int)
      requires 0 <= start <= end + 1 && end < |items|
      modifies this`items
      ensures items == old(items)[..start] + old(items)[end + 1..]
    {
      ghost var all := items;
      var row := end;
      while row >= start
        invariant start - 1 <= row <= end
        invariant items == all[..row + 1] + all[end + 1..]
        decreases row
      {
        RemoveRowStep(all, row, end);
        items := QtRemove(items, row);
        row := row - 1;
      }
    }

    /**
     * `removeAllCustomPresets`: removes the custom presets and their
     * separator, bottom row first, and clears the separator flag.
     */
    method RemoveAllCustomPresets(noPresets: int)
      requires Valid()
      requires presetSeparator
      requires noPresets == |customs|
      modifies this`items, this`presetSeparator, this`customs
      ensures Valid()
      ensures customs == [] && mode == old(mode)
    {
      var start := |builtinPresets|;
      if newPreset || presetEdited {
        start := start + 2;
      }
      var end := start + noPresets;
      assert start == |Header(mode)| + |builtinPresets|;
      RemoveCustomBlock(items, builtinPresets, customs, mode, removeAllEnabled, start, end);
      RemoveRows(start, end);
      presetSeparator := false;
      customs := [];
    }
  }

  // ---------------------------------------------------------------------------
  // CreatePreset

  /** The save button is enabled for a non-empty name that is not already a custom preset. */
  function SaveEnabled(name: string, existing: seq<string>): (r: bool)
    ensures r <==> |name| > 0 && name !in existing
  {
    if |name| > 0 then name !in existing else false
  }

  predicate Distinct<T(==)>(s: seq<T>) {
    forall i, j :: 0 <= i < j < |s| ==> s[i] != s[j]
  }

  /** A name the dialog lets the user save keeps the custom preset names distinct. */
  lemma SaveKeepsDistinct(name: string, names: seq<string>)
    requires Distinct(names)
    requires SaveEnabled(name, names)
    ensures Distinct([name] + names)
    ensures |name| > 0
  {
    var s := [name] + names;
    forall i, j | 0 <= i < j < |s| ensures s[i] != s[j] {
      assert s[j] == names[j - 1];
      if i == 0 {
        assert names[j - 1] in names;
      } else {
        assert s[i] == names[i - 1];
      }
    }
  }

  class CreatePreset {
    const existingCustomNames: seq<string>
    var saveEnabled: bool

    constructor (existingCustomNames: seq<string>)
      ensures this.existingCustomNames == existingCustomNames
      ensures !saveEnabled
    {
      this.existingCustomNames := existingCustomNames;
      saveEnabled := false;
    }

    /** `nameEdited`: re-evaluates the save button for the name as typed so far. */
    method NameEdited(name: string)
      modifies this`saveEnabled
      ensures saveEnabled <==> |name| > 0 && name !in existingCustomNames
    {
      var enabled := false;
      if |name| > 0 {
        enabled := name !in existingCustomNames;
      }
      saveEnabled := enabled;
    }
  }

  // ---------------------------------------------------------------------------
  // PrefDialog: the cached custom presets

  /** `list.index`: the first position holding `x`, or None where Python raises ValueError. */
  function IndexOf<T(==)>(s: seq<T>, x: T): (r: Option<nat>)
    ensures r.None? <==> x !in s
    ensures r.Some? ==> r.value < |s| && s[r.value] == x && x !in s[..r.value]
  {
    if |s| == 0 then None
    else if s[0] == x then Some(0)
    else
      match IndexOf(s[1..], x)
      case None => None
      case Some(i) =>
        assert s[1..][..i] == s[1..i + 1];
        Some(i + 1)
  }

  lemma IndexOfDistinct<T>(s: seq<T>, i: nat)
    requires Distinct(s)
    requires i < |s|
    ensures IndexOf(s, s[i]) == Some(i)
  {
  }

  /** The position `list.pop(index)` removes: negative indexes count from the end; None where it raises IndexError. */
  function PopPosition(n: nat, index: int): (r: Option<nat>)
    ensures r.Some? <==> 0 <= index + n && index < n
    ensures r.Some? ==> r.value < n && r.value % n == index % n
  {
    if index + n < 0 || index >= n then None
    else if index < 0 then Some(n + index)
    else Some(index)
  }

  /** The list with the element at `k` taken out and put in front. */
  function MoveToFront<T>(s: seq<T>, k: nat): (r: seq<T>)
    requires k < |s|
    ensures |r| == |s| && r[0] == s[k]
    ensures forall i :: 0 <= i < k ==> r[i + 1] == s[i]
    ensures forall i :: k < i < |s| ==> r[i] == s[i]
  {
    [s[k]] + s[..k] + s[k + 1..]
  }

  /** Moving the first element to the front changes nothing. */
  lemma MoveToFrontOfFirst<T>(s: seq<T>)
    requires 0 < |s|
    ensures MoveToFront(s, 0) == s
  {
    assert s == [s[0]] + s[1..];
  }

  /** `list.insert(k, x)` for a position within the list. */
  function InsertAt<T>(s: seq<T>, k: nat, x: T): (r: seq<T>)
    requires k <= |s|
    ensures |r| == |s| + 1 && r[k] == x
  {
    s[..k] + [x] + s[k..]
  }

  /** Moving an entry to the front is undone by putting the front entry back at its old place. */
  lemma MoveToFrontUndone<T>(s: seq<T>, k: nat)
    requires k < |s|
    ensures InsertAt(MoveToFront(s, k)[1..], k, MoveToFront(s, k)[0]) == s
  {
    var r := MoveToFront(s, k);
    var back := InsertAt(r[1..], k, r[0]);
    assert r[1..][..k] == s[..k];
    assert r[1..][k..] == s[k + 1..];
    assert back == s[..k] + [s[k]] + s[k + 1..];
    assert s == s[..k] + [s[k]] + s[k + 1..];
  }

  lemma MoveToFrontPermutes<T>(s: seq<T>, k: nat)
    requires k < |s|
    ensures multiset(MoveToFront(s, k)) == multiset(s)
  {
    assert s == s[..k] + [s[k]] + s[k + 1..];
    assert MoveToFront(s, k) == [s[k]] + s[..k] + s[k + 1..];
  }

  lemma MoveToFrontDistinct<T>(s: seq<T>, k: nat)
    requires k < |s|
    requires Distinct(s)
    ensures Distinct(MoveToFront(s, k))
  {
    var r := MoveToFront(s, k);
    forall i, j | 0 <= i < j < |r| ensures r[i] != r[j] {
      var si := if i == 0 then k else if i <= k then i - 1 else i;
      var sj := if j <= k then j - 1 else j;
      assert r[i] == s[si] && r[j] == s[sj] && si != sj;
    }
  }

  /** The pref list stored with a preset name. */
  function PresetOf(names: seq<string>, lists: seq<seq<string>>, name: string): (r: Option<seq<string>>)
    requires |names| == |lists|
    ensures r.Some? <==> name in names
  {
    match IndexOf(names, name)
    case None => None
    case Some(i) => Some(lists[i])
  }

  /** Moving a preset to the front of both lists leaves every name with its own pref list. */
  lemma MoveToFrontKeepsPairs(names: seq<string>, lists: seq<seq<string>>, k: nat, name: string)
    requires |names| == |lists| && k < |names|
    requires Distinct(names)
    ensures PresetOf(MoveToFront(names, k), MoveToFront(lists, k), name) == PresetOf(names, lists, name)
  {
    var moved := MoveToFront(names, k);
    MoveToFrontPermutes(names, k);
    MoveToFrontDistinct(names, k);
    if name in names {
      var i := IndexOf(names, name).value;
      var j := if i == k then 0 else if i < k then i + 1 else i;
      assert moved[j] == name;
      IndexOfDistinct(moved, j);
    } else {
      assert name !in multiset(moved);
    }
  }

  /** The source's `movePresetToFront` argument for an activated custom preset at combined index `index`. */
  function ActivatedMoveIndexAsWritten(builtinCount: nat, index: int): (r: int)
    ensures builtinCount <= index ==> r <= 0 && (r == 0 <==> index == builtinCount)
  {
    builtinCount - index
  }

  /** The preset's own index among the custom presets. */
  function ActivatedMoveIndex(builtinCount: nat, index: int): int {
    index - builtinCount
  }

  /**
   * With the argument as written, Python's negative-index `pop` takes the
   * preset `index - builtinCount` places from the end, which is the activated
   * one only when it is already in front or sits exactly in the middle.
   */
  lemma AsWrittenMovesActivatedOnlyWhen(builtinCount: nat, n: nat, index: int)
    requires builtinCount <= index < builtinCount + n
    ensures PopPosition(n, ActivatedMoveIndexAsWritten(builtinCount, index)).Some?
    ensures PopPosition(n, ActivatedMoveIndexAsWritten(builtinCount, index)).value == index - builtinCount
            <==> index == builtinCount || 2 * (index - builtinCount) == n
  {
  }

  /** Two built-in presets and custom presets a, b, c: activating b moves c to the front. */
  lemma ActivatingSecondOfThreeMovesThird(a: string, b: string, c: string)
    ensures var k := PopPosition(3, ActivatedMoveIndexAsWritten(2, 3));
            k == Some(2) && MoveToFront([a, b, c], k.value) == [c, a, b]
  {
    assert [a, b, c][..2] == [a, b];
  }

  class PrefDialog {
    const builtinPrefNames: seq<string>
    const builtinPrefLists: seq<seq<string>>
    var presetNames: seq<string>
    var presetPrefLists: seq<seq<string>>
    var combinedPrefNames: seq<string>
    var combinedPrefLists: seq<seq<string>>
    var currentCustomName: Option<string>
    /** What `Preferences.set_preset` last stored for this kind of preset. */
    var savedNames: seq<string>
    var savedPrefLists: seq<seq<string>>

    ghost predicate Parallel()
      reads this
    {
      |builtinPrefNames| == |builtinPrefLists| && |presetNames| == |presetPrefLists|
    }

    /** The cached combined lists and the stored presets agree with the cached presets. */
    ghost predicate Valid()
      reads this
    {
      && Parallel()
      && combinedPrefNames == builtinPrefNames + presetNames
      && combinedPrefLists == builtinPrefLists + presetPrefLists
      && savedNames == presetNames
      && savedPrefLists == presetPrefLists
    }

    /** The dialog's preset state once `udpateCachedPrefLists` has read the stored presets. */
    constructor (builtinPrefs: seq<seq<string>>, sep: char, builtinPrefLists: seq<seq<string>>,
                 storedNames: seq<string>, storedPrefLists: seq<seq<string>>)
      requires forall i :: 0 <= i < |builtinPrefs| ==> |builtinPrefs[i]| >= 1
      requires |builtinPrefs| == |builtinPrefLists|
      requires |storedNames| == |storedPrefLists|
      ensures Valid()
      ensures builtinPrefNames == MenuEntries(builtinPrefs, sep) && this.builtinPrefLists == builtinPrefLists
      ensures presetNames == storedNames && presetPrefLists == storedPrefLists
      ensures currentCustomName == None
    {
      builtinPrefNames := MenuEntries(builtinPrefs, sep);
      this.builtinPrefLists := builtinPrefLists;
      presetNames := storedNames;
      presetPrefLists := storedPrefLists;
      savedNames := storedNames;
      savedPrefLists := storedPrefLists;
      currentCustomName := None;
      new;
      UpdateCombinedPrefs();
    }

    /** `_updateCombinedPrefs`: the built-in presets followed by the custom ones. */
    method UpdateCombinedPrefs()
      modifies this`combinedPrefNames, this`combinedPrefLists
      ensures combinedPrefNames == builtinPrefNames + presetNames
      ensures combinedPrefLists == builtinPrefLists + presetPrefLists
    {
      combinedPrefNames := builtinPrefNames + presetNames;
      combinedPrefLists := builtinPrefLists + presetPrefLists;
    }

    /**
     * `movePresetToFront`: pops the preset at `index` (Python indexing) from
     * both lists and reinserts it in front, then refreshes the combined lists
     * and stores the presets. `ok` is false where `pop` raises IndexError.
     */
    method MovePresetToFront(index: int) returns (ok: bool)
      requires Parallel()
      modifies this`presetNames, this`presetPrefLists, this`combinedPrefNames, this`combinedPrefLists,
               this`savedNames, this`savedPrefLists
      ensures Parallel()
      ensures ok <==> index == 0 || PopPosition(|old(presetNames)|, index).Some?
      ensures index == 0 || !ok ==>
                presetNames == old(presetNames) && presetPrefLists == old(presetPrefLists)
                && combinedPrefNames == old(combinedPrefNames) && combinedPrefLists == old(combinedPrefLists)
                && savedNames == old(savedNames) && savedPrefLists == old(savedPrefLists)
      ensures index != 0 && ok ==>
                var k := PopPosition(|old(presetNames)|, index).value;
                && presetNames == MoveToFront(old(presetNames), k)
                && presetPrefLists == MoveToFront(old(presetPrefLists), k)
                && Valid()
    {
      if index == 0 {
        return true;
      }
      var position := PopPosition(|presetNames|, index);
      if position.None? {
        return false;
      }
      var k := position.value;
      var presetName := presetNames[k];
      presetNames := presetNames[..k] + presetNames[k + 1..];
      var prefList := presetPrefLists[k];
      presetPrefLists := presetPrefLists[..k] + presetPrefLists[k + 1..];
      presetNames := [presetName] + presetNames;
      presetPrefLists := [prefList] + presetPrefLists;
      UpdateCombinedPrefs();
      savedNames := presetNames;
      savedPrefLists := presetPrefLists;
      ok := true;
    }

    /**
     * `updateExistingPreset`: stores the editor's pref list under the current
     * custom preset and moves that preset to the front. `ok` is false where
     * `list.index` raises ValueError (no current custom preset, or one no
     * longer cached).
     */
    method UpdateExistingPreset(userPrefList: seq<string>) returns (ok: bool)
      requires Valid()
      modifies this`presetNames, this`presetPrefLists, this`combinedPrefNames, this`combinedPrefLists,
               this`savedNames, this`savedPrefLists
      ensures Valid()
      ensures ok <==> currentCustomName.Some? && currentCustomName.value in old(presetNames)
      ensures !ok ==> presetNames == old(presetNames) && presetPrefLists == old(presetPrefLists)
      ensures ok ==>
                var k := IndexOf(old(presetNames), currentCustomName.value).value;
                && presetNames == MoveToFront(old(presetNames), k)
                && presetPrefLists == MoveToFront(old(presetPrefLists)[k := userPrefList], k)
      ensures ok ==> presetNames[0] == currentCustomName.value && presetPrefLists[0] == userPrefList
    {
      if currentCustomName.None? {
        return false;
      }
      var found := IndexOf(presetNames, currentCustomName.value);
      if found.None? {
        return false;
      }
      var k := found.value;
      presetPrefLists := presetPrefLists[k := userPrefList];
      if k > 0 {
        ok := MovePresetToFront(k);
      } else {
        UpdateCombinedPrefs();
        savedNames := presetNames;
        savedPrefLists := presetPrefLists;
        assert MoveToFront(presetNames, 0) == presetNames;
        assert MoveToFront(presetPrefLists, 0) == presetPrefLists;
        ok := true;
      }
    }

    /** `saveNewPreset`: the editor's pref list becomes the first custom preset, under `presetName`. */
    method SaveNewPreset(presetName: string, userPrefList: seq<string>)
      requires Parallel()
      modifies this`presetNames, this`presetPrefLists, this`combinedPrefNames, this`combinedPrefLists,
               this`savedNames, this`savedPrefLists
      ensures Valid()
      ensures presetNames == [presetName] + old(presetNames)
      ensures presetPrefLists == [userPrefList] + old(presetPrefLists)
    {
      presetNames := [presetName] + presetNames;
      presetPrefLists := [userPrefList] + presetPrefLists;
      UpdateCombinedPrefs();
      savedNames := presetNames;
      savedPrefLists := presetPrefLists;
    }

    /** `clearCustomPresets`: no custom presets and no current one. */
    method ClearCustomPresets()
      requires Parallel()
      modifies this`presetNames, this`presetPrefLists, this`currentCustomName, this`combinedPrefNames,
               this`combinedPrefLists, this`savedNames, this`savedPrefLists
      ensures Valid()
      ensures presetNames == [] && presetPrefLists == [] && currentCustomName == None
      ensures combinedPrefNames == builtinPrefNames && combinedPrefLists == builtinPrefLists
    {
      presetNames := [];
      presetPrefLists := [];
      currentCustomName := None;
      UpdateCombinedPrefs();
      savedNames := presetNames;
      savedPrefLists := presetPrefLists;
    }

    /**
     * The built-in / custom branch of `presetComboItemActivated`, with the
     * custom preset's own index passed on: returns the pref list the editor
     * displays, and an activated custom preset becomes the first one.
     */
    method ActivatePreset(index: int) returns (prefList: seq<string>)
      requires Valid()
      requires 0 <= index < |combinedPrefNames|
      modifies this`presetNames, this`presetPrefLists, this`combinedPrefNames, this`combinedPrefLists,
               this`savedNames, this`savedPrefLists
      ensures Valid()
      ensures prefList == old(combinedPrefLists)[index]
      ensures index < |builtinPrefNames| ==> presetNames == old(presetNames) && presetPrefLists == old(presetPrefLists)
      ensures index >= |builtinPrefNames| ==>
                && |presetNames| > 0
                && presetNames[0] == old(combinedPrefNames)[index]
                && presetPrefLists[0] == old(combinedPrefLists)[index]
      ensures index >= |builtinPrefNames| ==>
                var k := index - |builtinPrefNames|;
                && k < |old(presetNames)|
                && presetNames == MoveToFront(old(presetNames), k)
                && presetPrefLists == MoveToFront(old(presetPrefLists), k)
      ensures multiset(presetNames) == multiset(old(presetNames))
    {
      prefList := combinedPrefLists[index];
      if index >= |builtinPrefNames| {
        var move := ActivatedMoveIndex(|builtinPrefNames|, index);
        assert 0 <= move < |presetNames|;
        assert combinedPrefNames[index] == presetNames[move];
        assert combinedPrefLists[index] == presetPrefLists[move];
        MoveToFrontPermutes(presetNames, move);
        if move > 0 {
          assert PopPosition(|presetNames|, move) == Some(move);
        } else {
          MoveToFrontOfFirst(presetNames);
          MoveToFrontOfFirst(presetPrefLists);
        }
        var ok := MovePresetToFront(move);
      }
    }
  }
}
