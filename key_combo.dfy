/** `formatKeyCombo`: one keyboard event becomes one token such as "Ctrl+Alt+H". */
module KeyCombo {
  import opened Strings

  /** The attributes of a DOM `KeyboardEvent` the formatter reads. */
  datatype KeyEvent = KeyEvent(key: string, ctrlKey: bool, altKey: bool, shiftKey: bool, metaKey: bool)

  /** The modifier labels in the order they are emitted; Meta is shown as "Win". */
  const ModifierOrder: seq<string> := ["Ctrl", "Alt", "Shift", "Win"]

  /** Position of a label in ModifierOrder (4 for anything else). */
  function Rank(name: string): nat
  {
    if name == "Ctrl" then 0
    else if name == "Alt" then 1
    else if name == "Shift" then 2
    else if name == "Win" then 3
    else 4
  }

  /** How many of the four modifier flags are set. */
  function ModifierCount(e: KeyEvent): nat
  {
    (if e.ctrlKey then 1 else 0) + (if e.altKey then 1 else 0)
    + (if e.shiftKey then 1 else 0) + (if e.metaKey then 1 else 0)
  }

  /** The modifier part of a combo: a label for each set flag, in ModifierOrder. */
  function ModifierLabels(e: KeyEvent): seq<string>
  {
    (if e.ctrlKey then ["Ctrl"] else [])
    + (if e.altKey then ["Alt"] else [])
    + (if e.shiftKey then ["Shift"] else [])
    + (if e.metaKey then ["Win"] else [])
  }

  /** One label per set flag, each naming a modifier. */
  lemma ModifierLabelsCount(e: KeyEvent)
    ensures |ModifierLabels(e)| == ModifierCount(e)
    ensures forall i :: 0 <= i < |ModifierLabels(e)| ==> ModifierLabels(e)[i] in ModifierOrder
  {
  }

  /** A label is present exactly when its flag is set. */
  lemma ModifierLabelsPresent(e: KeyEvent)
    ensures ("Ctrl" in ModifierLabels(e) <==> e.ctrlKey) && ("Alt" in ModifierLabels(e) <==> e.altKey)
    ensures ("Shift" in ModifierLabels(e) <==> e.shiftKey) && ("Win" in ModifierLabels(e) <==> e.metaKey)
  {
  }

  /** The labels come strictly in ModifierOrder, so none appears twice. */
  lemma ModifierLabelsOrdered(e: KeyEvent)
    ensures forall i, j :: 0 <= i < j < |ModifierLabels(e)| ==> Rank(ModifierLabels(e)[i]) < Rank(ModifierLabels(e)[j])
  {
  }

  /** The substitution table for named keys. */
  const KeyMap: map<string, string> := map[
    " " := "Space",
    "ArrowUp" := "\U{2191}",
    "ArrowDown" := "\U{2193}",
    "ArrowLeft" := "\U{2190}",
    "ArrowRight" := "\U{2192}",
    "Enter" := "Enter",
    "Tab" := "Tab",
    "Backspace" := "Backspace",
    "Delete" := "Delete",
    "Home" := "Home",
    "End" := "End",
    "PageUp" := "PageUp",
    "PageDown" := "PageDown",
    "Insert" := "Insert"
  ]

  /** The named keys the table maps to themselves. */
  const SelfNamedKeys: seq<string> :=
    ["Enter", "Tab", "Backspace", "Delete", "Home", "End", "PageUp", "PageDown", "Insert"]

  /** Upper-casing of one character, on ASCII letters only. */
  function ToUpper(c: char): (u: char)
    ensures !('a' <= u <= 'z')
    ensures 'A' <= u <= 'Z' <==> ('a' <= c <= 'z' || 'A' <= c <= 'Z')
    ensures !('a' <= c <= 'z') ==> u == c
    ensures 'a' <= c <= 'z' ==> u as int == c as int - 32
  {
    if 'a' <= c <= 'z' then (c as int - 32) as char else c
  }

  /** The key label: the table entry if there is one, else the upper-cased key if it is a
      single character, else the key unchanged. */
  function KeyLabel(key: string): string
  {
    if key in KeyMap then KeyMap[key]
    else if |key| == 1 then [ToUpper(key[0])]
    else key
  }

  /** What the resolution gives: Space and the arrow glyphs for those keys, the other
      named keys unchanged, a single character upper-cased, any other key as it is.
      The label is empty only for the empty key, and has a "+" only if it is the key. */
  lemma KeyLabelResolution(key: string)
    ensures key == " " ==> KeyLabel(key) == "Space"
    ensures key == "ArrowUp" ==> KeyLabel(key) == "\U{2191}"
    ensures key == "ArrowDown" ==> KeyLabel(key) == "\U{2193}"
    ensures key == "ArrowLeft" ==> KeyLabel(key) == "\U{2190}"
    ensures key == "ArrowRight" ==> KeyLabel(key) == "\U{2192}"
    ensures key in SelfNamedKeys ==> KeyLabel(key) == key
    ensures |key| == 1 && key != " " ==> KeyLabel(key) == [ToUpper(key[0])]
    ensures |key| != 1 && key !in KeyMap ==> KeyLabel(key) == key
    ensures |KeyLabel(key)| == 0 <==> |key| == 0
    ensures '+' in KeyLabel(key) ==> KeyLabel(key) == key
  {
  }

  /** A label is already in resolved form: resolving it again changes nothing. */
  lemma KeyLabelIdempotent(key: string)
    ensures KeyLabel(KeyLabel(key)) == KeyLabel(key)
  {
    KeyLabelResolution(key);
    var shown := KeyLabel(key);
    if key in KeyMap {
      assert shown in KeyMap.Values;
    } else if |key| == 1 {
      assert shown == [ToUpper(key[0])] && shown[0] != ' ';
    }
  }

  /** The event's token: the modifier labels followed by the key label, joined with "+". */
  function FormatKeyCombo(e: KeyEvent): string
  {
    Join(ModifierLabels(e) + [KeyLabel(e.key)], "+")
  }

  /** The token ends with the key label, starts with the first modifier label and a "+"
      when a modifier is held, and is the bare key label when none is. */
  lemma FormatKeyComboShape(e: KeyEvent)
    ensures |FormatKeyCombo(e)| >= |KeyLabel(e.key)|
    ensures FormatKeyCombo(e)[|FormatKeyCombo(e)| - |KeyLabel(e.key)|..] == KeyLabel(e.key)
    ensures ModifierCount(e) == 0 ==> FormatKeyCombo(e) == KeyLabel(e.key)
    ensures ModifierCount(e) > 0 ==> ModifierLabels(e)[0] + "+" <= FormatKeyCombo(e)
  {
    ModifierLabelsCount(e);
    var parts := ModifierLabels(e) + [KeyLabel(e.key)];
    JoinEnds(parts, "+");
  }

  /** When the key has no "+" in it, the token splits on "+" back into its parts:
      exactly one piece per set modifier, in ModifierOrder, then the key label. */
  lemma FormatKeyComboParts(e: KeyEvent)
    requires '+' !in e.key
    ensures Split(FormatKeyCombo(e), '+') == ModifierLabels(e) + [KeyLabel(e.key)]
    ensures |Split(FormatKeyCombo(e), '+')| == ModifierCount(e) + 1
  {
    ModifierLabelsCount(e);
    KeyLabelResolution(e.key);
    var parts := ModifierLabels(e) + [KeyLabel(e.key)];
    assert forall i :: 0 <= i < |parts| ==> '+' !in parts[i];
    SplitJoin(parts, '+');
  }

  /** The token determines the event's modifier flags and its key label. */
  lemma FormatKeyComboDetermines(e1: KeyEvent, e2: KeyEvent)
    requires '+' !in e1.key && '+' !in e2.key
    requires FormatKeyCombo(e1) == FormatKeyCombo(e2)
    ensures e1.ctrlKey == e2.ctrlKey && e1.altKey == e2.altKey
    ensures e1.shiftKey == e2.shiftKey && e1.metaKey == e2.metaKey
    ensures KeyLabel(e1.key) == KeyLabel(e2.key)
  {
    FormatKeyComboParts(e1);
    FormatKeyComboParts(e2);
    ModifierLabelsPresent(e1);
    ModifierLabelsPresent(e2);
    var p1, p2 := ModifierLabels(e1), ModifierLabels(e2);
    assert p1 + [KeyLabel(e1.key)] == p2 + [KeyLabel(e2.key)];
    assert |p1| == |p2|;
    assert p1 == (p1 + [KeyLabel(e1.key)])[..|p1|];
    assert p2 == (p2 + [KeyLabel(e2.key)])[..|p2|];
  }
}
