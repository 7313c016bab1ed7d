# Hotkey capture plugin, modelled in Dafny

`HotkeyCapturePlugin` is an Obsidian plugin. It captures the keys a user presses and
writes a readable form of them, such as `Ctrl+Alt+H, A`, into the open note. Its
command starts a capture. While the capture runs, the plugin pushes a catch-all keymap
scope, so every key reaches the plugin before any Obsidian hotkey. Each key press that
is not a bare modifier becomes one token, and the status bar shows the tokens so far.
Escape ends the capture: the scope is popped, the tokens are joined with `", "`, the
result is inserted at the cursor and a notice announces it. Unloading the plugin
also ends a capture, but it inserts nothing and shows no notice.

The project has five modules:

- `Wrappers` (`wrappers.dfy`): the `Option` type.
- `Strings` (`strings.dfy`): `Join`, which is `Array.prototype.join`. It also has a
  one-character `Split`, the inverse that states what a joined token still lets a
  reader recover.
- `KeyCombo` (`key_combo.dfy`): `formatKeyCombo`. It covers the modifier labels in
  the fixed order Ctrl, Alt, Shift, Win, the named-key table, the upper-casing of
  single characters and the joining with `"+"`.
- `Capture` (`capture.dfy`): the capture state machine, as the class
  `HotkeyCapturePlugin`. The fields are the plugin's own: `isCapturing`,
  `capturedKeys`, `captureScope` and `statusBarItem`. The host's state sits beside
  them:
  - the scopes pushed on the keymap and not yet popped;
  - the active note's cursor;
  - `calls`, the ordered log of the plugin's calls that change the keymap, the status
    bar item, the notices or the editor (scope push and pop, `setText`,
    `addClass`/`removeClass`, `Notice`, `replaceRange`, `setCursor`).

  The functions `StartCalls`, `KeyCalls`, `InsertCalls`, `ClearStatusCalls`,
  `ResultCalls` and `StopCalls` name the calls each step appends. The `*Effects` lemmas say which notices and insertions those
  calls add and where the scope calls fall. `Valid()` is the capture invariant: a
  scope is held, and pushed, exactly while capturing, and no tokens are kept while
  idle. `StatusShowsTokens()` says the status bar item shows the live tokens while a
  capture runs and is blank and inactive otherwise. `StartCapture`, `HandleKeyDown`,
  `StopCapture` and `OnUnload` keep both; `OnLoad` keeps `Valid()` and, when idle,
  establishes `StatusShowsTokens()`. `EndCapture` and `DeliverResult` are the two
  halves of a stop: between them `Valid()` may not hold (the scope is released while
  tokens remain), and only the whole `StopCapture` restores it.
- `Scenarios` (`scenarios.dfy`): whole sessions driven through the class's methods. For
  each one it proves what the user sees: the texts inserted, the notices, the cursor
  and the final state.

The stop key is the literal `"Escape"`, as in `main.js:62`. No setting can change it
in this code.

## Model

| member | source | states |
|---|---|---|
| KeyCombo.ModifierLabelsCount | main.js:83-88 | one label per modifier flag that is set, and every label is one of Ctrl, Alt, Shift, Win |
| KeyCombo.ModifierLabelsPresent | main.js:85-88 | each of Ctrl, Alt, Shift and Win is among the labels exactly when its flag (ctrl, alt, shift, meta) is set |
| KeyCombo.ModifierLabelsOrdered | main.js:85-88 | the labels come strictly in the order Ctrl, Alt, Shift, Win, so none repeats |
| KeyCombo.ToUpper | main.js:111-112 | each lower-case ASCII letter becomes its own capital (code point minus 32); the result is never a lower-case letter; it is an upper-case letter exactly when the input is a letter; anything that is not a lower-case letter is unchanged |
| KeyCombo.KeyLabelResolution | main.js:90-113 | Space and the four arrow glyphs for those keys; the nine other named keys unchanged; any other single character upper-cased; every other key as it is; the label is empty only for the empty key and contains "+" only when it is the key itself |
| KeyCombo.KeyLabelIdempotent | main.js:92-113 | resolving a label a second time gives the same label |
| KeyCombo.FormatKeyComboShape | main.js:82-117 | the token ends with the key label; it is the bare key label when no modifier is held; otherwise it starts with the first modifier label and "+" |
| KeyCombo.FormatKeyComboParts | main.js:82-117 | for a key without "+", splitting the token on "+" gives back the modifier labels in order, then the key label: modifiers + 1 parts |
| KeyCombo.FormatKeyComboDetermines | main.js:82-117 | two events without "+" in their key that give the same token have the same four modifier flags and the same key label |
| Strings.JoinEnds | main.js:116 | a join of no parts is empty; a non-empty join starts with the first part (and the separator, when there are more parts) and ends with the last part |
| Strings.SplitJoin | main.js:116 | splitting a join on its one-character separator gives back the parts, when no part contains the separator |
| KeyCombo.ModifierLabels | main.js:83-88 | the modifier part of a token; its contract is carried by ModifierLabelsCount, ModifierLabelsPresent and ModifierLabelsOrdered |
| KeyCombo.KeyLabel | main.js:90-113 | the key part of a token; its contract is carried by KeyLabelResolution and KeyLabelIdempotent |
| KeyCombo.FormatKeyCombo | main.js:82-117 | the token of one event; its contract is carried by FormatKeyComboShape, FormatKeyComboParts and FormatKeyComboDetermines |
| Strings.Join | main.js:116 | `Array.prototype.join`, used at main.js:76, 116 and 136; its contract is carried by JoinEnds and SplitJoin |
| Capture.LiveStatus | main.js:76 | the status text while capturing (also the "Capturing..." text of main.js:41); its contract is carried by LiveStatusShape |
| Capture.LiveStatusShape | main.js:41-76 | the status starts with the keyboard marker; it reads "Capturing..." with no tokens, and otherwise continues with the first token and ends with the latest one |
| Capture.StartCalls | main.js:40-56 | the calls of a successful start; its contract is carried by StartCallsEffects |
| Capture.KeyCalls | main.js:75-77 | the calls of recording a token; its contract is carried by KeyCallsEffects |
| Capture.InsertCalls | main.js:146-158 | the calls of `insertText`; its contract is carried by InsertCallsEffects |
| Capture.ClearStatusCalls | main.js:130-133 | the calls clearing the status item; its contract is carried by ClearStatusCallsEffects |
| Capture.ResultCalls | main.js:135-143 | the calls of the commit decision; its contract is carried by ResultCallsEffects |
| Capture.StopCalls | main.js:119-144 | the calls of a stop while capturing; its contract is carried by StopCallsEffects |
| Capture.ViewAfterInsert | main.js:150-157 | a cursor exists afterwards exactly when one did before; it stays on its line and moves right by the length of the inserted text |
| Capture.StartCallsEffects | main.js:40-56 | a start shows exactly the start notice, inserts nothing and pushes the new scope as its last call, with no scope call before it |
| Capture.KeyCallsEffects | main.js:75-77 | recording a token shows no notice, inserts nothing and makes no scope call |
| Capture.InsertCallsEffects | main.js:146-158 | the text is inserted exactly once when a note is open and not at all otherwise; the last call puts the cursor just after the text; no notice and no scope call |
| Capture.ClearStatusCallsEffects | main.js:130-133 | clearing the status shows no notice, inserts nothing and makes no scope call |
| Capture.ResultCallsEffects | main.js:135-143 | on commit with tokens, the joined tokens are inserted (when a note is open) and "Inserted: " with them is announced; on commit with none, only "No keys captured"; without commit, nothing; never a scope call |
| Capture.StopCallsEffects | main.js:119-144 | a stop pops the session's scope as its very first call and makes no other scope call; its insertions and notices are those of the commit decision above |
| Capture.HotkeyCapturePlugin.constructor | main.js:4-10 | idle, no tokens, no scope, no status bar item, no calls made; the invariant holds |
| Capture.HotkeyCapturePlugin.OnLoad | main.js:20-21 | the status bar item is created with empty text, and that setText is the only logged call; nothing else changes |
| Capture.HotkeyCapturePlugin.SwitchView | main.js:31 | the host's active note becomes the given one (the result `getActiveViewOfType` later reads) |
| Capture.HotkeyCapturePlugin.StartCapture | main.js:28-57 | while capturing, nothing changes. With no note open, only the "Open a note first" notice. Otherwise: capturing with no tokens; the next scope by creation count (`Scope(n)` for n scopes created before) is held and is the only pushed scope; the status shows "Capturing..." and is active; the calls are status, start notice, then the scope push |
| Capture.HotkeyCapturePlugin.HandleKeyDown | main.js:59-80 | passes the event through exactly when idle, and then changes nothing. While capturing it swallows every event: on Escape it stops with commit; on a bare Control/Alt/Shift/Meta it records nothing; on any other key it appends that event's formatted token and the status shows the tokens joined with ", " |
| Capture.HotkeyCapturePlugin.StopCapture | main.js:119-144 | when idle, nothing changes. Otherwise it ends idle with no tokens and no scope held. It pops the scope first and clears the status. A commit with tokens adds "Inserted: " plus the join of the tokens to the notices and, when a note is open, the join to the insertions; a commit without tokens adds only "No keys captured"; without commit, the notices and insertions stay as they were |
| Capture.HotkeyCapturePlugin.EndCapture | main.js:122-133 | capturing stops, the scope is popped and released, and the status is cleared and made inactive, in that call order; tokens and cursor are untouched |
| Capture.HotkeyCapturePlugin.DeliverResult | main.js:135-143 | tokens are cleared; the cursor moves past the joined tokens exactly when committing non-empty tokens into an open note; the calls are those of the commit decision |
| Capture.HotkeyCapturePlugin.InsertText | main.js:146-158 | the note's cursor moves past the text and the calls are the insertion then the cursor move, or nothing when no note is open |
| Capture.HotkeyCapturePlugin.OnUnload | main.js:24-26 | when idle, nothing changes; otherwise the whole state a stop without commit leaves (scope popped first, status cleared, tokens dropped); in both cases no text is inserted and no notice shown |
| Scenarios.CtrlAltHCombo | main.js:82-117 | Ctrl+Alt with key "h" is shown as "Ctrl+Alt+H" |
| Scenarios.PlainCharCombo | main.js:109-116 | a single character other than space, with no modifier, is shown as itself upper-cased |
| Scenarios.LoadedPlugin | main.js:4-22 | a freshly loaded plugin is idle with an empty, inactive status item, and that status setText is its only logged call |
| Scenarios.StartedPlugin | main.js:28-57 | starting with a note open captures with the first scope, shows "Capturing..." and has shown only the start notice |
| Scenarios.Press | main.js:72-77 | an ordinary key during a capture appends its token and adds no notice or insertion |
| Scenarios.PressEscape | main.js:62-64 | Escape during a capture ends it; the joined tokens are inserted and announced, or "No keys captured" is shown |
| Scenarios.CaptureCtrlAltH | main.js:59-158 | Ctrl+Alt+H then Escape inserts "Ctrl+Alt+H" once, announces it after the start notice, ends idle with the cursor at column 10 |
| Scenarios.CaptureTwoKeys | main.js:136 | "a", "B", Escape inserts "A, B" and leaves the cursor at column 4 |
| Scenarios.BareModifierThenEscape | main.js:68-70 | a bare Shift then Escape inserts nothing and reports "No keys captured" |
| Scenarios.UnloadMidCapture | main.js:24-26 | unloading mid-capture inserts nothing, shows no notice beyond the start one, ends idle with a blank status |
| Scenarios.NoteClosedBeforeEscape | main.js:135-148 | when the note is closed after a key was captured, Escape inserts nothing yet still shows "Inserted: A" after the start notice, and ends idle |
| Scenarios.StartWithoutNote | main.js:31-35 | with no note open, a start only shows "Open a note first" and does not capture |
| Scenarios.StartTwice | main.js:29 | a second start while capturing shows no second notice and pushes no second scope |

## Left out

- Obsidian itself is abstract state: the keymap, the status bar element, notices and the editor. It is modelled as the fields above and the `calls` log. How the keymap dispatches events, and scope priority, are not modelled.
- The command registration in `onload` (`main.js:13-18`) and its default Ctrl+Alt+H binding are host menu set-up and are not modelled; `OnLoad` covers only the status bar item.
- Host calls that only query or create are not entered in `calls`: `addStatusBarItem()` (`main.js:20`), `getActiveViewOfType` (`main.js:31`, `147`), `new obsidian.Scope()` (`main.js:48`) and `editor.getCursor()` (`main.js:151`). Their results are the fields `statusBarItem`, `activeView`, `scopesCreated` and the view's cursor.
- The scope's catch-all handler registration (`main.js:51-53`) is not modelled as a call. The host routing an event to `HandleKeyDown` is the caller invoking that method.
- `Scope` objects are modelled by identity only: the n-th scope created is `Scope(n)`.
- KeyCombo.ToUpper: upper-cases ASCII letters only; `String.prototype.toUpperCase` also maps other scripts and may lengthen a character (such as "ß" to "SS"), which this model does not follow.
- Lengths are counted in Unicode characters; JavaScript's `text.length` counts UTF-16 units, so a key or token with characters outside the Basic Multilingual Plane moves the cursor further in `main.js:156` than in `ViewAfterInsert`.
- KeyCombo.KeyLabel: the table lookup matches the table's own entries only. In `main.js:109` an object lookup would also match inherited names such as "constructor"; no real key value has such a name.
- A configurable stop key, the settings panel and its one-key listener are not in this code and are not modelled.
- When the active note is closed between start and commit, the code inserts nothing yet still shows "Inserted: ...". The model keeps this behaviour (see `ResultCallsEffects` and `NoteClosedBeforeEscape`) and makes no claim about intent.
- `stopCapture` is written as two methods that run in the source's order: `EndCapture` (`main.js:122-133`) and `DeliverResult` (`main.js:135-143`). `StopCapture` calls them in turn.
- The `if (this.captureScope)` guard in `main.js:125` is kept in `EndCapture`; under `Valid()` it always holds while capturing.
- Concurrency and re-entrancy are not modelled: each event handler runs to completion, as in the single-threaded host.
