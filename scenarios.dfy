/** Whole capture sessions driven through the plugin's methods, from a freshly loaded
    plugin. Each method returns what a user would observe: the texts inserted, the
    notices shown and the final state. */
module Scenarios {
  import opened Wrappers
  import opened Strings
  import opened KeyCombo
  import opened Capture

  /** A key press with no modifier held. */
  function Plain(key: string): KeyEvent
  {
    KeyEvent(key, false, false, false, false)
  }

  /** A note open with the cursor at line 0, character 0. */
  const Home := Some(MarkdownView(Position(0, 0)))

  /** A loaded plugin: idle, with an empty status bar item. */
  method LoadedPlugin(view: Option<MarkdownView>) returns (p: HotkeyCapturePlugin)
    ensures fresh(p) && p.Valid() && p.StatusShowsTokens()
    ensures !p.isCapturing && p.activeView == view && p.scopesCreated == 0 && p.capturedKeys == []
    ensures p.statusBarItem == Some(StatusBarItem("", false))
    ensures p.calls == [SetText("")]
  {
    p := new HotkeyCapturePlugin(view);
    p.OnLoad();
  }

  /** Ctrl+Alt+H is shown as "Ctrl+Alt+H". */
  lemma CtrlAltHCombo()
    ensures FormatKeyCombo(KeyEvent("h", true, true, false, false)) == "Ctrl+Alt+H"
  {
    var e := KeyEvent("h", true, true, false, false);
    assert ModifierLabels(e) == ["Ctrl", "Alt"];
    KeyLabelResolution("h");
    assert ToUpper('h') == 'H';
    assert KeyLabel("h") == "H";
    var parts := ["Ctrl", "Alt", "H"];
    assert parts[1..] == ["Alt", "H"] && parts[1..][1..] == ["H"];
    assert Join(["Alt", "H"], "+") == "Alt+H";
    assert Join(parts, "+") == "Ctrl+Alt+H";
    assert ModifierLabels(e) + [KeyLabel(e.key)] == parts;
  }

  /** A loaded plugin after `startCapture` with a note open at Home. */
  method StartedPlugin() returns (p: HotkeyCapturePlugin)
    ensures fresh(p) && p.Valid() && p.StatusShowsTokens()
    ensures p.isCapturing && p.capturedKeys == [] && p.captureScope == Some(Scope(0))
    ensures p.activeView == Home
    ensures p.statusBarItem == Some(StatusBarItem(CapturingText, true))
    ensures Notices(p.calls) == [StartedNotice] && Insertions(p.calls) == []
  {
    p := LoadedPlugin(Home);
    ghost var c0 := p.calls;
    p.StartCapture();
    OneCall(SetText(""));
    StartCallsEffects(Some(StatusBarItem("", false)), Scope(0));
    NoticesAppend(c0, StartCalls(Some(StatusBarItem("", false)), Scope(0)));
    InsertionsAppend(c0, StartCalls(Some(StatusBarItem("", false)), Scope(0)));
  }

  /** One key press that records a token, seen from the outside: the token is appended,
      the status line shows the tokens so far, and no notice or insertion happens. */
  method Press(p: HotkeyCapturePlugin, e: KeyEvent)
    requires p.Valid() && p.isCapturing && p.statusBarItem.Some?
    requires e.key != StopKey && e.key !in BareModifiers
    modifies p
    ensures p.Valid() && p.isCapturing && p.statusBarItem.Some?
    ensures p.capturedKeys == old(p.capturedKeys) + [FormatKeyCombo(e)]
    ensures p.captureScope == old(p.captureScope) && p.activeView == old(p.activeView)
    ensures Notices(p.calls) == Notices(old(p.calls)) && Insertions(p.calls) == Insertions(old(p.calls))
  {
    ghost var c0 := p.calls;
    ghost var bar := p.statusBarItem;
    var passed := p.HandleKeyDown(e);
    KeyCallsEffects(bar, p.capturedKeys);
    NoticesAppend(c0, KeyCalls(bar, p.capturedKeys));
    InsertionsAppend(c0, KeyCalls(bar, p.capturedKeys));
  }

  /** Escape during a capture, seen from the outside: the capture ends, and the tokens
      are inserted and announced, or the empty capture is reported. */
  method PressEscape(p: HotkeyCapturePlugin)
    requires p.Valid() && p.isCapturing
    modifies p
    ensures p.Valid() && !p.isCapturing
    ensures p.activeView == if old(p.capturedKeys) == [] then old(p.activeView)
                            else ViewAfterInsert(old(p.activeView), Join(old(p.capturedKeys), TokenSeparator))
    ensures Insertions(p.calls) == Insertions(old(p.calls))
              + (if old(p.capturedKeys) != [] && old(p.activeView).Some?
                 then [Join(old(p.capturedKeys), TokenSeparator)] else [])
    ensures Notices(p.calls) == Notices(old(p.calls))
              + (if old(p.capturedKeys) == [] then [NothingNotice]
                 else [InsertedPrefix + Join(old(p.capturedKeys), TokenSeparator)])
  {
    ghost var c0, bar, keys, view, scope := p.calls, p.statusBarItem, p.capturedKeys, p.activeView, p.captureScope.value;
    var passed := p.HandleKeyDown(Plain(StopKey));
    StopCallsEffects(scope, bar, true, keys, view);
    NoticesAppend(c0, StopCalls(scope, bar, true, keys, view));
    InsertionsAppend(c0, StopCalls(scope, bar, true, keys, view));
  }

  /** Ctrl+Alt+H then Escape inserts "Ctrl+Alt+H" once, moves the cursor past it and
      returns to idle. */
  method CaptureCtrlAltH() returns (inserted: seq<string>, notices: seq<string>, capturing: bool, cursor: Position)
    ensures inserted == ["Ctrl+Alt+H"]
    ensures notices == [StartedNotice, InsertedPrefix + "Ctrl+Alt+H"]
    ensures !capturing && cursor == Position(0, 10)
  {
    var p := StartedPlugin();
    CtrlAltHCombo();
    Press(p, KeyEvent("h", true, true, false, false));
    assert p.capturedKeys == ["Ctrl+Alt+H"];
    assert Join(["Ctrl+Alt+H"], TokenSeparator) == "Ctrl+Alt+H";
    PressEscape(p);
    inserted, notices, capturing := Insertions(p.calls), Notices(p.calls), p.isCapturing;
    cursor := p.activeView.value.cursor;
  }

  /** A single unmodified character other than space is shown uppercased, alone. */
  lemma PlainCharCombo(c: char)
    requires c != ' '
    ensures FormatKeyCombo(Plain([c])) == [ToUpper(c)]
  {
    KeyLabelResolution([c]);
    assert ModifierLabels(Plain([c])) == [];
    assert ModifierLabels(Plain([c])) + [KeyLabel([c])] == [[ToUpper(c)]];
  }

  /** "a" then "B" then Escape inserts "A, B": tokens keep their order and are joined
      with ", ". */
  method CaptureTwoKeys() returns (inserted: seq<string>, capturing: bool, cursor: Position)
    ensures inserted == ["A, B"]
    ensures !capturing && cursor == Position(0, 4)
  {
    var p := StartedPlugin();
    PlainCharCombo('a');
    PlainCharCombo('B');
    assert ToUpper('a') == 'A' && ToUpper('B') == 'B';
    Press(p, Plain("a"));
    Press(p, Plain("B"));
    assert p.capturedKeys == ["A", "B"];
    assert ["A", "B"][1..] == ["B"];
    assert Join(["A", "B"], TokenSeparator) == "A, B";
    PressEscape(p);
    inserted, capturing := Insertions(p.calls), p.isCapturing;
    cursor := p.activeView.value.cursor;
  }

  /** A bare Shift is swallowed without a token, so Escape right after it inserts nothing
      and reports that no keys were captured. */
  method BareModifierThenEscape() returns (inserted: seq<string>, notices: seq<string>, capturing: bool, cursor: Position)
    ensures inserted == [] && notices == [StartedNotice, NothingNotice]
    ensures !capturing && cursor == Position(0, 0)
  {
    var p := StartedPlugin();
    var passed := p.HandleKeyDown(KeyEvent("Shift", false, false, true, false));
    assert !passed && p.capturedKeys == [];
    PressEscape(p);
    inserted, notices, capturing := Insertions(p.calls), Notices(p.calls), p.isCapturing;
    cursor := p.activeView.value.cursor;
  }

  /** Unloading mid-capture discards the tokens: nothing is inserted, no further notice,
      the scope is popped and the status bar item is cleared. */
  method UnloadMidCapture() returns (inserted: seq<string>, notices: seq<string>, capturing: bool, status: Option<StatusBarItem>)
    ensures inserted == [] && notices == [StartedNotice]
    ensures !capturing && status == Some(StatusBarItem("", false))
  {
    var p := StartedPlugin();
    Press(p, Plain("x"));
    p.OnUnload();
    inserted, notices, capturing, status := Insertions(p.calls), Notices(p.calls), p.isCapturing, p.statusBarItem;
  }

  /** Closing the note after a key was captured: Escape inserts nothing, yet the
      "Inserted: " notice is still shown. */
  method NoteClosedBeforeEscape() returns (inserted: seq<string>, notices: seq<string>, capturing: bool)
    ensures inserted == [] && notices == [StartedNotice, InsertedPrefix + "A"]
    ensures !capturing
  {
    var p := StartedPlugin();
    PlainCharCombo('a');
    assert ToUpper('a') == 'A';
    Press(p, Plain("a"));
    assert p.capturedKeys == ["A"];
    p.SwitchView(None);
    assert Join(["A"], TokenSeparator) == "A";
    PressEscape(p);
    inserted, notices, capturing := Insertions(p.calls), Notices(p.calls), p.isCapturing;
  }

  /** With no note open, starting only asks for a note. */
  method StartWithoutNote() returns (notices: seq<string>, capturing: bool)
    ensures notices == [OpenNoteNotice] && !capturing
  {
    var p := LoadedPlugin(None);
    ghost var c0 := p.calls;
    p.StartCapture();
    OneCall(SetText(""));
    OneCall(ShowNotice(OpenNoteNotice));
    NoticesAppend(c0, [ShowNotice(OpenNoteNotice)]);
    notices, capturing := Notices(p.calls), p.isCapturing;
  }

  /** Starting twice is the same as starting once: one notice, one scope. */
  method StartTwice() returns (notices: seq<string>, pushed: seq<Scope>)
    ensures notices == [StartedNotice] && pushed == [Scope(0)]
  {
    var p := StartedPlugin();
    p.StartCapture();
    notices, pushed := Notices(p.calls), p.pushedScopes;
  }
}
