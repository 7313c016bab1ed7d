/** The capture state machine of `HotkeyCapturePlugin`: start, per-key handling, stop and
    unload, over an abstract host. Every call the plugin makes that changes the keymap,
    the status bar item, the notices or the editor is recorded, in order, in `calls`; the
    host state those calls change (the plugin's scopes on the keymap, the status bar
    item, the active note's cursor) is kept in fields beside it. */
module Capture {
  import opened Wrappers
  import opened Strings
  import opened KeyCombo

  /** The key that ends a capture; a literal in the code, not a setting. */
  const StopKey := "Escape"
  /** Keys that, pressed alone, are swallowed without a token. */
  const BareModifiers: seq<string> := ["Control", "Alt", "Shift", "Meta"]
  /** Separator of the committed result and of the live status. */
  const TokenSeparator := ", "

  const ActiveClass := "hotkey-capture-active"
  const CapturingText := "\U{1F3B9} Capturing..."
  const StatusPrefix := "\U{1F3B9} "
  const OpenNoteNotice := "Open a note first"
  const StartedNotice := "Hotkey capture started. Press keys, then Esc to finish."
  const InsertedPrefix := "Inserted: "
  const NothingNotice := "No keys captured"

  /** A catch-all keymap scope. Only its identity matters here: the n-th `new Scope()`
      the plugin makes is `Scope(n)`, so each one differs from all earlier ones. */
  datatype Scope = Scope(id: nat)

  /** An editor position: line and character offset. */
  datatype Position = Position(line: nat, ch: nat)

  /** The active Markdown view, reduced to its editor's cursor. */
  datatype MarkdownView = MarkdownView(cursor: Position)

  /** The status bar item: its text and whether it carries ActiveClass. */
  datatype StatusBarItem = StatusBarItem(text: string, active: bool)

  /** A call from the plugin into the host. */
  datatype HostCall =
    | PushScope(scope: Scope)
    | PopScope(scope: Scope)
    | SetText(text: string)
    | AddClass(cls: string)
    | RemoveClass(cls: string)
    | ShowNotice(message: string)
    | ReplaceRange(text: string, at: Position)
    | SetCursor(at: Position)

  /** The messages of the notices in a call log, in order. */
  function Notices(log: seq<HostCall>): seq<string>
    decreases |log|
  {
    if |log| == 0 then []
    else (if log[0].ShowNotice? then [log[0].message] else []) + Notices(log[1..])
  }

  /** The texts put into the editor in a call log, in order. */
  function Insertions(log: seq<HostCall>): seq<string>
    decreases |log|
  {
    if |log| == 0 then []
    else (if log[0].ReplaceRange? then [log[0].text] else []) + Insertions(log[1..])
  }

  /** Appending calls appends their notices. */
  lemma {:induction false} NoticesAppend(a: seq<HostCall>, b: seq<HostCall>)
    ensures Notices(a + b) == Notices(a) + Notices(b)
    decreases |a|
  {
    if |a| > 0 {
      assert (a + b)[0] == a[0] && (a + b)[1..] == a[1..] + b;
      NoticesAppend(a[1..], b);
    } else {
      assert a + b == b;
    }
  }

  /** Appending calls appends their insertions. */
  lemma {:induction false} InsertionsAppend(a: seq<HostCall>, b: seq<HostCall>)
    ensures Insertions(a + b) == Insertions(a) + Insertions(b)
    decreases |a|
  {
    if |a| > 0 {
      assert (a + b)[0] == a[0] && (a + b)[1..] == a[1..] + b;
      InsertionsAppend(a[1..], b);
    } else {
      assert a + b == b;
    }
  }

  /** What the status bar shows while capturing: the marker, then the tokens so far. */
  function LiveStatus(keys: seq<string>): string
  {
    if keys == [] then CapturingText else StatusPrefix + Join(keys, TokenSeparator)
  }

  /** The status always starts with the marker. With no tokens it reads "Capturing...";
      otherwise it continues with the first token and ends with the latest one. */
  lemma LiveStatusShape(keys: seq<string>)
    ensures StatusPrefix <= LiveStatus(keys)
    ensures keys == [] ==> LiveStatus(keys) == CapturingText
    ensures keys != [] ==> StatusPrefix + keys[0] <= LiveStatus(keys)
    ensures keys != [] ==> |LiveStatus(keys)| >= |StatusPrefix| + |keys[|keys| - 1]|
    ensures keys != [] ==> LiveStatus(keys)[|LiveStatus(keys)| - |keys[|keys| - 1]|..] == keys[|keys| - 1]
  {
    if keys == [] {
      assert CapturingText == StatusPrefix + "Capturing...";
    } else {
      JoinEnds(keys, TokenSeparator);
      var j := Join(keys, TokenSeparator);
      var last := keys[|keys| - 1];
      assert (StatusPrefix + j)[|StatusPrefix + j| - |last|..] == j[|j| - |last|..];
    }
  }

  /** The view after `insertText(text)`: the cursor moved past the inserted text. */
  function ViewAfterInsert(view: Option<MarkdownView>, text: string): (after: Option<MarkdownView>)
    ensures after.Some? <==> view.Some?
    ensures view.Some? ==> after.value.cursor.line == view.value.cursor.line
    ensures view.Some? ==> after.value.cursor.ch - view.value.cursor.ch == |text|
  {
    match view
    case None => None
    case Some(v) => Some(MarkdownView(Position(v.cursor.line, v.cursor.ch + |text|)))
  }

  /** No call in the log pushes or pops a scope. */
  predicate NoScopeCalls(log: seq<HostCall>)
  {
    forall i :: 0 <= i < |log| ==> !log[i].PushScope? && !log[i].PopScope?
  }

  lemma NoScopeCallsAppend(a: seq<HostCall>, b: seq<HostCall>)
    requires NoScopeCalls(a) && NoScopeCalls(b)
    ensures NoScopeCalls(a + b)
  {
    forall i | 0 <= i < |a + b|
      ensures !(a + b)[i].PushScope? && !(a + b)[i].PopScope?
    {
      if i >= |a| {
        assert (a + b)[i] == b[i - |a|];
      }
    }
  }

  /** A single call contributes its own notice or insertion, if it is one. */
  lemma OneCall(c: HostCall)
    ensures Notices([c]) == if c.ShowNotice? then [c.message] else []
    ensures Insertions([c]) == if c.ReplaceRange? then [c.text] else []
  {
    assert [c][1..] == [];
  }

  /** Two calls contribute the notices and insertions of each, in order. */
  lemma TwoCalls(c: HostCall, d: HostCall)
    ensures Notices([c, d]) == Notices([c]) + Notices([d])
    ensures Insertions([c, d]) == Insertions([c]) + Insertions([d])
  {
    assert [c, d] == [c] + [d];
    NoticesAppend([c], [d]);
    InsertionsAppend([c], [d]);
  }

  /** The calls of a successful `startCapture`: status, notice, then the scope push. */
  function StartCalls(bar: Option<StatusBarItem>, scope: Scope): seq<HostCall>
  {
    (if bar.Some? then [SetText(CapturingText), AddClass(ActiveClass)] else [])
    + [ShowNotice(StartedNotice), PushScope(scope)]
  }

  /** The calls of recording a token: the status refresh, if there is a status bar item. */
  function KeyCalls(bar: Option<StatusBarItem>, keys: seq<string>): seq<HostCall>
  {
    if bar.Some? then [SetText(LiveStatus(keys))] else []
  }

  /** Starting shows the start notice once, pushes exactly the new scope last, and
      inserts nothing. */
  lemma StartCallsEffects(bar: Option<StatusBarItem>, scope: Scope)
    ensures Notices(StartCalls(bar, scope)) == [StartedNotice]
    ensures Insertions(StartCalls(bar, scope)) == []
    ensures StartCalls(bar, scope)[|StartCalls(bar, scope)| - 1] == PushScope(scope)
    ensures NoScopeCalls(StartCalls(bar, scope)[..|StartCalls(bar, scope)| - 1])
  {
    var status := if bar.Some? then [SetText(CapturingText), AddClass(ActiveClass)] else [];
    var rest := [ShowNotice(StartedNotice), PushScope(scope)];
    if bar.Some? {
      TwoCalls(SetText(CapturingText), AddClass(ActiveClass));
      OneCall(SetText(CapturingText));
      OneCall(AddClass(ActiveClass));
    }
    TwoCalls(ShowNotice(StartedNotice), PushScope(scope));
    OneCall(ShowNotice(StartedNotice));
    OneCall(PushScope(scope));
    NoticesAppend(status, rest);
    InsertionsAppend(status, rest);
    assert (status + rest)[..|status + rest| - 1] == status + [ShowNotice(StartedNotice)];
  }

  /** Recording a token neither notifies, inserts nor touches the keymap. */
  lemma KeyCallsEffects(bar: Option<StatusBarItem>, keys: seq<string>)
    ensures Notices(KeyCalls(bar, keys)) == [] && Insertions(KeyCalls(bar, keys)) == []
    ensures NoScopeCalls(KeyCalls(bar, keys))
  {
    if bar.Some? {
      OneCall(SetText(LiveStatus(keys)));
    }
  }

  /** The calls `insertText(text)` makes: without a view none, else the edit at the
      cursor and the cursor move. */
  function InsertCalls(text: string, view: Option<MarkdownView>): seq<HostCall>
  {
    match view
    case None => []
    case Some(v) => [ReplaceRange(text, v.cursor), SetCursor(Position(v.cursor.line, v.cursor.ch + |text|))]
  }

  /** The calls that clear the status bar item, if there is one. */
  function ClearStatusCalls(bar: Option<StatusBarItem>): seq<HostCall>
  {
    if bar.Some? then [SetText(""), RemoveClass(ActiveClass)] else []
  }

  /** The calls that end `stopCapture(insertResult)`. */
  function ResultCalls(insertResult: bool, keys: seq<string>, view: Option<MarkdownView>): seq<HostCall>
  {
    if insertResult && |keys| > 0 then
      var result := Join(keys, TokenSeparator);
      InsertCalls(result, view) + [ShowNotice(InsertedPrefix + result)]
    else if insertResult then [ShowNotice(NothingNotice)]
    else []
  }

  /** All calls of `stopCapture(insertResult)` while capturing, in order. */
  function StopCalls(scope: Scope, bar: Option<StatusBarItem>, insertResult: bool, keys: seq<string>,
                     view: Option<MarkdownView>): seq<HostCall>
  {
    [PopScope(scope)] + ClearStatusCalls(bar) + ResultCalls(insertResult, keys, view)
  }

  /** `insertText` inserts its text once when a note is open and never shows a notice;
      the cursor ends up just past the text. */
  lemma InsertCallsEffects(text: string, view: Option<MarkdownView>)
    ensures Insertions(InsertCalls(text, view)) == if view.Some? then [text] else []
    ensures Notices(InsertCalls(text, view)) == [] && NoScopeCalls(InsertCalls(text, view))
    ensures view.Some? ==> InsertCalls(text, view)[|InsertCalls(text, view)| - 1]
                           == SetCursor(ViewAfterInsert(view, text).value.cursor)
  {
    if view.Some? {
      var edit, move := ReplaceRange(text, view.value.cursor), SetCursor(ViewAfterInsert(view, text).value.cursor);
      TwoCalls(edit, move);
      OneCall(edit);
      OneCall(move);
    }
  }

  /** Clearing the status neither inserts nor notifies nor touches the keymap. */
  lemma ClearStatusCallsEffects(bar: Option<StatusBarItem>)
    ensures Notices(ClearStatusCalls(bar)) == [] && Insertions(ClearStatusCalls(bar)) == []
    ensures NoScopeCalls(ClearStatusCalls(bar))
  {
    if bar.Some? {
      TwoCalls(SetText(""), RemoveClass(ActiveClass));
      OneCall(SetText(""));
      OneCall(RemoveClass(ActiveClass));
    }
  }

  /** The result step inserts the tokens joined by ", " exactly once when asked, tokens
      exist and a note is open; it shows "Inserted: ..." whenever asked with tokens (even
      with no note open), "No keys captured" when asked without tokens, and nothing when
      not asked. */
  lemma ResultCallsEffects(insertResult: bool, keys: seq<string>, view: Option<MarkdownView>)
    ensures NoScopeCalls(ResultCalls(insertResult, keys, view))
    ensures Insertions(ResultCalls(insertResult, keys, view))
            == if insertResult && keys != [] && view.Some? then [Join(keys, TokenSeparator)] else []
    ensures Notices(ResultCalls(insertResult, keys, view))
            == if !insertResult then []
               else if keys == [] then [NothingNotice]
               else [InsertedPrefix + Join(keys, TokenSeparator)]
  {
    if insertResult && |keys| > 0 {
      var result := Join(keys, TokenSeparator);
      var insert, notice := InsertCalls(result, view), ShowNotice(InsertedPrefix + result);
      InsertCallsEffects(result, view);
      OneCall(notice);
      NoticesAppend(insert, [notice]);
      InsertionsAppend(insert, [notice]);
      NoScopeCallsAppend(insert, [notice]);
    } else if insertResult {
      OneCall(ShowNotice(NothingNotice));
    }
  }

  /** Stopping pops the scope before any other call and makes no further keymap call;
      it inserts and notifies as ResultCallsEffects says. */
  lemma StopCallsEffects(scope: Scope, bar: Option<StatusBarItem>, insertResult: bool, keys: seq<string>,
                         view: Option<MarkdownView>)
    ensures StopCalls(scope, bar, insertResult, keys, view)[0] == PopScope(scope)
    ensures NoScopeCalls(StopCalls(scope, bar, insertResult, keys, view)[1..])
    ensures Insertions(StopCalls(scope, bar, insertResult, keys, view))
            == if insertResult && keys != [] && view.Some? then [Join(keys, TokenSeparator)] else []
    ensures Notices(StopCalls(scope, bar, insertResult, keys, view))
            == if !insertResult then []
               else if keys == [] then [NothingNotice]
               else [InsertedPrefix + Join(keys, TokenSeparator)]
  {
    var clear, result := ClearStatusCalls(bar), ResultCalls(insertResult, keys, view);
    var rest := clear + result;
    ClearStatusCallsEffects(bar);
    ResultCallsEffects(insertResult, keys, view);
    OneCall(PopScope(scope));
    NoticesAppend(clear, result);
    InsertionsAppend(clear, result);
    NoticesAppend([PopScope(scope)], rest);
    InsertionsAppend([PopScope(scope)], rest);
    NoScopeCallsAppend(clear, result);
    assert StopCalls(scope, bar, insertResult, keys, view) == [PopScope(scope)] + rest;
    assert ([PopScope(scope)] + rest)[1..] == rest;
  }

  class HotkeyCapturePlugin {
    var isCapturing: bool
    var capturedKeys: seq<string>
    var captureScope: Option<Scope>
    var statusBarItem: Option<StatusBarItem>

    /** How many scopes the plugin has created. */
    var scopesCreated: nat
    /** The scopes this plugin has pushed onto the host keymap and not popped. */
    var pushedScopes: seq<Scope>
    /** The host's active Markdown view, if any. */
    var activeView: Option<MarkdownView>
    /** Every call made into the host, oldest first. */
    var calls: seq<HostCall>

    /** The capture invariant: a scope is held, and pushed, exactly while capturing,
        and no tokens are kept while idle. */
    ghost predicate Valid()
      reads this
    {
      (captureScope.Some? <==> isCapturing)
      && (isCapturing ==> pushedScopes == [captureScope.value] && captureScope.value.id < scopesCreated)
      && (!isCapturing ==> pushedScopes == [] && capturedKeys == [])
    }

    /** The status bar item, if it exists, shows the live tokens while capturing and is
        blank and inactive while idle. */
    ghost predicate StatusShowsTokens()
      reads this
    {
      statusBarItem.Some? ==>
        statusBarItem.value == if isCapturing then StatusBarItem(LiveStatus(capturedKeys), true)
                               else StatusBarItem("", false)
    }

    /** The state `stopCapture(insertResult)` leaves behind when it was capturing. */
    twostate predicate StoppedFrom(insertResult: bool)
      reads this
    {
      && !isCapturing && captureScope == None && capturedKeys == [] && pushedScopes == []
      && scopesCreated == old(scopesCreated)
      && statusBarItem == (if old(statusBarItem).Some? then Some(StatusBarItem("", false)) else None)
      && activeView == (if insertResult && old(capturedKeys) != []
                        then ViewAfterInsert(old(activeView), Join(old(capturedKeys), TokenSeparator))
                        else old(activeView))
      && old(captureScope).Some?
      && calls == old(calls) + StopCalls(old(captureScope).value, old(statusBarItem), insertResult,
                                         old(capturedKeys), old(activeView))
    }

    constructor (view: Option<MarkdownView>)
      ensures Valid() && StatusShowsTokens()
      ensures !isCapturing && capturedKeys == [] && captureScope == None && statusBarItem == None
      ensures scopesCreated == 0 && pushedScopes == [] && activeView == view && calls == []
    {
      isCapturing := false;
      capturedKeys := [];
      statusBarItem := None;
      captureScope := None;
      scopesCreated := 0;
      pushedScopes := [];
      activeView := view;
      calls := [];
    }

    /** The status bar part of `onload`: the item is created with empty text. */
    method OnLoad()
      requires Valid()
      modifies this
      ensures Valid()
      ensures statusBarItem == Some(StatusBarItem("", false))
      ensures calls == old(calls) + [SetText("")]
      ensures isCapturing == old(isCapturing) && capturedKeys == old(capturedKeys)
      ensures captureScope == old(captureScope) && pushedScopes == old(pushedScopes)
      ensures scopesCreated == old(scopesCreated) && activeView == old(activeView)
      ensures !isCapturing ==> StatusShowsTokens()
    {
      statusBarItem := Some(StatusBarItem("", false));
      calls := calls + [SetText("")];
    }

    /** The host opens, closes or switches notes (not an operation of the plugin). */
    method SwitchView(view: Option<MarkdownView>)
      modifies this`activeView
      ensures activeView == view
    {
      activeView := view;
    }

    method StartCapture()
      requires Valid()
      modifies this
      ensures Valid()
      ensures old(StatusShowsTokens()) ==> StatusShowsTokens()
      // Already capturing: nothing happens.
      ensures old(isCapturing) ==> unchanged(this)
      // No note open: only the notice.
      ensures !old(isCapturing) && old(activeView).None? ==>
        && !isCapturing && capturedKeys == [] && captureScope == None && pushedScopes == []
        && scopesCreated == old(scopesCreated) && statusBarItem == old(statusBarItem) && activeView == old(activeView)
        && calls == old(calls) + [ShowNotice(OpenNoteNotice)]
      // Otherwise: capturing, no tokens, one new scope pushed last.
      ensures !old(isCapturing) && old(activeView).Some? ==>
        && isCapturing && capturedKeys == []
        && scopesCreated == old(scopesCreated) + 1 && captureScope == Some(Scope(old(scopesCreated)))
        && pushedScopes == [captureScope.value]
        && statusBarItem == (if old(statusBarItem).Some? then Some(StatusBarItem(CapturingText, true)) else None)
        && activeView == old(activeView)
        && calls == old(calls) + StartCalls(old(statusBarItem), captureScope.value)
    {
      if isCapturing {
        return;
      }
      if activeView.None? {
        calls := calls + [ShowNotice(OpenNoteNotice)];
        return;
      }
      isCapturing := true;
      capturedKeys := [];
      if statusBarItem.Some? {
        statusBarItem := Some(StatusBarItem(CapturingText, true));
        calls := calls + [SetText(CapturingText), AddClass(ActiveClass)];
      }
      calls := calls + [ShowNotice(StartedNotice)];
      var scope := Scope(scopesCreated);
      scopesCreated := scopesCreated + 1;
      captureScope := Some(scope);
      pushedScopes := pushedScopes + [scope];
      calls := calls + [PushScope(scope)];
    }

    /** The catch-all key handler; `passThrough` is its return value (true lets the host
        handle the event, false swallows it). */
    method HandleKeyDown(e: KeyEvent) returns (passThrough: bool)
      requires Valid()
      modifies this
      ensures Valid()
      ensures old(StatusShowsTokens()) ==> StatusShowsTokens()
      ensures passThrough <==> !old(isCapturing)
      ensures !old(isCapturing) ==> unchanged(this)
      // The stop key ends the capture and commits.
      ensures old(isCapturing) && e.key == StopKey ==> StoppedFrom(true)
      // A bare modifier is swallowed and nothing is recorded.
      ensures old(isCapturing) && e.key != StopKey && e.key in BareModifiers ==> unchanged(this)
      // Any other key appends its token and refreshes the status.
      ensures old(isCapturing) && e.key != StopKey && e.key !in BareModifiers ==>
        && isCapturing && capturedKeys == old(capturedKeys) + [FormatKeyCombo(e)]
        && captureScope == old(captureScope) && pushedScopes == old(pushedScopes)
        && scopesCreated == old(scopesCreated) && activeView == old(activeView)
        && statusBarItem == (if old(statusBarItem).Some?
                             then Some(old(statusBarItem).value.(text := LiveStatus(capturedKeys)))
                             else None)
        && calls == old(calls) + KeyCalls(old(statusBarItem), capturedKeys)
    {
      if !isCapturing {
        return true;
      }
      if e.key == StopKey {
        StopCapture(true);
        return false;
      }
      if e.key in BareModifiers {
        return false;
      }
      var keyCombo := FormatKeyCombo(e);
      capturedKeys := capturedKeys + [keyCombo];
      if statusBarItem.Some? {
        var text := StatusPrefix + Join(capturedKeys, TokenSeparator);
        statusBarItem := Some(statusBarItem.value.(text := text));
        calls := calls + [SetText(text)];
      }
      return false;
    }

    /** `insertText(text)`: insert at the cursor of the active note and move the cursor
        past the text; nothing without an active note. */
    method InsertText(text: string)
      modifies this`activeView, this`calls
      ensures activeView == ViewAfterInsert(old(activeView), text)
      ensures calls == old(calls) + InsertCalls(text, old(activeView))
    {
      if activeView.None? {
        return;
      }
      var cursor := activeView.value.cursor;
      calls := calls + [ReplaceRange(text, cursor)];
      var moved := Position(cursor.line, cursor.ch + |text|);
      activeView := Some(MarkdownView(moved));
      calls := calls + [SetCursor(moved)];
    }

    method StopCapture(insertResult: bool)
      requires Valid()
      modifies this
      ensures Valid()
      ensures old(StatusShowsTokens()) ==> StatusShowsTokens()
      // Not capturing: nothing happens.
      ensures !old(isCapturing) ==> unchanged(this)
      ensures old(isCapturing) ==> StoppedFrom(insertResult)
      // The scope is popped before any other call.
      ensures old(isCapturing) ==> |calls| > |old(calls)| && calls[|old(calls)|] == PopScope(old(captureScope).value)
      // The joined tokens are inserted once, only when asked and only if there are any.
      ensures Insertions(calls) == Insertions(old(calls))
                + if insertResult && old(isCapturing) && old(capturedKeys) != [] && old(activeView).Some?
                  then [Join(old(capturedKeys), TokenSeparator)] else []
      ensures Notices(calls) == Notices(old(calls))
                + if !insertResult || !old(isCapturing) then []
                  else if old(capturedKeys) == [] then [NothingNotice]
                  else [InsertedPrefix + Join(old(capturedKeys), TokenSeparator)]
    {
      if !isCapturing {
        return;
      }
      ghost var calls0, keys0, view0, bar0 := calls, capturedKeys, activeView, statusBarItem;
      ghost var scope0 := captureScope.value;
      EndCapture();
      DeliverResult(insertResult);
      ghost var tail := StopCalls(scope0, bar0, insertResult, keys0, view0);
      assert calls == calls0 + tail;
      StopCallsEffects(scope0, bar0, insertResult, keys0, view0);
      NoticesAppend(calls0, tail);
      InsertionsAppend(calls0, tail);
    }

    /** The first half of `stopCapture`: leave the capturing state, pop the scope before
        anything else, then clear the status bar item. */
    method EndCapture()
      requires Valid() && isCapturing
      modifies this
      ensures !isCapturing && captureScope == None && pushedScopes == []
      ensures capturedKeys == old(capturedKeys) && activeView == old(activeView)
      ensures scopesCreated == old(scopesCreated)
      ensures statusBarItem == if old(statusBarItem).Some? then Some(StatusBarItem("", false)) else None
      ensures calls == old(calls) + [PopScope(old(captureScope).value)] + ClearStatusCalls(old(statusBarItem))
    {
      isCapturing := false;
      if captureScope.Some? {
        pushedScopes := [];
        calls := calls + [PopScope(captureScope.value)];
        captureScope := None;
      }
      if statusBarItem.Some? {
        statusBarItem := Some(StatusBarItem("", false));
        calls := calls + [SetText(""), RemoveClass(ActiveClass)];
      }
    }

    /** The second half of `stopCapture`: insert the joined tokens and confirm when asked
        and there are any, report that nothing was captured when asked and there are
        none, then forget the tokens. */
    method DeliverResult(insertResult: bool)
      modifies this
      ensures capturedKeys == []
      ensures activeView == if insertResult && old(capturedKeys) != []
                            then ViewAfterInsert(old(activeView), Join(old(capturedKeys), TokenSeparator))
                            else old(activeView)
      ensures calls == old(calls) + ResultCalls(insertResult, old(capturedKeys), old(activeView))
      ensures isCapturing == old(isCapturing) && captureScope == old(captureScope)
      ensures pushedScopes == old(pushedScopes) && scopesCreated == old(scopesCreated)
      ensures statusBarItem == old(statusBarItem)
    {
      if insertResult && |capturedKeys| > 0 {
        var result := Join(capturedKeys, TokenSeparator);
        InsertText(result);
        calls := calls + [ShowNotice(InsertedPrefix + result)];
      } else if insertResult {
        calls := calls + [ShowNotice(NothingNotice)];
      }
      capturedKeys := [];
    }

    /** `onunload`: stop without committing, so nothing is inserted and no notice shown. */
    method OnUnload()
      requires Valid()
      modifies this
      ensures Valid()
      ensures !isCapturing && capturedKeys == [] && captureScope == None && pushedScopes == []
      ensures activeView == old(activeView)
      ensures !old(isCapturing) ==> unchanged(this)
      ensures old(isCapturing) ==> StoppedFrom(false)
      ensures old(StatusShowsTokens()) ==> StatusShowsTokens()
      ensures old(isCapturing) && old(statusBarItem).Some? ==> statusBarItem == Some(StatusBarItem("", false))
      ensures Insertions(calls) == Insertions(old(calls))
      ensures Notices(calls) == Notices(old(calls))
    {
      StopCapture(false);
    }
  }
}
