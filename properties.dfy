/** What the session state machine guarantees, and the quirks it keeps,
    stated over the step functions of `SessionSpec`. */
module SessionProperties {
  import opened Protocol
  import opened Helpers
  import opened SessionSpec

  // ---------------------------------------------------------------------
  // State guards

  /** `edit` with no open document reports one error and changes nothing. */
  lemma EditWithoutDocument(s: SessionState, content: string, failure: Option<string>)
    requires Wf(s) && s.handle.None?
    ensures Step(s, Edit(content, failure)) == Outcome(s, [Error(NoDocumentOpen)])
  {
  }

  /** `edit` while a remote change is being forwarded is dropped silently:
      no event, no change to any document. */
  lemma EditDroppedWhileApplyingRemote(s: SessionState, content: string, failure: Option<string>)
    requires Wf(s) && s.handle.Some? && s.isApplyingRemote
    ensures Step(s, Edit(content, failure)) == Outcome(s, [])
  {
  }

  /** A successful `edit` replaces the current document's content and
      touches nothing else: no event, the same handles and listeners. */
  lemma EditReplacesContent(s: SessionState, content: string)
    requires Wf(s) && s.handle.Some? && !s.isApplyingRemote
    ensures var r := Step(s, Edit(content, None));
            r.events == [] && r.state.handle == s.handle && |r.state.handles| == |s.handles|
            && r.state.handles[s.handle.value].content == content
            && r.state.handles[s.handle.value].listeners == s.handles[s.handle.value].listeners
            && (forall j :: 0 <= j < |s.handles| && j != s.handle.value ==> r.state.handles[j] == s.handles[j])
            && r.state.(handles := s.handles) == s
  {
  }

  /** A failing `edit` reports the library's error and changes nothing. */
  lemma EditFailureReported(s: SessionState, content: string, reason: string)
    requires Wf(s) && s.handle.Some? && !s.isApplyingRemote
    ensures Step(s, Edit(content, Some(reason))) == Outcome(s, [Error("Edit failed: " + reason)])
  {
  }

  /** `create` and `open` without a connection report "Not connected" and
      leave the handle, the listener and the document id as they were. */
  lemma NotConnectedRejects(s: SessionState, c: Command)
    requires Wf(s) && !s.hasRepo && (c.Create? || c.Open?)
    ensures Step(s, c) == Outcome(s, [Error(NotConnected)])
  {
  }

  // ---------------------------------------------------------------------
  // Listener replacement

  /** The current handle carries exactly one forwarding listener, the one
      `changeHandler` refers to. */
  predicate OneForwarder(s: SessionState)
    requires Wf(s)
  {
    s.handle.Some? ==> s.changeHandler.Some? && s.handles[s.handle.value].listeners == {s.changeHandler.value}
  }

  /** Installing the forwarder on a handle that has no listener yet leaves
      exactly the new listener on it and touches no other handle. */
  lemma {:induction false} ForwarderOnFreshHandle(t: SessionState)
    requires Wf(t) && t.handle.Some? && t.handles[t.handle.value].listeners == {}
    ensures var r := WithForwarder(t);
            OneForwarder(r) && r.changeHandler == Some(t.nextListener)
            && (forall j :: 0 <= j < |t.handles| && j != t.handle.value ==> r.handles[j] == t.handles[j])
            && r.handles[t.handle.value].content == t.handles[t.handle.value].content
            && r.handles[t.handle.value].documentId == t.handles[t.handle.value].documentId
  {
    var d := Detached(t);
    var i := t.handle.value;
    assert d.handles[i].listeners == {};
    assert d.nextListener == t.nextListener;
    assert forall j :: 0 <= j < |t.handles| ==>
      d.handles[j].documentId == t.handles[j].documentId && d.handles[j].content == t.handles[j].content;
    assert forall j :: 0 <= j < |t.handles| && j != i ==> d.handles[j] == t.handles[j];
  }

  /** After `create`, the new document is current, carries exactly one
      forwarding listener, and every earlier handle is left as it was (so a
      listener still attached to the previous handle stays attached). */
  lemma CreateInstallsOneForwarder(s: SessionState, docId: string)
    requires Wf(s) && s.hasRepo
    ensures var r := Step(s, Create(docId));
            r.events == [Created(docId)]
            && r.state.handle == Some(|s.handles|) && OneForwarder(r.state)
            && r.state.handles[|s.handles|] == Handle(docId, "", {r.state.changeHandler.value})
            && r.state.handles[..|s.handles|] == s.handles
            && r.state.currentDocId == Some(docId)
            && r.state.awarenessLog == s.awarenessLog + (if s.hasAwareness
                 then [SetDocumentId(docId), PresenceUpdate(s.currentSelection)] else [])
  {
    var t := Adopted(s, docId, "").(currentDocId := Some(docId));
    ForwarderOnFreshHandle(t);
    var w := WithForwarder(t);
    assert w.handles[|s.handles|] == Handle(docId, "", {w.changeHandler.value});
    assert w.handles[..|s.handles|] == s.handles;
  }

  /** After an `open` whose handle became ready, the opened document is
      current, carries exactly one forwarding listener holding the reported
      content, and every earlier handle is left as it was. */
  lemma OpenInstallsOneForwarder(s: SessionState, docId: string, id: string, doc: DocView, changes: seq<DocView>)
    requires Wf(s) && s.hasRepo
    ensures var r := Step(s, Open(docId, Ready(id, doc, changes)));
            var content := SyncWaitResult(ContentToString(doc), ChangeContents(changes));
            r.events == [Opened(NormalizeDocId(docId), content)]
            && r.state.handle == Some(|s.handles|) && OneForwarder(r.state)
            && r.state.handles[|s.handles|] == Handle(id, content, {r.state.changeHandler.value})
            && r.state.handles[..|s.handles|] == s.handles
            && r.state.currentDocId == Some(NormalizeDocId(docId))
            && r.state.awarenessLog == s.awarenessLog + (if s.hasAwareness
                 then [SetDocumentId(NormalizeDocId(docId)), PresenceUpdate(s.currentSelection)] else [])
  {
    var full := NormalizeDocId(docId);
    var content := SyncWaitResult(ContentToString(doc), ChangeContents(changes));
    assert Step(s, Open(docId, Ready(id, doc, changes))) == OpenReadyStep(s, full, id, doc, changes);
    ReadyInstallsOneForwarder(s, full, id, content);
  }

  /** The state change of `open` once its handle is ready, for any reported
      content. */
  lemma ReadyInstallsOneForwarder(s: SessionState, full: string, id: string, content: string)
    requires Wf(s)
    ensures var u := WithForwarder(Adopted(s, id, content)).(currentDocId := Some(full));
            var r := SendAwareness(Notify(u, SetDocumentId(full)));
            Wf(r) && r.handle == Some(|s.handles|) && OneForwarder(r)
            && r.handles[|s.handles|] == Handle(id, content, {r.changeHandler.value})
            && r.handles[..|s.handles|] == s.handles
            && r.currentDocId == Some(full)
            && r.awarenessLog == s.awarenessLog + (if s.hasAwareness
                 then [SetDocumentId(full), PresenceUpdate(s.currentSelection)] else [])
  {
    var a := Adopted(s, id, content);
    ForwarderOnFreshHandle(a);
    var w := WithForwarder(a);
    assert w.handles[|s.handles|] == Handle(id, content, {w.changeHandler.value});
    assert w.handles[..|s.handles|] == s.handles;
  }

  /** Every command keeps "exactly one forwarding listener on the current
      handle", except an `open` whose handle was assigned but never became
      ready. */
  lemma StepKeepsOneForwarder(s: SessionState, c: Command)
    requires Wf(s) && OneForwarder(s)
    requires !(c.Open? && c.lookup.ReadyFailed?)
    ensures OneForwarder(Step(s, c).state)
  {
    match c {
      case Create(docId) =>
        if s.hasRepo { CreateInstallsOneForwarder(s, docId); }
      case Open(docId, lookup) =>
        if s.hasRepo && lookup.Ready? {
          OpenInstallsOneForwarder(s, docId, lookup.documentId, lookup.doc, lookup.changes);
        }
      case _ =>
    }
  }

  /** An `open` that fails after the handle was reassigned leaves the new
      current handle with no listener at all, while `changeHandler` still
      names the listener on the previous handle. */
  lemma FailedOpenLeavesHandleUnwatched(s: SessionState, docId: string, id: string, reason: string)
    requires Wf(s) && s.hasRepo
    ensures var r := Step(s, Open(docId, ReadyFailed(id, reason)));
            r.events == [Error("Failed to open: " + reason)]
            && r.state.handle == Some(|s.handles|)
            && r.state.handles[|s.handles|].listeners == {}
            && r.state.changeHandler == s.changeHandler
            && r.state.currentDocId == s.currentDocId
  {
  }

  /** `create` while another document is open: `handle` is reassigned
      before the old listener is removed, so the removal misses and the
      previous handle keeps forwarding its changes. */
  lemma PreviousHandleKeepsForwarding(s: SessionState, docId: string, doc: DocView)
    requires Wf(s) && s.hasRepo && s.handle.Some? && s.changeHandler.Some?
    requires s.changeHandler.value in s.handles[s.handle.value].listeners
    ensures var r := Step(s, Create(docId)).state;
            s.changeHandler.value in r.handles[s.handle.value].listeners
            && Changed(ContentToString(doc)) in ChangeStep(r, s.handle.value, doc).events
  {
    CreateInstallsOneForwarder(s, docId);
    var r := Step(s, Create(docId)).state;
    var p := s.handle.value;
    assert r.handles[p] == r.handles[..|s.handles|][p] == s.handles[p];
    assert |r.handles[p].listeners| > 0;
    assert ChangeStep(r, p, doc).events[0] == Changed(ContentToString(doc));
  }

  /** With one forwarding listener, a change to the current document is
      forwarded exactly once and the echo guard is clear afterwards. */
  lemma {:induction false} ChangeForwardedOnce(s: SessionState, doc: DocView)
    requires Wf(s) && OneForwarder(s) && s.handle.Some?
    ensures var r := ChangeStep(s, s.handle.value, doc);
            r.events == [Changed(ContentToString(doc))]
            && !r.state.isApplyingRemote
            && r.state.handles[s.handle.value].content == ContentToString(doc)
  {
    assert |s.handles[s.handle.value].listeners| == 1;
  }

  /** A change to a handle is forwarded once per listener attached to it,
      each time with the change's content; a handle nobody listens to
      forwards nothing. */
  lemma ChangeForwardedPerListener(s: SessionState, h: nat, doc: DocView)
    requires Wf(s) && h < |s.handles|
    ensures var r := ChangeStep(s, h, doc);
            |r.events| == |s.handles[h].listeners|
            && (forall k :: 0 <= k < |r.events| ==> r.events[k] == Changed(ContentToString(doc)))
            && (r.events != [] ==> !r.state.isApplyingRemote)
            && r.state.handles[h].content == ContentToString(doc)
            && r.state.handles[h].listeners == s.handles[h].listeners
  {
  }

  /** Two `create`s in a row, then one change to the current document:
      the editor sees exactly one `changed` event. */
  lemma TwoCreatesThenOneChange(s: SessionState, first: string, second: string, doc: DocView)
    requires Wf(s) && s.hasRepo
    ensures var r1 := Step(s, Create(first)).state;
            var r2 := Step(r1, Create(second)).state;
            r2.handle.Some? && ChangeStep(r2, r2.handle.value, doc).events == [Changed(ContentToString(doc))]
  {
    CreateInstallsOneForwarder(s, first);
    var r1 := Step(s, Create(first)).state;
    CreateInstallsOneForwarder(r1, second);
    var r2 := Step(r1, Create(second)).state;
    ChangeForwardedOnce(r2, doc);
  }

  // ---------------------------------------------------------------------
  // Teardown

  /** `close` always answers `closed`, and leaves no handle and no
      forwarding listener; the connection, the identity and
      `currentDocId` are kept. */
  lemma CloseTearsDown(s: SessionState)
    requires Wf(s)
    ensures var r := Step(s, Close);
            r.events == [Closed] && r.state.handle.None? && r.state.changeHandler.None?
            && r.state.hasRepo == s.hasRepo && r.state.hasAwareness == s.hasAwareness
            && r.state.currentDocId == s.currentDocId && r.state.userId == s.userId
            && |r.state.handles| == |s.handles|
            && r.state == s.(handles := r.state.handles, handle := None, changeHandler := None)
  {
  }

  /** `close` removes the forwarding listener from the current handle. */
  lemma CloseDetachesForwarder(s: SessionState)
    requires Wf(s) && s.handle.Some? && s.changeHandler.Some?
    ensures s.changeHandler.value !in Step(s, Close).state.handles[s.handle.value].listeners
  {
  }

  /** `disconnect` answers `disconnected` and leaves no handle, no
      listener, no awareness client and no repository; the awareness
      client, if there was one, is destroyed; `currentDocId` is kept. */
  lemma DisconnectTearsDown(s: SessionState)
    requires Wf(s)
    ensures var r := Step(s, Disconnect);
            r.events == [Disconnected] && r.state.handle.None? && r.state.changeHandler.None?
            && !r.state.hasAwareness && !r.state.hasRepo
            && r.state.awarenessLog == s.awarenessLog + (if s.hasAwareness then [Destroy] else [])
            && r.state.currentDocId == s.currentDocId
            && |r.state.handles| == |s.handles|
            && (s.handle.Some? && s.changeHandler.Some? ==>
                  s.changeHandler.value !in r.state.handles[s.handle.value].listeners)
  {
  }

  /** A second `disconnect` changes nothing and answers `disconnected`
      again. */
  lemma DisconnectIdempotent(s: SessionState)
    requires Wf(s)
    ensures var r := Step(s, Disconnect).state;
            Step(r, Disconnect) == Outcome(r, [Disconnected])
  {
  }

  // ---------------------------------------------------------------------
  // Identity

  /** `connect` gives the user a fresh "beam-" id, keeps name and colour
      unless new ones are given, and does not touch the open document. */
  lemma ConnectSetsIdentity(s: SessionState, suffix: string, syncUrl: string, awarenessUrl: string,
                            name: string, color: string)
    requires Wf(s)
    ensures var r := Step(s, Connect(suffix, syncUrl, awarenessUrl, name, color));
            r.events == [Connected(UserIdPrefix + suffix)]
            && r.state.userId == Some(UserIdPrefix + suffix) && UserIdPrefix <= r.state.userId.value
            && r.state.hasRepo
            && r.state.userName == (if name != "" then name else s.userName)
            && r.state.userColor == (if color != "" then color else s.userColor)
            && r.state.handle == s.handle && r.state.changeHandler == s.changeHandler
            && r.state.handles == s.handles
            && r.state.hasAwareness == (s.hasAwareness || awarenessUrl != "")
            && (awarenessUrl == "" ==> r.state.awarenessLog == s.awarenessLog)
  {
  }

  /** `connect` with an awareness URL replaces any existing client:
      destroy first, then a new client for the current document (or
      "default"). */
  lemma ConnectReplacesAwareness(s: SessionState, suffix: string, syncUrl: string, url: string,
                                 name: string, color: string)
    requires Wf(s) && url != ""
    ensures var r := Step(s, Connect(suffix, syncUrl, url, name, color)).state;
            var docId := if s.currentDocId.Some? && s.currentDocId.value != "" then s.currentDocId.value else "default";
            r.awarenessLog == s.awarenessLog + (if s.hasAwareness then [Destroy] else [])
                              + [NewClient(url, r.userId, r.userName, r.userColor, docId)]
  {
  }

  /** `set_name` and `set_color` adopt a non-empty value and fall back to
      the default for an empty one, pass the value now in use to the
      awareness client, if any, and answer with it. */
  lemma IdentityFallbacks(s: SessionState, name: string, color: string)
    requires Wf(s)
    ensures var r := Step(s, SetName(name));
            r.state.userName != "" && r.events == [NameSet(r.state.userName)]
            && (name != "" ==> r.state.userName == name)
            && (name == "" ==> r.state.userName == DefaultName)
            && r.state.awarenessLog == s.awarenessLog
                 + (if s.hasAwareness then [SetDisplayName(r.state.userName)] else [])
            && r.state == s.(userName := r.state.userName, awarenessLog := r.state.awarenessLog)
    ensures var r := Step(s, SetColor(color));
            r.state.userColor != "" && r.events == [ColorSet(r.state.userColor)]
            && (color != "" ==> r.state.userColor == color)
            && (color == "" ==> r.state.userColor == DefaultColor)
            && r.state.awarenessLog == s.awarenessLog
                 + (if s.hasAwareness then [SetDisplayColor(r.state.userColor)] else [])
            && r.state == s.(userColor := r.state.userColor, awarenessLog := r.state.awarenessLog)
  {
  }

  // ---------------------------------------------------------------------
  // Cursor

  /** After `cursor`, the offset, the anchor and the head all lie in
      `[0, length of the current document]`; a non-numeric offset becomes
      0; a selection without head is collapsed (head == anchor); no
      selection gives a cursor at the offset with no head; the awareness
      client, if any, receives exactly that selection. */
  lemma CursorClamped(s: SessionState, offset: Arg, sel: Option<SelectionArg>)
    requires Wf(s)
    ensures var r := Step(s, Cursor(offset, sel));
            var len := DocLength(s);
            var cur := r.state.currentSelection;
            r.events == []
            && 0 <= r.state.currentCursorOffset <= len
            && r.state.currentCursorOffset == ClampArg(offset, len)
            && (sel.Some? ==> cur.anchor == ClampArg(sel.value.anchor, len)
                              && (!sel.value.head.Undefined? ==> cur.head == Some(ClampArg(sel.value.head, len))))
            && (!offset.Numeric? ==> r.state.currentCursorOffset == 0)
            && 0 <= cur.anchor <= len
            && (cur.head.Some? ==> 0 <= cur.head.value <= len)
            && (sel.None? ==> cur == Selection(r.state.currentCursorOffset, None))
            && (sel.Some? && sel.value.head.Undefined? ==> cur.head == Some(cur.anchor))
            && r.state.awarenessLog == s.awarenessLog + (if s.hasAwareness then [PresenceUpdate(cur)] else [])
            && r.state.handles == s.handles && r.state.handle == s.handle
  {
  }

  /** The clamp counts UTF-16 code units, as JavaScript's `length` does: in
      a document holding one character outside the Basic Multilingual Plane,
      offset 2 is the end of the document and is kept. */
  lemma CursorCountsCodeUnits(s: SessionState)
    requires Wf(s) && s.handle.Some? && s.handles[s.handle.value].content == "\U{1F600}"
    ensures DocLength(s) == 2
    ensures Step(s, Cursor(Numeric(2), None)).state.currentCursorOffset == 2
    ensures Step(s, Cursor(Numeric(3), None)).state.currentCursorOffset == 2
  {
    assert Utf16Length("\U{1F600}") == 2 by {
      assert "\U{1F600}"[1..] == [];
    }
  }

  /** The clamp is relative to the document at the time of the command: a
      `create` that follows re-sends the stored selection unchanged, so a
      selection past offset 0 lies beyond the end of the new, empty
      document. */
  lemma CreateResendsStaleSelection(s: SessionState, docId: string)
    requires Wf(s) && s.hasRepo && s.hasAwareness
    ensures var r := Step(s, Create(docId)).state;
            DocLength(r) == 0 && r.currentSelection == s.currentSelection
            && r.awarenessLog[|r.awarenessLog| - 1] == PresenceUpdate(s.currentSelection)
            && (s.currentSelection.anchor > 0 ==> s.currentSelection.anchor > DocLength(r))
  {
    CreateInstallsOneForwarder(s, docId);
  }

  // ---------------------------------------------------------------------
  // Open: sync-wait and delayed recheck

  /** Non-empty local content is what `opened` reports, whatever changes
      arrive afterwards. */
  lemma OpenReportsLocalContent(s: SessionState, docId: string, id: string, local: string, changes: seq<DocView>)
    requires Wf(s) && s.hasRepo && local != ""
    ensures Step(s, Open(docId, Ready(id, Doc(Text(local)), changes))).events
            == [Opened(NormalizeDocId(docId), local)]
  {
  }

  /** With an empty local replica, `opened` reports the first non-empty
      content that arrives before the timeout. */
  lemma OpenWaitsForFirstSync(s: SessionState, docId: string, id: string, doc: DocView, changes: seq<DocView>, k: nat)
    requires Wf(s) && s.hasRepo && ContentToString(doc) == ""
    requires k < |changes| && ContentToString(changes[k]) != ""
    requires forall j :: 0 <= j < k ==> ContentToString(changes[j]) == ""
    ensures Step(s, Open(docId, Ready(id, doc, changes))).events
            == [Opened(NormalizeDocId(docId), ContentToString(changes[k]))]
  {
    SyncWaitTakesFirstNonEmpty(ChangeContents(changes), k);
  }

  /** Once a change with content has arrived the sync listener is gone:
      whatever the handle raises afterwards is not part of the `open`
      command and leaves its outcome as it is. */
  lemma SyncListenerDetachedAfterFirstContent(s: SessionState, docId: string, id: string, doc: DocView,
                                              changes: seq<DocView>, k: nat)
    requires Wf(s) && ContentToString(doc) == ""
    requires k < |changes| && ContentToString(changes[k]) != ""
    requires forall j :: 0 <= j < k ==> ContentToString(changes[j]) == ""
    ensures Step(s, Open(docId, Ready(id, doc, changes))) == Step(s, Open(docId, Ready(id, doc, changes[..k + 1])))
  {
    var p := changes[..k + 1];
    assert forall j :: 0 <= j < k ==> ContentToString(p[j]) == "";
    SyncWaitTakesFirstNonEmpty(ChangeContents(changes), k);
    SyncWaitTakesFirstNonEmpty(ChangeContents(p), k);
  }

  /** A change raised after `open` has finished reaches the editor through
      the forwarder `open` installed: one `changed` with its content, which
      the opened document now holds. */
  lemma LaterChangeForwardedAfterOpen(s: SessionState, docId: string, id: string, doc: DocView,
                                      changes: seq<DocView>, next: DocView)
    requires Wf(s) && s.hasRepo
    ensures var r := Step(s, Open(docId, Ready(id, doc, changes))).state;
            var c := ChangeStep(r, |s.handles|, next);
            r.handle == Some(|s.handles|)
            && c.events == [Changed(ContentToString(next))]
            && c.state.handles[|s.handles|].content == ContentToString(next)
  {
    OpenInstallsOneForwarder(s, docId, id, doc, changes);
    var r := Step(s, Open(docId, Ready(id, doc, changes))).state;
    ChangeForwardedOnce(r, next);
  }

  /** When `repo.find` throws, `open` answers one error and changes
      nothing. */
  lemma OpenFindFailedReports(s: SessionState, docId: string, reason: string)
    requires Wf(s) && s.hasRepo
    ensures Step(s, Open(docId, FindFailed(reason))) == Outcome(s, [Error("Failed to open: " + reason)])
  {
  }

  /** With an empty local replica and nothing non-empty before the
      timeout, `opened` reports empty content. */
  lemma OpenTimesOutEmpty(s: SessionState, docId: string, id: string, doc: DocView, changes: seq<DocView>)
    requires Wf(s) && s.hasRepo && ContentToString(doc) == ""
    requires forall j :: 0 <= j < |changes| ==> ContentToString(changes[j]) == ""
    ensures Step(s, Open(docId, Ready(id, doc, changes))).events == [Opened(NormalizeDocId(docId), "")]
  {
    SyncWaitTimesOut(ChangeContents(changes));
  }

  /** The delayed recheck sends at most one `changed`, and sends it exactly
      when a handle is still current and its content is non-empty and
      differs from what `opened` reported; it never changes a document and
      leaves the echo guard clear when it fires. */
  lemma RecheckDecision(s: SessionState, reported: string)
    requires Wf(s)
    ensures var r := RecheckStep(s, reported);
            r.state.handles == s.handles && r.state.handle == s.handle
            && (r.events != [] <==> s.handle.Some? && RecheckFires(s.handles[s.handle.value].content, reported))
            && (r.events != [] ==> r.events == [Changed(s.handles[s.handle.value].content)]
                                   && !r.state.isApplyingRemote)
            && (r.events == [] ==> r.state == s)
  {
  }

  /** The recheck reads whatever handle is current when it fires: after
      another document was opened in between, it compares that document's
      content with the first one's report. */
  lemma RecheckReadsCurrentHandle(s: SessionState, docId: string, id: string, other: string, reported: string)
    requires Wf(s) && s.hasRepo && other != "" && other != reported
    ensures var r := Step(s, Open(docId, Ready(id, Doc(Text(other)), []))).state;
            RecheckStep(r, reported).events == [Changed(other)]
  {
    OpenInstallsOneForwarder(s, docId, id, Doc(Text(other)), []);
  }

  // ---------------------------------------------------------------------
  // Queue and input lines

  /** Draining `a + b` is draining `a` and then `b` from where `a` left
      the session. */
  lemma {:induction false} RunAppend(s: SessionState, a: seq<Command>, b: seq<Command>)
    requires Wf(s)
    ensures var ra := Run(s, a);
            var rb := Run(ra.state, b);
            Run(s, a + b) == Outcome(rb.state, ra.events + rb.events)
    decreases |a|
  {
    if a == [] {
      assert a + b == b;
    } else {
      var ab := a + b;
      assert ab[0] == a[0] && ab[1..] == a[1..] + b;
      var o := Step(s, a[0]);
      RunAppend(o.state, a[1..], b);
      RunUnfold(s, ab);
      RunUnfold(s, a);
      var r1 := Run(o.state, a[1..]);
      ConcatThen(o.events, Run(s, a + b), Run(s, a), r1, Run(o.state, a[1..] + b), Run(r1.state, b));
    }
  }

  /** The bookkeeping step of `RunAppend`, with the drains as plain values. */
  lemma ConcatThen(first: seq<Event>, whole: Outcome, front: Outcome, frontRest: Outcome,
                   wholeRest: Outcome, back: Outcome)
    requires whole == Outcome(wholeRest.state, first + wholeRest.events)
    requires front == Outcome(frontRest.state, first + frontRest.events)
    requires wholeRest == Outcome(back.state, frontRest.events + back.events)
    ensures whole == Outcome(back.state, front.events + back.events)
  {
    assert first + (frontRest.events + back.events) == (first + frontRest.events) + back.events;
  }

  /** One step of a non-empty drain. */
  lemma RunUnfold(s: SessionState, q: seq<Command>)
    requires Wf(s) && q != []
    ensures var o := Step(s, q[0]);
            var rest := Run(o.state, q[1..]);
            Run(s, q) == Outcome(rest.state, o.events + rest.events)
  {
  }

  /** The events of a drain are those of each command in arrival order: the
      first command's events come first. */
  lemma {:induction false} RunStartsWithFirst(s: SessionState, c: Command, rest: seq<Command>)
    requires Wf(s)
    ensures Run(s, [c] + rest).events[..|Step(s, c).events|] == Step(s, c).events
  {
    assert ([c] + rest)[0] == c && ([c] + rest)[1..] == rest;
  }

  /** A command that fails does not stop the queue: an unknown command
      reports one error, changes nothing, and the rest of the queue runs
      as if it had not been there. */
  lemma {:induction false} FailureDoesNotBlock(s: SessionState, typeName: string, rest: seq<Command>)
    requires Wf(s)
    ensures Run(s, [Unknown(typeName)] + rest)
            == Outcome(Run(s, rest).state, [Error("Unknown message type: " + typeName)] + Run(s, rest).events)
  {
    assert ([Unknown(typeName)] + rest)[1..] == rest;
  }

  /** A stream of well-formed lines is handled exactly like a queue of the
      same commands. */
  lemma {:induction false} FeedParsedIsRun(s: SessionState, cmds: seq<Command>)
    requires Wf(s)
    ensures Feed(s, seq(|cmds|, i requires 0 <= i < |cmds| => Parsed(cmds[i]))) == Run(s, cmds)
    decreases |cmds|
  {
    var lines := seq(|cmds|, i requires 0 <= i < |cmds| => Parsed(cmds[i]));
    if cmds != [] {
      var o := Step(s, cmds[0]);
      assert lines[1..] == seq(|cmds[1..]|, i requires 0 <= i < |cmds[1..]| => Parsed(cmds[1..][i]));
      FeedParsedIsRun(o.state, cmds[1..]);
    }
  }

  /** A line that is not JSON yields exactly one error and the next line
      is handled as if it had come alone. */
  lemma {:induction false} MalformedLineDoesNotBlock(s: SessionState, reason: string, rest: seq<Line>)
    requires Wf(s)
    ensures Feed(s, [Unparsable(reason)] + rest)
            == Outcome(Feed(s, rest).state, [Error("Parse error: " + reason)] + Feed(s, rest).events)
  {
    assert ([Unparsable(reason)] + rest)[1..] == rest;
  }

  /** `info` reports the connection, the current document id, the user id
      and name, and changes nothing. */
  lemma InfoReportsStatus(s: SessionState)
    requires Wf(s)
    ensures var r := Step(s, Info);
            r.state == s && |r.events| == 1 && r.events[0].Status?
            && r.events[0].connected == s.hasRepo
            && (r.events[0].openDocId.Some? ==> s.handle.Some? && r.events[0].openDocId.value != ""
                                                && r.events[0].openDocId.value == s.handles[s.handle.value].documentId)
            && (s.handle.Some? && s.handles[s.handle.value].documentId != "" ==>
                  r.events[0].openDocId == Some(s.handles[s.handle.value].documentId))
            && (s.handle.None? ==> r.events[0].openDocId.None?)
            && r.events[0].user == s.userId && r.events[0].userName == s.userName
  {
  }
}
