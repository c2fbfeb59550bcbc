/** The session state machine as functions: the state held in the helper's
    module-level variables, one step function per command, the effect of a
    document change event and of the delayed recheck, and the drain of a
    command queue. The class `Bridge.Session` is proved against these. */
module SessionSpec {
  import opened Protocol
  import opened Helpers

  /** A document handle: the id the library gave it, its current content,
      and the change listeners attached to it (each listener is a closure,
      identified by a number). */
  datatype Handle = Handle(documentId: string, content: string, listeners: set<nat>)

  /** The module-level state. The repository and the awareness client are
      present/absent flags; every handle the session has obtained stays in
      `handles` (a handle that is no longer current keeps whatever listeners
      are still attached to it) and `handle` is the index of the current
      one. `changeHandler` is the forwarding listener last installed and
      `nextListener` the identity the next one will get. */
  datatype SessionState = SessionState(
    hasRepo: bool,
    hasAwareness: bool,
    awarenessLog: seq<AwarenessCall>,
    handles: seq<Handle>,
    handle: Option<nat>,
    changeHandler: Option<nat>,
    nextListener: nat,
    isApplyingRemote: bool,
    currentSelection: Selection,
    currentCursorOffset: int,
    currentDocId: Option<string>,
    userId: Option<string>,
    userName: string,
    userColor: string)

  /** The state after a step and the events it sent, in order. */
  datatype Outcome = Outcome(state: SessionState, events: seq<Event>)

  const DefaultName := "vimbeam-user"
  const DefaultColor := "#88cc88"
  const UserIdPrefix := "beam-"
  const NotConnected := "Not connected"
  const NoDocumentOpen := "No document open"

  /** The current handle exists, a forwarding listener is recorded only
      while some handle is current, and every listener identity in use was
      handed out before `nextListener`. */
  predicate Wf(s: SessionState) {
    (s.handle.Some? ==> s.handle.value < |s.handles|)
    && (s.changeHandler.Some? ==> s.handle.Some? && s.changeHandler.value < s.nextListener)
    && (forall i, l :: 0 <= i < |s.handles| && l in s.handles[i].listeners ==> l < s.nextListener)
  }

  /** The state when the helper starts. */
  function Initial(): (s: SessionState)
    ensures Wf(s)
    ensures !s.hasRepo && !s.hasAwareness && s.handle.None? && s.changeHandler.None?
    ensures s.userName == DefaultName && s.userColor == DefaultColor
  {
    SessionState(false, false, [], [], None, None, 0, false, Selection(0, None), 0,
                 None, None, DefaultName, DefaultColor)
  }

  /** `contentToString(handle?.doc()).length`: the current document's
      length in UTF-16 code units, 0 with no handle. */
  function DocLength(s: SessionState): nat
    requires Wf(s)
  {
    if s.handle.Some? then Utf16Length(s.handles[s.handle.value].content) else 0
  }

  /** The state with one more awareness call, when there is a client. */
  function Notify(s: SessionState, c: AwarenessCall): SessionState
  {
    if s.hasAwareness then s.(awarenessLog := s.awarenessLog + [c]) else s
  }

  /** `sendAwareness()`: the current selection goes to the client. */
  function SendAwareness(s: SessionState): (r: SessionState)
  {
    Notify(s, PresenceUpdate(s.currentSelection))
  }

  /** `handle.off('change', changeHandler); changeHandler = null`, done when
      both are set. The listener is removed from the CURRENT handle. */
  function Detached(s: SessionState): (r: SessionState)
    requires Wf(s)
    ensures Wf(r) && r.changeHandler.None? && r.handle == s.handle
    ensures r == s.(handles := r.handles, changeHandler := None)
    ensures |r.handles| == |s.handles|
    ensures forall j :: 0 <= j < |s.handles| && s.handle != Some(j) ==> r.handles[j] == s.handles[j]
    ensures s.handle.Some? ==>
              var i := s.handle.value;
              r.handles[i].documentId == s.handles[i].documentId
              && r.handles[i].content == s.handles[i].content
              && r.handles[i].listeners == s.handles[i].listeners
                                           - (if s.changeHandler.Some? then {s.changeHandler.value} else {})
  {
    if s.handle.Some? && s.changeHandler.Some? then
      var i := s.handle.value;
      s.(handles := s.handles[i := s.handles[i].(listeners := s.handles[i].listeners - {s.changeHandler.value})],
         changeHandler := None)
    else
      s
  }

  /** `setupChangeListener()`: with a current handle, the previous
      forwarding listener is detached from the current handle and a fresh
      one attached to it. */
  function WithForwarder(s: SessionState): (r: SessionState)
    requires Wf(s)
    ensures Wf(r) && r.handle == s.handle && |r.handles| == |s.handles|
    ensures r == s.(handles := r.handles, changeHandler := r.changeHandler, nextListener := r.nextListener)
    ensures forall j :: 0 <= j < |s.handles| ==>
              r.handles[j].documentId == s.handles[j].documentId && r.handles[j].content == s.handles[j].content
    ensures forall j :: 0 <= j < |s.handles| && s.handle != Some(j) ==> r.handles[j] == s.handles[j]
    ensures s.handle.None? ==> r == s
    ensures s.handle.Some? ==>
              var i := s.handle.value;
              r.changeHandler == Some(s.nextListener) && r.nextListener == s.nextListener + 1
              && r.handles[i].listeners == s.handles[i].listeners
                                           - (if s.changeHandler.Some? then {s.changeHandler.value} else {})
                                           + {s.nextListener}
  {
    if s.handle.None? then s
    else
      var t := Detached(s);
      var i := t.handle.value;
      var l := t.nextListener;
      var hs := t.handles[i := t.handles[i].(listeners := t.handles[i].listeners + {l})];
      assert forall j :: 0 <= j < |hs| && j != i ==> hs[j] == t.handles[j];
      assert forall j, m :: 0 <= j < |hs| && m in hs[j].listeners ==> m < l + 1;
      t.(handles := hs, changeHandler := Some(l), nextListener := l + 1)
  }

  /** `handle = <new handle>`: a handle the library just produced, with no
      listener yet, becomes the current one. */
  function Adopted(s: SessionState, documentId: string, content: string): (r: SessionState)
    requires Wf(s)
    ensures Wf(r)
  {
    s.(handles := s.handles + [Handle(documentId, content, {})], handle := Some(|s.handles|))
  }

  /** `connectAwareness(url)`: destroy the old client, if any, and create a
      new one for the current user and document. */
  function WithAwareness(s: SessionState, url: string): (r: SessionState)
  {
    var t := Notify(s, Destroy);
    var docId := if t.currentDocId.Some? && t.currentDocId.value != "" then t.currentDocId.value else "default";
    t.(hasAwareness := true,
       awarenessLog := t.awarenessLog + [NewClient(url, t.userId, t.userName, t.userColor, docId)])
  }

  function ConnectStep(s: SessionState, idSuffix: string, awarenessUrl: string,
                       name: string, color: string): (r: Outcome)
    requires Wf(s)
    ensures Wf(r.state)
  {
    var id := UserIdPrefix + idSuffix;
    var t := s.(userId := Some(id),
                userName := if name != "" then name else s.userName,
                userColor := if color != "" then color else s.userColor,
                hasRepo := true);
    var u := if awarenessUrl != "" then WithAwareness(t, awarenessUrl) else t;
    Outcome(u, [Connected(id)])
  }

  function DisconnectStep(s: SessionState): (r: Outcome)
    requires Wf(s)
    ensures Wf(r.state)
  {
    var t := Detached(s).(handle := None);
    var u := Notify(t, Destroy).(hasAwareness := false);
    Outcome(u.(hasRepo := false), [Disconnected])
  }

  function CreateStep(s: SessionState, newDocId: string): (r: Outcome)
    requires Wf(s)
    ensures Wf(r.state)
  {
    if !s.hasRepo then Outcome(s, [Error(NotConnected)])
    else
      var t := Adopted(s, newDocId, "").(currentDocId := Some(newDocId));
      var u := Notify(WithForwarder(t), SetDocumentId(newDocId));
      Outcome(SendAwareness(u), [Created(newDocId)])
  }

  function OpenStep(s: SessionState, docId: string, lookup: Lookup): (r: Outcome)
    requires Wf(s)
    ensures Wf(r.state)
  {
    if !s.hasRepo then Outcome(s, [Error(NotConnected)])
    else
      var full := NormalizeDocId(docId);
      match lookup
      case FindFailed(reason) =>
        Outcome(s, [Error("Failed to open: " + reason)])
      case ReadyFailed(id, reason) =>
        Outcome(Adopted(s, id, ""), [Error("Failed to open: " + reason)])
      case Ready(id, doc, changes) =>
        OpenReadyStep(s, full, id, doc, changes)
  }

  /** The part of `open` after the handle became ready: sync-wait, install
      the forwarder, record the full id, tell the awareness client. */
  function OpenReadyStep(s: SessionState, full: string, id: string, doc: DocView, changes: seq<DocView>): (r: Outcome)
    requires Wf(s)
    ensures Wf(r.state)
  {
    var content := SyncWaitResult(ContentToString(doc), ChangeContents(changes));
    var u := WithForwarder(Adopted(s, id, content)).(currentDocId := Some(full));
    Outcome(SendAwareness(Notify(u, SetDocumentId(full))), [Opened(full, content)])
  }

  function EditStep(s: SessionState, content: string, failure: Option<string>): (r: Outcome)
    requires Wf(s)
    ensures Wf(r.state)
  {
    if s.handle.None? then Outcome(s, [Error(NoDocumentOpen)])
    else if s.isApplyingRemote then Outcome(s, [])
    else match failure
      case Some(reason) => Outcome(s, [Error("Edit failed: " + reason)])
      case None =>
        var i := s.handle.value;
        Outcome(s.(handles := s.handles[i := s.handles[i].(content := content)]), [])
  }

  function CloseStep(s: SessionState): (r: Outcome)
    requires Wf(s)
    ensures Wf(r.state)
  {
    Outcome(Detached(s).(handle := None), [Closed])
  }

  function SetNameStep(s: SessionState, name: string): (r: Outcome)
    requires Wf(s)
    ensures Wf(r.state)
  {
    var n := if name != "" then name else DefaultName;
    Outcome(Notify(s.(userName := n), SetDisplayName(n)), [NameSet(n)])
  }

  function SetColorStep(s: SessionState, color: string): (r: Outcome)
    requires Wf(s)
    ensures Wf(r.state)
  {
    var c := if color != "" then color else DefaultColor;
    Outcome(Notify(s.(userColor := c), SetDisplayColor(c)), [ColorSet(c)])
  }

  function CursorStep(s: SessionState, offsetArg: Arg, sel: Option<SelectionArg>): (r: Outcome)
    requires Wf(s)
    ensures Wf(r.state)
  {
    var docLen := DocLength(s);
    var offset := ClampArg(offsetArg, docLen);
    var t := s.(currentCursorOffset := offset, currentSelection := ClampedSelection(sel, offset, docLen));
    Outcome(SendAwareness(t), [])
  }

  function InfoStep(s: SessionState): (r: Outcome)
    requires Wf(s)
  {
    var docId := if s.handle.Some? && s.handles[s.handle.value].documentId != ""
                 then Some(s.handles[s.handle.value].documentId) else None;
    Outcome(s, [Status(s.hasRepo, docId, s.userId, s.userName)])
  }

  /** `handleMessage(msg)`: one command. */
  function Step(s: SessionState, c: Command): (r: Outcome)
    requires Wf(s)
    ensures Wf(r.state)
  {
    match c
    case Connect(idSuffix, _, awarenessUrl, name, color) => ConnectStep(s, idSuffix, awarenessUrl, name, color)
    case Disconnect => DisconnectStep(s)
    case Create(newDocId) => CreateStep(s, newDocId)
    case Open(docId, lookup) => OpenStep(s, docId, lookup)
    case Edit(content, failure) => EditStep(s, content, failure)
    case Close => CloseStep(s)
    case SetName(name) => SetNameStep(s, name)
    case SetColor(color) => SetColorStep(s, color)
    case Cursor(offset, sel) => CursorStep(s, offset, sel)
    case Info => InfoStep(s)
    case Unknown(typeName) => Outcome(s, [Error("Unknown message type: " + typeName)])
  }

  /** Draining a queue of commands: each is handled to completion, in
      arrival order, and the events are concatenated. */
  function Run(s: SessionState, q: seq<Command>): (r: Outcome)
    requires Wf(s)
    ensures Wf(r.state)
    decreases |q|
  {
    if q == [] then Outcome(s, [])
    else
      var o := Step(s, q[0]);
      var rest := Run(o.state, q[1..]);
      Outcome(rest.state, o.events + rest.events)
  }

  /** One input line when no drain is in flight. */
  function LineStep(s: SessionState, line: Line): (r: Outcome)
    requires Wf(s)
    ensures Wf(r.state)
  {
    match line
    case Blank => Outcome(s, [])
    case Unparsable(reason) => Outcome(s, [Error("Parse error: " + reason)])
    case Parsed(c) => Step(s, c)
  }

  /** A stream of input lines, each handled before the next arrives. */
  function Feed(s: SessionState, lines: seq<Line>): (r: Outcome)
    requires Wf(s)
    ensures Wf(r.state)
    decreases |lines|
  {
    if lines == [] then Outcome(s, [])
    else
      var o := LineStep(s, lines[0]);
      var rest := Feed(o.state, lines[1..]);
      Outcome(rest.state, o.events + rest.events)
  }

  /** The library raises a change event on handle `h`: the handle's content
      becomes the event's, and every forwarding listener attached to the
      handle sends one `changed` event, each with the echo guard cleared
      afterwards. */
  function ChangeStep(s: SessionState, h: nat, doc: DocView): (r: Outcome)
    requires Wf(s) && h < |s.handles|
    ensures Wf(r.state)
  {
    var c := ContentToString(doc);
    var n := |s.handles[h].listeners|;
    var t := s.(handles := s.handles[h := s.handles[h].(content := c)]);
    Outcome(if n == 0 then t else t.(isApplyingRemote := false), seq(n, _ => Changed(c)))
  }

  /** The delayed recheck three seconds after an `open` that reported
      `reported`: it looks at whatever handle is current when it fires. */
  function RecheckStep(s: SessionState, reported: string): (r: Outcome)
    requires Wf(s)
    ensures Wf(r.state)
  {
    if s.handle.None? then Outcome(s, [])
    else
      var latest := s.handles[s.handle.value].content;
      if RecheckFires(latest, reported) then Outcome(s.(isApplyingRemote := false), [Changed(latest)])
      else Outcome(s, [])
  }
}
