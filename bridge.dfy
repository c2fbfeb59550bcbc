/** The helper as it runs: the module-level variables as the fields of a
    `Session`, `handleMessage` as one method per command, the change
    forwarder and the delayed recheck as callbacks, and the serialising
    message queue as a `Dispatcher`. Each method is proved to move the
    session exactly as the matching function of `SessionSpec` says. */
module Bridge {
  import opened Protocol
  import opened Helpers
  import opened SessionSpec

  class Session {
    var hasRepo: bool
    var hasAwareness: bool
    var awarenessLog: seq<AwarenessCall>
    var handles: seq<Handle>
    var handle: Option<nat>
    var changeHandler: Option<nat>
    var nextListener: nat
    var isApplyingRemote: bool
    var currentSelection: Selection
    var currentCursorOffset: int
    var currentDocId: Option<string>
    var userId: Option<string>
    var userName: string
    var userColor: string

    /** The abstract value of the session. */
    function State(): SessionState
      reads this
    {
      SessionState(hasRepo, hasAwareness, awarenessLog, handles, handle, changeHandler, nextListener,
                   isApplyingRemote, currentSelection, currentCursorOffset, currentDocId, userId,
                   userName, userColor)
    }

    predicate Valid()
      reads this
    {
      Wf(State())
    }

    constructor ()
      ensures Valid() && State() == Initial()
    {
      hasRepo, hasAwareness, awarenessLog := false, false, [];
      handles, handle, changeHandler, nextListener := [], None, None, 0;
      isApplyingRemote := false;
      currentSelection, currentCursorOffset := Selection(0, None), 0;
      currentDocId, userId := None, None;
      userName, userColor := DefaultName, DefaultColor;
    }

    /** Record one call on the awareness client, if there is one. */
    method Notify(c: AwarenessCall)
      modifies this
      ensures State() == SessionSpec.Notify(old(State()), c)
    {
      if hasAwareness {
        awarenessLog := awarenessLog + [c];
      }
    }

    method SendAwareness()
      modifies this
      ensures State() == SessionSpec.SendAwareness(old(State()))
    {
      var update := PresenceUpdate(currentSelection);
      Notify(update);
    }

    /** The `if (handle && changeHandler)` teardown of `close` and
        `disconnect`, also the first half of `setupChangeListener`. */
    method DetachForwarder()
      requires Valid()
      modifies this
      ensures Valid() && State() == Detached(old(State()))
    {
      if handle.Some? && changeHandler.Some? {
        var i := handle.value;
        handles := handles[i := handles[i].(listeners := handles[i].listeners - {changeHandler.value})];
        changeHandler := None;
      }
    }

    method SetupChangeListener()
      requires Valid()
      modifies this
      ensures Valid() && State() == WithForwarder(old(State()))
    {
      if handle.None? {
        return;
      }
      DetachForwarder();
      var i := handle.value;
      var l := nextListener;
      nextListener := nextListener + 1;
      handles := handles[i := handles[i].(listeners := handles[i].listeners + {l})];
      changeHandler := Some(l);
    }

    /** The handle the library produced becomes the current one. */
    method AdoptHandle(documentId: string, content: string)
      requires Valid()
      modifies this
      ensures Valid() && State() == Adopted(old(State()), documentId, content)
    {
      handles := handles + [Handle(documentId, content, {})];
      handle := Some(|handles| - 1);
    }

    method ConnectAwareness(url: string)
      modifies this
      ensures State() == WithAwareness(old(State()), url)
    {
      if hasAwareness {
        Notify(Destroy);
        hasAwareness := false;
      }
      var docId := if currentDocId.Some? && currentDocId.value != "" then currentDocId.value else "default";
      awarenessLog := awarenessLog + [NewClient(url, userId, userName, userColor, docId)];
      hasAwareness := true;
    }

    method OnConnect(idSuffix: string, syncUrl: string, awarenessUrl: string, name: string, color: string)
      returns (events: seq<Event>)
      requires Valid()
      modifies this
      ensures Valid()
      ensures Outcome(State(), events) == ConnectStep(old(State()), idSuffix, awarenessUrl, name, color)
    {
      userId := Some(UserIdPrefix + idSuffix);
      if name != "" {
        userName := name;
      }
      if color != "" {
        userColor := color;
      }
      hasRepo := true;   // new Repo over syncUrl and the storage directory
      if awarenessUrl != "" {
        ConnectAwareness(awarenessUrl);
      }
      events := [Connected(userId.value)];
    }

    method OnDisconnect() returns (events: seq<Event>)
      requires Valid()
      modifies this
      ensures Valid()
      ensures Outcome(State(), events) == DisconnectStep(old(State()))
    {
      DetachForwarder();
      handle := None;
      if hasAwareness {
        Notify(Destroy);
        hasAwareness := false;
      }
      hasRepo := false;
      events := [Disconnected];
    }

    method OnCreate(newDocId: string) returns (events: seq<Event>)
      requires Valid()
      modifies this
      ensures Valid()
      ensures Outcome(State(), events) == CreateStep(old(State()), newDocId)
    {
      if !hasRepo {
        events := [Error(NotConnected)];
        return;
      }
      AdoptHandle(newDocId, "");   // repo.create, then an empty content field
      currentDocId := Some(newDocId);
      SetupChangeListener();
      Notify(SetDocumentId(newDocId));
      SendAwareness();
      events := [Created(newDocId)];
    }

    method OnOpen(docId: string, lookup: Lookup) returns (events: seq<Event>)
      requires Valid()
      modifies this
      ensures Valid()
      ensures Outcome(State(), events) == OpenStep(old(State()), docId, lookup)
    {
      if !hasRepo {
        events := [Error(NotConnected)];
        return;
      }
      var fullDocId := NormalizeDocId(docId);
      match lookup {
        case FindFailed(reason) =>
          events := [Error("Failed to open: " + reason)];
        case ReadyFailed(id, reason) =>
          AdoptHandle(id, "");   // repo.find resolved, whenReady threw
          events := [Error("Failed to open: " + reason)];
        case Ready(id, doc, changes) =>
          events := OpenReady(fullDocId, id, doc, changes);
      }
    }

    method OpenReady(fullDocId: string, id: string, doc: DocView, changes: seq<DocView>)
      returns (events: seq<Event>)
      requires Valid()
      modifies this
      ensures Valid()
      ensures Outcome(State(), events) == OpenReadyStep(old(State()), fullDocId, id, doc, changes)
    {
      var content, listening := WaitForSync(ContentToString(doc), changes);
      AdoptHandle(id, content);
      SetupChangeListener();
      currentDocId := Some(fullDocId);
      Notify(SetDocumentId(fullDocId));
      SendAwareness();
      events := [Opened(fullDocId, content)];
    }

    method OnEdit(content: string, failure: Option<string>) returns (events: seq<Event>)
      requires Valid()
      modifies this
      ensures Valid()
      ensures Outcome(State(), events) == EditStep(old(State()), content, failure)
    {
      if handle.None? {
        events := [Error(NoDocumentOpen)];
        return;
      }
      if isApplyingRemote {
        events := [];
        return;
      }
      match failure {
        case Some(reason) =>
          events := [Error("Edit failed: " + reason)];
        case None =>
          var i := handle.value;
          handles := handles[i := handles[i].(content := content)];
          events := [];
      }
    }

    method OnClose() returns (events: seq<Event>)
      requires Valid()
      modifies this
      ensures Valid()
      ensures Outcome(State(), events) == CloseStep(old(State()))
    {
      DetachForwarder();
      handle := None;
      events := [Closed];
    }

    method OnSetName(name: string) returns (events: seq<Event>)
      requires Valid()
      modifies this
      ensures Valid()
      ensures Outcome(State(), events) == SetNameStep(old(State()), name)
    {
      userName := if name != "" then name else DefaultName;
      Notify(SetDisplayName(userName));
      events := [NameSet(userName)];
    }

    method OnSetColor(color: string) returns (events: seq<Event>)
      requires Valid()
      modifies this
      ensures Valid()
      ensures Outcome(State(), events) == SetColorStep(old(State()), color)
    {
      userColor := if color != "" then color else DefaultColor;
      Notify(SetDisplayColor(userColor));
      events := [ColorSet(userColor)];
    }

    method OnCursor(offsetArg: Arg, sel: Option<SelectionArg>) returns (events: seq<Event>)
      requires Valid()
      modifies this
      ensures Valid()
      ensures Outcome(State(), events) == CursorStep(old(State()), offsetArg, sel)
    {
      var docLen := if handle.Some? then Utf16Length(handles[handle.value].content) else 0;
      var offset := ClampArg(offsetArg, docLen);
      currentCursorOffset := offset;
      currentSelection := ClampedSelection(sel, offset, docLen);
      SendAwareness();
      events := [];
    }

    method OnInfo() returns (events: seq<Event>)
      requires Valid()
      ensures Outcome(State(), events) == InfoStep(State())
    {
      var docId := if handle.Some? && handles[handle.value].documentId != ""
                   then Some(handles[handle.value].documentId) else None;
      events := [Status(hasRepo, docId, userId, userName)];
    }

    /** `handleMessage(msg)`. */
    method HandleMessage(c: Command) returns (events: seq<Event>)
      requires Valid()
      modifies this
      ensures Valid()
      ensures Outcome(State(), events) == Step(old(State()), c)
    {
      match c {
        case Connect(idSuffix, syncUrl, awarenessUrl, name, color) =>
          events := OnConnect(idSuffix, syncUrl, awarenessUrl, name, color);
        case Disconnect => events := OnDisconnect();
        case Create(newDocId) => events := OnCreate(newDocId);
        case Open(docId, lookup) => events := OnOpen(docId, lookup);
        case Edit(content, failure) => events := OnEdit(content, failure);
        case Close => events := OnClose();
        case SetName(name) => events := OnSetName(name);
        case SetColor(color) => events := OnSetColor(color);
        case Cursor(offset, sel) => events := OnCursor(offset, sel);
        case Info => events := OnInfo();
        case Unknown(typeName) => events := [Error("Unknown message type: " + typeName)];
      }
    }

    /** One forwarding listener sending a change: the echo guard is set
        while the event is sent and cleared afterwards. */
    method Forward(content: string) returns (e: Event, ghost guardedWhileSent: bool)
      modifies this
      ensures e == Changed(content) && guardedWhileSent && !isApplyingRemote
      ensures State() == old(State()).(isApplyingRemote := false)
    {
      isApplyingRemote := true;
      e := Changed(content);
      guardedWhileSent := isApplyingRemote;
      isApplyingRemote := false;
    }

    /** The listeners in `pending` each forward the same change, in some
        order: one `changed` event per listener, the echo guard clear
        afterwards when at least one ran. */
    method ForwardAll(pending: set<nat>, c: string) returns (events: seq<Event>)
      modifies this
      ensures events == seq(|pending|, _ => Changed(c))
      ensures State() == if pending == {} then old(State()) else old(State()).(isApplyingRemote := false)
    {
      ghost var before := State();
      var left := pending;
      events := [];
      while left != {}
        invariant left <= pending
        invariant |events| + |left| == |pending|
        invariant forall k :: 0 <= k < |events| ==> events[k] == Changed(c)
        invariant State() == if events == [] then before else before.(isApplyingRemote := false)
      {
        var l :| l in left;
        left := left - {l};
        var e, guarded := Forward(c);
        events := events + [e];
      }
      assert |events| == |pending|;
    }

    /** The library raises a change event on handle `h`: every listener
        still attached to that handle runs. */
    method DocumentChanged(h: nat, doc: DocView) returns (events: seq<Event>)
      requires Valid() && h < |handles|
      modifies this
      ensures Valid()
      ensures Outcome(State(), events) == ChangeStep(old(State()), h, doc)
    {
      var c := ContentToString(doc);
      handles := handles[h := handles[h].(content := c)];
      events := ForwardAll(handles[h].listeners, c);
    }

    /** The timer set by `open` fires, `reported` being the content that
        `opened` carried. */
    method DelayedRecheck(reported: string) returns (events: seq<Event>)
      requires Valid()
      modifies this
      ensures Valid()
      ensures Outcome(State(), events) == RecheckStep(old(State()), reported)
    {
      events := [];
      if handle.None? {
        return;
      }
      var latest := handles[handle.value].content;
      if RecheckFires(latest, reported) {
        var e, guarded := Forward(latest);
        events := [e];
      }
    }
  }

  /** The serialising queue in front of `handleMessage`. */
  class Dispatcher {
    const session: Session
    var messageQueue: seq<Command>
    var isProcessingQueue: bool

    /** When no drain is in flight, nothing is waiting. */
    predicate Valid()
      reads this, session
    {
      session.Valid() && (!isProcessingQueue ==> messageQueue == [])
    }

    constructor ()
      ensures Valid() && fresh(session) && session.State() == Initial()
      ensures messageQueue == [] && !isProcessingQueue
    {
      session := new Session();
      messageQueue := [];
      isProcessingQueue := false;
    }

    /** `processQueue()`: unless a drain is already in flight, handle the
        queued commands one at a time, in arrival order, until none is
        left. */
    method ProcessQueue() returns (events: seq<Event>)
      requires session.Valid()
      modifies this, session
      ensures session.Valid()
      ensures old(isProcessingQueue) ==>
                session.State() == old(session.State()) && events == []
                && messageQueue == old(messageQueue) && isProcessingQueue
      ensures !old(isProcessingQueue) ==>
                Outcome(session.State(), events) == Run(old(session.State()), old(messageQueue))
                && messageQueue == [] && !isProcessingQueue
    {
      if isProcessingQueue {
        return [];
      }
      isProcessingQueue := true;
      ghost var start := session.State();
      ghost var queued := messageQueue;
      events := [];
      while |messageQueue| > 0
        invariant session.Valid() && isProcessingQueue
        invariant Run(start, queued).state == Run(session.State(), messageQueue).state
        invariant Run(start, queued).events == events + Run(session.State(), messageQueue).events
        decreases |messageQueue|
      {
        var msg := messageQueue[0];
        messageQueue := messageQueue[1..];
        var handled := session.HandleMessage(msg);
        events := events + handled;
      }
      isProcessingQueue := false;
    }

    /** `rl.on('line', ...)`: blank lines are skipped, a line that does not
        parse is reported, and a command is queued and the queue drained. */
    method OnLine(line: Line) returns (events: seq<Event>)
      requires Valid()
      modifies this, session
      ensures Valid()
      ensures old(isProcessingQueue) ==>
                session.State() == old(session.State()) && isProcessingQueue
                && events == (if line.Unparsable? then LineStep(old(session.State()), line).events else [])
                && messageQueue == old(messageQueue) + (if line.Parsed? then [line.cmd] else [])
      ensures !old(isProcessingQueue) ==>
                Outcome(session.State(), events) == LineStep(old(session.State()), line)
                && !isProcessingQueue && messageQueue == []
    {
      match line {
        case Blank =>
          events := [];
        case Unparsable(reason) =>
          events := [Error("Parse error: " + reason)];
        case Parsed(c) =>
          messageQueue := messageQueue + [c];
          events := ProcessQueue();
          if !old(isProcessingQueue) {
            assert Run(old(session.State()), [c]) == Outcome(Step(old(session.State()), c).state,
                                                          Step(old(session.State()), c).events + []);
          }
      }
    }

    /** A stream of input lines, each delivered once the previous one has
        been handled: the session moves as `Feed` says. */
    method FeedLines(lines: seq<Line>) returns (events: seq<Event>)
      requires Valid() && !isProcessingQueue
      modifies this, session
      ensures Valid() && !isProcessingQueue && messageQueue == []
      ensures Outcome(session.State(), events) == Feed(old(session.State()), lines)
    {
      ghost var start := session.State();
      events := [];
      var i := 0;
      while i < |lines|
        invariant 0 <= i <= |lines|
        invariant Valid() && !isProcessingQueue
        invariant Feed(start, lines).state == Feed(session.State(), lines[i..]).state
        invariant Feed(start, lines).events == events + Feed(session.State(), lines[i..]).events
      {
        assert lines[i..][1..] == lines[i + 1..];
        var handled := OnLine(lines[i]);
        events := events + handled;
        i := i + 1;
      }
    }
  }
}
