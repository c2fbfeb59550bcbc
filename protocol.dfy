/** The values that cross the bridge's boundaries: the commands the editor
    sends, the events the bridge answers with, what the CRDT library hands
    back, and the calls made on the awareness client. */
module Protocol {

  datatype Option<+T> = None | Some(value: T)

  /** A field the editor sent where a number is expected, as `Number(v) || 0`
      sees it: absent, something that converts to NaN, or an integer. */
  datatype Arg = Undefined | NonNumeric | Numeric(n: int)

  /** The `selection` object of a `cursor` command. */
  datatype SelectionArg = SelectionArg(anchor: Arg, head: Arg)

  /** The local selection; `head == None` is a collapsed cursor. */
  datatype Selection = Selection(anchor: int, head: Option<int>)

  /** The `content` field of a document snapshot. */
  datatype Value = NoContent | Text(s: string)

  /** A document snapshot as the library returns it (`handle.doc()` or the
      `doc` of a change event); `NoDoc` stands for a missing document. */
  datatype DocView = NoDoc | Doc(content: Value)

  /** What `repo.find(...)` followed by `handle.whenReady()` produced. For a
      ready handle, `changes` are the change events the handle raised while
      the temporary sync listener was attached, in order: none when the
      local content is non-empty, otherwise those up to and including the
      first one with non-empty content, or all of them until the timer
      fired. Change events raised after that are delivered separately, to
      the listeners then attached (`Bridge.Session.DocumentChanged`). */
  datatype Lookup =
    | FindFailed(reason: string)
    | ReadyFailed(documentId: string, reason: string)
    | Ready(documentId: string, doc: DocView, changes: seq<DocView>)

  /** One parsed command line. Strings that the source tests for truthiness
      (`name`, `color`, `awarenessUrl`) use "" for an absent field. The
      results of calls into the CRDT library and of the user-id generator
      are carried as parameters: `idSuffix` is the random part of the user
      id, `newDocId` the id `repo.create()` assigns, `lookup` the outcome of
      resolving a document, `failure` the error `handle.change` raises. */
  datatype Command =
    | Connect(idSuffix: string, syncUrl: string, awarenessUrl: string, name: string, color: string)
    | Disconnect
    | Create(newDocId: string)
    | Open(docId: string, lookup: Lookup)
    | Edit(content: string, failure: Option<string>)
    | Close
    | SetName(name: string)
    | SetColor(color: string)
    | Cursor(offset: Arg, selection: Option<SelectionArg>)
    | Info
    | Unknown(typeName: string)

  /** One input line: blank, not valid JSON, or a command. */
  datatype Line = Blank | Unparsable(reason: string) | Parsed(cmd: Command)

  /** A remote peer's presence as the awareness client reports it. */
  datatype PeerPresence = PeerPresence(userId: Option<string>, name: string, color: string,
                                       anchor: Option<int>, head: Option<int>)

  /** Output events, one per output line. `RemoteCursor` is the wire type
      `cursor` and `Status` the wire type `info`. */
  datatype Event =
    | Connected(userId: string)
    | Disconnected
    | Created(docId: string)
    | Opened(docId: string, content: string)
    | Changed(content: string)
    | Closed
    | NameSet(name: string)
    | ColorSet(color: string)
    | RemoteCursor(peer: Option<string>, displayName: string, displayColor: string,
                   anchor: Option<int>, head: Option<int>)
    | Status(connected: bool, openDocId: Option<string>, user: Option<string>, userName: string)
    | Error(message: string)

  /** The calls the bridge makes on the awareness client, in order.
      `NewClient` is construction followed by `connect()`. */
  datatype AwarenessCall =
    | NewClient(url: string, userId: Option<string>, name: string, color: string, documentId: string)
    | Destroy
    | UpdateCursor(offset: int)
    | UpdateSelection(anchor: int, head: int)
    | SetDocumentId(id: string)
    | SetDisplayName(name: string)
    | SetDisplayColor(color: string)
}
