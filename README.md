# vimbeam node helper: session state machine in Dafny

The vimbeam node helper connects Neovim to a collaborative Automerge document.
It reads JSON commands on stdin (`connect`, `disconnect`, `create`, `open`,
`edit`, `close`, `set_name`, `set_color`, `cursor`, `info`) and writes JSON
events on stdout. Around the Automerge repository and an awareness (presence)
client, it keeps a small amount of module-level state: the repository, the
open document handle, the forwarding change listener, the echo guard
`isApplyingRemote`, the local selection, the current document id and the
user's identity. This project models that state machine, the queue that
serialises commands, and the pure helpers the commands use.

Layout:

- `protocol.dfy` (module `Protocol`): commands, events, input lines,
  document snapshots, peer presence records, and the calls made on the
  awareness client.
- `helpers.dfy` (module `Helpers`): content extraction, `automerge:` id
  normalisation, cursor clamping, the peer display-name and colour
  fallbacks, the sync-wait (a function, and the `WaitForSync` loop proved
  against it), and the delayed-recheck decision.
- `session.dfy` (module `SessionSpec`): the session state as a value, one
  step function per command, the effect of a document change event and of
  the delayed recheck, a queue drain (`Run`) and a stream of input lines
  (`Feed`). The invariant `Wf` is preserved by every step.
- `bridge.dfy` (module `Bridge`): class `Session`, whose fields are the
  module-level variables and whose methods are the command handlers,
  `setupChangeListener`, `sendAwareness`, the change forwarder and the
  delayed recheck. Each method is proved to move the session exactly as the
  matching step function says. Class `Dispatcher` holds `messageQueue` and
  `isProcessingQueue`; its `ProcessQueue` drains the queue in a `while` loop.
- `properties.dfy` (module `SessionProperties`): the guarantees and the
  quirks, stated over the step functions.

How the library and the environment appear in the model:

- The repository and the awareness client are present/absent flags. Every
  call made on the awareness client is appended to `awarenessLog`.
- Every handle the session has obtained stays in `handles`. `handle` is the
  index of the current one. Each handle records its document id, its
  content and the set of change listeners attached to it. A listener is a
  closure; the model identifies it by a number. `changeHandler` names the
  forwarding listener that was installed last.
- Results of library calls are parts of the command: the id `repo.create()`
  assigns (`Create.newDocId`), the outcome of `repo.find` and `whenReady`
  (`Open.lookup`), and an error thrown by `handle.change` (`Edit.failure`).
  The random part of the user id is `Connect.idSuffix`.
- Time is abstract. The change events raised while the temporary sync
  listener of `open` is attached are a sequence in the `open` command: none
  when the local content is non-empty, otherwise those up to and including
  the first with non-empty content, or all of them until the 8-second timer
  fires. Any later change event, on any handle, is the `DocumentChanged`
  entry point, and reaches the listeners attached at that moment. The
  3-second recheck is the `DelayedRecheck` entry point, which the
  environment calls with the content `opened` reported.
- `isApplyingRemote` is a plain field that the environment may set. This
  lets an `edit` arrive while a change is being forwarded.

Quirks of the code, kept as written:

- `create` and `open` reassign `handle` before `setupChangeListener` runs.
  Its `handle.off(...)` therefore targets the new handle, and the previous
  handle keeps its forwarding listener. Its later changes are still
  forwarded (`PreviousHandleKeepsForwarding`). "Exactly one listener" holds
  for the current handle only (`StepKeepsOneForwarder`). An `open` that fails
  after `handle` was reassigned leaves the current handle with no listener
  at all (`FailedOpenLeavesHandleUnwatched`).
- `close` answers `closed` even with no document open.
- `close` and `disconnect` never clear `currentDocId`.
- `connect` does not tear down a previous connection's handle. It replaces
  the awareness client only when a new awareness URL is given.
- A cursor is clamped against the document that is open when the `cursor`
  command runs. A later `create` or `open` re-sends the stored selection
  unchanged, even when it lies beyond the end of the new document
  (`CreateResendsStaleSelection`).
- The delayed recheck reads whichever handle is current when it fires. If
  another document was opened in between, it compares that document's
  content with the first one's report (`RecheckReadsCurrentHandle`).

## Model

| member | source | states |
|---|---|---|
| `Helpers.ContentToString` | node-helper/index.js:67-70 | a document with string content yields that string; any non-empty result is exactly the document's string content, and a missing document or field yields "" |
| `Helpers.NormalizeDocId` | node-helper/index.js:248 | the result always starts with `automerge:`; an id that already has the prefix is unchanged; otherwise the prefix is added in front of the id |
| `Helpers.NormalizeIdempotent` | node-helper/index.js:248 | normalising an already-normalised id changes nothing |
| `Helpers.Utf16Length` | node-helper/index.js:375 | JavaScript `length` counts UTF-16 code units: between one and two per character, and equal to the number of characters exactly when none lies outside the Basic Multilingual Plane |
| `Helpers.Utf16LengthAppend` | node-helper/index.js:375 | the code-unit length of a concatenation is the sum of the lengths |
| `Helpers.Clamp` | node-helper/index.js:376 | `max(0, min(x, len))` lies in `[0, len]`, is `x` inside the range, 0 below it and `len` above it |
| `Helpers.ClampArg` | node-helper/index.js:376-382 | `Number(v) \|\| 0` clamped to the document: the result lies in `[0, len]`; an absent or non-numeric value gives 0; an in-range integer is kept, a negative one gives 0 and one past the end gives `len` |
| `Helpers.ClampedSelection` | node-helper/index.js:379-386 | with a selection, anchor and head are clamped into `[0, len]` and a missing head equals the anchor; without one, the selection is a cursor at the offset with no head |
| `Helpers.PresenceUpdate` | node-helper/index.js:147-152 | a selection with a head becomes exactly `updateSelection(anchor, head)`, and one without becomes exactly `updateCursor(anchor)` |
| `Helpers.Trim` | node-helper/index.js:116 | the result is a contiguous part of the input with only white space before and after it in the input; it has no white space at either end; it is empty exactly when the input is all white space |
| `Helpers.PeerDisplayName` | node-helper/index.js:116 | the name shown is never empty: the trimmed name, otherwise the peer's user id, otherwise "unknown" |
| `Helpers.PeerCursorEvent` | node-helper/index.js:114-125 | a peer cursor is forwarded with the peer's id, anchor and head as given, the display name `PeerDisplayName` chooses (never empty), and colour `#888888` when the peer has none |
| `Helpers.FirstNonEmpty` | node-helper/index.js:268-275 | the first non-empty content is "" or one of the contents seen |
| `Helpers.SyncWaitResult` | node-helper/index.js:254-279 | non-empty local content is returned without waiting; otherwise the result is "" or one of the contents seen |
| `Helpers.SyncWaitTakesFirstNonEmpty` | node-helper/index.js:268-275 | with empty local content, the result is the first non-empty change content before the timeout |
| `Helpers.SyncWaitTimesOut` | node-helper/index.js:262-265 | with empty local content and no non-empty change before the timeout, the result is "" |
| `Helpers.WaitForSync` | node-helper/index.js:258-279 | the listener-based wait returns the sync-wait result, and the temporary `syncHandler` is detached on every path (first non-empty change, or timer) |
| `SessionSpec.Initial` | node-helper/index.js:24-33 | the start state has no repository, no handle, no listener, and the default name and colour |
| `SessionSpec.Detached` | node-helper/index.js:344-347 | the `handle && changeHandler` teardown removes the forwarding listener from the current handle's listeners, leaves every other handle, the handle's id and content and every other field as they were, clears `changeHandler`, and keeps the invariant |
| `SessionSpec.WithForwarder` | node-helper/index.js:416-437 | with a current handle, the previous forwarding listener leaves that handle's listeners and a fresh one (`nextListener`) joins them and becomes `changeHandler`; every handle keeps its id and content, the other handles are unchanged, nothing else but the listener counter changes, and without a handle nothing changes; the invariant is kept |
| `SessionSpec.Step` | node-helper/index.js:159-410 | every command keeps the session invariant: the current handle exists, a listener is recorded only while a handle is current, and listener identities are fresh |
| `SessionSpec.Run` | node-helper/index.js:444-459 | draining a queue keeps the session invariant |
| `SessionSpec.Feed` | node-helper/index.js:462-473 | a stream of input lines keeps the session invariant |
| `SessionSpec.ChangeStep` | node-helper/index.js:426-434 | a change event on any handle keeps the session invariant |
| `SessionSpec.RecheckStep` | node-helper/index.js:295-308 | the delayed recheck keeps the session invariant |
| `Bridge.Session.constructor` | node-helper/index.js:24-33 | a new session is the start state |
| `Bridge.Session.Notify` | node-helper/index.js:226-229 | an awareness call is recorded exactly when a client exists |
| `Bridge.Session.SendAwareness` | node-helper/index.js:143-154 | the stored selection is sent to the awareness client, if there is one |
| `Bridge.Session.DetachForwarder` | node-helper/index.js:189-192 | the forwarding listener is removed from the current handle when both are set |
| `Bridge.Session.SetupChangeListener` | node-helper/index.js:416-437 | the previous forwarding listener is removed from the current handle and a fresh one attached to it |
| `Bridge.Session.AdoptHandle` | node-helper/index.js:250 | the handle the library produced becomes current |
| `Bridge.Session.ConnectAwareness` | node-helper/index.js:97-136 | an existing client is destroyed, then a new one is created for the current user and the current document id or "default" |
| `Bridge.Session.OnConnect` | node-helper/index.js:162-185 | the session moves as `ConnectStep` says and answers `connected` with the new user id |
| `Bridge.Session.OnDisconnect` | node-helper/index.js:187-206 | the session moves as `DisconnectStep` says |
| `Bridge.Session.OnCreate` | node-helper/index.js:208-235 | the session moves as `CreateStep` says |
| `Bridge.Session.OnOpen` | node-helper/index.js:237-314 | the session moves as `OpenStep` says, including both failure paths |
| `Bridge.Session.OpenReady` | node-helper/index.js:253-292 | after the handle is ready: sync-wait, forwarder, full id, awareness, `opened`, as `OpenReadyStep` says |
| `Bridge.Session.OnEdit` | node-helper/index.js:316-340 | the session moves as `EditStep` says |
| `Bridge.Session.OnClose` | node-helper/index.js:342-352 | the session moves as `CloseStep` says |
| `Bridge.Session.OnSetName` | node-helper/index.js:354-362 | the session moves as `SetNameStep` says |
| `Bridge.Session.OnSetColor` | node-helper/index.js:364-372 | the session moves as `SetColorStep` says |
| `Bridge.Session.OnCursor` | node-helper/index.js:374-390 | the session moves as `CursorStep` says, with the document length in UTF-16 code units |
| `Bridge.Session.OnInfo` | node-helper/index.js:392-401 | the status reply is `InfoStep`'s, and nothing changes |
| `Bridge.Session.HandleMessage` | node-helper/index.js:159-410 | each command moves the session exactly as `Step` says, and an unknown type answers one error |
| `Bridge.Session.Forward` | node-helper/index.js:429-431 | a forwarded change is sent as `changed` with the echo guard set at that moment, and the guard is clear afterwards |
| `Bridge.Session.ForwardAll` | node-helper/index.js:426-434 | every listener in the set sends exactly one `changed` event with the same content, and the echo guard is clear afterwards once any has run; nothing else changes |
| `Bridge.Session.DocumentChanged` | node-helper/index.js:426-436 | every listener still attached to the changed handle forwards it once, as `ChangeStep` says |
| `Bridge.Session.DelayedRecheck` | node-helper/index.js:295-308 | the recheck behaves as `RecheckStep` says |
| `Bridge.Dispatcher.constructor` | node-helper/index.js:441-442 | the queue starts empty and idle, with a session in the start state |
| `Bridge.Dispatcher.ProcessQueue` | node-helper/index.js:444-459 | when a drain is already in flight nothing happens; otherwise every queued command is handled in arrival order until the queue is empty, with the events and final state of `Run` |
| `Bridge.Dispatcher.OnLine` | node-helper/index.js:462-473 | a blank line is ignored, an unparsable line answers one parse error, and a command is queued and drained as `LineStep` says; when no drain was in flight, the queue is empty and idle afterwards |
| `Bridge.Dispatcher.FeedLines` | node-helper/index.js:462-473 | lines delivered one after another, each once the previous has been handled, move the session as `Feed` says and leave the queue empty and idle |
| `SessionProperties.EditWithoutDocument` | node-helper/index.js:317-320 | `edit` with no handle answers exactly one "No document open" error and changes nothing |
| `SessionProperties.EditDroppedWhileApplyingRemote` | node-helper/index.js:322-324 | `edit` while the echo guard is set answers nothing and changes nothing |
| `SessionProperties.EditReplacesContent` | node-helper/index.js:326-334 | a successful `edit` sets the current document's content and changes nothing else |
| `SessionProperties.EditFailureReported` | node-helper/index.js:335-338 | a failing `edit` answers one "Edit failed" error and changes nothing |
| `SessionProperties.NotConnectedRejects` | node-helper/index.js:209-212 | `create` or `open` with no repository answers exactly one "Not connected" error and changes nothing |
| `SessionProperties.ForwarderOnFreshHandle` | node-helper/index.js:416-437 | installing the forwarder on a handle with no listener leaves exactly the new listener on it and no other handle touched |
| `SessionProperties.CreateInstallsOneForwarder` | node-helper/index.js:208-235 | after `create`, the new empty document is current with exactly one forwarding listener, every earlier handle is unchanged, and the awareness client, if any, receives `setDocumentId` with the new id and then the stored selection |
| `SessionProperties.OpenInstallsOneForwarder` | node-helper/index.js:248-291 | after a successful `open`, the opened document holds the reported content with exactly one forwarding listener, the full id is recorded, every earlier handle is unchanged, and the awareness client, if any, receives `setDocumentId` with the full id and then the stored selection |
| `SessionProperties.ReadyInstallsOneForwarder` | node-helper/index.js:281-289 | once the handle is ready, for any reported content: the new handle is current with exactly one forwarder, earlier handles are kept, the full id is recorded and the awareness calls are `setDocumentId` then the stored selection |
| `SessionProperties.StepKeepsOneForwarder` | node-helper/index.js:416-437 | every command except an `open` that fails after reassigning the handle keeps exactly one forwarding listener on the current handle |
| `SessionProperties.FailedOpenLeavesHandleUnwatched` | node-helper/index.js:250-251 | an `open` whose handle never becomes ready leaves the new current handle without a listener while `changeHandler` still names the old one |
| `SessionProperties.PreviousHandleKeepsForwarding` | node-helper/index.js:215 | after `create`, the previous handle keeps its forwarding listener and its changes still reach the editor |
| `SessionProperties.ChangeForwardedOnce` | node-helper/index.js:426-434 | with one forwarder, a change to the current document yields exactly one `changed` with its content, and the guard is clear afterwards |
| `SessionProperties.ChangeForwardedPerListener` | node-helper/index.js:426-434 | a change is forwarded once per attached listener with the change's content; no listener means no event |
| `SessionProperties.TwoCreatesThenOneChange` | node-helper/index.js:419-423 | two consecutive `create`s, then one change: exactly one `changed` event |
| `SessionProperties.CloseTearsDown` | node-helper/index.js:342-351 | `close` always answers `closed` and leaves no handle and no listener; every other field (connection, awareness, identity, selection, `currentDocId`) is kept |
| `SessionProperties.CloseDetachesForwarder` | node-helper/index.js:344-347 | `close` removes the forwarding listener from the current handle |
| `SessionProperties.DisconnectTearsDown` | node-helper/index.js:187-205 | `disconnect` answers `disconnected`, removes the forwarding listener from the current handle, and leaves no handle, listener, awareness client or repository; it destroys the client if there was one; `currentDocId` is kept |
| `SessionProperties.DisconnectIdempotent` | node-helper/index.js:187-205 | a second `disconnect` changes nothing |
| `SessionProperties.ConnectSetsIdentity` | node-helper/index.js:162-182 | `connect` sets a `beam-` user id and keeps name and colour unless new ones are given; the handles are untouched; without an awareness URL the awareness client is left alone (no call is made) |
| `SessionProperties.ConnectReplacesAwareness` | node-helper/index.js:97-108 | `connect` with an awareness URL destroys an existing client before creating the new one |
| `SessionProperties.IdentityFallbacks` | node-helper/index.js:354-370 | `set_name` and `set_color` adopt a non-empty value and use the default for an empty one, send `setName`/`setColor` with that value to the awareness client if there is one, answer with it, and change nothing else |
| `SessionProperties.CursorClamped` | node-helper/index.js:374-388 | after `cursor`, the offset is `ClampArg(offset, docLen)` with `docLen` in UTF-16 code units, and so lies in `[0, docLen]` (0 when non-numeric); with a selection, the anchor and a given head are clamped the same way and a missing head equals the anchor; no selection gives a cursor at the offset with no head; the awareness client receives exactly that selection |
| `SessionProperties.CursorCountsCodeUnits` | node-helper/index.js:375-376 | in a document holding one character outside the Basic Multilingual Plane the length is 2, so offset 2 is kept and offset 3 is clamped to 2 |
| `SessionProperties.CreateResendsStaleSelection` | node-helper/index.js:230 | `create` keeps the stored selection and re-sends it as the last awareness call, so any anchor past 0 lies beyond the new, empty document |
| `SessionProperties.OpenReportsLocalContent` | node-helper/index.js:254-258 | non-empty local content is what `opened` reports, whatever changes arrive |
| `SessionProperties.OpenWaitsForFirstSync` | node-helper/index.js:258-279 | with empty local content, `opened` reports the first non-empty change before the timeout |
| `SessionProperties.OpenTimesOutEmpty` | node-helper/index.js:262-265 | with empty local content and no non-empty change, `opened` reports "" |
| `SessionProperties.OpenFindFailedReports` | node-helper/index.js:309-311 | when `repo.find` throws, `open` answers exactly one "Failed to open" error with the reason and changes nothing |
| `SessionProperties.SyncListenerDetachedAfterFirstContent` | node-helper/index.js:268-275 | once a change with content has arrived, the sync listener is gone: events after it do not change the outcome of `open` |
| `SessionProperties.LaterChangeForwardedAfterOpen` | node-helper/index.js:426-431 | a change raised after `open` has finished is forwarded once as `changed` through the listener `open` installed, and the opened document holds its content |
| `SessionProperties.RecheckDecision` | node-helper/index.js:295-308 | the recheck sends at most one `changed`, exactly when a handle is current and its content is non-empty and new; it leaves documents and, when it fires, the guard clear |
| `SessionProperties.RecheckReadsCurrentHandle` | node-helper/index.js:297-299 | the recheck compares whichever document is current when it fires |
| `SessionProperties.RunAppend` | node-helper/index.js:448-456 | draining `a + b` is draining `a`, then `b` from where `a` left the session |
| `SessionProperties.RunStartsWithFirst` | node-helper/index.js:448-451 | the first queued command's events come first |
| `SessionProperties.FailureDoesNotBlock` | node-helper/index.js:403-404 | an unknown command answers one error, and the rest of the queue runs as if it had not been there |
| `SessionProperties.FeedParsedIsRun` | node-helper/index.js:466-468 | a stream of well-formed lines is handled exactly like a queue of the same commands |
| `SessionProperties.MalformedLineDoesNotBlock` | node-helper/index.js:469-471 | an unparsable line answers exactly one error, and later lines are handled as if it had not been there |
| `SessionProperties.InfoReportsStatus` | node-helper/index.js:392-400 | `info` reports the connection, the user id and name, and the current handle's document id exactly when a handle is current and its id is non-empty (`null` otherwise, never an empty id), and changes nothing |

## Left out

- Automerge `Repo`, the WebSocket network adapter and the file-system storage adapter are library code. `repo.create`, `repo.find` and `whenReady` appear only through their results, as parameters of the commands.
- The library's handle cache is not modelled. Every `repo.find` yields a new handle record, even for a document opened before.
- `Automerge.updateText` merge semantics are CRDT internals. A successful edit sets the document content to the new text. Whether the library then raises a change event for that local edit is left to the environment, which may call `DocumentChanged`.
- The awareness client's networking and its events (`connected`, `disconnected`, `error`) are not modelled. Its calls are recorded, and an inbound peer cursor becomes `PeerCursorEvent`.
- Timers are not modelled: the 8-second sync-wait is a finite sequence of change events, and the 3-second recheck is a separate entry point that the environment calls.
- `JSON.parse` and `JSON.stringify`, `readline`, writes to stdout and stderr, `process.exit`, signal handlers and creating the storage directory are I/O plumbing.
- `generateUserId` uses `Math.random`. Its random part is the `idSuffix` parameter of `Connect`.
- `contentToString` is modelled only for a missing document, a missing `content` field and string content. Its `toString()` and `String()` branches for other values are dynamic JavaScript coercions.
- `Number(...)` is modelled for integers and for values that become NaN. Fractional numbers and infinities are not modelled.
- A non-object `selection` is treated like no selection, as the `typeof` check does. The model takes that from the absent case of `Cursor.selection`.
- `Helpers.Trim` recognises the ASCII white space and the Unicode space separators and line terminators, not characters outside that list.
- The `catch` blocks of `handleMessage` (node-helper/index.js:406-409) and `processQueue` (node-helper/index.js:452-455) cannot fire in the model. Only three library failures are explicit outcomes: `repo.find`, `whenReady` and `handle.change` in `edit`.
- These calls never fail in the model: `new Repo(...)` in `connect` (node-helper/index.js:172-175), `new AwarenessClientNode(...)` and `connect()` (node-helper/index.js:103-135), `repo.create()` and `handle.change(...)` in `create` (node-helper/index.js:215-218), and every call on the awareness client. A `create` whose `handle.change` throws would leave the new handle current with no listener, like a failed `open`; the model does not capture that.
- Real interleaving of change events with a suspended command is not modelled. The model is sequential; an `edit` during forwarding is expressed by setting `isApplyingRemote`, and an in-flight drain by setting `isProcessingQueue`.
- The `log(...)` calls write diagnostics to stderr and are not modelled.
