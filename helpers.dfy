/** The pure helpers of the bridge: content extraction, document-id
    normalisation, cursor clamping, the peer-cursor fallbacks, and the
    decisions of the sync-wait and of the delayed recheck. */
module Helpers {
  import opened Protocol

  // ---------------------------------------------------------------------
  // Document content

  /** The document's text, or "" when there is no document or it has no
      `content` field. */
  function ContentToString(doc: DocView): (r: string)
    ensures doc.Doc? && doc.content.Text? ==> r == doc.content.s
    ensures r != "" ==> doc == Doc(Text(r))
  {
    match doc
    case NoDoc => ""
    case Doc(NoContent) => ""
    case Doc(Text(s)) => s
  }

  /** The content strings carried by a sequence of change events. */
  function ChangeContents(changes: seq<DocView>): seq<string>
  {
    seq(|changes|, i requires 0 <= i < |changes| => ContentToString(changes[i]))
  }

  // ---------------------------------------------------------------------
  // Document ids

  const AutomergePrefix := "automerge:"

  /** The id as `repo.find` expects it: prefixed with "automerge:" unless it
      already is. */
  function NormalizeDocId(docId: string): (full: string)
    ensures AutomergePrefix <= full
    ensures AutomergePrefix <= docId ==> full == docId
    ensures !(AutomergePrefix <= docId) ==> full[|AutomergePrefix|..] == docId
  {
    if AutomergePrefix <= docId then docId else AutomergePrefix + docId
  }

  /** Normalising twice is normalising once. */
  lemma NormalizeIdempotent(docId: string)
    ensures NormalizeDocId(NormalizeDocId(docId)) == NormalizeDocId(docId)
  {
  }

  // ---------------------------------------------------------------------
  // Cursor clamping

  function Min(a: int, b: int): int { if a < b then a else b }
  function Max(a: int, b: int): int { if a < b then b else a }

  /** The number of UTF-16 code units a character takes: two for a
      character outside the Basic Multilingual Plane, one otherwise. */
  function Utf16Units(c: char): nat {
    if c > '\U{FFFF}' then 2 else 1
  }

  /** JavaScript's `s.length`: the length of `s` in UTF-16 code units. It
      equals the number of characters exactly when none lies outside the
      Basic Multilingual Plane. */
  function Utf16Length(s: string): (n: nat)
    ensures |s| <= n <= 2 * |s|
    ensures n == |s| <==> forall i :: 0 <= i < |s| ==> s[i] <= '\U{FFFF}'
  {
    if s == [] then 0 else Utf16Units(s[0]) + Utf16Length(s[1..])
  }

  /** The length of a concatenation is the sum of the lengths. */
  lemma {:induction false} Utf16LengthAppend(a: string, b: string)
    ensures Utf16Length(a + b) == Utf16Length(a) + Utf16Length(b)
  {
    if a == [] {
      assert a + b == b;
    } else {
      assert (a + b)[0] == a[0];
      assert (a + b)[1..] == a[1..] + b;
      Utf16LengthAppend(a[1..], b);
    }
  }

  /** `Math.max(0, Math.min(x, len))`: the nearest offset in `[0, len]`. */
  function Clamp(x: int, len: nat): (r: int)
    ensures 0 <= r <= len
    ensures 0 <= x <= len ==> r == x
    ensures x < 0 ==> r == 0
    ensures len < x ==> r == len
  {
    Max(0, Min(x, len))
  }

  /** An editor-supplied offset clamped to the document:
      `Math.max(0, Math.min(Number(v) || 0, len))`, where an absent or
      non-numeric value (NaN) becomes 0. */
  function ClampArg(a: Arg, len: nat): (r: int)
    ensures 0 <= r <= len
    ensures !a.Numeric? ==> r == 0
    ensures a.Numeric? && 0 <= a.n <= len ==> r == a.n
    ensures a.Numeric? && a.n < 0 ==> r == 0
    ensures a.Numeric? && len < a.n ==> r == len
  {
    Clamp(if a.Numeric? then a.n else 0, len)
  }

  /** The new local selection after a `cursor` command: the clamped anchor,
      and a head that is the clamped head or, when absent, the anchor; with
      no selection object, a collapsed cursor at `offset`. */
  function ClampedSelection(sel: Option<SelectionArg>, offset: int, len: nat): (r: Selection)
    ensures sel.None? ==> r == Selection(offset, None)
    ensures sel.Some? ==> r.head.Some? && 0 <= r.anchor <= len && 0 <= r.head.value <= len
    ensures sel.Some? ==> r.anchor == ClampArg(sel.value.anchor, len)
    ensures sel.Some? && sel.value.head.Undefined? ==> r.head == Some(r.anchor)
    ensures sel.Some? && !sel.value.head.Undefined? ==> r.head == Some(ClampArg(sel.value.head, len))
  {
    match sel
    case None => Selection(offset, None)
    case Some(s) =>
      var anchor := ClampArg(s.anchor, len);
      var head := if s.head.Undefined? then anchor else ClampArg(s.head, len);
      Selection(anchor, Some(head))
  }

  /** The awareness call `sendAwareness` makes for a selection: a range when
      it has a head, a cursor otherwise. */
  function PresenceUpdate(sel: Selection): (c: AwarenessCall)
    ensures sel.head.Some? <==> c.UpdateSelection?
    ensures c.UpdateSelection? ==> c.anchor == sel.anchor && c.head == sel.head.value
    ensures sel.head.None? ==> c == UpdateCursor(sel.anchor)
  {
    match sel.head
    case Some(h) => UpdateSelection(sel.anchor, h)
    case None => UpdateCursor(sel.anchor)
  }

  // ---------------------------------------------------------------------
  // Peer cursors

  /** The characters `String.prototype.trim` removes (white space and line
      terminators). */
  predicate IsJsWhitespace(c: char) {
    c == ' ' || c == '\t' || c == '\n' || c == '\r' || c == '\U{0B}' || c == '\U{0C}'
    || c == '\U{A0}' || c == '\U{1680}' || ('\U{2000}' <= c <= '\U{200A}')
    || c == '\U{2028}' || c == '\U{2029}' || c == '\U{202F}' || c == '\U{205F}'
    || c == '\U{3000}' || c == '\U{FEFF}'
  }

  function TrimStart(s: string): (r: string)
    ensures |r| <= |s| && r == s[|s| - |r|..]
    ensures forall i :: 0 <= i < |s| - |r| ==> IsJsWhitespace(s[i])
    ensures r == [] || !IsJsWhitespace(r[0])
  {
    if s == [] || !IsJsWhitespace(s[0]) then s else TrimStart(s[1..])
  }

  function TrimEnd(s: string): (r: string)
    ensures |r| <= |s| && r == s[..|r|]
    ensures forall i :: |r| <= i < |s| ==> IsJsWhitespace(s[i])
    ensures r == [] || !IsJsWhitespace(r[|r| - 1])
  {
    if s == [] || !IsJsWhitespace(s[|s| - 1]) then s else TrimEnd(s[..|s| - 1])
  }

  /** `r` is the part of `s` that starts at `a`, and everything of `s`
      before and after it is white space. */
  predicate TrimmedAt(s: string, r: string, a: nat) {
    a + |r| <= |s| && r == s[a..a + |r|]
    && (forall i :: 0 <= i < a ==> IsJsWhitespace(s[i]))
    && (forall i :: a + |r| <= i < |s| ==> IsJsWhitespace(s[i]))
  }

  /** `s.trim()`: `s` without leading and trailing white space. */
  function Trim(s: string): (r: string)
    ensures r == [] || (!IsJsWhitespace(r[0]) && !IsJsWhitespace(r[|r| - 1]))
    ensures r == [] <==> forall i :: 0 <= i < |s| ==> IsJsWhitespace(s[i])
    ensures exists a :: TrimmedAt(s, r, a)
  {
    var t := TrimStart(s);
    var r := TrimEnd(t);
    assert r == [] ==> t == [];
    ghost var a := |s| - |t|;
    assert TrimmedAt(s, r, a);
    r
  }

  /** The name shown for a peer: its trimmed name, else its user id, else
      "unknown". */
  function PeerDisplayName(p: PeerPresence): (name: string)
    ensures name != ""
    ensures Trim(p.name) != "" ==> name == Trim(p.name)
    ensures Trim(p.name) == "" && p.userId.Some? && p.userId.value != "" ==> name == p.userId.value
    ensures Trim(p.name) == "" && (p.userId.None? || p.userId.value == "") ==> name == "unknown"
  {
    var trimmed := Trim(p.name);
    if trimmed != "" then trimmed
    else if p.userId.Some? && p.userId.value != "" then p.userId.value
    else "unknown"
  }

  const FallbackPeerColor := "#888888"

  /** The event forwarded to the editor for a peer's cursor: the peer's own
      id and positions, with the display-name and colour fallbacks. */
  function PeerCursorEvent(p: PeerPresence): (e: Event)
    ensures e.RemoteCursor? && e.peer == p.userId && e.anchor == p.anchor && e.head == p.head
    ensures e.displayName == PeerDisplayName(p) && e.displayName != ""
    ensures e.displayColor == (if p.color != "" then p.color else FallbackPeerColor)
  {
    RemoteCursor(p.userId, PeerDisplayName(p),
                 if p.color != "" then p.color else FallbackPeerColor,
                 p.anchor, p.head)
  }

  // ---------------------------------------------------------------------
  // Sync-wait on open

  /** The first non-empty string of `cs`, or "" when there is none. */
  function FirstNonEmpty(cs: seq<string>): (r: string)
    ensures r == "" || r in cs
  {
    if cs == [] then "" else if cs[0] != "" then cs[0] else FirstNonEmpty(cs[1..])
  }

  /** Skipping a prefix of empty strings does not change the first
      non-empty one. */
  lemma {:induction false} FirstNonEmptySkips(cs: seq<string>, k: nat)
    requires k <= |cs|
    requires forall j :: 0 <= j < k ==> cs[j] == ""
    ensures FirstNonEmpty(cs) == FirstNonEmpty(cs[k..])
  {
    if k > 0 {
      assert cs[1..][k - 1..] == cs[k..];
      FirstNonEmptySkips(cs[1..], k - 1);
    }
  }

  /** The content `open` reports: the locally loaded content when it is
      non-empty, otherwise the first non-empty content among the change
      events seen before the timeout, otherwise "". */
  function SyncWaitResult(local: string, seen: seq<string>): (r: string)
    ensures local != "" ==> r == local
    ensures local == "" ==> r == "" || r in seen
  {
    if local != "" then local else FirstNonEmpty(seen)
  }

  /** With empty local content, the result is the first non-empty content
      that arrives before the timeout. */
  lemma {:induction false} SyncWaitTakesFirstNonEmpty(seen: seq<string>, k: nat)
    requires k < |seen| && seen[k] != ""
    requires forall j :: 0 <= j < k ==> seen[j] == ""
    ensures SyncWaitResult("", seen) == seen[k]
  {
    FirstNonEmptySkips(seen, k);
  }

  /** With empty local content and no non-empty change before the timeout,
      the result is "". */
  lemma {:induction false} SyncWaitTimesOut(seen: seq<string>)
    requires forall j :: 0 <= j < |seen| ==> seen[j] == ""
    ensures SyncWaitResult("", seen) == ""
  {
    FirstNonEmptySkips(seen, |seen|);
  }

  /** The sync-wait as it runs: the temporary change listener is attached
      when the local content is empty, each change event is offered to it in
      order, and it is detached either by the first non-empty content or by
      the timer. */
  method WaitForSync(local: string, changes: seq<DocView>) returns (content: string, listening: bool)
    ensures content == SyncWaitResult(local, ChangeContents(changes))
    ensures !listening
  {
    ghost var seen := ChangeContents(changes);
    content := local;
    listening := false;
    if content == "" {
      listening := true;                     // attach the sync listener
      var i := 0;
      while listening && i < |changes|
        invariant 0 <= i <= |changes|
        invariant listening ==> content == "" && forall j :: 0 <= j < i ==> seen[j] == ""
        invariant !listening ==> content == FirstNonEmpty(seen)
      {
        var c := ContentToString(changes[i]);
        if c != "" {
          FirstNonEmptySkips(seen, i);
          listening := false;                // cancel the timer, detach the listener
          content := c;
        }
        i := i + 1;
      }
      if listening {
        FirstNonEmptySkips(seen, |changes|);
        listening := false;                  // timer fired: detach the listener
        content := "";
      }
    }
  }

  // ---------------------------------------------------------------------
  // Delayed recheck after open

  /** The recheck forwards the latest content only when it is non-empty and
      differs from what `opened` reported. */
  predicate RecheckFires(latest: string, reported: string) {
    latest != "" && latest != reported
  }
}
