/** The client side of a collaborative document, client/src/components/CollaborativeEditor.tsx:
    the reducers its socket listeners apply to the editor's state, the debounce of outgoing
    edits, and the chat send guard. */
module CollaborativeEditor {
  import opened Wrappers
  import opened Seqs
  import opened Text
  import Realtime

  datatype Cursor = Cursor(userId: string, username: string, x: int, y: int)

  datatype Message = Message(id: string, userId: string, username: string, message: string, timestamp: int)

  /** The editor state the listeners update. */
  datatype View = View(content: string, activeUsers: seq<string>, cursors: seq<Cursor>, chatMessages: seq<Message>)

  /** A payload as the client reads it. Only the chat listener looks for a `roomId` field. */
  datatype Incoming =
    | DocumentUpdated(documentId: string, content: string, userId: string)
    | UserJoined(username: string)
    | UserLeft(username: string)
    | CursorUpdated(userId: string, username: string, x: int, y: int)
    | Chat(roomId: Option<string>, userId: string, username: string, message: string, timestamp: int)
    | Unheard

  /** What the client finds in a server event. The chat payload the server builds
      (server/index.js:103-108) has no `roomId` field, so `data.roomId` is undefined;
      the editor has no listener for room-participants. */
  function Decode(e: Realtime.Event): Incoming {
    match e
    case DocumentUpdated(d, c, u, _) => DocumentUpdated(d, c, u)
    case UserJoined(_, name) => UserJoined(name)
    case UserLeft(_, name) => UserLeft(name)
    case CursorUpdated(u, name, p, _) => CursorUpdated(u, name, p.x, p.y)
    case ChatMessage(u, name, m, t) => Chat(None, u, name, m, t)
    case RoomParticipants(_) => Unheard
  }

  /** 'document-updated' (CollaborativeEditor.tsx:57-61). */
  function OnDocumentUpdated(content: string, documentId: string, me: string, d: string, c: string, u: string): (r: string)
    ensures r == c || r == content
    ensures r != content ==> d == documentId && u != me
    ensures d == documentId && u != me ==> r == c
  {
    if d == documentId && u != me then c else content
  }

  /** 'user-joined' (CollaborativeEditor.tsx:64-66): appended even when already listed. */
  function OnUserJoined(users: seq<string>, name: string): (r: seq<string>)
    ensures |r| == |users| + 1 && r[..|users|] == users && r[|users|] == name
    ensures multiset(r)[name] == multiset(users)[name] + 1
  {
    users + [name]
  }

  /** 'user-left' (CollaborativeEditor.tsx:68-72): every occurrence of the name goes. */
  function OnUserLeft(users: seq<string>, name: string): (r: seq<string>)
    ensures name !in r
    ensures forall n :: n in r <==> n in users && n != name
    ensures |r| == |users| - multiset(users)[name]
  {
    RemoveAll(users, name)
  }

  /** 'cursor-updated' (CollaborativeEditor.tsx:75-90). */
  function OnCursorUpdated(cursors: seq<Cursor>, me: string, c: Cursor): (r: seq<Cursor>)
  {
    if c.userId != me then Filter(cursors, (k: Cursor) => k.userId != c.userId) + [c] else cursors
  }

  /** A cursor update from another user leaves exactly one cursor for that user, placed
      last, and keeps every other user's cursors; one's own update changes nothing. */
  lemma CursorUpdatedPlacesOne(cursors: seq<Cursor>, me: string, c: Cursor)
    ensures c.userId == me ==> OnCursorUpdated(cursors, me, c) == cursors
    ensures c.userId != me ==>
              var r := OnCursorUpdated(cursors, me, c);
              && r[|r| - 1] == c
              && (forall i :: 0 <= i < |r| - 1 ==> r[i].userId != c.userId)
              && (forall k: Cursor :: k.userId != c.userId ==> (k in r <==> k in cursors))
  {
    if c.userId != me {
      var kept := Filter(cursors, (k: Cursor) => k.userId != c.userId);
      var r := kept + [c];
      forall i | 0 <= i < |r| - 1 ensures r[i].userId != c.userId {
        assert r[i] in kept;
      }
    }
  }

  /** 'chat-message' (CollaborativeEditor.tsx:93-105): appended only when the payload's
      `roomId` is this document's id; `id` stands for `Date.now().toString()`. */
  function OnChat(messages: seq<Message>, documentId: string, id: string, roomId: Option<string>,
                  userId: string, username: string, message: string, timestamp: int): (r: seq<Message>)
    ensures roomId != Some(documentId) ==> r == messages
    ensures roomId == Some(documentId) ==> r == messages + [Message(id, userId, username, message, timestamp)]
  {
    if roomId == Some(documentId) then messages + [Message(id, userId, username, message, timestamp)]
    else messages
  }

  /** One delivered event applied to the editor state. */
  function Receive(v: View, e: Realtime.Event, documentId: string, me: string, id: string): View {
    match Decode(e)
    case DocumentUpdated(d, c, u) => v.(content := OnDocumentUpdated(v.content, documentId, me, d, c, u))
    case UserJoined(name) => v.(activeUsers := OnUserJoined(v.activeUsers, name))
    case UserLeft(name) => v.(activeUsers := OnUserLeft(v.activeUsers, name))
    case CursorUpdated(u, name, x, y) => v.(cursors := OnCursorUpdated(v.cursors, me, Cursor(u, name, x, y)))
    case Chat(roomId, u, name, m, t) => v.(chatMessages := OnChat(v.chatMessages, documentId, id, roomId, u, name, m, t))
    case Unheard => v
  }

  /** A sequence of delivered events applied in order. */
  function ReceiveAll(v: View, events: seq<Realtime.Event>, documentId: string, me: string, id: string): View
    decreases |events|
  {
    if events == [] then v else ReceiveAll(Receive(v, events[0], documentId, me, id), events[1..], documentId, me, id)
  }

  lemma {:induction false} NoEventAppendsChat(v: View, events: seq<Realtime.Event>, documentId: string, me: string, id: string)
    ensures ReceiveAll(v, events, documentId, me, id).chatMessages == v.chatMessages
    decreases |events|
  {
    if events != [] {
      NoEventAppendsChat(Receive(v, events[0], documentId, me, id), events[1..], documentId, me, id);
    }
  }

  /** Across any run of the server's handlers, the events a socket receives never add a
      message to its editor's chat list: the server's chat payload carries no `roomId`, and
      the editor accepts only messages whose `roomId` is its document id. */
  lemma RelayedChatNeverAppended(r: Realtime.Registry, reqs: seq<Realtime.Request>, socket: Realtime.SocketId,
                                 v: View, documentId: string, me: string, id: string)
    ensures var delivered := Realtime.Received(Realtime.Run(r, reqs).emits, socket);
      ReceiveAll(v, delivered, documentId, me, id).chatMessages == v.chatMessages
  {
    NoEventAppendsChat(v, Realtime.Received(Realtime.Run(r, reqs).emits, socket), documentId, me, id);
  }

  // ---------------------------------------------------------------------------------------
  // The send guard and the edit debounce

  datatype SendResult = SendResult(sent: Option<string>, input: string)

  /** `handleSendMessage` (CollaborativeEditor.tsx:146-152): the trimmed text is sent and the
      input cleared only when it is non-empty and a socket exists. */
  function SendChat(input: string, connected: bool): (r: SendResult)
    ensures r.sent.Some? <==> connected && !BlankBetween(input, 0, |input|)
    ensures r.sent.Some? ==> r.sent.value == Trim(input) && r.input == ""
    ensures r.sent.Some? ==> !IsSpace(r.sent.value[0]) && !IsSpace(r.sent.value[|r.sent.value| - 1])
    ensures r.sent.None? ==> r.input == input
  {
    var t := Trim(input);
    if t != [] && connected then SendResult(Some(t), "") else SendResult(None, input)
  }

  /** The debounce delay of outgoing edits, in milliseconds. */
  const DebounceMs := 500

  datatype Timer = Timer(content: string, due: int)

  /** The pending timer (`typingTimeoutRef.current`) and the contents sent so far through
      `updateDocument`. */
  datatype Debounce = Debounce(pending: Option<Timer>, sent: seq<string>)

  /** Time passes up to `now`: a pending timer that is due fires and sends its content. */
  function Advance(s: Debounce, now: int): (r: Debounce)
    ensures s.pending.Some? && s.pending.value.due <= now ==> r == Debounce(None, s.sent + [s.pending.value.content])
    ensures !(s.pending.Some? && s.pending.value.due <= now) ==> r == s
  {
    if s.pending.Some? && s.pending.value.due <= now then Debounce(None, s.sent + [s.pending.value.content]) else s
  }

  datatype Input = Edit(content: string, at: int) | Wait(until: int)

  /** `handleContentChange` at time `at` clears the pending timer and sets a new one; a wait
      only lets time pass. */
  function Step(s: Debounce, i: Input): Debounce {
    match i
    case Edit(c, at) => Advance(s, at).(pending := Some(Timer(c, at + DebounceMs)))
    case Wait(until) => Advance(s, until)
  }

  function Feed(s: Debounce, inputs: seq<Input>): Debounce
    decreases |inputs|
  {
    if inputs == [] then s else Feed(Step(s, inputs[0]), inputs[1..])
  }

  /** A burst: edits each arriving before the previous one's timer is due. */
  predicate Burst(edits: seq<Input>) {
    && (forall i :: 0 <= i < |edits| ==> edits[i].Edit?)
    && (forall i :: 0 < i < |edits| ==> edits[i].at < edits[i - 1].at + DebounceMs)
  }

  lemma {:induction false} BurstKeepsLast(s: Debounce, edits: seq<Input>)
    requires |edits| >= 1 && Burst(edits)
    requires s.pending.None? || s.pending.value.due > edits[0].at
    ensures Feed(s, edits) == Debounce(Some(Timer(edits[|edits| - 1].content, edits[|edits| - 1].at + DebounceMs)), s.sent)
    decreases |edits|
  {
    var next := Step(s, edits[0]);
    if |edits| > 1 {
      assert Burst(edits[1..]) by {
        forall i | 0 < i < |edits[1..]| ensures edits[1..][i].at < edits[1..][i - 1].at + DebounceMs {
          assert edits[1..][i] == edits[i + 1] && edits[1..][i - 1] == edits[i];
        }
      }
      BurstKeepsLast(next, edits[1..]);
    }
  }

  /** After a burst of edits and a wait past the last one's delay, exactly one update has
      gone out, carrying the latest content. */
  lemma BurstSendsOnlyLatest(s: Debounce, edits: seq<Input>, until: int)
    requires |edits| >= 1 && Burst(edits)
    requires s.pending.None?
    requires until >= edits[|edits| - 1].at + DebounceMs
    ensures Feed(s, edits + [Wait(until)]) == Debounce(None, s.sent + [edits[|edits| - 1].content])
  {
    BurstKeepsLast(s, edits);
    FeedConcat(s, edits, [Wait(until)]);
  }

  lemma {:induction false} FeedConcat(s: Debounce, a: seq<Input>, b: seq<Input>)
    ensures Feed(s, a + b) == Feed(Feed(s, a), b)
    decreases |a|
  {
    if a == [] {
      assert a + b == b;
    } else {
      assert (a + b)[1..] == a[1..] + b;
      FeedConcat(Step(s, a[0]), a[1..], b);
    }
  }

  /** The debounce as the component keeps it: a mutable timer slot and the updates emitted. */
  class Debouncer {
    var pending: Option<Timer>
    var sent: seq<string>

    function State(): Debounce
      reads this
    {
      Debounce(pending, sent)
    }

    constructor ()
      ensures State() == Debounce(None, [])
    {
      pending := None;
      sent := [];
    }

    /** Fires the timer if it is due by `now`: `updateDocument(documentId, documentId, content)`. */
    method Elapse(now: int)
      modifies this
      ensures State() == Advance(old(State()), now)
    {
      if pending.Some? && pending.value.due <= now {
        sent := sent + [pending.value.content];
        pending := None;
      }
    }

    /** `handleContentChange` (CollaborativeEditor.tsx:119-131). */
    method ContentChange(content: string, now: int)
      modifies this
      ensures State() == Step(old(State()), Edit(content, now))
    {
      Elapse(now);
      pending := None;                                  // clearTimeout
      pending := Some(Timer(content, now + DebounceMs)); // setTimeout(..., 500)
    }
  }
}
