/** The session store of App.tsx: the ordered list of chat sessions (newest
    first), the active session id, the handlers that change them, and two
    views derived from them (the active tool and the header title). */
module App {
  import opened Types
  import opened Lists

  const DefaultTitle := "New Chat"
  const AppTitle := "OneVerse AI"
  const FallbackTitle := "AI Chat"

  /** A freshly created session: default title, no messages. */
  function NewSession(id: string, now: int): ChatSession
  {
    ChatSession(id, DefaultTitle, [], now)
  }

  /** Session `i` is the first whose id is strictly equal to `activeId`. */
  ghost predicate FirstWithId(sessions: seq<ChatSession>, activeId: Option<string>, i: int)
  {
    && 0 <= i < |sessions|
    && Some(sessions[i].id) == activeId
    && forall j :: 0 <= j < i ==> Some(sessions[j].id) != activeId
  }

  /** `sessions.find(s => s.id === activeId)`; a `null` id finds nothing. */
  function FindSession(sessions: seq<ChatSession>, activeId: Option<string>): (r: Option<ChatSession>)
    ensures r.None? <==> forall i :: 0 <= i < |sessions| ==> Some(sessions[i].id) != activeId
    ensures r.Some? ==> r.value in sessions && Some(r.value.id) == activeId
  {
    if sessions == [] then None
    else if Some(sessions[0].id) == activeId then Some(sessions[0])
    else FindSession(sessions[1..], activeId)
  }

  /** The search returns the first session carrying the id. */
  lemma {:induction false} FindSessionFirst(sessions: seq<ChatSession>, activeId: Option<string>, i: int)
    requires FirstWithId(sessions, activeId, i)
    ensures FindSession(sessions, activeId) == Some(sessions[i])
  {
    if i > 0 {
      assert Some(sessions[0].id) != activeId;
      FindSessionFirst(sessions[1..], activeId, i - 1);
    }
  }

  /** Message `i` is the most recent one sent by the user. */
  ghost predicate LastUserAt(ms: seq<Message>, i: int)
  {
    && 0 <= i < |ms|
    && ms[i].sender == User
    && forall j :: i < j < |ms| ==> ms[j].sender != User
  }

  /** `[...ms].reverse().find(m => m.sender === 'user')`. */
  function LastUserMessage(ms: seq<Message>): (r: Option<Message>)
    ensures r.None? <==> forall i :: 0 <= i < |ms| ==> ms[i].sender != User
    ensures r.Some? ==> r.value in ms && r.value.sender == User
  {
    if ms == [] then None
    else if ms[|ms| - 1].sender == User then Some(ms[|ms| - 1])
    else LastUserMessage(ms[..|ms| - 1])
  }

  /** The reverse search returns the most recent user message. */
  lemma {:induction false} LastUserMessageAt(ms: seq<Message>, i: int)
    requires LastUserAt(ms, i)
    ensures LastUserMessage(ms) == Some(ms[i])
  {
    if i < |ms| - 1 {
      assert ms[|ms| - 1].sender != User;
      LastUserMessageAt(ms[..|ms| - 1], i);
    }
  }

  /** `activeSession?.messages[last]?.tool ?? Tool.Chat`. */
  function ActiveTool(sessions: seq<ChatSession>, activeId: Option<string>): Tool
  {
    match FindSession(sessions, activeId)
    case None => Chat
    case Some(s) =>
      if s.messages == [] then Chat
      else match s.messages[|s.messages| - 1].tool
        case None => Chat
        case Some(t) => t
  }

  /** The active tool is the tool of the last message of the first session with
      the active id, and Chat when there is no such session, no message, or no tool. */
  lemma ActiveToolSpec(sessions: seq<ChatSession>, activeId: Option<string>, i: int)
    requires FirstWithId(sessions, activeId, i)
    ensures var ms := sessions[i].messages;
      ActiveTool(sessions, activeId)
        == if ms != [] && ms[|ms| - 1].tool.Some? then ms[|ms| - 1].tool.value else Chat
  {
    FindSessionFirst(sessions, activeId, i);
  }

  lemma ActiveToolNoSession(sessions: seq<ChatSession>, activeId: Option<string>)
    requires forall i :: 0 <= i < |sessions| ==> Some(sessions[i].id) != activeId
    ensures ActiveTool(sessions, activeId) == Chat
  {
  }

  /** `getHeaderTitle()`. */
  function HeaderTitle(sessions: seq<ChatSession>, activeId: Option<string>): string
  {
    match FindSession(sessions, activeId)
    case None => AppTitle
    case Some(s) =>
      match LastUserMessage(s.messages)
      case Some(m) => (if m.tool.Some? then ToolName(m.tool.value) else FallbackTitle)
      case None => FallbackTitle
  }

  lemma HeaderTitleNoSession(sessions: seq<ChatSession>, activeId: Option<string>)
    requires forall i :: 0 <= i < |sessions| ==> Some(sessions[i].id) != activeId
    ensures HeaderTitle(sessions, activeId) == AppTitle
  {
  }

  /** With an active session, the title names the tool of its most recent user message. */
  lemma HeaderTitleLastUser(sessions: seq<ChatSession>, activeId: Option<string>, i: int, j: int)
    requires FirstWithId(sessions, activeId, i) && LastUserAt(sessions[i].messages, j)
    ensures var t := sessions[i].messages[j].tool;
      HeaderTitle(sessions, activeId) == if t.Some? then ToolName(t.value) else FallbackTitle
  {
    FindSessionFirst(sessions, activeId, i);
    LastUserMessageAt(sessions[i].messages, j);
  }

  /** With an active session but no user message, the title is the fallback. */
  lemma HeaderTitleNoUser(sessions: seq<ChatSession>, activeId: Option<string>, i: int)
    requires FirstWithId(sessions, activeId, i)
    requires forall j :: 0 <= j < |sessions[i].messages| ==> sessions[i].messages[j].sender != User
    ensures HeaderTitle(sessions, activeId) == FallbackTitle
  {
    FindSessionFirst(sessions, activeId, i);
  }

  /** `sessions.filter(s => s.id !== id)`. */
  function RemoveSession(sessions: seq<ChatSession>, id: string): seq<ChatSession>
  {
    Filter(sessions, (s: ChatSession) => s.id != id)
  }

  /** Delete removes exactly the sessions with the id. */
  lemma RemoveSessionMembership(sessions: seq<ChatSession>, id: string)
    ensures forall s :: s in RemoveSession(sessions, id) <==> s in sessions && s.id != id
  {
    forall s ensures s in RemoveSession(sessions, id) <==> s in sessions && s.id != id {
      FilterMembership(sessions, (s: ChatSession) => s.id != id, s);
    }
  }

  /** Delete keeps the other sessions in their order: it works piece by piece. */
  lemma RemoveSessionConcat(a: seq<ChatSession>, b: seq<ChatSession>, id: string)
    ensures RemoveSession(a + b, id) == RemoveSession(a, id) + RemoveSession(b, id)
  {
    FilterConcat(a, b, (s: ChatSession) => s.id != id);
  }

  /** Deleting an id no session carries changes nothing. */
  lemma RemoveSessionAbsent(sessions: seq<ChatSession>, id: string)
    requires forall i :: 0 <= i < |sessions| ==> sessions[i].id != id
    ensures RemoveSession(sessions, id) == sessions
  {
    FilterKeepsAll(sessions, (s: ChatSession) => s.id != id);
  }

  /** `sessions.map(s => s.id === id ? { ...s, title } : s)`: only the titles of
      the sessions with the id change; ids, messages, timestamps and order stay. */
  function RenameSession(sessions: seq<ChatSession>, id: string, title: string): (r: seq<ChatSession>)
    ensures |r| == |sessions|
    ensures forall i :: 0 <= i < |sessions| ==>
      && r[i].id == sessions[i].id
      && r[i].messages == sessions[i].messages
      && r[i].createdAt == sessions[i].createdAt
      && r[i].title == (if sessions[i].id == id then title else sessions[i].title)
    ensures (forall i :: 0 <= i < |sessions| ==> sessions[i].id != id) ==> r == sessions
  {
    MapWhere(sessions, (s: ChatSession) => s.id == id, (s: ChatSession) => s.(title := title))
  }

  /** The session list after `updateMessages(msgs)`: nothing without a (truthy) active id,
      otherwise the sessions with that id get `msgs` as their log and nothing else changes. */
  function ReplaceMessages(sessions: seq<ChatSession>, activeId: Option<string>, msgs: seq<Message>): (r: seq<ChatSession>)
    ensures !Truthy(activeId) ==> r == sessions
    ensures |r| == |sessions|
    ensures forall i :: 0 <= i < |sessions| ==>
      r[i] == if Truthy(activeId) && Some(sessions[i].id) == activeId then sessions[i].(messages := msgs) else sessions[i]
  {
    if !Truthy(activeId) then sessions
    else MapWhere(sessions, (s: ChatSession) => Some(s.id) == activeId, (s: ChatSession) => s.(messages := msgs))
  }

  /** Replacing the log twice is replacing it once with the second log. */
  lemma ReplaceMessagesLastWins(sessions: seq<ChatSession>, activeId: Option<string>, m1: seq<Message>, m2: seq<Message>)
    ensures ReplaceMessages(ReplaceMessages(sessions, activeId, m1), activeId, m2)
         == ReplaceMessages(sessions, activeId, m2)
  {
  }

  /** After replacing the log, the active session is found again, carrying the new log. */
  lemma {:induction false} FindAfterReplace(sessions: seq<ChatSession>, activeId: Option<string>, msgs: seq<Message>)
    requires Truthy(activeId) && FindSession(sessions, activeId).Some?
    ensures FindSession(ReplaceMessages(sessions, activeId, msgs), activeId)
         == Some(FindSession(sessions, activeId).value.(messages := msgs))
  {
    var r := ReplaceMessages(sessions, activeId, msgs);
    if Some(sessions[0].id) != activeId {
      assert r[1..] == ReplaceMessages(sessions[1..], activeId, msgs);
      FindAfterReplace(sessions[1..], activeId, msgs);
    }
  }

  /** The state of the App component. */
  class AppState {
    var sessions: seq<ChatSession>
    var activeSessionId: Option<string>

    /** Sessions come back from storage; no session is active yet. */
    constructor (stored: seq<ChatSession>)
      ensures sessions == stored && activeSessionId == None
    {
      sessions := stored;
      activeSessionId := None;
    }

    /** `handleNewSession`: prepend a new empty session and make it active. */
    method HandleNewSession(id: string, now: int)
      modifies this
      ensures sessions == [NewSession(id, now)] + old(sessions)
      ensures activeSessionId == Some(id)
    {
      sessions := [NewSession(id, now)] + sessions;
      activeSessionId := Some(id);
    }

    /** `handleDeleteSession`: drop the sessions with the id; if it was the active
        one, the first remaining session (or none) becomes active. */
    method HandleDeleteSession(id: string)
      modifies this
      ensures sessions == RemoveSession(old(sessions), id)
      ensures old(activeSessionId) == Some(id) ==>
        activeSessionId == if sessions == [] then None else Some(sessions[0].id)
      ensures old(activeSessionId) != Some(id) ==> activeSessionId == old(activeSessionId)
    {
      var updated := RemoveSession(sessions, id);
      sessions := updated;
      if activeSessionId == Some(id) {
        activeSessionId := if |updated| > 0 then Some(updated[0].id) else None;
      }
    }

    /** `handleRenameSession`. */
    method HandleRenameSession(id: string, title: string)
      modifies this
      ensures sessions == RenameSession(old(sessions), id, title)
      ensures activeSessionId == old(activeSessionId)
    {
      sessions := RenameSession(sessions, id, title);
    }

    /** `updateMessages`: replace the active session's log wholesale. */
    method UpdateMessages(msgs: seq<Message>)
      modifies this
      ensures sessions == ReplaceMessages(old(sessions), old(activeSessionId), msgs)
      ensures activeSessionId == old(activeSessionId)
    {
      if !Truthy(activeSessionId) {
        return;
      }
      sessions := ReplaceMessages(sessions, activeSessionId, msgs);
    }

    /** `onSessionSelect`: the sidebar makes a session active. */
    method SelectSession(id: string)
      modifies this
      ensures sessions == old(sessions) && activeSessionId == Some(id)
    {
      activeSessionId := Some(id);
    }

    /** The selection effect: with sessions but no active id the first becomes
        active; with no sessions a new one is created. Afterwards there is
        always at least one session. */
    method SelectionEffect(freshId: string, now: int)
      modifies this
      ensures old(sessions) != [] && !Truthy(old(activeSessionId)) ==>
        sessions == old(sessions) && activeSessionId == Some(sessions[0].id)
      ensures old(sessions) != [] && Truthy(old(activeSessionId)) ==>
        sessions == old(sessions) && activeSessionId == old(activeSessionId)
      ensures old(sessions) == [] ==>
        sessions == [NewSession(freshId, now)] && activeSessionId == Some(freshId)
      ensures sessions != []
    {
      if |sessions| > 0 && !Truthy(activeSessionId) {
        activeSessionId := Some(sessions[0].id);
      } else if |sessions| == 0 {
        HandleNewSession(freshId, now);
      }
    }
  }
}
