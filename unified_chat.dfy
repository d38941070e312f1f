/** The generation lifecycle of pages/UnifiedChat.tsx: a submit appends the
    user's message and an empty AI placeholder to the active session, asks the
    gateway according to the active tool, folds the answer into the placeholder,
    and always ends idle with the stop flag cleared. */
module UnifiedChat {
  import opened Types
  import opened Text
  import opened Gateway
  import opened App

  /** The placeholder text when the image operation yields nothing usable. */
  const ImageFailureText := "Failed to generate image."

  /** The send guard: something other than white space was typed, and the tool is a generative one. */
  predicate CanSend(input: string, tool: Tool)
  {
    Trim(input) != "" && IsGenerative(tool)
  }

  /** A submit goes through exactly when the input holds a non-white-space
      character and the tool is neither Planner nor Notes. */
  lemma CanSendIff(input: string, tool: Tool)
    ensures CanSend(input, tool)
      <==> (exists i :: 0 <= i < |input| && !IsSpace(input[i])) && tool != Planner && tool != Notes
  {
    TrimEmptyIff(input);
  }

  /** The echoed user message: the untrimmed input, tagged with the tool. */
  function UserMessage(id: string, input: string, tool: Tool): Message
  {
    Message(id, User, input, Some(tool), None, None)
  }

  /** The AI placeholder: empty text, tagged with the tool. */
  function Placeholder(id: string, tool: Tool): Message
  {
    Message(id, Ai, "", Some(tool), None, None)
  }

  /** The gateway call a submit makes for each tool. Chat sends the prior
      messages as history (`currentMessages.slice(0, -1)`) and the new text. */
  function Request(tool: Tool, prior: seq<Message>, input: string, tone: Tone, language: string, ratio: AspectRatio): Call
  {
    match tool
    case Chat => ChatStream(ToHistory(prior), input)
    case Writer => RewriteWithTone(input, tone)
    case Code => GenerateCode(input, language)
    case Image => GenerateImage(input, AspectRatioValue(ratio))
    case _ => NoCall
  }

  /** The placeholder once the reply has been folded into it. */
  function Completed(placeholder: Message, tool: Tool, language: string, reply: Reply): Message
  {
    if reply.throws then placeholder.(text := ErrorText)
    else match tool
      case Chat => placeholder.(text := StreamText(reply.fragments, reply.stopAt))
      case Writer => placeholder.(text := reply.text)
      case Code => placeholder.(code := Some(CodeBlock(language, reply.text)))
      case Image => placeholder.(imageUrl := reply.image, text := if Truthy(reply.image) then "" else ImageFailureText)
      case _ => placeholder
  }

  /** What each path leaves in the AI message: its id, sender and tool are those of
      the placeholder; an exception leaves the fixed failure text; a chat leaves the
      folded chunks; a writer leaves the result text; a coder leaves the code and an
      empty text; an image leaves the url and an empty text, or the failure text. */
  lemma CompletedSpec(aiId: string, tool: Tool, language: string, reply: Reply)
    requires IsGenerative(tool)
    ensures var m := Completed(Placeholder(aiId, tool), tool, language, reply);
      && m.id == aiId && m.sender == Ai && m.tool == Some(tool)
      && !(m.imageUrl.Some? && m.code.Some?)
      && (reply.throws ==> m.text == ErrorText && m.imageUrl == None && m.code == None)
      && (!reply.throws && tool == Chat ==>
            m.text == Concat(reply.fragments[..FoldedCount(reply.fragments, reply.stopAt)])
            && m.imageUrl == None && m.code == None)
      && (!reply.throws && tool == Writer ==> m.text == reply.text && m.imageUrl == None && m.code == None)
      && (!reply.throws && tool == Code ==>
            m.text == "" && m.code == Some(CodeBlock(language, reply.text)) && m.imageUrl == None)
      && (!reply.throws && tool == Image ==>
            && m.imageUrl == reply.image && m.code == None
            && m.text == (if Truthy(reply.image) then "" else ImageFailureText))
  {
  }

  /** The active session's log after a submit. */
  function SendLog(prior: seq<Message>, userId: string, aiId: string, input: string,
                   tool: Tool, language: string, reply: Reply): seq<Message>
  {
    prior + [UserMessage(userId, input, tool), Completed(Placeholder(aiId, tool), tool, language, reply)]
  }

  /** On every path the log is the prior messages, unchanged, then exactly two more:
      the user's message and the AI message. */
  lemma SendLogShape(prior: seq<Message>, userId: string, aiId: string, input: string,
                     tool: Tool, language: string, reply: Reply)
    ensures var log := SendLog(prior, userId, aiId, input, tool, language, reply);
      && |log| == |prior| + 2
      && log[..|prior|] == prior
      && log[|prior|] == Message(userId, User, input, Some(tool), None, None)
      && log[|prior| + 1].id == aiId && log[|prior| + 1].sender == Ai
      && log[|prior| + 1].tool == Some(tool)
  {
  }

  /** The history sent with a chat turn is the prior log, in order, with the role mapping. */
  lemma ChatRequestHistory(prior: seq<Message>, input: string, tone: Tone, language: string, ratio: AspectRatio)
    ensures var call := Request(Chat, prior, input, tone, language, ratio);
      && call.ChatStream? && call.message == input
      && |call.history| == |prior|
      && forall i :: 0 <= i < |prior| ==>
           call.history[i].text == prior[i].text
           && call.history[i].role == (if prior[i].sender == User then UserRole else ModelRole)
  {
  }

  /** The state of the UnifiedChat component. */
  class UnifiedChatState {
    var input: string
    var isLoading: bool
    var activeTool: Tool
    var tone: Tone
    var language: string
    var aspectRatio: AspectRatio
    var stopStream: bool

    constructor ()
      ensures input == "" && !isLoading && activeTool == Chat && tone == Casual
      ensures language == "javascript" && aspectRatio == Square && !stopStream
    {
      input := "";
      isLoading := false;
      activeTool := Chat;
      tone := Casual;
      language := "javascript";
      aspectRatio := Square;
      stopStream := false;
    }

    /** The input box changes. */
    method SetInput(text: string)
      modifies this`input
      ensures input == text
    {
      input := text;
    }

    /** The tool selector picks a tool. */
    method SelectTool(tool: Tool)
      modifies this`activeTool
      ensures activeTool == tool
    {
      activeTool := tool;
    }

    /** `handleStop`: raise the stop flag. */
    method HandleStop()
      modifies this`stopStream
      ensures stopStream
    {
      stopStream := true;
    }

    /** The `for await` loop of a chat turn: before each chunk the stop flag is
        checked (a Stop press lands before chunk `reply.stopAt`); otherwise the
        chunk is appended to the running text and the log is written again with
        the placeholder carrying that text. */
    method FoldStream(app: AppState, ghost sessions0: seq<ChatSession>, current: seq<Message>, ai: Message, reply: Reply)
      requires app.sessions == ReplaceMessages(sessions0, app.activeSessionId, current + [ai])
      requires !stopStream && ai.text == ""
      modifies this`stopStream, app
      ensures app.activeSessionId == old(app.activeSessionId)
      ensures app.sessions == ReplaceMessages(sessions0, app.activeSessionId,
        current + [ai.(text := StreamText(reply.fragments, reply.stopAt))])
      ensures stopStream <==> reply.stopAt < |reply.fragments|
    {
      var full := "";
      var i := 0;
      assert ai.(text := full) == ai;
      while i < |reply.fragments|
        invariant i <= |reply.fragments| && i <= reply.stopAt
        invariant full == Concat(reply.fragments[..i])
        invariant !stopStream
        invariant app.activeSessionId == old(app.activeSessionId)
        invariant app.sessions == ReplaceMessages(sessions0, app.activeSessionId, current + [ai.(text := full)])
      {
        if i == reply.stopAt {
          HandleStop();
        }
        if stopStream {
          break;
        }
        ghost var before := current + [ai.(text := full)];
        full := full + reply.fragments[i];
        assert reply.fragments[..i + 1][..i] == reply.fragments[..i];
        app.UpdateMessages(current + [ai.(text := full)]);
        ReplaceMessagesLastWins(sessions0, app.activeSessionId, before, current + [ai.(text := full)]);
        i := i + 1;
      }
      assert i == FoldedCount(reply.fragments, reply.stopAt);
    }

    /** The `try { switch … } catch` part of `handleSend`: the gateway is asked
        according to the tool and the placeholder `ai` is patched with the answer;
        an exception writes the failure text instead. */
    method Complete(app: AppState, ghost sessions0: seq<ChatSession>, current: seq<Message>,
                    ai: Message, tool: Tool, reply: Reply)
      requires app.sessions == ReplaceMessages(sessions0, app.activeSessionId, current + [ai])
      requires !stopStream && ai.text == "" && ai.imageUrl == None && ai.code == None
      modifies this`stopStream, app
      ensures app.activeSessionId == old(app.activeSessionId)
      ensures app.sessions == ReplaceMessages(sessions0, app.activeSessionId,
        current + [Completed(ai, tool, language, reply)])
      ensures stopStream <==> !reply.throws && tool == Chat && reply.stopAt < |reply.fragments|
    {
      ghost var active := app.activeSessionId;
      if reply.throws {
        app.UpdateMessages(current + [ai.(text := ErrorText)]);
        ReplaceMessagesLastWins(sessions0, active, current + [ai], current + [ai.(text := ErrorText)]);
        return;
      }
      var patched := ai;
      match tool {
        case Chat =>
          FoldStream(app, sessions0, current, ai, reply);
          return;
        case Writer =>
          patched := ai.(text := reply.text);
        case Code =>
          patched := patched.(code := Some(CodeBlock(language, reply.text)));
        case Image =>
          var url := reply.image;
          patched := patched.(imageUrl := url);
          patched := patched.(text := if Truthy(url) then "" else ImageFailureText);
        case _ =>
          return;
      }
      app.UpdateMessages(current + [patched]);
      ReplaceMessagesLastWins(sessions0, active, current + [ai], current + [patched]);
    }

    /** The synchronous start of `handleSend`: clear the stop flag, append the
        user's message, clear the input, go busy, then append the placeholder. */
    method Begin(app: AppState, prior: seq<Message>, userId: string, aiId: string) returns (current: seq<Message>, ai: Message)
      modifies this`stopStream, this`input, this`isLoading, app
      ensures current == prior + [UserMessage(userId, old(input), activeTool)]
      ensures ai == Placeholder(aiId, activeTool)
      ensures app.activeSessionId == old(app.activeSessionId)
      ensures app.sessions == ReplaceMessages(old(app.sessions), app.activeSessionId, current + [ai])
      ensures !stopStream && input == "" && isLoading
    {
      ghost var sessions0 := app.sessions;
      stopStream := false;
      var user := Message(userId, User, input, Some(activeTool), None, None);
      current := prior + [user];
      app.UpdateMessages(current);
      input := "";
      isLoading := true;
      ai := Message(aiId, Ai, "", Some(activeTool), None, None);
      app.UpdateMessages(current + [ai]);
      ReplaceMessagesLastWins(sessions0, app.activeSessionId, current, current + [ai]);
    }

    /** The accepted path of `handleSend`: `Begin`, the gateway call, `Complete`, and
        the `finally` that clears the busy and stop flags. */
    method Send(app: AppState, prior: seq<Message>, reply: Reply, userId: string, aiId: string) returns (call: Call)
      modifies this`input, this`isLoading, this`stopStream, app
      ensures call == Request(activeTool, prior, old(input), tone, language, aspectRatio)
      ensures app.sessions == ReplaceMessages(old(app.sessions), old(app.activeSessionId),
        SendLog(prior, userId, aiId, old(input), activeTool, language, reply))
      ensures app.activeSessionId == old(app.activeSessionId)
      ensures input == "" && !isLoading && !stopStream
    {
      ghost var sessions0 := app.sessions;
      var text := input;
      var current, ai := Begin(app, prior, userId, aiId);
      assert current[..|current| - 1] == prior;
      call := Request(activeTool, prior, text, tone, language, aspectRatio);
      Complete(app, sessions0, current, ai, activeTool, reply);
      assert current + [Completed(ai, activeTool, language, reply)]
        == SendLog(prior, userId, aiId, text, activeTool, language, reply);
      isLoading := false;
      stopStream := false;
    }

    /** `handleSend`, run to completion against the gateway's `reply`. The component
        is mounted only for an active session; `userId` and `aiId` are the two ids
        taken from the clock. Returns the gateway call that was made. */
    method HandleSend(app: AppState, reply: Reply, userId: string, aiId: string) returns (call: Call)
      requires FindSession(app.sessions, app.activeSessionId).Some?
      modifies this`input, this`isLoading, this`stopStream, app
      ensures var prior := old(FindSession(app.sessions, app.activeSessionId)).value.messages;
        && (!CanSend(old(input), old(activeTool)) ==>
              && call == NoCall && app.sessions == old(app.sessions)
              && input == old(input) && isLoading == old(isLoading) && stopStream == old(stopStream))
        && (CanSend(old(input), old(activeTool)) ==>
              && call == Request(old(activeTool), prior, old(input), old(tone), old(language), old(aspectRatio))
              && app.sessions == ReplaceMessages(old(app.sessions), old(app.activeSessionId),
                   SendLog(prior, userId, aiId, old(input), old(activeTool), old(language), reply))
              && input == "" && !isLoading && !stopStream)
      ensures app.activeSessionId == old(app.activeSessionId)
      ensures activeTool == old(activeTool) && tone == old(tone)
      ensures language == old(language) && aspectRatio == old(aspectRatio)
    {
      var session := FindSession(app.sessions, app.activeSessionId).value;
      if !CanSend(input, activeTool) {
        return NoCall;
      }
      call := Send(app, session.messages, reply, userId, aiId);
    }
  }
}
