/** The standalone chat page, pages/AIChat.tsx: one message log, a send that
    streams the reply into a placeholder addressed by its id, a stop flag and
    a guarded Clear Chat. */
module AIChat {
  import opened Types
  import opened Lists
  import opened Text
  import opened Gateway

  /** `(textToSend || input).trim()`: an absent or empty argument falls back to the input. */
  function MessageText(textToSend: Option<string>, input: string): string
  {
    Trim(if Truthy(textToSend) then textToSend.value else input)
  }

  /** The text sent is the trimmed argument when one was given, else the trimmed input;
      it is empty exactly when that source is white space only. */
  lemma MessageTextSpec(textToSend: Option<string>, input: string)
    ensures var source := if textToSend.Some? && textToSend.value != "" then textToSend.value else input;
      && MessageText(textToSend, input) == Trim(source)
      && (MessageText(textToSend, input) == "" <==> AllSpace(source))
  {
    TrimEmptyIff(if Truthy(textToSend) then textToSend.value else input);
  }

  /** `prev.map(m => m.id === id ? { ...m, text } : m)`. */
  function SetTextWhere(ms: seq<Message>, id: string, text: string): seq<Message>
  {
    MapWhere(ms, (m: Message) => m.id == id, (m: Message) => m.(text := text))
  }

  /** Only the messages carrying `id` change, and in them only the text. */
  lemma SetTextWhereSpec(ms: seq<Message>, id: string, text: string)
    ensures var r := SetTextWhere(ms, id, text);
      && |r| == |ms|
      && forall i :: 0 <= i < |ms| ==>
           r[i] == (if ms[i].id == id then ms[i].(text := text) else ms[i])
  {
  }

  /** A later update by the same id overrides an earlier one. */
  lemma SetTextWhereLastWins(ms: seq<Message>, id: string, t1: string, t2: string)
    ensures SetTextWhere(SetTextWhere(ms, id, t1), id, t2) == SetTextWhere(ms, id, t2)
  {
    var a, b := SetTextWhere(SetTextWhere(ms, id, t1), id, t2), SetTextWhere(ms, id, t2);
    assert |a| == |b|;
    forall i | 0 <= i < |a| ensures a[i] == b[i] {
      assert SetTextWhere(ms, id, t1)[i].id == ms[i].id;
    }
  }

  /** The user's message: the trimmed text, no tool. */
  function UserMessage(id: string, text: string): Message
  {
    Message(id, User, text, None, None, None)
  }

  /** The AI placeholder: empty text. */
  function Placeholder(id: string): Message
  {
    Message(id, Ai, "", None, None, None)
  }

  /** The log after the two appends, before the reply is folded in. */
  function BaseLog(prior: seq<Message>, userId: string, aiId: string, text: string): seq<Message>
  {
    prior + [UserMessage(userId, text), Placeholder(aiId)]
  }

  /** The log after a send has run: an exception writes the failure text into every
      message carrying the placeholder id; otherwise, if at least one chunk was folded,
      those messages carry the folded text, and if none was, the log is as appended. */
  function ChatLog(prior: seq<Message>, userId: string, aiId: string, text: string, reply: Reply): seq<Message>
  {
    var base := BaseLog(prior, userId, aiId, text);
    if reply.throws then SetTextWhere(base, aiId, ErrorText)
    else if FoldedCount(reply.fragments, reply.stopAt) == 0 then base
    else SetTextWhere(base, aiId, StreamText(reply.fragments, reply.stopAt))
  }

  /** The text a send leaves in its placeholder. */
  function ReplyText(reply: Reply): string
  {
    if reply.throws then ErrorText else StreamText(reply.fragments, reply.stopAt)
  }

  /** When the placeholder id is fresh, the log is the prior messages, unchanged,
      then the user's message, then the placeholder carrying the reply text. */
  lemma ChatLogFresh(prior: seq<Message>, userId: string, aiId: string, text: string, reply: Reply)
    requires forall i :: 0 <= i < |prior| ==> prior[i].id != aiId
    requires userId != aiId
    ensures ChatLog(prior, userId, aiId, text, reply)
      == prior + [UserMessage(userId, text), Placeholder(aiId).(text := ReplyText(reply))]
  {
    var base := BaseLog(prior, userId, aiId, text);
    var expected := prior + [UserMessage(userId, text), Placeholder(aiId).(text := ReplyText(reply))];
    var t := ReplyText(reply);
    var log := SetTextWhere(base, aiId, t);
    assert |log| == |expected|;
    forall i | 0 <= i < |log| ensures log[i] == expected[i] {
      if i < |prior| {
        assert base[i] == prior[i];
      }
    }
    if !reply.throws && FoldedCount(reply.fragments, reply.stopAt) == 0 {
      assert reply.fragments[..0] == [];
      assert base == log;
    }
  }

  /** Whatever the ids, the send only ever changes the text of the messages carrying
      the placeholder id; every other message of the appended log is kept, in order. */
  lemma ChatLogOnlyPlaceholderText(prior: seq<Message>, userId: string, aiId: string, text: string, reply: Reply)
    ensures var base, log := BaseLog(prior, userId, aiId, text), ChatLog(prior, userId, aiId, text, reply);
      && |log| == |prior| + 2
      && forall i :: 0 <= i < |log| ==>
           if base[i].id == aiId then log[i] == base[i].(text := log[i].text) else log[i] == base[i]
  {
  }

  /** The state of the AIChat page. */
  class AIChatState {
    var messages: seq<Message>
    var input: string
    var isLoading: bool
    var stopStream: bool

    /** The page mounts with the persisted log. */
    constructor (stored: seq<Message>)
      ensures messages == stored && input == "" && !isLoading && !stopStream
    {
      messages := stored;
      input := "";
      isLoading := false;
      stopStream := false;
    }

    /** The input box changes. */
    method SetInput(text: string)
      modifies this`input
      ensures input == text
    {
      input := text;
    }

    /** `handleStop`: raise the stop flag. */
    method HandleStop()
      modifies this`stopStream
      ensures stopStream
    {
      stopStream := true;
    }

    /** The Clear Chat button empties the log only when no reply is being generated. */
    method ClearChat()
      modifies this`messages
      ensures messages == if old(isLoading) then old(messages) else []
    {
      if !isLoading {
        messages := [];
      }
    }

    /** The `for await` loop: before each chunk the stop flag is checked (a Stop
        press lands before chunk `reply.stopAt`); otherwise the chunk is appended
        to the running text and the messages carrying `aiId` get that text. */
    method FoldStream(ghost base: seq<Message>, aiId: string, reply: Reply)
      requires messages == base && !stopStream
      modifies this`messages, this`stopStream
      ensures messages == if FoldedCount(reply.fragments, reply.stopAt) == 0 then base
        else SetTextWhere(base, aiId, StreamText(reply.fragments, reply.stopAt))
      ensures stopStream <==> reply.stopAt < |reply.fragments|
    {
      var full := "";
      var i := 0;
      while i < |reply.fragments|
        invariant i <= |reply.fragments| && i <= reply.stopAt
        invariant full == Concat(reply.fragments[..i])
        invariant !stopStream
        invariant messages == if i == 0 then base else SetTextWhere(base, aiId, full)
      {
        if i == reply.stopAt {
          HandleStop();
        }
        if stopStream {
          break;
        }
        ghost var previous := full;
        full := full + reply.fragments[i];
        assert reply.fragments[..i + 1][..i] == reply.fragments[..i];
        if i > 0 {
          SetTextWhereLastWins(base, aiId, previous, full);
        }
        messages := SetTextWhere(messages, aiId, full);
        i := i + 1;
      }
      assert stopStream <==> i < |reply.fragments|;
      assert i == FoldedCount(reply.fragments, reply.stopAt);
    }

    /** `handleSend`, run to completion against the gateway's `reply`; `userId`
        and `aiId` are the two ids taken from the clock. Returns the gateway call made. */
    method HandleSend(textToSend: Option<string>, reply: Reply, userId: string, aiId: string) returns (call: Call)
      modifies this
      ensures var text := MessageText(textToSend, old(input));
        && (text == "" ==>
              && call == NoCall && messages == old(messages) && input == old(input)
              && isLoading == old(isLoading) && stopStream == old(stopStream))
        && (text != "" ==>
              && call == ChatStream(ToHistory(old(messages)), text)
              && messages == ChatLog(old(messages), userId, aiId, text, reply)
              && input == "" && !isLoading && !stopStream)
    {
      var text := MessageText(textToSend, input);
      if text == "" {
        return NoCall;
      }
      stopStream := false;
      var prior := messages;
      var current := prior + [UserMessage(userId, text)];
      messages := current;
      input := "";
      isLoading := true;
      call := ChatStream(ToHistory(current[..|current| - 1]), text);
      assert current[..|current| - 1] == prior;
      messages := messages + [Placeholder(aiId)];
      assert messages == BaseLog(prior, userId, aiId, text);
      if reply.throws {
        messages := SetTextWhere(messages, aiId, ErrorText);
      } else {
        FoldStream(messages, aiId, reply);
      }
      isLoading := false;
      stopStream := false;
    }
  }
}
