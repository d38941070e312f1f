/** The generation gateway (services/geminiService.ts) as its callers see it:
    the requests they build and the replies they fold back. The gateway itself
    talks to a remote model and is not part of this model; its replies are
    given to the callers as an oracle `Reply`. */
module Gateway {
  import opened Types

  /** The provider's role labels for a history entry. */
  datatype Role = UserRole | ModelRole

  /** 'user' stays 'user'; every other sender becomes 'model'. */
  function RoleOf(s: Sender): Role
  {
    if s == User then UserRole else ModelRole
  }

  /** One history entry `{ role, parts: [{ text }] }`. */
  datatype HistoryEntry = HistoryEntry(role: Role, text: string)

  /** The history sent with a chat turn, one entry per message, in order. */
  function ToHistory(ms: seq<Message>): (h: seq<HistoryEntry>)
    ensures |h| == |ms|
    ensures forall i :: 0 <= i < |ms| ==> h[i].text == ms[i].text
    ensures forall i :: 0 <= i < |ms| ==> (h[i].role == UserRole <==> ms[i].sender == User)
  {
    if ms == [] then []
    else [HistoryEntry(RoleOf(ms[0].sender), ms[0].text)] + ToHistory(ms[1..])
  }

  /** Which gateway operation a handler invoked, and with what. */
  datatype Call =
    | NoCall
    | ChatStream(history: seq<HistoryEntry>, message: string)
    | RewriteWithTone(prompt: string, tone: Tone)
    | GenerateCode(prompt: string, language: string)
    | GenerateImage(prompt: string, ratio: string)

  /** What the gateway does in one run, chosen by the environment:
      - `fragments`: the chunks the chat stream yields, in order;
      - `stopAt`: the user's Stop press lands just before chunk `stopAt` is read
        (a value at or past the end means Stop is not pressed during the stream);
      - `text`: the string the writer or coder operation resolves to;
      - `image`: what the image operation resolves to (`null` as `None`);
      - `throws`: the awaited call raises instead of delivering a result. */
  datatype Reply = Reply(
    fragments: seq<string>,
    stopAt: nat,
    text: string,
    image: Option<string>,
    throws: bool)

  /** The text a handler writes into its placeholder when the call raises. */
  const ErrorText := "An error occurred."

  /** The running concatenation of streamed chunks, in emission order. */
  function Concat(fs: seq<string>): string
  {
    if fs == [] then "" else Concat(fs[..|fs| - 1]) + fs[|fs| - 1]
  }

  /** The number of chunks folded before the stop flag is seen. */
  function FoldedCount(fs: seq<string>, stopAt: nat): (k: nat)
    ensures k <= |fs| && k <= stopAt
    ensures k == |fs| || k == stopAt
  {
    if stopAt < |fs| then stopAt else |fs|
  }

  /** The reply text after folding a stream that the user may stop. */
  function StreamText(fs: seq<string>, stopAt: nat): string
  {
    Concat(fs[..FoldedCount(fs, stopAt)])
  }

  /** Concatenation of a split sequence is the concatenation of its parts. */
  lemma {:induction false} ConcatAppend(a: seq<string>, b: seq<string>)
    ensures Concat(a + b) == Concat(a) + Concat(b)
  {
    if b == [] {
      assert a + b == a;
    } else {
      var c := a + b;
      assert c[..|c| - 1] == a + b[..|b| - 1];
      ConcatAppend(a, b[..|b| - 1]);
    }
  }

  /** Without a stop, the reply is the concatenation of every chunk. */
  lemma StreamTextUnstopped(fs: seq<string>, stopAt: nat)
    requires |fs| <= stopAt
    ensures StreamText(fs, stopAt) == Concat(fs)
  {
    assert fs[..|fs|] == fs;
  }

  /** Stopping earlier keeps a prefix of what stopping later would keep:
      the text already folded stays, exactly, when the user stops. */
  lemma StreamTextPrefix(fs: seq<string>, k: nat, k': nat)
    requires k <= k'
    ensures var t, t' := StreamText(fs, k), StreamText(fs, k');
      |t| <= |t'| && t == t'[..|t|]
  {
    var a, b := FoldedCount(fs, k), FoldedCount(fs, k');
    assert fs[..b] == fs[..a] + fs[a..b];
    ConcatAppend(fs[..a], fs[a..b]);
  }

  /** Chunks after the stop point never reach the reply. */
  lemma StreamTextIgnoresLaterChunks(fs: seq<string>, gs: seq<string>, stopAt: nat)
    requires stopAt <= |fs| && stopAt <= |gs| && fs[..stopAt] == gs[..stopAt]
    ensures StreamText(fs, stopAt) == StreamText(gs, stopAt)
  {
  }

  /** Folding `["Hel", "lo"]` without a stop gives `"Hello"`; stopping after one chunk gives `"Hel"`. */
  lemma StreamExample()
    ensures StreamText(["Hel", "lo"], 2) == "Hello"
    ensures StreamText(["Hel", "lo"], 1) == "Hel"
  {
    var fs: seq<string> := ["Hel", "lo"];
    assert fs[..2] == fs && fs[..1] == ["Hel"] && ["Hel"][..0] == [];
    assert Concat(["Hel"]) == "Hel";
  }
}
