/** The entities of the application (types.ts) as values. */
module Types {

  datatype Option<T> = None | Some(value: T)

  /** JavaScript truthiness of a `string | null`: both `null` and `""` are falsy. */
  predicate Truthy(o: Option<string>)
  {
    o.Some? && o.value != ""
  }

  /** The tools a message can be addressed to. */
  datatype Tool = Chat | Writer | Image | Code | Planner | Notes

  /** The display string each tool stands for (the enum's string values). */
  function ToolName(t: Tool): (name: string)
    ensures |name| > 0
  {
    match t
    case Chat => "AI Chat"
    case Writer => "AI Writer"
    case Image => "AI Image Gen"
    case Code => "AI Coder"
    case Planner => "Planner"
    case Notes => "Notes"
  }

  /** Planner and Notes are local tools that never reach the generation gateway. */
  predicate IsGenerative(t: Tool)
  {
    t != Planner && t != Notes
  }

  datatype Sender = User | Ai

  datatype CodeBlock = CodeBlock(language: string, content: string)

  /** A chat message; `tool`, `imageUrl` and `code` are the optional fields. */
  datatype Message = Message(
    id: string,
    sender: Sender,
    text: string,
    tool: Option<Tool>,
    imageUrl: Option<string>,
    code: Option<CodeBlock>)

  /** A conversation; `createdAt` is the creation time as a timestamp. */
  datatype ChatSession = ChatSession(
    id: string,
    title: string,
    messages: seq<Message>,
    createdAt: int)

  datatype Tone = Professional | Casual | Enthusiastic | Informational | Funny

  datatype AspectRatio = Square | Portrait | Landscape

  /** The ratio string each aspect ratio stands for: the value handed to the image operation. */
  function AspectRatioValue(r: AspectRatio): string
  {
    match r
    case Square => "1:1"
    case Portrait => "9:16"
    case Landscape => "16:9"
  }

  datatype Task = Task(id: string, text: string, completed: bool)

  /** A note; `createdAt` is the creation time as a timestamp. */
  datatype Note = Note(id: string, title: string, content: string, createdAt: int)
}
