/** The wire records shared by the stream mappers: Chat completion chunks and
    Anthropic (Claude) stream events, reduced to the fields the mappers read or write.
    A Go pointer that may be nil is an Option. */
module Wire {
  datatype Option<+T> = None | Some(value: T)

  // ---- OpenAI Chat ----

  /** One entry of `delta.tool_calls`. */
  datatype ToolDelta = ToolDelta(index: Option<int>, id: string, name: string, args: string) {
    /** A missing index counts as 0. */
    function Key(): int {
      if index.Some? then index.value else 0
    }
  }

  datatype Delta = Delta(role: string, content: string, reasoning: string, tools: seq<ToolDelta>)

  datatype Choice = Choice(delta: Option<Delta>, finish: Option<string>)

  datatype PromptDetails = PromptDetails(cached: int, image: int, audio: int)

  datatype Usage = Usage(prompt: int, completion: int, total: int,
                         details: Option<PromptDetails>, reasoning: Option<int>)

  datatype Chunk = Chunk(id: string, model: string, choices: seq<Choice>, usage: Option<Usage>)

  const EMPTY_DELTA := Delta("", "", "", [])

  /** What one chunk carries, in the order the mappers look at it. */
  datatype Item =
    | Role
    | Reasoning(text: string)
    | Content(text: string)
    | Tool(td: ToolDelta)
    | Finish(reason: string)

  function ToolItems(ts: seq<ToolDelta>): (r: seq<Item>)
    ensures |r| == |ts| && forall i :: 0 <= i < |ts| ==> r[i] == Tool(ts[i])
  {
    seq(|ts|, i requires 0 <= i < |ts| => Tool(ts[i]))
  }

  function DeltaItems(d: Delta): seq<Item> {
    (if d.role != "" then [Role] else [])
    + (if d.reasoning != "" then [Reasoning(d.reasoning)] else [])
    + (if d.content != "" then [Content(d.content)] else [])
    + ToolItems(d.tools)
  }

  function Items(c: Chunk): seq<Item> {
    if c.choices == [] then []
    else
      (if c.choices[0].delta.Some? then DeltaItems(c.choices[0].delta.value) else [])
      + (if c.choices[0].finish.Some? then [Finish(c.choices[0].finish.value)] else [])
  }

  /** What its delta carries. */
  function ContentItems(c: Chunk): seq<Item> {
    if c.choices != [] && c.choices[0].delta.Some? then DeltaItems(c.choices[0].delta.value) else []
  }

  predicate Finishes(c: Chunk) {
    c.choices != [] && c.choices[0].finish.Some?
  }

  // ---- Anthropic ----

  datatype ClaudeUsage = ClaudeUsage(input: int, output: int, cacheRead: int)

  datatype Block =
    | TextBlock
    | ThinkingBlock
    | ToolUse(id: string, name: string)
    | Media(image: bool, mediaType: string, data: string)
    | OtherBlock

  datatype DeltaBody =
    | TextDelta(text: string)
    | ThinkingDelta(thinking: string)
    | InputJson(partial: Option<string>)
    | OtherDelta

  datatype Message = Message(id: string, model: string, usage: ClaudeUsage)

  datatype ClaudeEvent =
    | MessageStart(message: Option<Message>)
    | BlockStart(index: int, block: Option<Block>)
    | BlockDelta(index: int, delta: Option<DeltaBody>)
    | BlockStop(index: int)
    | MessageDelta(stopReason: string, usage: Option<ClaudeUsage>)
    | MessageStop
    | OtherEvent

  /** The values of a map. */
  function Range(m: map<int, int>): set<int> {
    set k | k in m :: m[k]
  }

  lemma PreImage(m: map<int, int>, x: int) returns (k: int)
    requires x in Range(m)
    ensures k in m && m[k] == x
  {
    k :| k in m && m[k] == x;
  }
}
