/** The message lists the service sends upstream: the conversational request
    built by `chat`, and the one-shot requests of `processFile` and
    `complete`. */
module Requests {
  import opened AITypes
  import opened Text

  const ChatSystemPrompt: string := "You are an AI programming assistant integrated into VS Code."
  const ProcessFileSystemPrompt: string := "You are an expert programming assistant with deep knowledge of best practices."

  /** How many of the most recent history entries a chat request carries. */
  const HistoryWindow: nat := 10

  /** The system message that wraps the caller's code context in a fenced block. */
  function ContextMessage(context: string): Message
  {
    Message(System, "Current code context:\n```\n" + context + "\n```")
  }

  /** `history.slice(-10)`: the last ten entries, or all of them when fewer. */
  function Window(history: seq<Message>): (w: seq<Message>)
    ensures |w| == if |history| < HistoryWindow then |history| else HistoryWindow
  {
    if |history| <= HistoryWindow then history else history[|history| - HistoryWindow..]
  }

  /** The fixed system prompt, then the context message when the context is
      truthy (an empty context counts as absent). */
  function ChatHeader(context: Option<string>): seq<Message>
  {
    [Message(System, ChatSystemPrompt)] + (if Truthy(context) then [ContextMessage(context.value)] else [])
  }

  /** The message list `chat` sends for a given history (which already holds
      the new user message). */
  function ChatRequest(history: seq<Message>, context: Option<string>): (r: seq<Message>)
    ensures 1 <= |r| <= 2 + HistoryWindow
  {
    ChatHeader(context) + Window(history)
  }

  /** The layout of a chat request: the system prompt first, the fenced
      context second exactly when the context is truthy, then the final
      min(10, |history|) history entries in their original order, so that
      the request ends with the newest history entry. */
  lemma ChatRequestLayout(history: seq<Message>, context: Option<string>)
    ensures var r := ChatRequest(history, context);
      var k := if Truthy(context) then 2 else 1;
      var w := if |history| < HistoryWindow then |history| else HistoryWindow;
      && |r| == k + w
      && r[0] == Message(System, ChatSystemPrompt)
      && (Truthy(context) ==> r[1] == ContextMessage(context.value))
      && (forall i :: k <= i < |r| ==> r[i] == history[|history| - |r| + i])
      && (history != [] ==> r[|r| - 1] == history[|history| - 1])
  {
  }

  /** An empty context string and an absent context give the same request. */
  lemma EmptyContextIsAbsent(history: seq<Message>)
    ensures ChatRequest(history, Some("")) == ChatRequest(history, None)
  {
  }

  /** Builds the chat request as the source does: the header, then one pushed
      message per entry of the window. */
  method BuildChatMessages(history: seq<Message>, context: Option<string>) returns (messages: seq<Message>)
    ensures messages == ChatRequest(history, context)
  {
    messages := [Message(System, ChatSystemPrompt)];
    if Truthy(context) {
      messages := messages + [ContextMessage(context.value)];
    }
    ghost var header := messages;
    assert header == ChatHeader(context);
    var recent := Window(history);
    var i := 0;
    while i < |recent|
      invariant 0 <= i <= |recent|
      invariant messages == header + recent[..i]
    {
      var msg := recent[i];
      assert recent[..i + 1] == recent[..i] + [msg];
      messages := messages + [Message(msg.role, msg.content)];
      i := i + 1;
    }
    assert recent[..|recent|] == recent;
  }

  const ProcessFileIntro: string := "You are an expert code assistant. Analyze the following code.\n\n```\n"
  const InstructionLabel: string := "\n```\n\nInstruction: "

  /** The user prompt of `processFile`: the file content in a fenced block,
      then the instruction. */
  function ProcessFilePrompt(content: string, instruction: string): string
  {
    ProcessFileIntro + content + InstructionLabel + instruction
  }

  /** The one-shot request of `processFile`: a system persona and one user
      message that carries both the content and the instruction. */
  function ProcessFileRequest(content: string, instruction: string): (r: seq<Message>)
    ensures |r| == 2
    ensures r[0] == Message(System, ProcessFileSystemPrompt)
    ensures r[1].role == User
    ensures Includes(r[1].content, content) && Includes(r[1].content, instruction)
  {
    var prompt := ProcessFilePrompt(content, instruction);
    IncludesSpliced(ProcessFileIntro, content, InstructionLabel + instruction);
    assert ProcessFileIntro + content + (InstructionLabel + instruction) == prompt;
    IncludesSpliced(ProcessFileIntro + content + InstructionLabel, instruction, "");
    assert ProcessFileIntro + content + InstructionLabel + instruction + "" == prompt;
    [Message(System, ProcessFileSystemPrompt), Message(User, prompt)]
  }
}
