/** The URL-based chatbot page (lab4.py): which part of the chat history is
    sent to the model under each memory type, how the outbound request is
    laid out for each provider, and the session state the page keeps
    between turns.

    The tokenizer is not modelled: every operation that needs token counts
    takes `tokens: string -> nat`, the count of the selected model's
    encoding for a message content. */
module UrlChatbot {
  import opened Common

  /** The three choices of the "Memory Settings" radio button. */
  datatype MemoryType =
    | SixMessageBuffer      // "Buffer of 6 messages"
    | ConversationSummary   // "Conversation Summary"
    | TokenBuffer           // "Buffer of 2,000 tokens"

  datatype Provider = OpenAI | GoogleGemini | AnthropicClaude

  const MessageWindow: nat := 6
  const TokenBudget: nat := 2000

  const SystemPromptText: string :=
    "You are a helpful assistant. Answer the user's question based on the provided URL content and conversation history. If the answer is not in the content, say so."
  const SummaryPreamble: string := "Here is a summary of the conversation so far: "
  const ClaudeSeparator: string := "\n\n"

  // ---------------------------------------------------------------------
  // Memory buffers
  // ---------------------------------------------------------------------

  /** Sum of the token counts of the contents of `msgs`. */
  function SumTokens(msgs: seq<Message>, tokens: string -> nat): nat
  {
    if msgs == [] then 0 else tokens(msgs[0].content) + SumTokens(msgs[1..], tokens)
  }

  /** `history[-6:]`: the last six messages, or all of them if there are fewer. */
  function CountBuffer(history: seq<Message>): (r: seq<Message>)
    ensures |r| == if |history| < MessageWindow then |history| else MessageWindow
    ensures forall i :: 0 <= i < |r| ==> r[i] == history[|history| - |r| + i]
  {
    if |history| <= MessageWindow then history else history[|history| - MessageWindow..]
  }

  /** `history[k..]` is the run the greedy newest-first walk keeps: it fits
      the budget, and either it is the whole history or the next-older
      message would push it over the budget. */
  predicate GreedyCut(history: seq<Message>, tokens: string -> nat, k: nat)
  {
    k <= |history|
    && SumTokens(history[k..], tokens) <= TokenBudget
    && (k == 0 || SumTokens(history[k..], tokens) + tokens(history[k - 1].content) > TokenBudget)
  }

  /** The "Buffer of 2,000 tokens" loop: walk the history newest to oldest,
      putting each message at the front of the buffer while the running
      total stays within the budget, and stop at the first that does not. */
  method SelectTokenBuffer(history: seq<Message>, tokens: string -> nat)
    returns (buffer: seq<Message>, total: nat)
    ensures |buffer| <= |history| && buffer == history[|history| - |buffer|..]
    ensures total == SumTokens(buffer, tokens)
    ensures GreedyCut(history, tokens, |history| - |buffer|)
  {
    buffer, total := [], 0;
    var i := |history|;
    while i > 0
      invariant 0 <= i <= |history|
      invariant buffer == history[i..]
      invariant total == SumTokens(buffer, tokens) && total <= TokenBudget
    {
      var msg := history[i - 1];
      var msgTokens := tokens(msg.content);
      if total + msgTokens <= TokenBudget {
        assert history[i - 1..] == [msg] + buffer;
        buffer := [msg] + buffer;
        total := total + msgTokens;
        i := i - 1;
      } else {
        break;
      }
    }
  }

  lemma {:induction false} SumTokensSuffixMonotone(history: seq<Message>, tokens: string -> nat, j: nat, k: nat)
    requires j <= k <= |history|
    ensures SumTokens(history[j..], tokens) >= SumTokens(history[k..], tokens)
    decreases k - j
  {
    if j < k {
      assert history[j..][1..] == history[j + 1..];
      SumTokensSuffixMonotone(history, tokens, j + 1, k);
    }
  }

  /** The kept run is the longest newest-first run within the budget: every
      longer suffix of the history exceeds it. */
  lemma GreedyCutLongest(history: seq<Message>, tokens: string -> nat, k: nat, j: nat)
    requires GreedyCut(history, tokens, k)
    requires j < k
    ensures SumTokens(history[j..], tokens) > TokenBudget
  {
    SumTokensSuffixMonotone(history, tokens, j, k - 1);
    assert history[k - 1..][1..] == history[k..];
  }

  /** The greedy cut is determined by the history and the token counts. */
  lemma GreedyCutUnique(history: seq<Message>, tokens: string -> nat, k1: nat, k2: nat)
    requires GreedyCut(history, tokens, k1) && GreedyCut(history, tokens, k2)
    ensures k1 == k2
  {
    if k1 < k2 {
      GreedyCutLongest(history, tokens, k2, k1);
    } else if k2 < k1 {
      GreedyCutLongest(history, tokens, k1, k2);
    }
  }

  /** What `history_buffer` holds after lines 132-147 for each memory type. */
  predicate IsHistoryBuffer(memory: MemoryType, history: seq<Message>, tokens: string -> nat, buffer: seq<Message>)
  {
    match memory
    case SixMessageBuffer => buffer == CountBuffer(history)
    case ConversationSummary => buffer == []
    case TokenBuffer =>
      |buffer| <= |history| && buffer == history[|history| - |buffer|..]
      && GreedyCut(history, tokens, |history| - |buffer|)
  }

  // ---------------------------------------------------------------------
  // Prompt composition
  // ---------------------------------------------------------------------

  /** `fetch_url_content(url) if url else ""` rendered in an f-string: an
      empty field gives "", a failed fetch (None) gives "None". */
  function FetchedText(url: string, fetched: Option<string>): (r: string)
    ensures url == "" ==> r == ""
    ensures url != "" && fetched.None? ==> r == "None"
    ensures url != "" && fetched.Some? ==> r == fetched.value
  {
    if url == "" then ""
    else match fetched
      case None => "None"
      case Some(text) => text
  }

  const UrlHeader1: string := "CONTENT FROM URL 1:\n"
  const UrlHeader2: string := "\n\nCONTENT FROM URL 2:\n"

  /** `url_context`: both pages' texts under their headers. */
  function UrlContext(url1: string, fetched1: Option<string>, url2: string, fetched2: Option<string>): (r: string)
    ensures var c1, c2 := FetchedText(url1, fetched1), FetchedText(url2, fetched2);
      |r| == |UrlHeader1| + |c1| + |UrlHeader2| + |c2|
      && r[..|UrlHeader1|] == UrlHeader1
      && r[|UrlHeader1|..|UrlHeader1| + |c1|] == c1
      && r[|UrlHeader1| + |c1|..|r| - |c2|] == UrlHeader2
      && r[|r| - |c2|..] == c2
  {
    UrlHeader1 + FetchedText(url1, fetched1) + UrlHeader2 + FetchedText(url2, fetched2)
  }

  /** The summary system message, or the history buffer, that goes between
      the system prompt and the question. */
  function Middle(memory: MemoryType, summary: string, buffer: seq<Message>): seq<Message>
  {
    if memory == ConversationSummary && summary != "" then [Message(SystemRole, SummaryPreamble + summary)]
    else buffer
  }

  function QuestionText(urlContext: string, prompt: string): string
  {
    "CONTEXT:\n" + urlContext + "\n\nQUESTION:\n" + prompt
  }

  /** `final_messages_for_api` for OpenAI and Claude. */
  function Outbound(memory: MemoryType, summary: string, buffer: seq<Message>, urlContext: string, prompt: string): (r: seq<Message>)
    ensures |r| >= 2
    ensures r[0] == Message(SystemRole, SystemPromptText)
    ensures r[|r| - 1] == Message(UserRole, QuestionText(urlContext, prompt))
    ensures memory == ConversationSummary && summary != "" ==>
              r[1..|r| - 1] == [Message(SystemRole, SummaryPreamble + summary)]
    ensures !(memory == ConversationSummary && summary != "") ==> r[1..|r| - 1] == buffer
  {
    [Message(SystemRole, SystemPromptText)] + Middle(memory, summary, buffer)
      + [Message(UserRole, QuestionText(urlContext, prompt))]
  }

  /** The Gemini `history_str`: one "role: content" line per buffered message. */
  function HistoryLines(buffer: seq<Message>): (r: seq<string>)
    ensures |r| == |buffer|
    ensures forall i :: 0 <= i < |buffer| ==> r[i] == buffer[i].role + ": " + buffer[i].content
  {
    seq(|buffer|, i requires 0 <= i < |buffer| => buffer[i].role + ": " + buffer[i].content)
  }

  function GeminiHistory(memory: MemoryType, summary: string, buffer: seq<Message>): string
  {
    if memory == ConversationSummary && summary != "" then "CONVERSATION SUMMARY:\n" + summary
    else Join("\n", HistoryLines(buffer))
  }

  const GeminiContextHeader: string := "\n\nCONTEXT FROM URLS:\n"
  const GeminiQuestionHeader: string := "\n\nUSER QUESTION:\n"

  /** `gemini_prompt`: one string that opens with the system prompt followed
      by the history text, carries the URL context under its header in the
      middle, and closes with the user's question. */
  function GeminiPromptText(memory: MemoryType, summary: string, buffer: seq<Message>, urlContext: string, prompt: string): (r: string)
    ensures var opening := SystemPromptText + "\n\n" + GeminiHistory(memory, summary, buffer);
      var closing := GeminiQuestionHeader + prompt;
      |r| == |opening| + |GeminiContextHeader| + |urlContext| + |closing|
      && StartsWith(r, opening)
      && r[|opening|..|r| - |closing|] == GeminiContextHeader + urlContext
      && EndsWith(r, closing)
  {
    var opening := SystemPromptText + "\n\n" + GeminiHistory(memory, summary, buffer);
    var context := GeminiContextHeader + urlContext;
    var closing := GeminiQuestionHeader + prompt;
    ConcatEnds(opening + context, closing);
    ConcatEnds(opening, context);
    assert (opening + context + closing)[..|opening|] == (opening + context)[..|opening|];
    assert (opening + context + closing)[|opening|..|opening| + |context|] == context;
    opening + context + closing
  }

  /** Lines 156-175 for OpenAI and Claude: `final_messages_for_api` built by
      append and extend. */
  method ComposeOutbound(memory: MemoryType, summary: string, buffer: seq<Message>, urlContext: string, prompt: string)
    returns (finalMessages: seq<Message>)
    ensures finalMessages == Outbound(memory, summary, buffer, urlContext, prompt)
  {
    finalMessages := [];
    finalMessages := finalMessages + [Message(SystemRole, SystemPromptText)];
    if memory == ConversationSummary && summary != "" {
      finalMessages := finalMessages + [Message(SystemRole, SummaryPreamble + summary)];
    } else {
      finalMessages := finalMessages + buffer;
    }
    finalMessages := finalMessages + [Message(UserRole, QuestionText(urlContext, prompt))];
  }

  // ---------------------------------------------------------------------
  // Claude's system/non-system split
  // ---------------------------------------------------------------------

  /** Contents of the system-role messages, in order. */
  function SystemContents(msgs: seq<Message>): seq<string>
  {
    if msgs == [] then []
    else (if msgs[0].role == SystemRole then [msgs[0].content] else []) + SystemContents(msgs[1..])
  }

  /** The messages that are not system-role, in order. */
  function NonSystem(msgs: seq<Message>): (r: seq<Message>)
    ensures forall i :: 0 <= i < |r| ==> r[i].role != SystemRole
  {
    if msgs == [] then []
    else (if msgs[0].role == SystemRole then [] else [msgs[0]]) + NonSystem(msgs[1..])
  }

  lemma {:induction false} SystemContentsConcat(a: seq<Message>, b: seq<Message>)
    ensures SystemContents(a + b) == SystemContents(a) + SystemContents(b)
  {
    if a != [] {
      assert (a + b)[1..] == a[1..] + b;
      SystemContentsConcat(a[1..], b);
    } else {
      assert a + b == b;
    }
  }

  /** Filtering keeps relative order: it distributes over concatenation. */
  lemma {:induction false} NonSystemConcat(a: seq<Message>, b: seq<Message>)
    ensures NonSystem(a + b) == NonSystem(a) + NonSystem(b)
  {
    if a != [] {
      assert (a + b)[1..] == a[1..] + b;
      NonSystemConcat(a[1..], b);
    } else {
      assert a + b == b;
    }
  }

  /** Every message lands on exactly one side of the split. */
  lemma {:induction false} SplitSizes(msgs: seq<Message>)
    ensures |SystemContents(msgs)| + |NonSystem(msgs)| == |msgs|
  {
    if msgs != [] {
      SplitSizes(msgs[1..]);
    }
  }

  /** A list with no system message passes the split unchanged. */
  lemma {:induction false} NoSystemMessages(msgs: seq<Message>)
    requires forall i :: 0 <= i < |msgs| ==> msgs[i].role != SystemRole
    ensures NonSystem(msgs) == msgs
    ensures SystemContents(msgs) == []
  {
    if msgs != [] {
      NoSystemMessages(msgs[1..]);
    }
  }

  /** One more message extends exactly one side of the split. */
  lemma SplitStep(msgs: seq<Message>, i: nat)
    requires i < |msgs|
    ensures SystemContents(msgs[..i + 1]) ==
              SystemContents(msgs[..i]) + (if msgs[i].role == SystemRole then [msgs[i].content] else [])
    ensures NonSystem(msgs[..i + 1]) ==
              NonSystem(msgs[..i]) + (if msgs[i].role == SystemRole then [] else [msgs[i]])
  {
    assert msgs[..i + 1] == msgs[..i] + [msgs[i]];
    SystemContentsConcat(msgs[..i], [msgs[i]]);
    NonSystemConcat(msgs[..i], [msgs[i]]);
  }

  /** Lines 200-208: system contents go to `system_prompts_content`, the rest
      to `claude_messages`; the system contents are then joined. */
  method SplitSystem(msgs: seq<Message>) returns (combinedSystemPrompt: string, claudeMessages: seq<Message>)
    ensures combinedSystemPrompt == Join(ClaudeSeparator, SystemContents(msgs))
    ensures claudeMessages == NonSystem(msgs)
  {
    var systemPromptsContent: seq<string> := [];
    claudeMessages := [];
    for i := 0 to |msgs|
      invariant systemPromptsContent == SystemContents(msgs[..i])
      invariant claudeMessages == NonSystem(msgs[..i])
    {
      SplitStep(msgs, i);
      var msg := msgs[i];
      if msg.role == SystemRole {
        systemPromptsContent := systemPromptsContent + [msg.content];
      } else {
        claudeMessages := claudeMessages + [msg];
      }
    }
    assert msgs[..|msgs|] == msgs;
    combinedSystemPrompt := Join(ClaudeSeparator, systemPromptsContent);
  }

  /** The split of a list framed by a system message and a non-system one. */
  lemma SplitFramed(head: string, mid: seq<Message>, last: Message)
    requires last.role != SystemRole
    ensures SystemContents([Message(SystemRole, head)] + mid + [last]) == [head] + SystemContents(mid)
    ensures NonSystem([Message(SystemRole, head)] + mid + [last]) == NonSystem(mid) + [last]
  {
    var h := [Message(SystemRole, head)];
    assert h + mid + [last] == h + (mid + [last]);
    SystemContentsConcat(h, mid + [last]);
    SystemContentsConcat(mid, [last]);
    NonSystemConcat(h, mid + [last]);
    NonSystemConcat(mid, [last]);
    assert SystemContents([last]) == [] && NonSystem([last]) == [last];
    assert SystemContents(h) == [head] && NonSystem(h) == [];
  }

  /** What Claude receives for a composed request: the system prompt (with the
      summary appended in summary mode) and the buffer followed by the
      question, provided the buffer holds no system message. */
  lemma ClaudeViewOfOutbound(memory: MemoryType, summary: string, buffer: seq<Message>, urlContext: string, prompt: string)
    requires forall i :: 0 <= i < |buffer| ==> buffer[i].role != SystemRole
    ensures var o := Outbound(memory, summary, buffer, urlContext, prompt);
      var question := Message(UserRole, QuestionText(urlContext, prompt));
      if memory == ConversationSummary && summary != "" then
        Join(ClaudeSeparator, SystemContents(o)) == SystemPromptText + ClaudeSeparator + SummaryPreamble + summary
        && NonSystem(o) == [question]
      else
        Join(ClaudeSeparator, SystemContents(o)) == SystemPromptText
        && NonSystem(o) == buffer + [question]
  {
    var mid := Middle(memory, summary, buffer);
    var question := Message(UserRole, QuestionText(urlContext, prompt));
    SplitFramed(SystemPromptText, mid, question);
    if memory == ConversationSummary && summary != "" {
      var s := Message(SystemRole, SummaryPreamble + summary);
      assert SystemContents([s]) == [SummaryPreamble + summary] && NonSystem([s]) == [];
    } else {
      NoSystemMessages(buffer);
    }
  }

  // ---------------------------------------------------------------------
  // Requests and the session
  // ---------------------------------------------------------------------

  /** What one chat turn hands to the provider SDK, or why it stopped early. */
  datatype Request =
    | NoPrompt                                              // chat_input gave nothing
    | MissingUrl                                            // lines 118-120
    | OpenAIChat(messages: seq<Message>)                    // line 185
    | GeminiPrompt(prompt: string)                          // line 193
    | ClaudeChat(system: string, messages: seq<Message>)    // line 209

  /** The request each provider branch builds from the buffer. */
  function RequestFor(provider: Provider, memory: MemoryType, summary: string, buffer: seq<Message>, urlContext: string, prompt: string): Request
  {
    var o := Outbound(memory, summary, buffer, urlContext, prompt);
    match provider
    case OpenAI => OpenAIChat(o)
    case GoogleGemini => GeminiPrompt(GeminiPromptText(memory, summary, buffer, urlContext, prompt))
    case AnthropicClaude => ClaudeChat(Join(ClaudeSeparator, SystemContents(o)), NonSystem(o))
  }

  /** Lines 132-151: the history buffer for the memory type, and the value
      `token_count` is set to (the buffer's total in token mode, else 0). */
  method SelectHistoryBuffer(memory: MemoryType, history: seq<Message>, tokens: string -> nat)
    returns (historyBuffer: seq<Message>, tokenCount: nat)
    ensures IsHistoryBuffer(memory, history, tokens, historyBuffer)
    ensures |historyBuffer| <= |history| && historyBuffer == history[|history| - |historyBuffer|..]
    ensures tokenCount == if memory == TokenBuffer then SumTokens(historyBuffer, tokens) else 0
    ensures tokenCount <= TokenBudget
  {
    historyBuffer, tokenCount := [], 0;
    if memory == SixMessageBuffer {
      historyBuffer := CountBuffer(history);
    } else if memory == TokenBuffer {
      historyBuffer, tokenCount := SelectTokenBuffer(history, tokens);
    }
    if memory != TokenBuffer {
      tokenCount := 0;
    }
  }

  /** Lines 153-175 and the provider branches at 183-209: the request each
      provider is sent. */
  method BuildRequest(provider: Provider, memory: MemoryType, summary: string, historyBuffer: seq<Message>,
                      urlContext: string, prompt: string)
    returns (request: Request)
    ensures request == RequestFor(provider, memory, summary, historyBuffer, urlContext, prompt)
  {
    if provider == GoogleGemini {
      request := GeminiPrompt(GeminiPromptText(memory, summary, historyBuffer, urlContext, prompt));
    } else {
      var finalMessages := ComposeOutbound(memory, summary, historyBuffer, urlContext, prompt);
      if provider == OpenAI {
        request := OpenAIChat(finalMessages);
      } else {
        var combinedSystemPrompt, claudeMessages := SplitSystem(finalMessages);
        request := ClaudeChat(combinedSystemPrompt, claudeMessages);
      }
    }
  }

  predicate ChatRolesOnly(msgs: seq<Message>)
  {
    forall i :: 0 <= i < |msgs| ==> msgs[i].role == UserRole || msgs[i].role == AssistantRole
  }

  lemma ChatRolesAppend(msgs: seq<Message>, m: Message)
    requires ChatRolesOnly(msgs) && (m.role == UserRole || m.role == AssistantRole)
    ensures ChatRolesOnly(msgs + [m])
  {
  }

  /** `buffer` is a contiguous run of messages that ends with the last
      message of `history`. */
  predicate SuffixOf(buffer: seq<Message>, history: seq<Message>)
  {
    |buffer| <= |history| && buffer == history[|history| - |buffer|..]
  }

  /** A suffix of a history of user and assistant messages holds no system
      message. */
  lemma ChatSuffixHasNoSystem(history: seq<Message>, buffer: seq<Message>)
    requires ChatRolesOnly(history)
    requires |buffer| <= |history| && buffer == history[|history| - |buffer|..]
    ensures forall i :: 0 <= i < |buffer| ==> buffer[i].role != SystemRole
  {
    forall i | 0 <= i < |buffer|
      ensures buffer[i].role != SystemRole
    {
      assert buffer[i] == history[|history| - |buffer| + i];
    }
  }

  /** Claude's request spelled out: the system prompt, with the summary
      message joined on in summary mode, and the buffer (or nothing, beside a
      summary) before the question. */
  function ClaudeRequest(memory: MemoryType, summary: string, buffer: seq<Message>, urlContext: string, prompt: string): Request
  {
    var question := Message(UserRole, QuestionText(urlContext, prompt));
    if memory == ConversationSummary && summary != "" then
      ClaudeChat(SystemPromptText + ClaudeSeparator + SummaryPreamble + summary, [question])
    else
      ClaudeChat(SystemPromptText, buffer + [question])
  }

  /** For a buffer drawn from a chat history, the split request Claude is
      sent is the one `ClaudeRequest` spells out. */
  lemma ClaudeRequestFromChat(memory: MemoryType, summary: string, history: seq<Message>, buffer: seq<Message>,
                              urlContext: string, prompt: string)
    requires ChatRolesOnly(history)
    requires |buffer| <= |history| && buffer == history[|history| - |buffer|..]
    ensures RequestFor(AnthropicClaude, memory, summary, buffer, urlContext, prompt)
              == ClaudeRequest(memory, summary, buffer, urlContext, prompt)
  {
    ChatSuffixHasNoSystem(history, buffer);
    ClaudeViewOfOutbound(memory, summary, buffer, urlContext, prompt);
  }

  /** The pure part of one chat turn (lines 132-209): the history buffer
      drawn from the messages before the new prompt, the value `token_count`
      is set to, and the request the provider is sent. */
  method ChatTurn(history: seq<Message>, summary: string, urlContext: string, prompt: string,
                  memory: MemoryType, provider: Provider, tokens: string -> nat)
    returns (request: Request, historyBuffer: seq<Message>, tokenCount: nat)
    ensures IsHistoryBuffer(memory, history, tokens, historyBuffer)
    ensures |historyBuffer| <= |history| && historyBuffer == history[|history| - |historyBuffer|..]
    ensures tokenCount == if memory == TokenBuffer then SumTokens(historyBuffer, tokens) else 0
    ensures tokenCount <= TokenBudget
    ensures request == RequestFor(provider, memory, summary, historyBuffer, urlContext, prompt)
    ensures provider == AnthropicClaude && ChatRolesOnly(history) ==>
              request == ClaudeRequest(memory, summary, historyBuffer, urlContext, prompt)
  {
    historyBuffer, tokenCount := SelectHistoryBuffer(memory, history, tokens);
    request := BuildRequest(provider, memory, summary, historyBuffer, urlContext, prompt);
    if provider == AnthropicClaude && ChatRolesOnly(history) {
      ClaudeRequestFromChat(memory, summary, history, historyBuffer, urlContext, prompt);
    }
  }

  /** The session state the page keeps across reruns. */
  class Session {
    var messages: seq<Message>
    var conversationSummary: string
    var tokenCount: nat

    /** The page only ever appends user and assistant messages, and the
        token counter never exceeds the budget. */
    ghost predicate Valid()
      reads this
    {
      ChatRolesOnly(messages) && tokenCount <= TokenBudget
    }

    /** Lines 93-99: an empty history, no summary, a zero token count. */
    constructor ()
      ensures Valid()
      ensures messages == [] && conversationSummary == "" && tokenCount == 0
    {
      messages := [];
      conversationSummary := "";
      tokenCount := 0;
    }

    /** One submitted chat message (lines 117-175 and the request each
        provider branch sends): an empty prompt or two empty URL fields stop
        the turn; otherwise `Send` runs it. `fetched1`/`fetched2` are what
        `fetch_url_content` returned. */
    method Submit(prompt: string, url1: string, fetched1: Option<string>, url2: string, fetched2: Option<string>,
                  memory: MemoryType, provider: Provider, tokens: string -> nat)
      returns (request: Request, historyBuffer: seq<Message>)
      requires Valid()
      modifies this
      ensures Valid()
      ensures conversationSummary == old(conversationSummary)
      ensures prompt == "" ==> request == NoPrompt
      ensures prompt != "" && url1 == "" && url2 == "" ==> request == MissingUrl
      ensures prompt == "" || (url1 == "" && url2 == "") ==>
                historyBuffer == [] && messages == old(messages) && tokenCount == old(tokenCount)
      ensures prompt != "" && (url1 != "" || url2 != "") ==>
                messages == old(messages) + [Message(UserRole, prompt)]
      ensures prompt != "" && (url1 != "" || url2 != "") ==> SuffixOf(historyBuffer, old(messages))
      ensures prompt != "" && (url1 != "" || url2 != "") ==>
                IsHistoryBuffer(memory, old(messages), tokens, historyBuffer)
      ensures prompt != "" && (url1 != "" || url2 != "") ==>
                tokenCount == if memory == TokenBuffer then SumTokens(historyBuffer, tokens) else 0
      ensures prompt != "" && (url1 != "" || url2 != "") ==>
                request == RequestFor(provider, memory, conversationSummary, historyBuffer,
                                      UrlContext(url1, fetched1, url2, fetched2), prompt)
      ensures prompt != "" && (url1 != "" || url2 != "") && provider == AnthropicClaude ==>
                request == ClaudeRequest(memory, conversationSummary, historyBuffer,
                                         UrlContext(url1, fetched1, url2, fetched2), prompt)
    {
      historyBuffer := [];
      if prompt == "" {
        request := NoPrompt;
      } else if url1 == "" && url2 == "" {
        request := MissingUrl;
      } else {
        var urlContext := UrlContext(url1, fetched1, url2, fetched2);
        request, historyBuffer := Send(prompt, urlContext, memory, provider, tokens);
      }
    }

    /** Lines 122-175 once the prompt and a URL are present: append the
        prompt, build the history buffer from the messages before it, record
        the token count and compose the request for `urlContext`. */
    method Send(prompt: string, urlContext: string, memory: MemoryType, provider: Provider, tokens: string -> nat)
      returns (request: Request, historyBuffer: seq<Message>)
      requires Valid()
      modifies this
      ensures Valid()
      ensures conversationSummary == old(conversationSummary)
      ensures messages == old(messages) + [Message(UserRole, prompt)]
      ensures SuffixOf(historyBuffer, old(messages))
      ensures IsHistoryBuffer(memory, old(messages), tokens, historyBuffer)
      ensures tokenCount == if memory == TokenBuffer then SumTokens(historyBuffer, tokens) else 0
      ensures request == RequestFor(provider, memory, conversationSummary, historyBuffer, urlContext, prompt)
      ensures provider == AnthropicClaude ==>
                request == ClaudeRequest(memory, conversationSummary, historyBuffer, urlContext, prompt)
    {
      var history := messages;
      ChatRolesAppend(history, Message(UserRole, prompt));
      messages := history + [Message(UserRole, prompt)];
      var currentTokens;
      request, historyBuffer, currentTokens :=
        ChatTurn(history, conversationSummary, urlContext, prompt, memory, provider, tokens);
      tokenCount := currentTokens;
    }

    /** Lines 217-226 after a successful call: the reply is appended, and in
        summary mode the regenerated summary (None when there is no OpenAI
        key or the summary call fails) replaces the stored one. */
    method RecordReply(reply: string, memory: MemoryType, newSummary: Option<string>)
      requires Valid()
      modifies this
      ensures Valid()
      ensures messages == old(messages) + [Message(AssistantRole, reply)]
      ensures tokenCount == old(tokenCount)
      ensures conversationSummary ==
                if memory == ConversationSummary && newSummary.Some? then newSummary.value
                else old(conversationSummary)
    {
      messages := messages + [Message(AssistantRole, reply)];
      if memory == ConversationSummary && newSummary.Some? {
        conversationSummary := newSummary.value;
      }
    }
  }
}
