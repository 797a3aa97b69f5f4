# Chat memory, prompt assembly and text transforms of the LLM lab pages

A Dafny model of the parts of the lab pages that are plain logic. Everything else is user interface or a vendor SDK call.

- **URL chatbot** (`lab4.py`, module `UrlChatbot`, file `url_chatbot.dfy`). Each turn, the page picks which messages of the chat history go to the model. There are three memory types:
  - the last 6 messages;
  - the longest newest-first run of messages whose token total is at most 2000, with that total recorded in the session's `token_count`;
  - a conversation summary in place of the history.

  The page then builds the outbound request for OpenAI, Gemini or Claude. For Claude it splits the system-role messages out and joins their contents with a blank line. The session state (`messages`, `conversation_summary`, `token_count`) is the class `Session`.
- **Document Q&A** (`lab1.py`, module `DocumentQA`, file `document_qa.dfy`). The uploaded file's type is chosen by its extension. A PDF's page texts are concatenated, and a page without text counts as empty. The question is put after the document in a single user message.
- **Weather tool** (`lab5.py`, module `Weather`, file `weather.dfy`). The location is cut at its first comma and stripped. The request URL is built from it. The reported location is `capitalize`d. A status other than 200 gives an error record that names the status code.
- `common.dfy` (module `Common`) holds the shared `Option` and `Message` types and Python's `str.join`, `startswith` and `endswith`.

Foreign code is passed in as parameters:
- the tokenizer is `tokens: string -> nat`;
- `fetch_url_content` results are `Option<string>` values;
- the readers' outputs are passed in: `read().decode()` as `Option<string>` and the PDF page texts as `Option<seq<Option<string>>>`;
- `requests.get` is `get: string -> Response<J>`.

In summary mode the history buffer is empty (`lab4.py:133`). The summary message, when there is one, is the only history sent (`lab4.py:170-173`). With an empty summary no history is sent at all.

## Model

| member | source | states |
|---|---|---|
| `UrlChatbot.CountBuffer` | lab4.py:135-136 | The count buffer has exactly min(6, \|history\|) messages, namely the last ones of the history, in their original order. |
| `UrlChatbot.SelectTokenBuffer` | lab4.py:137-145 | The token buffer is a contiguous suffix of the history in chronological order. Its total is the sum of its token counts and is at most 2000. Either the whole history is kept, or adding the next-older message would exceed 2000 (the `GreedyCut` condition at the cut point). |
| `UrlChatbot.GreedyCutLongest` | lab4.py:139-145 | Every suffix longer than the kept run exceeds the 2000-token budget, so the kept run is the longest that fits. |
| `UrlChatbot.GreedyCutUnique` | lab4.py:139-145 | Only one cut point satisfies the stop condition, so the history and the token counts determine the buffer. |
| `UrlChatbot.SelectHistoryBuffer` | lab4.py:132-151 | The buffer for each memory type: the count buffer, the greedy token run, or [] in summary mode. It is always a suffix of the history. `token_count` becomes the buffer's token sum in token mode and 0 in the other two modes. |
| `UrlChatbot.UrlContext` | lab4.py:127-129 | The context is header 1, then page 1's text, then header 2, then page 2's text, each at a fixed offset. A page's text is "" for an empty URL field, "None" for a failed fetch (the f-string's rendering of None), and the fetched text otherwise. |
| `UrlChatbot.Outbound` | lab4.py:168-175 | The first message is the system prompt and the last is the user message "CONTEXT:\n" + context + "\n\nQUESTION:\n" + prompt. The middle is the single summary system message when summary mode has a non-empty summary, and exactly the history buffer otherwise. |
| `UrlChatbot.ComposeOutbound` | lab4.py:156-175 | Building the list by append and extend yields exactly the layout `Outbound` states. |
| `UrlChatbot.GeminiPromptText` | lab4.py:159-166 | The Gemini prompt opens with the system prompt, a blank line and the history text (the summary, or one "role: content" line per buffered message). Exactly between that opening and the closing "USER QUESTION" header with the prompt lies the "CONTEXT FROM URLS" header followed by the URL context; the length pins the three parts together. |
| `UrlChatbot.NonSystem` | lab4.py:202-206 | `claude_messages` contains no system-role message. |
| `UrlChatbot.NonSystemConcat` | lab4.py:202-206 | Filtering distributes over concatenation, so non-system messages keep their relative order. |
| `UrlChatbot.SystemContentsConcat` | lab4.py:202-204 | The collected system contents keep their order across concatenation. |
| `UrlChatbot.SplitSizes` | lab4.py:202-206 | Each message lands on exactly one side of the split. |
| `UrlChatbot.NoSystemMessages` | lab4.py:202-206 | A list without system messages passes the split unchanged and contributes no system text. |
| `UrlChatbot.SplitSystem` | lab4.py:200-208 | The loop's `claude_messages` are the non-system messages in order. The combined system prompt is the system contents in order, joined by "\n\n". |
| `UrlChatbot.ClaudeViewOfOutbound` | lab4.py:168-208 | For a buffer without system messages, Claude receives: in summary mode with a summary, the system prompt + "\n\n" + the summary message as system text and only the question as messages; otherwise, the system prompt alone as system text and the buffer followed by the question as messages. |
| `UrlChatbot.ClaudeRequestFromChat` | lab4.py:168-208 | For a buffer drawn from a history of user and assistant messages, Claude's split request is spelled out: the system prompt (plus "\n\n" and the summary message in summary mode with a summary) as system text, and the buffer (or nothing, beside a summary) followed by the question as messages. |
| `UrlChatbot.ChatTurn` | lab4.py:132-209 | The buffer is the one the memory type selects from the earlier messages, `token_count` is its token sum in token mode and 0 otherwise and at most 2000, and the request is the provider's. For Claude, when the history holds only user and assistant messages, the request is the spelled-out one above. |
| `UrlChatbot.BuildRequest` | lab4.py:159-209 | Each provider is sent its request: the outbound list for OpenAI, the prompt string for Gemini, and the split list for Claude. |
| `UrlChatbot.Session.constructor` | lab4.py:93-99 | A new session has no messages, an empty summary and a token count of 0. |
| `UrlChatbot.Session.Submit` | lab4.py:117-175 | An empty prompt or two empty URL fields change nothing. Otherwise the prompt is appended as a user message. The buffer is a suffix of the messages before it, so the new prompt is never in it. `token_count` is set as above, and the request is the one `BuildRequest` states. For Claude that request is the session's system prompt (with the summary message in summary mode) and the buffer plus the question, since the session never stores a system message. Only user and assistant messages are ever stored, and `token_count` stays at most 2000. |
| `UrlChatbot.Session.Send` | lab4.py:122-175 | The turn once a prompt and a URL are present: the same new state and request as `Submit`'s main branch. |
| `UrlChatbot.Session.RecordReply` | lab4.py:217-226 | The reply is appended as an assistant message. The stored summary is replaced only in summary mode when a new summary was produced. |
| `DocumentQA.KindOf` | lab1.py:50-57 | A name ending in ".txt" is a text file even if it also matches another test. It is a PDF exactly when it ends in ".pdf" and not ".txt". It is unsupported exactly when it ends in neither. |
| `DocumentQA.PagesTextAppend` | lab1.py:54-56 | Each further page adds its text (or "" for None) at the end of the document. |
| `DocumentQA.PagesTextLength` | lab1.py:54-56 | The document's length is the sum of the page texts' lengths, so empty pages add zero. |
| `DocumentQA.BlankPagesGiveEmptyDocument` | lab1.py:54-56 | Pages that are all None or "" give the empty document. |
| `DocumentQA.ConcatPages` | lab1.py:53-56 | The accumulating loop yields the in-order concatenation of the page texts. |
| `DocumentQA.DocumentPrompt` | lab1.py:65 | The message content is exactly "Here's a document: ", then the document, then " \n\n---\n\n ", then the question: each slot is stated at its offset and the length is their sum. |
| `DocumentQA.Respond` | lab1.py:28-67 | With no API key, nothing happens. Without a file or a non-empty question, nothing is processed. An unsupported type, a reader exception or an empty document builds no messages. A request is built exactly when the document is non-empty, and it is one user message with the document prompt. |
| `DocumentQA.TextTakesPrecedence` | lab1.py:50-51 | A ".txt" name always takes the text branch. |
| `DocumentQA.BlankPdfSendsNothing` | lab1.py:52-61 | A PDF whose pages have no text builds no messages. |
| `DocumentQA.Answer` | lab1.py:28-67 | The page's flow, with the PDF loop, produces exactly the outcome `Respond` states. |
| `Weather.StripStart` | lab5.py:19 | The result is the suffix left after removing the leading run of Python-whitespace characters. |
| `Weather.StripEnd` | lab5.py:19 | The result is the prefix left after removing the trailing run of Python-whitespace characters. |
| `Weather.Strip` | lab5.py:19 | The result neither starts nor ends with whitespace. A string that is already stripped is returned unchanged. |
| `Weather.StripIsMiddle` | lab5.py:19 | The stripped text is the contiguous slice of the input that starts where the leading whitespace ends. Together with `StripStart` and `StripEnd`, everything removed on either side is whitespace. |
| `Weather.FirstIndex` | lab5.py:19 | The result is the position of the first occurrence, or the length when there is none. |
| `Weather.NormaliseLocation` | lab5.py:18-19 | The result contains no comma. A location without a comma is left exactly as it was, surrounding whitespace included. A location with a comma becomes the stripped text before its first comma. |
| `Weather.NormaliseIdempotent` | lab5.py:18-19 | Normalising twice gives the same result as normalising once. |
| `Weather.RequestUrl` | lab5.py:22-23 | The URL starts with the base URL, "?q=" and the normalised location, ends with "&appid=" and the key, and is exactly as long as those two parts, so it is their concatenation. |
| `Weather.UrlCarriesLocation` | lab5.py:22-23 | When the normalised location has no '&', the raw text after "?q=" up to the next '&' is exactly the normalised location. |
| `Weather.Lowered` | lab5.py:43 | The result has the same length as the input, with each character lower-cased. |
| `Weather.Capitalize` | lab5.py:43 | The length is unchanged, the first character is upper-cased and every later character is lower-cased. |
| `Weather.CapitalizeIdempotent` | lab5.py:43 | Capitalizing twice gives the same result as capitalizing once. |
| `Weather.CapitalizeIgnoresCase` | lab5.py:43 | Inputs that differ only in letter case capitalize to the same string. |
| `Weather.NatToDecimal` | lab5.py:54 | `str` of a status code is a non-empty string of digits without leading zeros. |
| `Weather.NatDecimalRoundTrip` | lab5.py:54 | Reading back the decimal digits gives the number. |
| `Weather.IntDecimalRoundTrip` | lab5.py:54 | Reading back `str(i)`, including a minus sign, gives `i`. |
| `Weather.CurrentWeather` | lab5.py:18-54 | The URL built from the location is fetched. A non-200 status gives an error record: "API request failed with status code " + the code, the body as details, and no weather fields. Status 200 gives the capitalized normalised location and the body. |
| `Weather.ErrorNamesStatus` | lab5.py:52-54 | The number after the error prefix reads back as the response's status code. |

## Left out

- The tokenizer lookup and fallback (`lab4.py:26-32`) are foreign code. The token count is the parameter `tokens`, fixed for the selected model during a turn.
- `fetch_url_content` (`lab4.py:12-24`) is HTTP plus HTML stripping. Its result is passed in: None when the fetch failed, as the function returns.
- The API-key lookup and `st.stop()` (`lab4.py:67-84`), the sidebar, the token-tracker display and its float ratio (`lab4.py:101-114`), and all widget calls are user interface.
- The SDK calls and streaming loops (`lab4.py:178-215`, `lab1.py:70-77`) are network clients. The summary-regeneration call (`lab4.py:219-226`) is one too: its result is the `newSummary` parameter of `Session.RecordReply`, and None covers both a missing key and a failed call. `max_tokens=2048` is an SDK argument and is not modelled.
- The exception handler at `lab4.py:228-229` is not modelled. `Session.RecordReply` is the successful path only.
- `PdfReader` and `read().decode()` are foreign readers; their outputs are the fields of `DocumentQA.Upload`.
- The float conversions, `round` and `description.title()` (`lab5.py:30-50`) are left out. A report carries the decoded body, from which those fields are computed.
- `response.json()` raising on a non-JSON body (`lab5.py:30`, `lab5.py:54`) is not modelled. The body is a value of type `J` in both branches.
- `get_current_weather` has no `try`: on a 200 response the `data['main'][...]` and `data['weather'][0]` lookups (`lab5.py:34-39`) can raise. `CurrentWeather` always returns a report for status 200.
- `fetch_url_content` returns None only for a `RequestException` (`lab4.py:22-24`). Any other exception propagates uncaught, since the page's `try` starts at `lab4.py:178`. The model's None stands for the caught case only.
- The `__main__` blocks of `lab1.py` and `lab5.py` are not modelled. `lab3.py`, `lab6.py` and `streamlit_app.py` are UI and API wrappers and are not part of this model.
- Weather.Capitalize: models ASCII case mapping only. Python's `capitalize` also maps non-ASCII letters and uses title case for the first character; the model leaves non-ASCII characters unchanged.
- Weather.UrlCarriesLocation: requires a location without '&', and speaks of the raw query text only. The source does not URL-encode the location, so an '&' ends the `q` parameter early, a '#' starts a fragment that the client does not send (dropping `appid` with it), and a server decodes '+' as a space and '%XX' escapes. The value a server reads can therefore differ from the location for these characters.
