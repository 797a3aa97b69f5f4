/** The document question-answering page (lab1.py): the uploaded file's
    type is chosen by its extension, its text is loaded, and a single user
    message asking the question about it is built.

    The file's contents are given as what the readers return: `text` is the
    result of `read().decode()` (None when decoding raises) and `pages` the
    result of `extract_text()` for every page of `PdfReader` (None for the
    whole when the reader raises, None for a page without text). */
module DocumentQA {
  import opened Common

  datatype Upload = Upload(name: string, text: Option<string>, pages: Option<seq<Option<string>>>)

  datatype FileKind = TextFile | PdfFile | UnsupportedFile

  /** What loading the file gives: its text, an unsupported type (line 58),
      or an exception from a reader (caught at line 79). */
  datatype Loaded = Document(text: string) | Unsupported | ReadError

  /** What one run of the page does once an API key was asked for. */
  datatype Outcome =
    | NoApiKey                          // line 30
    | AwaitingInput                     // no file or no question yet (line 47)
    | UnsupportedType                   // line 58
    | ReadFailed                        // line 80
    | EmptyDocument                     // line 61: nothing is sent
    | Ask(messages: seq<Message>)       // lines 62-67: the request sent to the model

  /** Lines 50-57: ".txt" is tested first, then ".pdf". */
  function KindOf(name: string): (k: FileKind)
    ensures EndsWith(name, ".txt") ==> k == TextFile
    ensures k == PdfFile <==> !EndsWith(name, ".txt") && EndsWith(name, ".pdf")
    ensures k == UnsupportedFile <==> !EndsWith(name, ".txt") && !EndsWith(name, ".pdf")
  {
    if EndsWith(name, ".txt") then TextFile
    else if EndsWith(name, ".pdf") then PdfFile
    else UnsupportedFile
  }

  /** `page.extract_text() or ""`. */
  function PageText(page: Option<string>): string
  {
    match page
    case None => ""
    case Some(text) => text
  }

  /** The pages' texts in order, one after another. */
  function PagesText(pages: seq<Option<string>>): string
  {
    if pages == [] then "" else PageText(pages[0]) + PagesText(pages[1..])
  }

  function SumPageLengths(pages: seq<Option<string>>): nat
  {
    if pages == [] then 0 else |PageText(pages[0])| + SumPageLengths(pages[1..])
  }

  /** Adding a page adds its text at the end. */
  lemma {:induction false} PagesTextAppend(pages: seq<Option<string>>, page: Option<string>)
    ensures PagesText(pages + [page]) == PagesText(pages) + PageText(page)
  {
    if pages == [] {
      assert [] + [page] == [page];
      assert PagesText([page]) == PageText(page) + PagesText([]);
    } else {
      assert (pages + [page])[1..] == pages[1..] + [page];
      PagesTextAppend(pages[1..], page);
    }
  }

  /** The document is as long as its pages' texts together. */
  lemma {:induction false} PagesTextLength(pages: seq<Option<string>>)
    ensures |PagesText(pages)| == SumPageLengths(pages)
  {
    if pages != [] {
      PagesTextLength(pages[1..]);
    }
  }

  /** Pages without text (None or "") give an empty document. */
  lemma {:induction false} BlankPagesGiveEmptyDocument(pages: seq<Option<string>>)
    requires forall i :: 0 <= i < |pages| ==> PageText(pages[i]) == ""
    ensures PagesText(pages) == ""
  {
    if pages != [] {
      BlankPagesGiveEmptyDocument(pages[1..]);
    }
  }

  /** Lines 54-56: `document += page.extract_text() or ""` over the pages. */
  method ConcatPages(pages: seq<Option<string>>) returns (document: string)
    ensures document == PagesText(pages)
  {
    document := "";
    for i := 0 to |pages|
      invariant document == PagesText(pages[..i])
    {
      var page := pages[i];
      document := document + PageText(page);
      assert pages[..i + 1] == pages[..i] + [page];
      PagesTextAppend(pages[..i], page);
    }
    assert pages[..|pages|] == pages;
  }

  /** The text the page gets from a file, by kind. */
  function Load(u: Upload): Loaded
  {
    match KindOf(u.name)
    case TextFile => if u.text.Some? then Document(u.text.value) else ReadError
    case PdfFile => if u.pages.Some? then Document(PagesText(u.pages.value)) else ReadError
    case UnsupportedFile => Unsupported
  }

  const DocumentPreamble: string := "Here's a document: "
  const QuestionSeparator: string := " \n\n---\n\n "

  /** The content of the one user message: the document, then the question. */
  function DocumentPrompt(document: string, question: string): (r: string)
    ensures |r| == |DocumentPreamble| + |document| + |QuestionSeparator| + |question|
    ensures r[..|DocumentPreamble|] == DocumentPreamble
    ensures r[|DocumentPreamble|..|DocumentPreamble| + |document|] == document
    ensures r[|DocumentPreamble| + |document|..|r| - |question|] == QuestionSeparator
    ensures r[|r| - |question|..] == question
  {
    DocumentPreamble + document + QuestionSeparator + question
  }

  /** What the page does for an API key, an optional uploaded file and the
      question text. */
  function Respond(apiKey: string, file: Option<Upload>, question: string): (r: Outcome)
    ensures apiKey == "" <==> r == NoApiKey
    ensures r == AwaitingInput <==> apiKey != "" && (file.None? || question == "")
    ensures r.Ask? <==> apiKey != "" && file.Some? && question != ""
                        && Load(file.value).Document? && Load(file.value).text != ""
    ensures r.Ask? ==> r.messages == [Message(UserRole, DocumentPrompt(Load(file.value).text, question))]
    ensures r == UnsupportedType <==> apiKey != "" && file.Some? && question != "" && Load(file.value) == Unsupported
    ensures r == ReadFailed <==> apiKey != "" && file.Some? && question != "" && Load(file.value) == ReadError
    ensures r == EmptyDocument <==> apiKey != "" && file.Some? && question != "" && Load(file.value) == Document("")
  {
    if apiKey == "" then NoApiKey
    else if file.None? || question == "" then AwaitingInput
    else match Load(file.value)
      case Unsupported => UnsupportedType
      case ReadError => ReadFailed
      case Document(document) =>
        if document == "" then EmptyDocument
        else Ask([Message(UserRole, DocumentPrompt(document, question))])
  }

  /** A name ending in ".txt" is read as text whatever else the file holds. */
  lemma TextTakesPrecedence(apiKey: string, u: Upload, question: string)
    requires apiKey != "" && question != "" && EndsWith(u.name, ".txt")
    ensures Respond(apiKey, Some(u), question) ==
              if u.text.None? then ReadFailed
              else if u.text.value == "" then EmptyDocument
              else Ask([Message(UserRole, DocumentPrompt(u.text.value, question))])
  {
  }

  /** A PDF whose pages have no text sends nothing. */
  lemma BlankPdfSendsNothing(apiKey: string, u: Upload, question: string)
    requires apiKey != "" && question != ""
    requires KindOf(u.name) == PdfFile && u.pages.Some?
    requires forall i :: 0 <= i < |u.pages.value| ==> PageText(u.pages.value[i]) == ""
    ensures Respond(apiKey, Some(u), question) == EmptyDocument
  {
    BlankPagesGiveEmptyDocument(u.pages.value);
  }

  /** `main` (lines 28-67) up to the model call. */
  method Answer(apiKey: string, file: Option<Upload>, question: string) returns (outcome: Outcome)
    ensures outcome == Respond(apiKey, file, question)
  {
    if apiKey == "" {
      return NoApiKey;
    }
    if file.None? || question == "" {
      return AwaitingInput;
    }
    var uploaded := file.value;
    var document: string;
    if EndsWith(uploaded.name, ".txt") {
      if uploaded.text.None? {
        return ReadFailed;
      }
      document := uploaded.text.value;
    } else if EndsWith(uploaded.name, ".pdf") {
      if uploaded.pages.None? {
        return ReadFailed;
      }
      document := ConcatPages(uploaded.pages.value);
    } else {
      return UnsupportedType;
    }
    if document == "" {
      return EmptyDocument;
    }
    outcome := Ask([Message(UserRole, DocumentPrompt(document, question))]);
  }
}
