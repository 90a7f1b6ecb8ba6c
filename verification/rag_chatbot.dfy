/** The Mongo-logged PDF chatbot (backend/app/rag_chatbot.py): the constructor's key
    check, the retrieval context, the chat-history text the model sees, the order in
    which a question and its answer are logged, and the knowledge-base rebuild. The
    vector store, the PDF loader, the model and the clock are parameters. */
module RagChatbot {
  import opened Wrappers
  import opened Text
  import MlService

  /** Whether the vector store handle is loaded. */
  datatype Bot = Bot(storeLoaded: bool)

  datatype BotError =
    | MissingApiKey
    | VectorstoreMissing
    | StoreOpenFailed
    | RoleNotText
    | EmptyAnswerField
    | NoPdfs

  /** The constructor: an absent or empty key is refused; otherwise the store is
      loaded when its path exists and opening it does not fail. */
  function NewBot(apiKey: Option<string>, storePathExists: bool, openSucceeds: bool): (r: Result<Bot, BotError>)
    ensures r.Err? <==> apiKey.None? || apiKey.value == ""
    ensures r.Err? ==> r.error == MissingApiKey
    ensures r.Ok? ==> (r.value.storeLoaded <==> storePathExists && openSucceeds)
  {
    if apiKey.None? || apiKey.value == "" then Err(MissingApiKey)
    else Ok(Bot(storePathExists && openSucceeds))
  }

  /** `_format_docs`: the page contents joined by blank lines, without source headers. */
  function FormatDocs(contents: seq<string>): string {
    Join("\n\n", contents)
  }

  /** The plain context is the service's headed one with the headers left out: both
      are empty for no documents and grow by a blank line and one part per document. */
  lemma FormatDocsGrows(contents: seq<string>, c: string)
    ensures FormatDocs([]) == "" && FormatDocs([c]) == c
    ensures |contents| > 0 ==> FormatDocs(contents + [c]) == FormatDocs(contents) + "\n\n" + c
    ensures |contents| > 0 ==> |FormatDocs(contents)| == SumLengths(contents) + 2 * (|contents| - 1)
  {
    if |contents| > 0 {
      JoinSnoc("\n\n", contents, c);
      JoinLength("\n\n", contents);
    }
  }

  /** A field of a logged document as `d.get(key, default)` sees it: missing, present
      with `None`, or a string. */
  datatype Field = Absent | Null | Text(s: string)

  /** The field as it prints inside an f-string: the default when missing, "None"
      for `None`. */
  function Render(f: Field, default: string): (r: string)
    ensures f.Absent? ==> r == default
    ensures f.Null? ==> r == "None"
    ensures f.Text? ==> r == f.s
  {
    match f
    case Absent => default
    case Null => "None"
    case Text(s) => s
  }

  /** A document of the chat log. */
  datatype LogEntry = LogEntry(sessionId: string, timestamp: Field, userId: string, role: Field, message: Field)

  /** One history line, "Role (timestamp): message". The role defaults to "user" and
      is capitalised; a role stored as `None` cannot be capitalised and fails. */
  function HistoryLine(d: LogEntry): (r: Result<string, BotError>)
    ensures r.Err? <==> d.role.Null?
    ensures r.Ok? ==> r.value == Capitalize(Render(d.role, "user")) + " (" + Render(d.timestamp, "") + "): " + Render(d.message, "")
    ensures r.Ok? && d.role.Absent? ==> StartsWith(r.value, "User (")
  {
    if d.role.Null? then Err(RoleNotText)
    else
      var line := Capitalize(Render(d.role, "user")) + " (" + Render(d.timestamp, "") + "): " + Render(d.message, "");
      assert d.role.Absent? ==> line[..6] == "User (";
      Ok(line)
  }

  /** The history lines of a session's log, in log order. */
  function HistoryLines(docs: seq<LogEntry>): (r: Result<seq<string>, BotError>)
    ensures r.Err? <==> exists i :: 0 <= i < |docs| && docs[i].role.Null?
    ensures r.Err? ==> r.error == RoleNotText
    ensures r.Ok? ==> |r.value| == |docs| && forall i :: 0 <= i < |docs| ==> Ok(r.value[i]) == HistoryLine(docs[i])
    decreases |docs|
  {
    if |docs| == 0 then Ok([])
    else
      var first := HistoryLine(docs[0]);
      var rest := HistoryLines(docs[1..]);
      assert forall i :: 1 <= i < |docs| ==> docs[i] == docs[1..][i - 1];
      if first.Err? then Err(first.error)
      else if rest.Err? then Err(rest.error)
      else Ok([first.value] + rest.value)
  }

  /** `chat_context`: the lines joined by newlines; the prompt then uses it as is,
      since `(lambda _: chat_context) if chat_context else (lambda _: "")` yields the
      same string in both branches. */
  function ChatContext(docs: seq<LogEntry>): (r: Result<string, BotError>)
    ensures docs == [] ==> r == Ok("")
    ensures r.Err? <==> HistoryLines(docs).Err?
    ensures r.Err? ==> r.error == RoleNotText
    ensures r.Ok? ==> HistoryLines(docs).Ok? && r.value == Join("\n", HistoryLines(docs).value)
  {
    var lines :- HistoryLines(docs);
    Ok(Join("\n", lines))
  }

  /** A log entry for one more document extends the context by a newline and that
      document's line. */
  lemma ChatContextSnoc(docs: seq<LogEntry>, d: LogEntry)
    requires |docs| > 0
    requires ChatContext(docs).Ok? && !d.role.Null?
    ensures ChatContext(docs + [d]) == Ok(ChatContext(docs).value + "\n" + HistoryLine(d).value)
  {
    var ls := HistoryLines(docs).value;
    var all := HistoryLines(docs + [d]);
    assert all.Ok?;
    assert all.value == ls + [HistoryLine(d).value];
    JoinSnoc("\n", ls, HistoryLine(d).value);
  }

  /** The session's documents, in log (timestamp) order. */
  function SessionHistory(log: seq<LogEntry>, sessionId: string): (r: seq<LogEntry>)
    ensures forall e :: e in r <==> e in log && e.sessionId == sessionId
    ensures |r| <= |log|
    decreases |log|
  {
    if |log| == 0 then []
    else if log[0].sessionId == sessionId then [log[0]] + SessionHistory(log[1..], sessionId)
    else SessionHistory(log[1..], sessionId)
  }

  lemma {:induction false} SessionHistoryAppend(log: seq<LogEntry>, more: seq<LogEntry>, sessionId: string)
    ensures SessionHistory(log + more, sessionId) == SessionHistory(log, sessionId) + SessionHistory(more, sessionId)
    decreases |log|
  {
    if |log| == 0 {
      assert log + more == more;
    } else {
      assert (log + more)[1..] == log[1..] + more;
      SessionHistoryAppend(log[1..], more, sessionId);
    }
  }

  /** The structured answer of the model. */
  datatype Answer = Answer(answer: string, sources: string, reasoning: string)

  /** What the model is given: the document context, the chat context and the question. */
  type Model = (string, string, string) -> Answer

  /** The reply `ask_question` returns. */
  datatype Reply = Reply(answer: string, sources: string, reasoning: string, sessionId: string, timestamp: string)

  /** The log, the store flag and the reply or error after `ask_question`. */
  datatype AskOutcome = AskOutcome(bot: Bot, log: seq<LogEntry>, result: Result<Reply, BotError>)

  /** `ask_question`. `pathExists` and `openSucceeds` stand for the store directory
      check and whether opening the store there succeeds (unlike the constructor, the
      question path does not catch a failed open); `retrieve` stands for the retriever
      with the given `k`, `model` for the chain's model, `userTime` and `botTime` for
      the two clock readings. A
      `getattr(...) or result.get(...)` fallback on an empty answer field fails, as
      the structured answer has no `get`. */
  function AskQuestion(b: Bot, log: seq<LogEntry>, pathExists: bool, openSucceeds: bool, sessionId: string, question: string,
                       userId: string, k: nat, retrieve: (string, nat) -> seq<string>, model: Model,
                       userTime: string, botTime: string): (r: AskOutcome)
    ensures !b.storeLoaded && !pathExists ==> r == AskOutcome(b, log, Err(VectorstoreMissing))
    ensures r.result.Ok? ==> r.bot.storeLoaded
    ensures log <= r.log && |r.log| <= |log| + 2
    ensures r.result.Ok? ==> r.log == log + [UserEntry(sessionId, userTime, userId, question), BotEntry(sessionId, botTime, r.result.value.answer)]
    ensures r.result.Ok? ==> r.result.value.sessionId == sessionId && r.result.value.timestamp == botTime
    ensures r.result.Ok? ==>
      && ChatContext(SessionHistory(log, sessionId)).Ok?
      && r.result.value.answer ==
           model(FormatDocs(retrieve(question, k)), ChatContext(SessionHistory(log, sessionId)).value, question).answer
    ensures (b.storeLoaded || (pathExists && openSucceeds)) && ChatContext(SessionHistory(log, sessionId)).Err? ==>
      r.log == log && r.result == Err(RoleNotText)
  {
    if !b.storeLoaded && !pathExists then AskOutcome(b, log, Err(VectorstoreMissing))
    else if !b.storeLoaded && !openSucceeds then AskOutcome(b, log, Err(StoreOpenFailed))
    else
      var b' := Bot(true);
      var context := ChatContext(SessionHistory(log, sessionId));
      if context.Err? then AskOutcome(b', log, Err(context.error))
      else
        var log1 := log + [UserEntry(sessionId, userTime, userId, question)];
        var result := model(FormatDocs(retrieve(question, k)), context.value, question);
        if result.answer == "" || result.sources == "" || result.reasoning == "" then
          AskOutcome(b', log1, Err(EmptyAnswerField))
        else
          var log2 := log1 + [BotEntry(sessionId, botTime, result.answer)];
          AskOutcome(b', log2, Ok(Reply(result.answer, result.sources, result.reasoning, sessionId, botTime)))
  }

  function UserEntry(sessionId: string, t: string, userId: string, question: string): LogEntry {
    LogEntry(sessionId, Text(t), userId, Text("user"), Text(question))
  }

  function BotEntry(sessionId: string, t: string, answer: string): LogEntry {
    LogEntry(sessionId, Text(t), "bot", Text("bot"), Text(answer))
  }

  /** The model never sees the question being asked in the chat history: the history
      is read before the question is logged. After the call, the next question of the
      same session sees this exchange as two more lines, the user's then the bot's. */
  lemma ExchangeJoinsHistory(b: Bot, log: seq<LogEntry>, pathExists: bool, openSucceeds: bool, sessionId: string, question: string,
                             userId: string, k: nat, retrieve: (string, nat) -> seq<string>, model: Model,
                             userTime: string, botTime: string)
    requires AskQuestion(b, log, pathExists, openSucceeds, sessionId, question, userId, k, retrieve, model, userTime, botTime).result.Ok?
    ensures var r := AskQuestion(b, log, pathExists, openSucceeds, sessionId, question, userId, k, retrieve, model, userTime, botTime);
      SessionHistory(r.log, sessionId) ==
        SessionHistory(log, sessionId) + [UserEntry(sessionId, userTime, userId, question), BotEntry(sessionId, botTime, r.result.value.answer)]
    ensures var r := AskQuestion(b, log, pathExists, openSucceeds, sessionId, question, userId, k, retrieve, model, userTime, botTime);
      forall other :: other != sessionId ==> SessionHistory(r.log, other) == SessionHistory(log, other)
  {
    var r := AskQuestion(b, log, pathExists, openSucceeds, sessionId, question, userId, k, retrieve, model, userTime, botTime);
    var added := [UserEntry(sessionId, userTime, userId, question), BotEntry(sessionId, botTime, r.result.value.answer)];
    assert r.log == log + added;
    SessionHistoryAppend(log, added, sessionId);
    assert added[1..][1..] == [];
    forall other | other != sessionId
      ensures SessionHistory(r.log, other) == SessionHistory(log, other)
    {
      SessionHistoryAppend(log, added, other);
    }
  }

  /** A model answer with an empty field fails only after the question is logged: the
      session is left with a user line and no bot line. */
  lemma EmptyAnswerLeavesQuestionLogged(b: Bot, log: seq<LogEntry>, pathExists: bool, openSucceeds: bool, sessionId: string, question: string,
                                        userId: string, k: nat, retrieve: (string, nat) -> seq<string>, model: Model,
                                        userTime: string, botTime: string)
    requires b.storeLoaded || (pathExists && openSucceeds)
    requires ChatContext(SessionHistory(log, sessionId)).Ok?
    requires model(FormatDocs(retrieve(question, k)), ChatContext(SessionHistory(log, sessionId)).value, question).answer == ""
    ensures var r := AskQuestion(b, log, pathExists, openSucceeds, sessionId, question, userId, k, retrieve, model, userTime, botTime);
      r.result == Err(EmptyAnswerField) && r.log == log + [UserEntry(sessionId, userTime, userId, question)]
  {
  }

  /** Once the store is loaded or opens and the history can be formatted, the
      question succeeds exactly when the model's answer, sources and reasoning are all
      non-empty, and the reply carries those three fields unchanged. Otherwise the
      error is the empty-field one and only the question has been logged. */
  lemma AskQuestionSucceeds(b: Bot, log: seq<LogEntry>, pathExists: bool, openSucceeds: bool, sessionId: string,
                            question: string, userId: string, k: nat, retrieve: (string, nat) -> seq<string>,
                            model: Model, userTime: string, botTime: string)
    requires b.storeLoaded || (pathExists && openSucceeds)
    requires ChatContext(SessionHistory(log, sessionId)).Ok?
    ensures var a := model(FormatDocs(retrieve(question, k)), ChatContext(SessionHistory(log, sessionId)).value, question);
      var r := AskQuestion(b, log, pathExists, openSucceeds, sessionId, question, userId, k, retrieve, model, userTime, botTime);
      && (a.answer != "" && a.sources != "" && a.reasoning != "" ==>
            r.result == Ok(Reply(a.answer, a.sources, a.reasoning, sessionId, botTime)))
      && (a.answer == "" || a.sources == "" || a.reasoning == "" ==>
            r.result == Err(EmptyAnswerField) && r.log == log + [UserEntry(sessionId, userTime, userId, question)])
  {
  }

  /** A store that is not loaded and whose directory exists but cannot be opened
      fails the question before anything is read or logged, and leaves the bot as it
      was, so the next question tries to open the store again. */
  lemma StoreOpenFailureLogsNothing(b: Bot, log: seq<LogEntry>, pathExists: bool, openSucceeds: bool, sessionId: string,
                                    question: string, userId: string, k: nat, retrieve: (string, nat) -> seq<string>,
                                    model: Model, userTime: string, botTime: string)
    requires !b.storeLoaded && pathExists && !openSucceeds
    ensures AskQuestion(b, log, pathExists, openSucceeds, sessionId, question, userId, k, retrieve, model, userTime, botTime)
      == AskOutcome(b, log, Err(StoreOpenFailed))
  {
  }

  /** The store errors of a question follow from how the bot was built: one built
      with a key and an openable store never meets either, whatever the directory
      holds later; one built where there was no store directory, asked while there
      is still none, fails with the missing-store error and logs nothing. */
  lemma NewBotStoreErrors(key: string, log: seq<LogEntry>, pathExists: bool, openSucceeds: bool, sessionId: string,
                          question: string, userId: string, k: nat, retrieve: (string, nat) -> seq<string>,
                          model: Model, userTime: string, botTime: string)
    requires key != ""
    ensures var r := AskQuestion(NewBot(Some(key), true, true).value, log, pathExists, openSucceeds, sessionId,
                                 question, userId, k, retrieve, model, userTime, botTime);
      r.bot.storeLoaded && r.result != Err(VectorstoreMissing) && r.result != Err(StoreOpenFailed)
    ensures var b := NewBot(Some(key), false, openSucceeds).value;
      AskQuestion(b, log, false, openSucceeds, sessionId, question, userId, k, retrieve, model, userTime, botTime)
        == AskOutcome(b, log, Err(VectorstoreMissing))
  {
  }

  /** The two lines a logged exchange adds to the history text: "User (t): question"
      and "Bot (t'): answer". */
  lemma ExchangeLines(sessionId: string, userTime: string, botTime: string, userId: string, question: string, answer: string)
    ensures HistoryLine(UserEntry(sessionId, userTime, userId, question)) == Ok("User (" + userTime + "): " + question)
    ensures HistoryLine(BotEntry(sessionId, botTime, answer)) == Ok("Bot (" + botTime + "): " + answer)
  {
    assert Lower("ser") == "ser";
    assert Capitalize("user") == "User";
    assert Lower("ot") == "ot";
    assert Capitalize("bot") == "Bot";
    assert HistoryLine(UserEntry(sessionId, userTime, userId, question)).value
      == Capitalize("user") + " (" + userTime + "): " + question;
    assert "User" + " (" == "User (";
    assert HistoryLine(BotEntry(sessionId, botTime, answer)).value
      == Capitalize("bot") + " (" + botTime + "): " + answer;
    assert "Bot" + " (" == "Bot (";
  }

  /** `glob("*.pdf")` on the folder's entries: a name ending in ".pdf", case-sensitively,
      and not hidden (a leading "." is not matched by `*`). */
  predicate GlobPdf(name: string) {
    EndsWith(name, ".pdf") && !(|name| > 0 && name[0] == '.')
  }

  function PdfsIn(names: seq<string>): (r: seq<string>)
    ensures forall n :: n in r <==> n in names && GlobPdf(n)
    ensures |r| <= |names|
    decreases |names|
  {
    if |names| == 0 then []
    else if GlobPdf(names[0]) then [names[0]] + PdfsIn(names[1..])
    else PdfsIn(names[1..])
  }

  /** The summary `prepare_knowledge_base` returns. */
  datatype Summary = Summary(numFiles: nat, numChunks: nat)

  function SumChunks(files: seq<string>, chunks: string -> nat): nat
    decreases |files|
  {
    if |files| == 0 then 0 else chunks(files[0]) + SumChunks(files[1..], chunks)
  }

  /** `rebuild_knowledge_base`: no matching file is an error; otherwise every matching
      file is indexed afresh, the store is loaded, and the summary counts the files
      and their chunks. `chunks` stands for the loader and splitter. */
  function RebuildKnowledgeBase(b: Bot, names: seq<string>, chunks: string -> nat): (r: (Bot, Result<Summary, BotError>))
    ensures r.1.Err? <==> forall n :: n in names ==> !GlobPdf(n)
    ensures r.1.Err? ==> r.1.error == NoPdfs && r.0 == b
    ensures r.1.Ok? ==> r.0.storeLoaded && r.1.value.numFiles == |PdfsIn(names)| && r.1.value.numFiles > 0
    ensures r.1.Ok? ==> r.1.value.numChunks == SumChunks(PdfsIn(names), chunks)
  {
    var pdfs := PdfsIn(names);
    assert |pdfs| > 0 ==> pdfs[0] in pdfs;
    if |pdfs| == 0 then
      (b, Err(NoPdfs))
    else
      (Bot(true), Ok(Summary(|pdfs|, SumChunks(pdfs, chunks))))
  }

  /** Every name the rebuild picks up is also one the PDF service's folder build
      indexes; the converse fails (see `RebuildIsCaseSensitive`). */
  lemma GlobImpliesPdfName(name: string)
    requires GlobPdf(name)
    ensures MlService.IsPdfName(name)
  {
    var stem := name[..|name| - 4];
    assert name == stem + ".pdf";
    MlService.PdfSuffix(stem, ".pdf");
  }

  /** The two services disagree on upper-case extensions: the folder build of the PDF
      service indexes "notes.PDF", the rebuild here skips it; and a hidden ".notes.pdf"
      is indexed there but not here. */
  lemma RebuildIsCaseSensitive()
    ensures MlService.IsPdfName("notes.PDF") && !GlobPdf("notes.PDF")
    ensures MlService.IsPdfName(".notes.pdf") && !GlobPdf(".notes.pdf")
  {
    MlService.PdfFilterIgnoresCase("notes");
    MlService.PdfFilterIgnoresCase(".notes");
    assert "notes" + ".PDF" == "notes.PDF";
    assert ".notes" + ".pdf" == ".notes.pdf";
    assert "notes.PDF"[5..] == ".PDF";
  }
}
