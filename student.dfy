/** The state updates of the student console (src/pages/StudentDashboard.jsx):
    the three searchable lists, the append-only chat log, the pending and
    settled text of the AI panel and of the PDF-summary panel, and logout. */
module StudentDashboard {
  import opened Js
  import opened Browser
  import Login

  const ResourcesUrl := Origin + "/resources/"
  const PdfsUrl := Origin + "/student-resources/resources"
  const FinancialAidUrl := Origin + "/financial-aid/"
  const ChatUrl := Origin + "/tut-chat/"
  const AskUrl := Origin + "/llama/ask"
  const SummarizeUrl := Origin + "/llama/summarize-pdf"

  const FallbackEmail := "student@example.com"
  const ChatFailure := "Sorry, something went wrong!"
  const Thinking := "Thinking..."
  const NoAnswer := "No response from AI."
  const AskFailure := "Error contacting AI model. Please try again later."
  const Summarizing := "Uploading and summarizing..."
  const NoSummary := "No summary available."
  const SummaryFailure := "Error uploading or summarizing PDF."

  // ---------------------------------------------------------------------
  // Lists
  // ---------------------------------------------------------------------

  /** A collection URL with `?q=` and the encoded term appended when the
      term is non-empty. `encode` stands for `encodeURIComponent`. */
  function SearchUrl(base: string, term: string, encode: string -> string): (url: string)
    ensures base <= url
    ensures |url| == |base| <==> term == ""
    ensures term != "" ==> url[|base|..] == "?q=" + encode(term)
  {
    if term != "" then base + "?q=" + encode(term) else base
  }

  /** A query string is present exactly when a search term was given,
      whatever the encoder does with the term. */
  lemma QueryPresentIff(term: string, encode: string -> string)
    ensures '?' in SearchUrl(ResourcesUrl, term, encode) <==> term != ""
    ensures '?' in SearchUrl(FinancialAidUrl, term, encode) <==> term != ""
  {
    assert '?' !in ResourcesUrl && '?' !in FinancialAidUrl;
    if term != "" {
      assert SearchUrl(ResourcesUrl, term, encode)[|ResourcesUrl|] == '?';
      assert SearchUrl(FinancialAidUrl, term, encode)[|FinancialAidUrl|] == '?';
    }
  }

  /** The PDF list URL: `/module/` and the module name, not encoded,
      appended when the name is non-empty. */
  function PdfsUrlFor(moduleName: string): (url: string)
    ensures PdfsUrl <= url
    ensures moduleName == "" ==> url == PdfsUrl
    ensures moduleName != "" ==> url[|PdfsUrl|..] == "/module/" + moduleName
  {
    if moduleName != "" then PdfsUrl + "/module/" + moduleName else PdfsUrl
  }

  /** `Array.isArray(data) ? data : []`: an array is kept as it is and
      anything else, a bare object included, becomes the empty list. */
  function CoerceList(data: Value): (items: seq<Value>)
    ensures data.Arr? ==> items == data.items
    ensures !data.Arr? ==> items == []
  {
    if data.Arr? then data.items else []
  }

  /** The list after one load: a thrown fetch or parse leaves it as it was. */
  function ListAfter(prev: seq<Value>, reply: Response): (next: seq<Value>)
    ensures reply.Threw? ==> next == prev
    ensures reply.Answered? && reply.body.Arr? ==> next == reply.body.items
    ensures reply.Answered? && !reply.body.Arr? ==> next == []
  {
    match reply
    case Threw => prev
    case Answered(_, data) => CoerceList(data)
  }

  /** Loading is idempotent: a second load with the same reply changes
      nothing more, and a failed load changes nothing at all. */
  lemma ListAfterIdempotent(prev: seq<Value>, reply: Response)
    ensures ListAfter(ListAfter(prev, reply), reply) == ListAfter(prev, reply)
    ensures reply.Threw? ==> ListAfter(prev, reply) == prev
  {
  }

  // ---------------------------------------------------------------------
  // Chat
  // ---------------------------------------------------------------------

  datatype ChatMessage = ChatMessage(sender: string, message: Value)

  /** `user?.email || "student@example.com"`, for the parsed stored record. */
  function ChatEmail(user: Value): (email: Value)
    ensures Truthy(email)
    ensures user.Obj? && Truthy(Field(user.fields, "email")) ==> email == Field(user.fields, "email")
    ensures user.Obj? && !Truthy(Field(user.fields, "email")) ==> email == Str(FallbackEmail)
    ensures !user.Obj? ==> email == Str(FallbackEmail)
  {
    match Prop(user, "email")
    case None => Str(FallbackEmail)
    case Some(e) => Or(e, Str(FallbackEmail))
  }

  function ChatRequest(email: Value, question: string): (r: Request)
    ensures r.verb == "POST" && r.url == ChatUrl && r.body.Some?
    ensures r.body.value.Keys == {"email", "question"}
    ensures r.body.value["email"] == email && r.body.value["question"] == Str(question)
  {
    Request("POST", ChatUrl, Some(map["email" := email, "question" := Str(question)]))
  }

  /** The bot's message: the reply's `answer` (whatever it holds, even
      `undefined`), or the apology when the request or the parse threw or
      the body is `null`. The status is not looked at. */
  function BotMessage(reply: Response): (m: Value)
    ensures reply.Threw? ==> m == Str(ChatFailure)
    ensures reply.Answered? && (reply.body.Null? || reply.body.Undefined?) ==> m == Str(ChatFailure)
    ensures reply.Answered? && !reply.body.Null? && !reply.body.Undefined? ==>
              m == Prop(reply.body, "answer").value
    ensures reply.Answered? && reply.body.Obj? ==> m == Field(reply.body.fields, "answer")
  {
    match reply
    case Threw => Str(ChatFailure)
    case Answered(_, data) =>
      match Prop(data, "answer")
      case None => Str(ChatFailure)
      case Some(answer) => answer
  }

  /** The log after one `sendChatMessage`: nothing for a blank input,
      otherwise the student's original text and then the bot's message. */
  function ChatAfter(log: seq<ChatMessage>, input: string, reply: Response): (after: seq<ChatMessage>)
    ensures Blank(input) ==> after == log
    ensures !Blank(input) ==>
              && |after| == |log| + 2 && after[..|log|] == log
              && after[|log|..] == [ChatMessage("student", Str(input)), ChatMessage("bot", BotMessage(reply))]
  {
    if Blank(input) then log
    else log + [ChatMessage("student", Str(input)), ChatMessage("bot", BotMessage(reply))]
  }

  /** One message typed into the chat box and the reply it got. */
  datatype Turn = Turn(input: string, reply: Response)

  /** The log after a session of turns, oldest first. */
  function Converse(log: seq<ChatMessage>, turns: seq<Turn>): seq<ChatMessage>
    decreases |turns|
  {
    if turns == [] then log
    else Converse(ChatAfter(log, turns[0].input, turns[0].reply), turns[1..])
  }

  /** The texts of the non-blank inputs, in order. */
  function Asked(turns: seq<Turn>): seq<Value> {
    if turns == [] then []
    else (if Blank(turns[0].input) then [] else [Str(turns[0].input)]) + Asked(turns[1..])
  }

  /** The texts of the student's messages in a log, in order. */
  function StudentTexts(log: seq<ChatMessage>): seq<Value> {
    if log == [] then []
    else
      var last := log[|log| - 1];
      StudentTexts(log[..|log| - 1]) + (if last.sender == "student" then [last.message] else [])
  }

  lemma StudentTextsOfTurn(log: seq<ChatMessage>, input: string, reply: Response)
    ensures StudentTexts(ChatAfter(log, input, reply)) ==
            StudentTexts(log) + (if Blank(input) then [] else [Str(input)])
  {
    if !Blank(input) {
      var s := ChatMessage("student", Str(input));
      var after := ChatAfter(log, input, reply);
      assert after[..|after| - 1] == log + [s];
      assert (log + [s])[..|log|] == log;
    }
  }

  /** A session keeps the earlier log as a prefix and adds two messages
      per non-blank input and none per blank one. */
  lemma {:induction false} ConverseGrows(log: seq<ChatMessage>, turns: seq<Turn>)
    ensures log <= Converse(log, turns)
    ensures |Converse(log, turns)| == |log| + 2 * |Asked(turns)|
    decreases |turns|
  {
    if turns != [] {
      var next := ChatAfter(log, turns[0].input, turns[0].reply);
      assert |Asked(turns)| == (if Blank(turns[0].input) then 0 else 1) + |Asked(turns[1..])|;
      assert log <= next;
      ConverseGrows(next, turns[1..]);
    }
  }

  /** The student's messages of a session are exactly its non-blank
      inputs, in order. */
  lemma {:induction false} ConverseStudentTexts(log: seq<ChatMessage>, turns: seq<Turn>)
    ensures StudentTexts(Converse(log, turns)) == StudentTexts(log) + Asked(turns)
    decreases |turns|
  {
    if turns != [] {
      var next := ChatAfter(log, turns[0].input, turns[0].reply);
      assert Converse(log, turns) == Converse(next, turns[1..]);
      StudentTextsOfTurn(log, turns[0].input, turns[0].reply);
      ConverseStudentTexts(next, turns[1..]);
      Regroup(StudentTexts(log), if Blank(turns[0].input) then [] else [Str(turns[0].input)], Asked(turns[1..]));
    }
  }

  /** Concatenation regrouped, stated once so the session proof does not
      have to rediscover it. */
  lemma Regroup(x: seq<Value>, y: seq<Value>, z: seq<Value>)
    ensures (x + y) + z == x + (y + z)
  {
  }

  /** The chat log only grows: a session keeps the earlier log as a prefix,
      adds two messages per non-blank input and none per blank one, and the
      student's messages are exactly the non-blank inputs, in order. */
  lemma ConverseAppendsEveryQuestion(log: seq<ChatMessage>, turns: seq<Turn>)
    ensures log <= Converse(log, turns)
    ensures |Converse(log, turns)| == |log| + 2 * |Asked(turns)|
    ensures StudentTexts(Converse(log, turns)) == StudentTexts(log) + Asked(turns)
  {
    ConverseGrows(log, turns);
    ConverseStudentTexts(log, turns);
  }

  /** Every record a successful login stores lacks an `email`, so the chat
      always sends the fallback address. */
  lemma ChatEmailAfterLogin(reply: Response)
    requires Login.LoginOutcome(reply).SignedIn?
    ensures ChatEmail(Login.LoginOutcome(reply).record) == Str(FallbackEmail)
  {
    var record := Login.LoginOutcome(reply).record;
    assert "email" !in record.fields;
  }

  // ---------------------------------------------------------------------
  // AI panel and PDF summary
  // ---------------------------------------------------------------------

  /** The settled text of the AI panel: the answer when it is truthy, the
      placeholder when it is missing or falsy, the error text when the
      request or the parse threw or the body is `null`. Never blank. */
  function AskAnswer(reply: Response): (shown: Value)
    ensures Truthy(shown)
    ensures reply.Threw? || reply.body.Null? || reply.body.Undefined? ==> shown == Str(AskFailure)
    ensures reply.Answered? && !reply.body.Null? && !reply.body.Undefined? ==>
              shown == Or(Prop(reply.body, "answer").value, Str(NoAnswer))
  {
    match reply
    case Threw => Str(AskFailure)
    case Answered(_, data) =>
      match Prop(data, "answer")
      case None => Str(AskFailure)
      case Some(answer) => Or(answer, Str(NoAnswer))
  }

  /** The settled text of the summary panel, by the same rule. */
  function SummaryText(reply: Response): (shown: Value)
    ensures Truthy(shown)
    ensures reply.Threw? || reply.body.Null? || reply.body.Undefined? ==> shown == Str(SummaryFailure)
    ensures reply.Answered? && !reply.body.Null? && !reply.body.Undefined? ==>
              shown == Or(Prop(reply.body, "summary").value, Str(NoSummary))
  {
    match reply
    case Threw => Str(SummaryFailure)
    case Answered(_, data) =>
      match Prop(data, "summary")
      case None => Str(SummaryFailure)
      case Some(summary) => Or(summary, Str(NoSummary))
  }

  /** A file picked in the upload input. */
  datatype File = File(name: string)

  /** The summary request. Its multipart body holds only the uploaded file,
      which the upload methods return beside the request. */
  const UploadRequest := Request("POST", SummarizeUrl, None)

  /** After logout the login page's mount-time check finds no session and
      stays put. */
  lemma LogoutEndsSession(store: map<string, Value>)
    ensures Login.RestoreRoute(SessionIn(store - {SessionKey})).None?
  {
  }

  class Page {
    var resourceSearch: string
    var resources: seq<Value>
    var moduleSearch: string
    var pdfs: seq<Value>
    var financialSearch: string
    var financialResources: seq<Value>
    var chatMessages: seq<ChatMessage>
    var chatInput: string
    var aiPrompt: string
    var aiResponse: Value
    var pdfFile: Option<File>
    var pdfSummary: Value
    const env: Env

    constructor (env: Env)
      ensures this.env == env
      ensures resourceSearch == "" && moduleSearch == "" && financialSearch == ""
      ensures resources == [] && pdfs == [] && financialResources == []
      ensures chatMessages == [] && chatInput == "" && aiPrompt == ""
      ensures aiResponse == Str("") && pdfFile == None && pdfSummary == Str("")
    {
      this.env := env;
      resourceSearch, moduleSearch, financialSearch := "", "", "";
      resources, pdfs, financialResources := [], [], [];
      chatMessages, chatInput, aiPrompt := [], "", "";
      aiResponse, pdfFile, pdfSummary := Str(""), None, Str("");
    }

    method SetChatInput(value: string)
      modifies this`chatInput
      ensures chatInput == value
    {
      chatInput := value;
    }

    method SetAiPrompt(value: string)
      modifies this`aiPrompt
      ensures aiPrompt == value
    {
      aiPrompt := value;
    }

    method SetResourceSearch(value: string)
      modifies this`resourceSearch
      ensures resourceSearch == value
    {
      resourceSearch := value;
    }

    method SetFinancialSearch(value: string)
      modifies this`financialSearch
      ensures financialSearch == value
    {
      financialSearch := value;
    }

    /** `fetchResources(search)`; returns the URL it fetched. */
    method FetchResources(search: string, encode: string -> string, reply: Response) returns (url: string)
      modifies this`resources, env`alerts
      ensures url == SearchUrl(ResourcesUrl, search, encode)
      ensures resources == ListAfter(old(resources), reply)
      ensures env.alerts == old(env.alerts) + (if reply.Threw? then ["Failed to fetch resources"] else [])
    {
      url := ResourcesUrl;
      if search != "" {
        url := url + "?q=" + encode(search);
      }
      match reply {
        case Threw =>
          env.Alert("Failed to fetch resources");
        case Answered(_, data) =>
          resources := if data.Arr? then data.items else [];
      }
    }

    /** `fetchPdfs()`, searching by the current module name. */
    method FetchPdfs(reply: Response) returns (url: string)
      modifies this`pdfs, env`alerts
      ensures url == PdfsUrlFor(moduleSearch)
      ensures pdfs == ListAfter(old(pdfs), reply)
      ensures env.alerts == old(env.alerts) + (if reply.Threw? then ["Failed to fetch PDFs"] else [])
    {
      url := PdfsUrl;
      if moduleSearch != "" {
        url := url + "/module/" + moduleSearch;
      }
      match reply {
        case Threw =>
          env.Alert("Failed to fetch PDFs");
        case Answered(_, data) =>
          pdfs := if data.Arr? then data.items else [];
      }
    }

    /** `fetchFinancialAidResources(search)`. */
    method FetchFinancialAidResources(search: string, encode: string -> string, reply: Response)
      returns (url: string)
      modifies this`financialResources, env`alerts
      ensures url == SearchUrl(FinancialAidUrl, search, encode)
      ensures financialResources == ListAfter(old(financialResources), reply)
      ensures env.alerts == old(env.alerts)
                + (if reply.Threw? then ["Failed to fetch financial aid resources"] else [])
    {
      url := FinancialAidUrl;
      if search != "" {
        url := url + "?q=" + encode(search);
      }
      match reply {
        case Threw =>
          env.Alert("Failed to fetch financial aid resources");
        case Answered(_, data) =>
          financialResources := if data.Arr? then data.items else [];
      }
    }

    /** The resources Search button: the loader with the typed term. */
    method SearchResources(encode: string -> string, reply: Response) returns (url: string)
      modifies this`resources, env`alerts
      ensures url == SearchUrl(ResourcesUrl, resourceSearch, encode)
      ensures resources == ListAfter(old(resources), reply)
      ensures env.alerts == old(env.alerts) + (if reply.Threw? then ["Failed to fetch resources"] else [])
    {
      url := FetchResources(resourceSearch, encode, reply);
    }

    /** The financial-aid Search button: the loader with the typed term. */
    method SearchFinancialAid(encode: string -> string, reply: Response) returns (url: string)
      modifies this`financialResources, env`alerts
      ensures url == SearchUrl(FinancialAidUrl, financialSearch, encode)
      ensures financialResources == ListAfter(old(financialResources), reply)
      ensures env.alerts == old(env.alerts)
                + (if reply.Threw? then ["Failed to fetch financial aid resources"] else [])
    {
      url := FetchFinancialAidResources(financialSearch, encode, reply);
    }

    /** The mount effect: the resource and financial-aid loaders with no
        search term and the PDF loader with the module name as it stands,
        each with its reply. Returns the URLs fetched, in call order. */
    method OnMount(resourcesReply: Response, pdfsReply: Response, aidReply: Response)
      returns (urls: seq<string>)
      modifies this`resources, this`pdfs, this`financialResources, env`alerts
      ensures urls == [ResourcesUrl, PdfsUrlFor(moduleSearch), FinancialAidUrl]
      ensures resources == ListAfter(old(resources), resourcesReply)
      ensures pdfs == ListAfter(old(pdfs), pdfsReply)
      ensures financialResources == ListAfter(old(financialResources), aidReply)
      ensures env.alerts == old(env.alerts)
                + (if resourcesReply.Threw? then ["Failed to fetch resources"] else [])
                + (if pdfsReply.Threw? then ["Failed to fetch PDFs"] else [])
                + (if aidReply.Threw? then ["Failed to fetch financial aid resources"] else [])
    {
      var resourcesUrl := FetchResources("", s => s, resourcesReply);
      var pdfsUrl := FetchPdfs(pdfsReply);
      var aidUrl := FetchFinancialAidResources("", s => s, aidReply);
      urls := [resourcesUrl, pdfsUrl, aidUrl];
    }

    /** `sendChatMessage` up to its `await`: a blank input does nothing;
        otherwise the student's message is logged, the box is cleared, and
        the original text is sent with the stored email or the fallback. */
    method StartChat() returns (sent: Option<Request>)
      modifies this`chatMessages, this`chatInput
      ensures Blank(old(chatInput)) ==>
                sent == None && chatMessages == old(chatMessages) && chatInput == old(chatInput)
      ensures !Blank(old(chatInput)) ==>
                && chatMessages == old(chatMessages) + [ChatMessage("student", Str(old(chatInput)))]
                && chatInput == ""
                && sent == Some(ChatRequest(ChatEmail(env.StoredSession()), old(chatInput)))
    {
      if Blank(chatInput) {
        return None;
      }
      var question := chatInput;
      var studentEmail := ChatEmail(env.StoredSession());
      chatMessages := chatMessages + [ChatMessage("student", Str(question))];
      chatInput := "";
      sent := Some(ChatRequest(studentEmail, question));
    }

    /** The rest of `sendChatMessage`: the bot's message is logged. */
    method FinishChat(reply: Response)
      modifies this`chatMessages
      ensures chatMessages == old(chatMessages) + [ChatMessage("bot", BotMessage(reply))]
    {
      chatMessages := chatMessages + [ChatMessage("bot", BotMessage(reply))];
    }

    /** `sendChatMessage` run to completion with the given reply. */
    method SendChatMessage(reply: Response) returns (sent: Option<Request>)
      modifies this`chatMessages, this`chatInput
      ensures chatMessages == ChatAfter(old(chatMessages), old(chatInput), reply)
      ensures chatInput == if Blank(old(chatInput)) then old(chatInput) else ""
      ensures sent.None? <==> Blank(old(chatInput))
      ensures sent.Some? ==> sent.value == ChatRequest(ChatEmail(env.StoredSession()), old(chatInput))
    {
      sent := StartChat();
      if sent.Some? {
        FinishChat(reply);
      }
    }

    /** `handleAiAsk` up to its `await`: a blank prompt does nothing;
        otherwise the panel shows the pending text and the prompt is sent. */
    method StartAsk() returns (sent: Option<Request>)
      modifies this`aiResponse
      ensures Blank(aiPrompt) ==> sent == None && aiResponse == old(aiResponse)
      ensures !Blank(aiPrompt) ==>
                && aiResponse == Str(Thinking)
                && sent == Some(Request("POST", AskUrl, Some(map["prompt" := Str(aiPrompt)])))
    {
      if Blank(aiPrompt) {
        return None;
      }
      aiResponse := Str(Thinking);
      sent := Some(Request("POST", AskUrl, Some(map["prompt" := Str(aiPrompt)])));
    }

    method FinishAsk(reply: Response)
      modifies this`aiResponse
      ensures aiResponse == AskAnswer(reply)
    {
      match reply {
        case Threw =>
          aiResponse := Str(AskFailure);
        case Answered(_, data) =>
          match Prop(data, "answer") {
            case None => aiResponse := Str(AskFailure);
            case Some(answer) => aiResponse := Or(answer, Str(NoAnswer));
          }
      }
    }

    /** `handleAiAsk` run to completion with the given reply. */
    method HandleAiAsk(reply: Response) returns (sent: Option<Request>)
      modifies this`aiResponse
      ensures sent.None? <==> Blank(aiPrompt)
      ensures sent.None? ==> aiResponse == old(aiResponse)
      ensures sent.Some? ==> aiResponse == AskAnswer(reply)
      ensures sent.Some? ==> sent.value == Request("POST", AskUrl, Some(map["prompt" := Str(aiPrompt)]))
    {
      sent := StartAsk();
      if sent.Some? {
        FinishAsk(reply);
      }
    }

    /** `handlePdfUpload` up to its `await`, given the input's file list:
        with no file it does nothing; otherwise it keeps the first file,
        shows the pending text and uploads that file. */
    method StartUpload(files: seq<File>) returns (uploaded: Option<File>, sent: Option<Request>)
      modifies this`pdfFile, this`pdfSummary
      ensures files == [] ==>
                && uploaded == None && sent == None
                && pdfFile == old(pdfFile) && pdfSummary == old(pdfSummary)
      ensures files != [] ==>
                && uploaded == Some(files[0]) && sent == Some(UploadRequest)
                && pdfFile == Some(files[0]) && pdfSummary == Str(Summarizing)
    {
      if files == [] {
        return None, None;
      }
      var file := files[0];
      pdfFile := Some(file);
      pdfSummary := Str(Summarizing);
      uploaded := Some(file);
      sent := Some(UploadRequest);
    }

    method FinishUpload(reply: Response)
      modifies this`pdfSummary
      ensures pdfSummary == SummaryText(reply)
    {
      match reply {
        case Threw =>
          pdfSummary := Str(SummaryFailure);
        case Answered(_, data) =>
          match Prop(data, "summary") {
            case None => pdfSummary := Str(SummaryFailure);
            case Some(summary) => pdfSummary := Or(summary, Str(NoSummary));
          }
      }
    }

    /** `handlePdfUpload` run to completion with the given reply. */
    method HandlePdfUpload(files: seq<File>, reply: Response) returns (uploaded: Option<File>, sent: Option<Request>)
      modifies this`pdfFile, this`pdfSummary
      ensures files == [] ==>
                && uploaded == None && sent == None
                && pdfFile == old(pdfFile) && pdfSummary == old(pdfSummary)
      ensures files != [] ==>
                && uploaded == Some(files[0]) && sent == Some(UploadRequest)
                && pdfFile == Some(files[0]) && pdfSummary == SummaryText(reply)
    {
      uploaded, sent := StartUpload(files);
      if uploaded.Some? {
        FinishUpload(reply);
      }
    }

    /** `logout`: forget the stored session and the App's user, then go to
        the login page. */
    method Logout()
      modifies env`store, env`appUser, env`route
      ensures env.store == old(env.store) - {SessionKey}
      ensures env.appUser == Null && env.route == "/login"
    {
      env.store := env.store - {SessionKey};
      env.appUser := Null;
      env.Navigate("/login");
    }
  }
}
