/**
 * `ChatHistory`: the conversation log, the last usage the service reported, the start
 * time and the title. Remote replies, stream items and the clock are inputs of the
 * operations; what would be sent to the service is returned as `request`.
 */
module ChatManager {
  import opened Wrappers
  import opened Messages
  import opened TokenCount
  import opened Streaming
  import opened Text

  /** The meta-instruction appended to a copy of the log to ask for a title. */
  const TitlePrompt: string :=
    "How would you title this conversation up until before this message? Answer in all lowercase with underscores \n\"_\" between words so that it can be used as a file name. Be concise."

  /** The message of one choice of a non-streaming reply. */
  datatype Choice = Choice(role: Role, content: string)

  /** A non-streaming reply: its choices and the usage, when the service reports it. */
  datatype ChatResponse = ChatResponse(choices: seq<Choice>, usage: Option<Usage>)

  /** What `client.chat().create(request).await` yields. */
  type Reply = Result<ChatResponse, ChatError>

  /** A reply whose `choices[0]` may be read: the source indexes it without a check. */
  predicate Answered(reply: Reply) {
    reply.Ok? ==> reply.value.choices != []
  }

  /** The new title and the outcome of a title request. */
  datatype TitleUpdate = TitleUpdate(title: Option<string>, outcome: Outcome<ChatError>)

  /** `populate_title`: the trimmed first choice on success; on failure the title is kept. */
  function Retitle(title: Option<string>, reply: Reply): (u: TitleUpdate)
    requires Answered(reply)
    ensures reply.Ok? ==> u.outcome == Pass && u.title.Some? && Trimmed(u.title.value)
    ensures reply.Ok? ==> u.title.value == Trim(reply.value.choices[0].content)
    ensures reply.Err? ==> u == TitleUpdate(title, Fail(reply.error))
  {
    match reply
    case Ok(response) => TitleUpdate(Some(Trim(response.choices[0].content)), Pass)
    case Err(e) => TitleUpdate(title, Fail(e))
  }

  /** `populate_title_if_empty`: a title that exists is kept and nothing is asked. */
  function RetitleIfEmpty(title: Option<string>, reply: Reply): (u: TitleUpdate)
    requires title.None? ==> Answered(reply)
    ensures title.Some? ==> u == TitleUpdate(title, Pass)
    ensures title.None? ==> u == Retitle(title, reply)
  {
    if title.Some? then TitleUpdate(title, Pass) else Retitle(title, reply)
  }

  /** A title that the lazy population set survives every later lazy population. */
  lemma RetitleIfEmptySettles(reply: Reply, later: Reply)
    requires Answered(reply)
    ensures var u := RetitleIfEmpty(None, reply);
      u.title.Some? <==> reply.Ok?
    ensures var u := RetitleIfEmpty(None, reply);
      u.title.Some? ==> RetitleIfEmpty(u.title, later) == TitleUpdate(u.title, Pass)
  {
  }

  /** `save_to_file`'s file name: `"{title}_"` (empty without a title), the time, `.yaml`. */
  function SaveFileName(title: Option<string>, time: string): (name: string)
    ensures |name| >= |time| + 5
    ensures name[|name| - 5..] == ".yaml" && name[|name| - 5 - |time|..|name| - 5] == time
    ensures title.None? ==> name == time + ".yaml"
    ensures title.Some? ==> |name| > |title.value| && name[..|title.value| + 1] == title.value + "_"
    ensures title.Some? ==> |name| == |title.value| + 1 + |time| + 5
  {
    (if title.Some? then title.value + "_" else "") + time + ".yaml"
  }

  /**
   * For one start time, the file name determines the title. So a session saved before
   * and after its title is populated is written to two different files.
   */
  lemma FileNameDeterminesTitle(x: Option<string>, y: Option<string>, time: string)
    ensures SaveFileName(x, time) == SaveFileName(y, time) ==> x == y
  {
    if SaveFileName(x, time) == SaveFileName(y, time) {
      var px := if x.Some? then x.value + "_" else "";
      var py := if y.Some? then y.value + "_" else "";
      var n := SaveFileName(x, time);
      assert n == px + (time + ".yaml") && n == py + (time + ".yaml");
      assert px == n[..|n| - |time| - 5] == py;
      if x.Some? && y.Some? {
        assert x.value == px[..|px| - 1] && y.value == py[..|py| - 1];
      }
    }
  }

  /** Manager for one conversation. */
  class ChatHistory {
    var history: seq<Message>
    var tokenUsage: Option<Usage>
    var conversationStart: Option<string>
    var conversationTitle: Option<string>

    /** `new(prompt)`: the log holds the System prompt alone; `now` is the clock's reading. */
    constructor (prompt: string, now: string)
      ensures history == [Plain(System, prompt)]
      ensures tokenUsage == None && conversationStart == Some(now) && conversationTitle == None
    {
      history := [Plain(System, prompt)];
      tokenUsage := None;
      conversationStart := Some(now);
      conversationTitle := None;
    }

    /** The session `load_from_file` rebuilds: the stored log, everything else reset. */
    constructor Load(doc: HistoryStorage)
      ensures history == FromStorage(doc)
      ensures tokenUsage == None && conversationStart == None && conversationTitle == None
    {
      history := FromStorage(doc);
      tokenUsage := None;
      conversationStart := None;
      conversationTitle := None;
    }

    /** `load_from_file`, given the decoded file or the error opening or decoding it. */
    static method LoadFromFile(file: Result<HistoryStorage, ChatError>) returns (r: Result<ChatHistory, ChatError>)
      ensures file.Err? ==> r == Err(file.error)
      ensures file.Ok? ==> r.Ok? && fresh(r.value)
      ensures file.Ok? ==> r.value.history == FromStorage(file.value) && r.value.tokenUsage == None
      ensures file.Ok? ==> r.value.conversationStart == None && r.value.conversationTitle == None
    {
      if file.Err? {
        r := Err(file.error);
      } else {
        var session := new ChatHistory.Load(file.value);
        r := Ok(session);
      }
    }

    /** `count_tokens`: the loop over the log, with `tok` the tokenizer's count. */
    method CountTokens(tok: string -> nat) returns (count: int)
      ensures count == Estimate(history, tok)
    {
      count := Correction;
      for i := 0 to |history|
        invariant count == Estimate(history[..i], tok)
      {
        var message := history[i];
        match message.role {
          case User =>
            count := count + Overhead;
            if message.name.Some? {
              count := count - 1;
              count := count + tok(message.name.value);
            }
          case System =>
            count := count + Overhead;
          case Assistant =>
            count := count + Overhead;
        }
        count := count + tok(RoleName(message.role));
        count := count + tok(message.content);
        assert history[..i + 1][..i] == history[..i];
      }
      assert history[..|history|] == history;
    }

    /** `pop_last_message`: removes and returns the last message, if any. */
    method PopLastMessage() returns (m: Option<Message>)
      modifies this`history
      ensures old(history) == [] ==> m == None && history == []
      ensures old(history) != [] ==> m.Some? && old(history) == history + [m.value]
    {
      if history == [] {
        m := None;
      } else {
        m := Some(history[|history| - 1]);
        history := history[..|history| - 1];
      }
    }

    /** `populate_title`: asks with a copy of the log, so the log itself is untouched. */
    method PopulateTitle(reply: Reply) returns (request: seq<Message>, r: Outcome<ChatError>)
      requires Answered(reply)
      modifies this`conversationTitle
      ensures history == old(history)
      ensures request == history + [Plain(User, TitlePrompt)]
      ensures TitleUpdate(conversationTitle, r) == Retitle(old(conversationTitle), reply)
    {
      var historyCopy := history;
      historyCopy := historyCopy + [Plain(User, TitlePrompt)];
      request := historyCopy;
      match reply
      case Err(e) =>
        r := Fail(e);
      case Ok(response) =>
        conversationTitle := Some(Trim(response.choices[0].content));
        r := Pass;
    }

    /**
     * `populate_title_if_empty`: asks for a title only when there is none. The request
     * sent, if any, is returned as `titleRequest`.
     */
    method PopulateTitleIfEmpty(reply: Reply) returns (titleRequest: Option<seq<Message>>, r: Outcome<ChatError>)
      requires conversationTitle.None? ==> Answered(reply)
      modifies this`conversationTitle
      ensures titleRequest == if old(conversationTitle).None? then Some(history + [Plain(User, TitlePrompt)]) else None
      ensures TitleUpdate(conversationTitle, r) == RetitleIfEmpty(old(conversationTitle), reply)
    {
      r := Pass;
      titleRequest := None;
      if conversationTitle.None? {
        var request, outcome := PopulateTitle(reply);
        titleRequest := Some(request);
        r := outcome;
      }
    }

    /**
     * `next_message`: pushes the User message, asks the service with the whole log
     * (`reply` is its answer), pushes the first choice, replaces the usage, then
     * populates the title if there is none (`titleReply` answers that request, which is
     * returned as `titleRequest` and holds the log with the reply already pushed).
     */
    method NextMessage(userMessage: string, reply: Reply, titleReply: Reply)
      returns (request: seq<Message>, titleRequest: Option<seq<Message>>, r: Result<string, ChatError>)
      requires Answered(reply)
      requires reply.Ok? && conversationTitle.None? ==> Answered(titleReply)
      modifies this`history, this`tokenUsage, this`conversationTitle
      ensures request == old(history) + [Plain(User, userMessage)]
      ensures reply.Err? ==> history == request && r == Err(reply.error)
      ensures reply.Err? ==> tokenUsage == old(tokenUsage) && conversationTitle == old(conversationTitle)
      ensures reply.Err? ==> titleRequest == None
      ensures reply.Ok? ==>
        titleRequest == if old(conversationTitle).None? then Some(history + [Plain(User, TitlePrompt)]) else None
      ensures reply.Ok? ==>
        var choice := reply.value.choices[0];
        history == request + [Plain(choice.role, choice.content)] && tokenUsage == reply.value.usage
      ensures reply.Ok? ==>
        var u := RetitleIfEmpty(old(conversationTitle), titleReply);
        conversationTitle == u.title
        && r == (if u.outcome.Pass? then Ok(reply.value.choices[0].content) else Err(u.outcome.error))
    {
      history := history + [Plain(User, userMessage)];
      request := history;
      match reply
      case Err(e) =>
        titleRequest := None;
        r := Err(e);
      case Ok(response) =>
        var choice := response.choices[0];
        history := history + [Plain(choice.role, choice.content)];
        tokenUsage := response.usage;
        var outcome;
        titleRequest, outcome := PopulateTitleIfEmpty(titleReply);
        r := if outcome.Pass? then Ok(choice.content) else Err(outcome.error);
    }

    /**
     * `next_message_stream_stdout`: pushes the User message, then folds the stream.
     * A failed item or one without a first choice ends the turn before any reply is
     * pushed; usage reported up to that point stays recorded.
     */
    method NextMessageStream(userMessage: string, stream: seq<StreamItem>, titleReply: Reply)
      returns (request: seq<Message>, titleRequest: Option<seq<Message>>, r: Result<string, ChatError>)
      requires Consume(stream, Start(tokenUsage)).failure.None? && conversationTitle.None? ==> Answered(titleReply)
      modifies this`history, this`tokenUsage, this`conversationTitle
      ensures request == old(history) + [Plain(User, userMessage)]
      ensures tokenUsage == Consume(stream, Start(old(tokenUsage))).acc.usage
      ensures var c := Consume(stream, Start(old(tokenUsage)));
        c.failure.Some? ==>
          history == request && conversationTitle == old(conversationTitle) && r == Err(c.failure.value)
          && titleRequest == None
      ensures var c := Consume(stream, Start(old(tokenUsage)));
        c.failure.None? ==>
          var u := RetitleIfEmpty(old(conversationTitle), titleReply);
          history == request + [StreamedReply(c.acc)] && conversationTitle == u.title
          && titleRequest == (if old(conversationTitle).None? then Some(history + [Plain(User, TitlePrompt)]) else None)
          && r == (if u.outcome.Pass? then Ok(c.acc.buffer) else Err(u.outcome.error))
    {
      history := history + [Plain(User, userMessage)];
      request := history;
      titleRequest := None;
      ghost var start := Start(tokenUsage);
      var responseRole: Option<Role> := None;
      var responseContentBuffer := "";
      var i := 0;
      while i < |stream|
        invariant 0 <= i <= |stream|
        invariant history == request && conversationTitle == old(conversationTitle)
        invariant Consume(stream[..i], start) == Consumed(Accumulator(responseRole, responseContentBuffer, tokenUsage), None)
      {
        assert stream[..i + 1][..i] == stream[..i];
        match stream[i]
        case Err(e) =>
          ConsumeStops(stream, i + 1, start);
          r := Err(e);
          return;
        case Ok(response) =>
          if response.usage.Some? {
            tokenUsage := response.usage;
          }
          if response.choices == [] {
            ConsumeStops(stream, i + 1, start);
            r := Err(NoFirstChoice);
            return;
          }
          var delta := response.choices[0];
          if delta.role.Some? {
            responseRole := delta.role;
          }
          if delta.content.Some? {
            responseContentBuffer := responseContentBuffer + delta.content.value;
          }
          i := i + 1;
      }
      assert stream[..i] == stream;
      history := history + [Plain(responseRole.GetOr(Assistant), responseContentBuffer)];
      var outcome;
      titleRequest, outcome := PopulateTitleIfEmpty(titleReply);
      r := if outcome.Pass? then Ok(responseContentBuffer) else Err(outcome.error);
    }

    /**
     * `save_to_file`: the file name and the document written to it. Without a start
     * time (a loaded session) the clock's `now` is used instead.
     */
    method SaveToFile(now: string) returns (fileName: string, doc: HistoryStorage)
      ensures fileName == SaveFileName(conversationTitle, conversationStart.GetOr(now))
      ensures doc == ToStorage(history) && FromStorage(doc) == history
    {
      var time := conversationStart.GetOr(now);
      var title := if conversationTitle.Some? then conversationTitle.value + "_" else "";
      fileName := title + time + ".yaml";
      doc := ToStorage(history);
      StorageRoundTrip(history);
    }
  }
}
