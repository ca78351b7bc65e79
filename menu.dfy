/**
 * The decisions of the interactive loop in `main`: how the session is started, the
 * `/?` action menu, and what each action does to the session before the next turn.
 */
module Menu {
  import opened Wrappers
  import opened Messages
  import opened ChatManager

  /** What the user typed to open the action menu. */
  const MenuCommand: string := "/?"

  datatype UserAction = ReturnToChat | RecreateTitle | RegenerateResponse | PrintChatHistory

  /** `UserActions::as_str`: the menu label of an action. */
  function AsStr(a: UserAction): string {
    match a
    case ReturnToChat => "Return to chat"
    case RecreateTitle => "Recreate title"
    case RegenerateResponse => "Regenerate response"
    case PrintChatHistory => "Print chat history"
  }

  /** Distinct actions are shown with distinct labels. */
  lemma AsStrInjective(a: UserAction, b: UserAction)
    ensures AsStr(a) == AsStr(b) ==> a == b
  {
  }

  /** `UserActions::all`: every action once, in menu order. */
  function All(): (r: seq<UserAction>)
    ensures |r| == 4
    ensures forall a :: a in r
    ensures forall i, j :: 0 <= i < j < |r| ==> r[i] != r[j]
    ensures r[0] == ReturnToChat
  {
    var r := [ReturnToChat, RecreateTitle, RegenerateResponse, PrintChatHistory];
    assert forall a :: a in r by {
      forall a ensures a in r {
        assert a == r[0] || a == r[1] || a == r[2] || a == r[3];
      }
    }
    r
  }

  /** `UserActions::all_str`: the labels shown, one per action of `All()`, in order. */
  function AllStr(): (r: seq<string>)
    ensures |r| == |All()|
    ensures forall i :: 0 <= i < |r| ==> r[i] == AsStr(All()[i])
    ensures forall i, j :: 0 <= i < j < |r| ==> r[i] != r[j]
  {
    var all := All();
    assert forall i, j :: 0 <= i < j < |all| ==> AsStr(all[i]) != AsStr(all[j]) by {
      forall i, j | 0 <= i < j < |all| ensures AsStr(all[i]) != AsStr(all[j]) {
        AsStrInjective(all[i], all[j]);
      }
    }
    seq(|all|, i requires 0 <= i < |all| => AsStr(all[i]))
  }

  /**
   * `selection.and_then(|index| UserActions::all().get(index))`: a dismissed menu or an
   * index past the end selects nothing; otherwise the action whose label was shown there.
   */
  function Select(selection: Option<nat>): (r: Option<UserAction>)
    ensures r.Some? <==> selection.Some? && selection.value < |All()|
    ensures r.Some? ==> AllStr()[selection.value] == AsStr(r.value)
  {
    if selection.Some? && selection.value < |All()| then Some(All()[selection.value]) else None
  }

  /** What the loop does next: prompt again, submit a question, or leave `main` with an error. */
  datatype Step = Continue | Submit(question: string) | Exit(error: ChatError)

  /** The log left by popping twice. */
  function RegeneratedLog(h: seq<Message>): seq<Message> {
    if |h| >= 2 then h[..|h| - 2] else []
  }

  /** The question resubmitted: the second popped message's content, `""` if none was left. */
  function RegeneratedQuestion(h: seq<Message>): string {
    if |h| >= 2 then h[|h| - 2].content else ""
  }

  /**
   * Regenerating a turn `[.., User q, Assistant a]` and getting the new reply back leaves
   * a log as long as before, ending with the same question.
   */
  lemma RegenerateRestoresLength(h: seq<Message>, reply: Message)
    requires |h| >= 2
    ensures var r := RegeneratedLog(h) + [Plain(User, RegeneratedQuestion(h)), reply];
      |r| == |h| && r[..|h| - 2] == h[..|h| - 2] && r[|h| - 2].content == h[|h| - 2].content
  {
  }

  /** With fewer than two messages the log ends up empty and an empty question is submitted. */
  lemma RegenerateOnShortLog(h: seq<Message>)
    requires |h| < 2
    ensures RegeneratedLog(h) == [] && RegeneratedQuestion(h) == ""
  {
  }

  /** On `[System, User "hi", Assistant "hello"]` the log becomes `[System]` and "hi" is resubmitted. */
  lemma RegenerateExample(prompt: string)
    ensures var h := [Plain(System, prompt), Plain(User, "hi"), Plain(Assistant, "hello")];
      RegeneratedLog(h) == [Plain(System, prompt)] && RegeneratedQuestion(h) == "hi"
  {
  }

  /** The RegenerateResponse arm: pop (the reply), pop again (the question), reuse its content. */
  method Regenerate(chat: ChatHistory) returns (question: string)
    modifies chat`history
    ensures chat.history == RegeneratedLog(old(chat.history))
    ensures question == RegeneratedQuestion(old(chat.history))
  {
    var _ := chat.PopLastMessage();
    var popped := chat.PopLastMessage();
    question := if popped.Some? then popped.value.content else "";
  }

  /**
   * One pass of the loop from the typed `input`: anything but `"/?"` is submitted as the
   * question; `"/?"` opens the menu and runs its `match selection`. Only RegenerateResponse
   * submits from the menu; only RecreateTitle touches the title (and sends the title
   * request, returned as `titleRequest`), and nothing but it and RegenerateResponse
   * touches the session. Printing the history shows it and changes nothing.
   */
  method Dispatch(chat: ChatHistory, input: string, selection: Option<nat>, titleReply: Reply)
    returns (step: Step, titleRequest: Option<seq<Message>>)
    requires input == MenuCommand && Select(selection) == Some(RecreateTitle) ==> Answered(titleReply)
    modifies chat`history, chat`conversationTitle
    ensures input != MenuCommand ==>
      step == Submit(input) && titleRequest == None
      && chat.history == old(chat.history) && chat.conversationTitle == old(chat.conversationTitle)
    ensures input == MenuCommand && Select(selection) != Some(RegenerateResponse) ==> chat.history == old(chat.history)
    ensures input == MenuCommand && Select(selection) != Some(RecreateTitle) ==>
      chat.conversationTitle == old(chat.conversationTitle) && titleRequest == None
    ensures input == MenuCommand && Select(selection) == Some(RecreateTitle) ==>
      var u := Retitle(old(chat.conversationTitle), titleReply);
      chat.conversationTitle == u.title && step == (if u.outcome.Pass? then Continue else Exit(u.outcome.error))
      && titleRequest == Some(old(chat.history) + [Plain(User, TitlePrompt)])
    ensures input == MenuCommand && Select(selection) == Some(RegenerateResponse) ==>
      chat.history == RegeneratedLog(old(chat.history)) && step == Submit(RegeneratedQuestion(old(chat.history)))
    ensures input == MenuCommand && Select(selection) in {None, Some(ReturnToChat), Some(PrintChatHistory)} ==>
      step == Continue
  {
    titleRequest := None;
    if input != MenuCommand {
      step := Submit(input);
      return;
    }
    match Select(selection)
    case Some(ReturnToChat) =>
      step := Continue;
    case Some(RecreateTitle) =>
      var request, outcome := chat.PopulateTitle(titleReply);
      titleRequest := Some(request);
      step := if outcome.Pass? then Continue else Exit(outcome.error);
    case Some(RegenerateResponse) =>
      var question := Regenerate(chat);
      step := Submit(question);
    case Some(PrintChatHistory) =>
      step := Continue;
    case None =>
      step := Continue;
  }

  /** The `"joi"` system prompt, rendered with the clock reading `time`. */
  function JoiPrompt(time: string): (p: string)
    ensures |p| > |time| && p[|p| - |time|..] == time
  {
    "You are Joi. The cheerful and helpful AI assistant. \nKnowledge cutoff year September 2021 Current date and time: " + time
  }

  /**
   * The session `main` starts with: the given file loaded (or its error), otherwise a
   * new session seeded with the `"joi"` prompt.
   */
  method StartSession(file: Option<Result<HistoryStorage, ChatError>>, promptTime: string, now: string)
    returns (r: Result<ChatHistory, ChatError>)
    ensures file.Some? && file.value.Err? ==> r == Err(file.value.error)
    ensures file.Some? && file.value.Ok? ==>
      r.Ok? && fresh(r.value) && r.value.history == FromStorage(file.value.value)
      && r.value.conversationStart == None && r.value.conversationTitle == None && r.value.tokenUsage == None
    ensures file.None? ==>
      r.Ok? && fresh(r.value) && r.value.history == [Plain(System, JoiPrompt(promptTime))]
      && r.value.conversationStart == Some(now) && r.value.conversationTitle == None && r.value.tokenUsage == None
  {
    if file.Some? {
      r := ChatHistory.LoadFromFile(file.value);
    } else {
      var session := new ChatHistory(JoiPrompt(promptTime), now);
      r := Ok(session);
    }
  }
}
