/** What the conversation table guarantees over every step, every input and
    every collaborator outcome. */
module ConversationProperties {
  import opened Validation
  import opened Conversation
  import opened Pins

  /** Input a step rejects keeps the chat on that step, leaves `user_data`
      alone and asks again for the same input. */
  lemma RejectedInputStays(state: State, userData: map<string, string>, text: string, env: Environment)
    requires TakesText(state) && !Accepts(state, text)
    ensures Transition(state, userData, TextEvent(text), env) == Response([Reprompt(state)], state, userData)
  {
  }

  /** Input a step accepts always moves the chat on: the recipient step to
      the message step, every other step to the end of the conversation,
      whatever the relay, the downloader or the AI service do. */
  lemma AcceptedInputAdvances(state: State, userData: map<string, string>, text: string, env: Environment)
    requires TakesText(state) && Accepts(state, text)
    ensures Transition(state, userData, TextEvent(text), env).next
      == if state == SendMsgAskNumber then SendMsgAskMessage else End
  {
  }

  /** An attachment in the upload step always ends the conversation. */
  lemma UploadEnds(userData: map<string, string>, env: Environment)
    ensures Transition(UploadWaitFile, userData, MediaEvent, env) == Response([Progress], End, userData)
  {
  }

  /** `/cancel` ends any conversation in progress and changes nothing else. */
  lemma CancelEnds(state: State, userData: map<string, string>, env: Environment)
    requires state != End
    ensures Transition(state, userData, CommandEvent(Cancel), env) == Response([Cancelled], End, userData)
  {
  }

  /** `/cancel` with no conversation gets no reply and starts nothing, so a
      second `/cancel` right after the first is harmless. */
  lemma CancelTwice(state: State, userData: map<string, string>, env: Environment)
    ensures var first := Transition(state, userData, CommandEvent(Cancel), env);
      first.next == End && first.userData == userData &&
      Transition(first.next, first.userData, CommandEvent(Cancel), env) == Response([], End, userData)
  {
  }

  /** A conversation never moves into another workflow's step: the next step
      is the end, or belongs to the conversation in progress, or is the first
      step of the entry command that opened a new one. */
  lemma NoCrossWorkflowStep(state: State, userData: map<string, string>, event: Event, env: Environment)
    ensures var r := Transition(state, userData, event, env);
      || r.next == End
      || (state != End && EntryOf(r.next) == EntryOf(state))
      || (&& state == End && event.CommandEvent? && event.command != Cancel && event.command != Other
          && r.next == FirstStep(event.command))
  {
    match event {
      case CommandEvent(c) =>
        if state == End && c != Cancel && c != Other {
          assert Transition(state, userData, event, env).next == EntryTurn(c, env).next;
        }
      case TextEvent(_) =>
      case MediaEvent =>
    }
  }

  /** `user_data` changes only when the recipient step accepts a number, and
      then only by storing that number. */
  lemma UserDataOnlyStoresNumber(state: State, userData: map<string, string>, event: Event, env: Environment)
    ensures var r := Transition(state, userData, event, env);
      || r.userData == userData
      || (state == SendMsgAskNumber && event.TextEvent? && ValidPhoneNumber(event.text)
          && r.userData == userData[SendMsgNumberKey := event.text])
  {
    match event {
      case CommandEvent(_) =>
      case MediaEvent =>
      case TextEvent(text) =>
        if state != SendMsgAskNumber {
          assert Transition(state, userData, event, env).userData == userData;
        }
    }
  }

  /** Ending the send-message conversation does not forget the number: it
      stays in `user_data` after the conversation is over. */
  lemma NumberOutlivesConversation(userData: map<string, string>, message: string, env: Environment)
    requires SendMsgNumberKey in userData
    ensures var r := Transition(SendMsgAskMessage, userData, TextEvent(message), env);
      r.next == End && r.userData == userData && SendMsgNumberKey in r.userData
  {
  }

  /** An entry command with its service configured opens its own
      workflow's first step and asks for that step's input. */
  lemma EntryPromptsFirstStep(command: Command, userData: map<string, string>, env: Environment)
    requires command != Cancel && command != Other && ServiceReady(command, env)
    ensures EntryOf(FirstStep(command)) == command
    ensures Transition(End, userData, CommandEvent(command), env)
      == Response([Prompt(FirstStep(command))], FirstStep(command), userData)
  {
  }

  /** Text that no step takes gets the "not understood" reply and opens
      nothing: with no conversation, and in the upload step, which waits for
      an attachment. */
  lemma UnrecognisedTextChangesNothing(state: State, userData: map<string, string>, text: string, env: Environment)
    requires state == End || state == UploadWaitFile
    ensures Transition(state, userData, TextEvent(text), env) == Response([Unrecognised], state, userData)
  {
  }

  /** Commands other than `/cancel` do not disturb a conversation in
      progress, and attachments outside the upload step are ignored. */
  lemma OtherEventsIgnored(state: State, userData: map<string, string>, event: Event, env: Environment)
    requires state != End
    requires (event.CommandEvent? && event.command != Cancel) || (event.MediaEvent? && state != UploadWaitFile)
    ensures Transition(state, userData, event, env) == Response([], state, userData)
  {
  }

  /** With the service missing, `/upload_file`, `/get_file` and `/ask_ai`
      reply "unavailable" and open no conversation. */
  lemma MissingServiceOpensNothing(userData: map<string, string>, env: Environment)
    ensures !env.filesAvailable ==>
      && Transition(End, userData, CommandEvent(UploadFile), env) == Response([Unavailable], End, userData)
      && Transition(End, userData, CommandEvent(GetFile), env) == Response([Unavailable], End, userData)
    ensures !env.aiAvailable ==>
      Transition(End, userData, CommandEvent(AskAi), env) == Response([Unavailable], End, userData)
  {
  }

  /** The send-message exchange: `/sendmsg`, a rejected "abc", the number
      "94712345678" and the message "hello" relay exactly that pair and end,
      with the relay's answer as the last reply. */
  lemma SendMessageScenario(env: Environment)
    ensures
      var r1 := Transition(End, map[], CommandEvent(SendMsg), env);
      var r2 := Transition(r1.next, r1.userData, TextEvent("abc"), env);
      var r3 := Transition(r2.next, r2.userData, TextEvent("94712345678"), env);
      var r4 := Transition(r3.next, r3.userData, TextEvent("hello"), env);
      && r1 == Response([Prompt(SendMsgAskNumber)], SendMsgAskNumber, map[])
      && r2 == Response([Reprompt(SendMsgAskNumber)], SendMsgAskNumber, map[])
      && r3 == Response([Prompt(SendMsgAskMessage)], SendMsgAskMessage, map[SendMsgNumberKey := "94712345678"])
      && Relayed(r3.next, r3.userData, TextEvent("hello")) == Some(("94712345678", "hello"))
      && r4.next == End
      && r4.replies == [Progress, if env.relayOk then Success else Failure]
  {
  }

  /** In the message step the relay is called exactly when the "sending"
      progress reply goes out, and its verdict is then the last reply. */
  lemma RelayCalledIffProgress(userData: map<string, string>, message: string, env: Environment)
    ensures var r := Transition(SendMsgAskMessage, userData, TextEvent(message), env);
      && (Relayed(SendMsgAskMessage, userData, TextEvent(message)).Some? <==> r.replies[0] == Progress)
      && (Relayed(SendMsgAskMessage, userData, TextEvent(message)).Some? ==>
            r.replies == [Progress, if env.relayOk then Success else Failure])
  {
  }

  /** A PIN the bot generated, typed back in any mix of cases with a leading
      blank and a trailing newline, is looked up exactly as it was generated. */
  lemma PinLookupScenario(pin: string, typed: string, userData: map<string, string>, env: Environment)
    requires IsPin(pin, DefaultPinLength) && SameUpToCase(typed, pin)
    ensures Transition(GetFileAskPin, userData, TextEvent(" " + typed + "\n"), env)
      == Response([Searching(pin)], End, userData)
  {
    var text := " " + typed + "\n";
    AnyCasePinIsFound(pin, typed);
    assert GetFileByPin(text) == Turn([Searching(pin)], End);
    PinStepLooksUp(userData, text, env);
  }

  /** The PIN step hands the whole text to `get_file_by_pin`. */
  lemma PinStepLooksUp(userData: map<string, string>, text: string, env: Environment)
    ensures Transition(GetFileAskPin, userData, TextEvent(text), env) == WithData(GetFileByPin(text), userData)
  {
  }

  /** Whenever the chat waits for the message text, a valid recipient number
      is stored: the invariant of the send-message conversation. */
  predicate NumberReady(state: State, userData: map<string, string>) {
    state == SendMsgAskMessage ==>
      SendMsgNumberKey in userData && ValidPhoneNumber(userData[SendMsgNumberKey])
  }

  /** The chat after a sequence of events, each with its collaborators' outcomes. */
  function Run(state: State, userData: map<string, string>, trace: seq<(Event, Environment)>): (r: Response)
    decreases |trace|
  {
    if trace == [] then Response([], state, userData)
    else
      var first := Transition(state, userData, trace[0].0, trace[0].1);
      var rest := Run(first.next, first.userData, trace[1..]);
      Response(first.replies + rest.replies, rest.next, rest.userData)
  }

  /** Every event keeps the invariant. */
  lemma TransitionKeepsNumberReady(state: State, userData: map<string, string>, event: Event, env: Environment)
    requires NumberReady(state, userData)
    ensures var r := Transition(state, userData, event, env); NumberReady(r.next, r.userData)
  {
  }

  /** Every sequence of events keeps the invariant. */
  lemma {:induction false} RunKeepsNumberReady(state: State, userData: map<string, string>, trace: seq<(Event, Environment)>)
    requires NumberReady(state, userData)
    ensures var r := Run(state, userData, trace); NumberReady(r.next, r.userData)
    decreases |trace|
  {
    if trace != [] {
      TransitionKeepsNumberReady(state, userData, trace[0].0, trace[0].1);
      var first := Transition(state, userData, trace[0].0, trace[0].1);
      RunKeepsNumberReady(first.next, first.userData, trace[1..]);
    }
  }

  /** Once stored, the number stays in `user_data` through any sequence of
      events, including the end of the conversation and `/cancel`. */
  lemma {:induction false} RunKeepsNumber(state: State, userData: map<string, string>, trace: seq<(Event, Environment)>)
    requires SendMsgNumberKey in userData
    ensures SendMsgNumberKey in Run(state, userData, trace).userData
    decreases |trace|
  {
    if trace != [] {
      var first := Transition(state, userData, trace[0].0, trace[0].1);
      UserDataOnlyStoresNumber(state, userData, trace[0].0, trace[0].1);
      RunKeepsNumber(first.next, first.userData, trace[1..]);
    }
  }

  /** On a chat that starts with no conversation and empty `user_data`, the
      message step never takes the "number missing" branch: whatever came
      before, non-empty message text is handed to the relay. */
  lemma MessageStepAlwaysRelays(trace: seq<(Event, Environment)>, message: string, env: Environment)
    requires message != ""
    requires Run(End, map[], trace).next == SendMsgAskMessage
    ensures var r := Run(End, map[], trace);
      && SendMsgNumberKey in r.userData
      && Relayed(r.next, r.userData, TextEvent(message)) == Some((r.userData[SendMsgNumberKey], message))
      && ValidPhoneNumber(r.userData[SendMsgNumberKey])
      && Transition(r.next, r.userData, TextEvent(message), env).replies
        == [Progress, if env.relayOk then Success else Failure]
  {
    RunKeepsNumberReady(End, map[], trace);
  }
}
