/** One chat as the bot keeps it between messages: the step its conversation
    is at and its `user_data` dictionary, both updated in place as messages
    arrive. */
module Session {
  import opened Validation
  import opened Conversation
  import opened ConversationProperties

  class Chat {
    /** The conversation's current step; `End` when none is in progress. */
    var state: State
    /** `context.user_data` for this chat. */
    var userData: map<string, string>

    /** The message step is only ever reached with a valid number stored. */
    ghost predicate Valid()
      reads this
    {
      NumberReady(state, userData)
    }

    constructor ()
      ensures Valid() && state == End && userData == map[]
    {
      state := End;
      userData := map[];
    }

    /** `get_sendmsg_number`: a valid number is stored under
        `sendmsg_number` (replacing any earlier one); anything else leaves
        `user_data` as it was. */
    method GetSendMsgNumber(number: string) returns (t: Turn)
      requires Valid()
      modifies this`userData
      ensures Valid()
      ensures t == SendMsgNumberTurn(number)
      ensures ValidPhoneNumber(number) ==> userData == old(userData)[SendMsgNumberKey := number]
      ensures !ValidPhoneNumber(number) ==> userData == old(userData)
    {
      if !ValidPhoneNumber(number) {
        return Turn([Reprompt(SendMsgAskNumber)], SendMsgAskNumber);
      }
      userData := userData[SendMsgNumberKey := number];
      t := Turn([Prompt(SendMsgAskMessage)], SendMsgAskMessage);
    }

    /** `get_sendmsg_message`: reads the stored number, calls the relay
        (whose answer is `relayOk`) only when both number and message are
        there, and ends the conversation in every case. `relayed` is the
        pair handed to the relay, if it was called. */
    method GetSendMsgMessage(message: string, relayOk: bool) returns (t: Turn, relayed: Option<(string, string)>)
      ensures t.next == End
      ensures relayed.Some? <==> SendMsgNumberKey in userData && userData[SendMsgNumberKey] != "" && message != ""
      ensures relayed.Some? ==> relayed.value == (userData[SendMsgNumberKey], message)
      ensures t == SendMsgMessageTurn(Lookup(userData, SendMsgNumberKey), message, relayOk)
    {
      var number := Lookup(userData, SendMsgNumberKey);
      if number.Some? && number.value != "" && message != "" {
        relayed := Some((number.value, message));
        t := Turn([Progress, if relayOk then Success else Failure], End);
      } else {
        relayed := None;
        t := Turn([Failure], End);
      }
    }

    /** Delivers one event: runs the handler the registration table names
        for the current step and moves to the step it returns. */
    method Receive(event: Event, env: Environment) returns (replies: seq<Reply>, relayed: Option<(string, string)>)
      requires Valid()
      modifies this
      ensures Valid()
      ensures var r := Transition(old(state), old(userData), event, env);
        replies == r.replies && state == r.next && userData == r.userData
      ensures relayed == Relayed(old(state), old(userData), event)
    {
      relayed := None;
      match event {
        case CommandEvent(c) => replies := ReceiveCommand(c, env);
        case TextEvent(text) => replies, relayed := ReceiveText(text, env);
        case MediaEvent =>
          if state == UploadWaitFile {
            var t := HandleUploadedFile();
            replies, state := t.replies, t.next;
          } else {
            replies := [];
          }
      }
      TransitionKeepsNumberReady(old(state), old(userData), event, env);
    }

    /** A command: an entry command opens its conversation when none is in
        progress; `/cancel` ends one that is. */
    method ReceiveCommand(c: Command, env: Environment) returns (replies: seq<Reply>)
      requires Valid()
      modifies this`state
      ensures Valid()
      ensures var r := Transition(old(state), userData, CommandEvent(c), env);
        replies == r.replies && state == r.next && userData == r.userData
    {
      if state == End {
        if c != Cancel && c != Other {
          var t := EntryTurn(c, env);
          replies, state := t.replies, t.next;
        } else {
          replies := [];
        }
      } else if c == Cancel {
        var t := CancelConversation();
        replies, state := t.replies, t.next;
      } else {
        replies := [];
      }
      TransitionKeepsNumberReady(old(state), userData, CommandEvent(c), env);
    }

    /** Text: the current step's text handler, or `unhandled_message` when
        the step has none. */
    method ReceiveText(text: string, env: Environment) returns (replies: seq<Reply>, relayed: Option<(string, string)>)
      requires Valid()
      modifies this
      ensures Valid()
      ensures var r := Transition(old(state), old(userData), TextEvent(text), env);
        replies == r.replies && state == r.next && userData == r.userData
      ensures relayed == Relayed(old(state), old(userData), TextEvent(text))
    {
      ghost var r := Transition(state, userData, TextEvent(text), env);
      var t: Turn;
      relayed := None;
      match state {
        case SendMsgAskNumber =>
          t := GetSendMsgNumber(text);
          assert r.replies == t.replies && r.next == t.next && r.userData == userData;
        case SendMsgAskMessage =>
          t, relayed := GetSendMsgMessage(text, env.relayOk);
          assert r == WithData(t, userData);
        case YtAskUrl =>
          t := GetYtUrl(text, env.video);
          assert r == WithData(t, userData);
        case DownloadAskUrl =>
          t := GetDownloadUrl(text);
          assert r == WithData(t, userData);
        case GetFileAskPin =>
          t := GetFileByPin(text);
          assert r == WithData(t, userData);
        case AiAskQuery =>
          t := GetAiQuery(text, env.aiAnswer);
          assert r == WithData(t, userData);
        case UploadWaitFile =>
          t := Turn(UnhandledMessage(), state);
          assert r == WithData(t, userData);
        case End =>
          t := Turn(UnhandledMessage(), End);
          assert r == WithData(t, userData);
      }
      replies, state := t.replies, t.next;
      TransitionKeepsNumberReady(old(state), old(userData), TextEvent(text), env);
    }
  }
}
