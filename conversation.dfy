/** The per-chat conversation state machine: the steps each workflow waits
    in, the replies the bot sends, one decision function per handler, and the
    routing of an incoming event to the handler registered for the current
    step. Collaborators (the message relay, the video downloader, the AI
    model, the file store) appear only through their outcomes. */
module Conversation {
  import opened Text
  import opened Validation

  /** The seven conversation steps, and `End` for "no conversation". */
  datatype State =
    | SendMsgAskNumber
    | SendMsgAskMessage
    | YtAskUrl
    | UploadWaitFile
    | GetFileAskPin
    | AiAskQuery
    | DownloadAskUrl
    | End

  /** The commands a user can type. `Other` is any command outside the
      conversation table (such as `/start`). */
  datatype Command =
    | SendMsg
    | YtDownload
    | DownloadUrl
    | UploadFile
    | GetFile
    | AskAi
    | Cancel
    | Other

  /** An incoming message: a command, non-command text, or an attachment
      (document, video, audio or photo). */
  datatype Event =
    | CommandEvent(command: Command)
    | TextEvent(text: string)
    | MediaEvent

  /** The kinds of message the bot sends back. */
  datatype Reply =
    | Prompt(step: State)      // asks for the input that `step` waits for
    | Reprompt(step: State)    // rejects the input and asks for it again
    | Unavailable              // the service behind the command is not configured
    | Progress                 // the workflow's action has started
    | Searching(pin: string)   // the file lookup has started, quoting the PIN
    | Success
    | Failure
    | TooLarge                 // the downloaded video exceeds the size ceiling
    | Answer(text: string)     // the AI service's text, passed on verbatim
    | Cancelled
    | Unrecognised

  /** What one handler call produces: the replies, in order, and the step the
      conversation is in afterwards. */
  datatype Turn = Turn(replies: seq<Reply>, next: State)

  /** How the video download went: a file was written (with its size in
      bytes, and whether sending it to the chat succeeded), no file appeared,
      or the downloader raised. */
  datatype VideoOutcome =
    | Saved(size: nat, delivered: bool)
    | NotSaved
    | Raised

  /** What the bot's collaborators do for one event: whether the file store
      and the AI model were configured at start-up, whether the relay
      accepted the message, how the video download went, and the text the AI
      call returned (its own fallback text when that call failed). */
  datatype Environment = Environment(
    filesAvailable: bool,
    aiAvailable: bool,
    relayOk: bool,
    video: VideoOutcome,
    aiAnswer: string)

  /** The size ceiling for a video sent back to the chat: 50 MiB. */
  const MaxVideoBytes: nat := 50 * 1024 * 1024

  /** The `user_data` key under which the recipient number is kept. */
  const SendMsgNumberKey := "sendmsg_number"

  /** The command whose conversation a step belongs to. */
  function EntryOf(s: State): Command
    requires s != End
  {
    match s
    case SendMsgAskNumber => SendMsg
    case SendMsgAskMessage => SendMsg
    case YtAskUrl => YtDownload
    case UploadWaitFile => UploadFile
    case GetFileAskPin => GetFile
    case AiAskQuery => AskAi
    case DownloadAskUrl => DownloadUrl
  }

  /** Steps whose handler is fed by text messages; `UploadWaitFile` is fed by attachments. */
  predicate TakesText(s: State) {
    s != End && s != UploadWaitFile
  }

  // ---- Send a message ----

  /** `start_send_message` */
  function StartSendMessage(): Turn
  {
    Turn([Prompt(SendMsgAskNumber)], SendMsgAskNumber)
  }

  /** The replies and next step of `get_sendmsg_number`; what it stores is
      stated by `Session.Chat.GetSendMsgNumber`. */
  function SendMsgNumberTurn(number: string): (t: Turn)
    ensures t.next == SendMsgAskNumber <==> !ValidPhoneNumber(number)
    ensures t.next == SendMsgAskMessage <==> ValidPhoneNumber(number)
    ensures t.replies == (if ValidPhoneNumber(number) then [Prompt(SendMsgAskMessage)] else [Reprompt(SendMsgAskNumber)])
  {
    if !ValidPhoneNumber(number) then Turn([Reprompt(SendMsgAskNumber)], SendMsgAskNumber)
    else Turn([Prompt(SendMsgAskMessage)], SendMsgAskMessage)
  }

  /** The relay is called only with a stored, non-empty number and a
      non-empty message. */
  predicate WillRelay(number: Option<string>, message: string) {
    number.Some? && number.value != "" && message != ""
  }

  /** `get_sendmsg_message`, given the stored number (if any), the message
      text and the relay's answer. It always ends the conversation. */
  function SendMsgMessageTurn(number: Option<string>, message: string, relayOk: bool): (t: Turn)
    ensures t.next == End
    ensures WillRelay(number, message) ==> t.replies == [Progress, if relayOk then Success else Failure]
    ensures !WillRelay(number, message) ==> t.replies == [Failure]
  {
    if WillRelay(number, message) then
      Turn([Progress, if relayOk then Success else Failure], End)
    else
      Turn([Failure], End)
  }

  // ---- Download a YouTube video ----

  /** `start_yt_download` */
  function StartYtDownload(): Turn
  {
    Turn([Prompt(YtAskUrl)], YtAskUrl)
  }

  /** The final reply of an accepted YouTube request. */
  function VideoReply(video: VideoOutcome): (r: Reply)
    ensures r == Success <==> video.Saved? && video.size <= MaxVideoBytes && video.delivered
    ensures r == TooLarge <==> video.Saved? && video.size > MaxVideoBytes
    ensures r in {Success, TooLarge, Failure}
  {
    match video
    case Saved(size, delivered) =>
      if size > MaxVideoBytes then TooLarge
      else if delivered then Success
      else Failure
    case NotSaved => Failure
    case Raised => Failure
  }

  /** `get_yt_url`: stays on the step until the text names a YouTube host;
      once it does, the conversation ends whatever the download does. */
  function GetYtUrl(url: string, video: VideoOutcome): (t: Turn)
    ensures t.next == YtAskUrl <==> !IsYouTubeUrl(url)
    ensures t.next == End <==> IsYouTubeUrl(url)
    ensures !IsYouTubeUrl(url) ==> t.replies == [Reprompt(YtAskUrl)]
    ensures IsYouTubeUrl(url) ==> t.replies == [Progress, VideoReply(video)]
  {
    if !IsYouTubeUrl(url) then Turn([Reprompt(YtAskUrl)], YtAskUrl)
    else Turn([Progress, VideoReply(video)], End)
  }

  // ---- Download a URL ----

  /** `start_download_url` */
  function StartDownloadUrl(): Turn
  {
    Turn([Prompt(DownloadAskUrl)], DownloadAskUrl)
  }

  /** `get_download_url`: stays until the text has an HTTP(S) scheme, then
      announces the download and ends (the handler performs no download). */
  function GetDownloadUrl(url: string): (t: Turn)
    ensures t.next == DownloadAskUrl <==> !IsHttpUrl(url)
    ensures t.next == End <==> IsHttpUrl(url)
    ensures t.replies == (if IsHttpUrl(url) then [Progress] else [Reprompt(DownloadAskUrl)])
  {
    if !IsHttpUrl(url) then Turn([Reprompt(DownloadAskUrl)], DownloadAskUrl)
    else Turn([Progress], End)
  }

  // ---- Upload a file ----

  /** `start_upload_file`: refuses at once when there is no file store. */
  function StartUploadFile(filesAvailable: bool): (t: Turn)
    ensures !filesAvailable ==> t == Turn([Unavailable], End)
    ensures filesAvailable ==> t.next == UploadWaitFile && t.replies == [Prompt(t.next)]
  {
    if !filesAvailable then Turn([Unavailable], End)
    else Turn([Prompt(UploadWaitFile)], UploadWaitFile)
  }

  /** `handle_uploaded_file`: announces the upload and ends (the handler
      stores nothing and issues no PIN). */
  function HandleUploadedFile(): Turn
  {
    Turn([Progress], End)
  }

  // ---- Retrieve a file by PIN ----

  /** `start_get_file`: refuses at once when there is no file store. */
  function StartGetFile(filesAvailable: bool): (t: Turn)
    ensures !filesAvailable ==> t == Turn([Unavailable], End)
    ensures filesAvailable ==> t.next == GetFileAskPin && t.replies == [Prompt(t.next)]
  {
    if !filesAvailable then Turn([Unavailable], End)
    else Turn([Prompt(GetFileAskPin)], GetFileAskPin)
  }

  /** `get_file_by_pin`: any text is accepted; the reply quotes the
      normalised PIN and the conversation ends (the handler looks nothing up). */
  function GetFileByPin(text: string): (t: Turn)
    ensures t.next == End && t.replies == [Searching(NormalizePin(text))]
    ensures var pin := t.replies[0].pin;
      && |pin| <= |text|
      && (pin == [] || (!IsSpace(pin[0]) && !IsSpace(pin[|pin| - 1])))
      && forall i | 0 <= i < |pin| :: !IsLower(pin[i])
  {
    Turn([Searching(NormalizePin(text))], End)
  }

  // ---- Ask the AI ----

  /** `start_ask_ai`: refuses at once when there is no AI model. */
  function StartAskAi(aiAvailable: bool): (t: Turn)
    ensures !aiAvailable ==> t == Turn([Unavailable], End)
    ensures aiAvailable ==> t.next == AiAskQuery && t.replies == [Prompt(t.next)]
  {
    if !aiAvailable then Turn([Unavailable], End)
    else Turn([Prompt(AiAskQuery)], AiAskQuery)
  }

  /** `get_ai_query`: stays on an empty query, otherwise passes the AI
      service's text back and ends. */
  function GetAiQuery(query: string, answer: string): (t: Turn)
    ensures t.next == AiAskQuery <==> !ValidQuery(query)
    ensures t.next == End <==> ValidQuery(query)
    ensures t.replies == (if ValidQuery(query) then [Progress, Answer(answer)] else [Reprompt(AiAskQuery)])
  {
    if !ValidQuery(query) then Turn([Reprompt(AiAskQuery)], AiAskQuery)
    else Turn([Progress, Answer(answer)], End)
  }

  // ---- Shared handlers ----

  /** `cancel_conversation`, the fallback of every conversation. */
  function CancelConversation(): Turn
  {
    Turn([Cancelled], End)
  }

  /** `unhandled_message`: the reply to text that no conversation takes. */
  function UnhandledMessage(): seq<Reply>
  {
    [Unrecognised]
  }

  /** The handler an entry command runs when the chat has no conversation. */
  function EntryTurn(command: Command, env: Environment): (t: Turn)
    requires command != Cancel && command != Other
    ensures t.next == End || EntryOf(t.next) == command
  {
    match command
    case SendMsg => StartSendMessage()
    case YtDownload => StartYtDownload()
    case DownloadUrl => StartDownloadUrl()
    case UploadFile => StartUploadFile(env.filesAvailable)
    case GetFile => StartGetFile(env.filesAvailable)
    case AskAi => StartAskAi(env.aiAvailable)
  }

  /** The step an entry command opens when its service is there. */
  function FirstStep(command: Command): State
    requires command != Cancel && command != Other
  {
    match command
    case SendMsg => SendMsgAskNumber
    case YtDownload => YtAskUrl
    case DownloadUrl => DownloadAskUrl
    case UploadFile => UploadWaitFile
    case GetFile => GetFileAskPin
    case AskAi => AiAskQuery
  }

  /** Whether the service an entry command needs was configured. */
  predicate ServiceReady(command: Command, env: Environment) {
    match command
    case UploadFile => env.filesAvailable
    case GetFile => env.filesAvailable
    case AskAi => env.aiAvailable
    case _ => true
  }

  datatype Option<T> = None | Some(value: T)

  function Lookup(userData: map<string, string>, key: string): Option<string> {
    if key in userData then Some(userData[key]) else None
  }

  /** The result of one event: replies, the next step, and `user_data` afterwards. */
  datatype Response = Response(replies: seq<Reply>, next: State, userData: map<string, string>)

  function WithData(t: Turn, userData: map<string, string>): Response {
    Response(t.replies, t.next, userData)
  }

  /** One event delivered to a chat whose conversation is at `state` with
      `userData`: the registration table says which handler runs.
      - With no conversation, an entry command runs its entry handler, text
        gets the unrecognised reply, and `/cancel`, other commands and
        attachments get no reply.
      - Within a conversation, `/cancel` runs the fallback; text goes to the
        step's text handler, an attachment to the upload handler; what the
        step has no handler for goes on to `unhandled_message` (text) or is
        dropped (commands, attachments). */
  function Transition(state: State, userData: map<string, string>, event: Event, env: Environment): Response {
    match event
    case CommandEvent(c) =>
      if state == End then
        if c == Cancel || c == Other then Response([], End, userData)
        else WithData(EntryTurn(c, env), userData)
      else if c == Cancel then WithData(CancelConversation(), userData)
      else Response([], state, userData)
    case TextEvent(text) => (
      match state
      case SendMsgAskNumber =>
        WithData(SendMsgNumberTurn(text),
          if ValidPhoneNumber(text) then userData[SendMsgNumberKey := text] else userData)
      case SendMsgAskMessage =>
        WithData(SendMsgMessageTurn(Lookup(userData, SendMsgNumberKey), text, env.relayOk), userData)
      case YtAskUrl => WithData(GetYtUrl(text, env.video), userData)
      case DownloadAskUrl => WithData(GetDownloadUrl(text), userData)
      case GetFileAskPin => WithData(GetFileByPin(text), userData)
      case AiAskQuery => WithData(GetAiQuery(text, env.aiAnswer), userData)
      case UploadWaitFile => Response(UnhandledMessage(), state, userData)
      case End => Response(UnhandledMessage(), End, userData))
    case MediaEvent =>
      if state == UploadWaitFile then WithData(HandleUploadedFile(), userData)
      else Response([], state, userData)
  }

  /** The (number, message) pair an event hands to the message relay, if it
      calls the relay at all: only text in the message step, with a stored
      non-empty number and non-empty text, and then exactly that number and
      that text. */
  function Relayed(state: State, userData: map<string, string>, event: Event): (pair: Option<(string, string)>)
    ensures pair.Some? <==>
      state == SendMsgAskMessage && event.TextEvent? && WillRelay(Lookup(userData, SendMsgNumberKey), event.text)
    ensures pair.Some? ==> SendMsgNumberKey in userData && pair.value == (userData[SendMsgNumberKey], event.text)
  {
    if state == SendMsgAskMessage && event.TextEvent? && WillRelay(Lookup(userData, SendMsgNumberKey), event.text)
    then Some((userData[SendMsgNumberKey], event.text))
    else None
  }

  /** The input a step validates, and whether `text` passes that check. */
  predicate Accepts(state: State, text: string)
    requires TakesText(state)
  {
    match state
    case SendMsgAskNumber => ValidPhoneNumber(text)
    case YtAskUrl => IsYouTubeUrl(text)
    case DownloadAskUrl => IsHttpUrl(text)
    case AiAskQuery => ValidQuery(text)
    case SendMsgAskMessage => true
    case GetFileAskPin => true
  }
}
