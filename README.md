# Telegram bot conversation core in Dafny

This project models the conversational core of a Telegram bot served as a
webhook (`api/telegram.py`). The bot runs six short multi-step workflows:

- relay a message to a phone number (`/sendmsg`);
- download a YouTube video (`/yt_download`);
- download a URL (`/download_url`);
- upload a file (`/upload_file`);
- fetch a file by PIN (`/get_file`);
- ask an AI model (`/ask_ai`).

`/cancel` abandons the workflow in progress. The model covers:

- **Input checks** (`text.dfy`, `validation.dfy`). These are the tests the
  handlers apply to message text:
  - a phone number is all digits and at least ten characters;
  - a YouTube URL contains `youtube.com/` or `youtu.be/`;
  - a download URL starts with `http://` or `https://`;
  - an AI query is non-empty;
  - a typed PIN is normalised by `strip()` and then `upper()`.

  Python's `isdigit`, `in`, `startswith`, `strip` and `upper` are written out
  as Dafny functions.
- **Retrieval PINs** (`pins.dfy`):
  - `generate_pin` draws each character from `A`-`Z` and `0`-`9`. The draw
    is a nondeterministic choice.
  - `is_pin_unique` asks the file store. It fails closed: with no store, or
    when the query raises, the answer is "not unique".
  - `generate_unique_pin` tries at most ten candidates. If none is
    confirmed, it returns an unchecked fallback.
- **The conversation state machine** (`conversation.dfy`,
  `conversation_properties.dfy`, `session.dfy`):
  - The seven conversation steps plus `End` form one datatype. Every handler
    is a function from its input and the collaborators' outcomes to its
    replies and next step.
  - `Conversation.Transition` routes one event to the handler that the
    registration table names for the current step.
  - The class `Session.Chat` keeps the current step of one conversation and
    the `user_data` dictionary it reads, and updates both in place. Its
    methods are proved against `Transition`.

Collaborators appear only as inputs, collected in
`Conversation.Environment`:

- whether the Firestore files collection exists;
- whether the Gemini model exists;
- the boolean the message relay returns;
- how the `yt_dlp` download went;
- the text `ask_gemini_ai` returned.

Three behaviours of the code that the model keeps:

- `/cancel` with no conversation in progress gets no reply. Cancel is only a
  fallback inside a conversation, and the catch-all handler takes text, not
  commands.
- `get_download_url`, `handle_uploaded_file` and `get_file_by_pin` do no
  download, storage or lookup. They send a progress reply and end the
  conversation. No handler issues a PIN.
- `user_data['sendmsg_number']` is not cleared when the send-message
  conversation ends (`ConversationProperties.NumberOutlivesConversation`).

## Model

| member | source | states |
|---|---|---|
| `Text.ContainsIffOccurs` | api/telegram.py:172 | The left-to-right scan used for Python's `in` finds a pattern exactly when it occurs at some position of the text (both directions). |
| `Text.TrimStart` | api/telegram.py:252 | The result is a suffix of the input. Everything dropped is whitespace. The result does not start with whitespace. |
| `Text.TrimEnd` | api/telegram.py:252 | The result is a prefix of the input. Everything dropped is whitespace. The result does not end with whitespace. |
| `Text.Strip` | api/telegram.py:252 | `strip()` yields text no longer than the input with no whitespace at either end. |
| `Text.StripRemovesOnlyEndSpace` | api/telegram.py:252 | `strip()` returns a contiguous middle `s[i..j]` of the input, and everything before `i` and from `j` on is whitespace. Together with `Text.Strip` this fixes the result: the input with exactly its leading and trailing whitespace removed. |
| `Text.UpperChar` | api/telegram.py:252 | A lower-case letter becomes its own capital (`'a'` to `'A'`, ..., `'z'` to `'Z'`). Every other character is unchanged. The result is never a lower-case letter, and whitespace stays whitespace. |
| `Text.Upper` | api/telegram.py:252 | `upper()` keeps the length and upper-cases each character in place. It leaves no lower-case letter and keeps whitespace as whitespace. |
| `Text.StripOfTrimmed` | api/telegram.py:252 | Text with no whitespace at either end is its own `strip()`. |
| `Text.StripPadded` | api/telegram.py:252 | `strip()` removes a leading blank and a trailing newline from text that has no whitespace at either end, and nothing more. |
| `Text.UpperOfUpper` | api/telegram.py:252 | Text with no lower-case letter is its own `upper()`. |
| `Validation.NormalizePin` | api/telegram.py:252 | The normalised PIN is no longer than the text. It has no whitespace at either end and no lower-case letter. |
| `Validation.NormalizePinUpperCasesStripped` | api/telegram.py:252 | The normalised PIN is the middle `text[i..j]` between the leading and trailing whitespace, each character upper-cased. For example `" ab12cd "` gives `"AB12CD"`. |
| `Validation.NormalizePinIdempotent` | api/telegram.py:252 | Normalising an already normalised PIN changes nothing. |
| `Validation.AnyCasePinIsFound` | api/telegram.py:252 | A PIN of the generated form (letters `A`-`Z` and digits), typed back with any of its letters in lower case, alone or between a blank and a newline, normalises to the PIN itself. |
| `Validation.UpperOfSameUpToCase` | api/telegram.py:252 | `upper()` of a PIN typed in any mix of cases is the PIN. |
| `Validation.PhoneNumberRejects` | api/telegram.py:140 | `Validation.ValidPhoneNumber` rejects the empty text, text with any non-digit, and text shorter than ten characters. |
| `Validation.YouTubeUrlIffOccurs` | api/telegram.py:172 | The YouTube check `Validation.IsYouTubeUrl` holds exactly when `youtube.com/` or `youtu.be/` occurs somewhere in the text. |
| `Validation.YouTubeCheckNeedsNoScheme` | api/telegram.py:172-224 | A bare `youtu.be/...` link with no scheme passes the YouTube check (line 172) but fails `Validation.IsHttpUrl`, the URL workflow's `http://`/`https://` prefix check (line 224). |
| `Pins.AlphabetIsPinChars` | api/telegram.py:71 | `ascii_uppercase + digits` has 36 distinct characters. They are exactly the upper-case ASCII letters and the digits. |
| `Pins.GeneratePin` | api/telegram.py:70-72 | Returns exactly `length` characters, each an upper-case letter or a digit, whatever the random choices. |
| `Pins.IsPinUnique` | api/telegram.py:74-82 | True only when a store exists and its query found no document. A missing store, a taken PIN or a failing query all give false. |
| `Pins.GenerateUniquePin` | api/telegram.py:84-91 | Always returns a PIN of the requested length after between 1 and 10 uniqueness checks. Every candidate before the last one checked was rejected. A confirmed candidate is returned at once. The fallback is reached only after ten rejections, and always when there is no store. |
| `Conversation.SendMsgNumberTurn` | api/telegram.py:138-146 | The conversation stays on the recipient step with a re-prompt exactly when the number is invalid. Otherwise it moves to the message step with that step's prompt. |
| `Conversation.SendMsgMessageTurn` | api/telegram.py:148-162 | Always ends the conversation. When the number and the message are both present, it sends progress and then success or failure as the relay answered. Otherwise it sends a single failure reply. |
| `Conversation.VideoReply` | api/telegram.py:192-209 | Success exactly when a file of at most 50 MiB was saved and sent. "Too large" exactly when the saved file exceeds 50 MiB. A missing file, a failed send and an exception all give failure. |
| `Conversation.GetYtUrl` | api/telegram.py:169-215 | Stays on the URL step with a re-prompt exactly when the text names no YouTube host. Otherwise it replies with progress and then the reply `VideoReply` gives for the download's outcome, and ends whatever the download did. |
| `Conversation.GetDownloadUrl` | api/telegram.py:222-230 | Stays on the URL step with a re-prompt exactly when the text fails `Validation.IsHttpUrl`, that is, lacks an `http://` or `https://` prefix. Otherwise it replies with progress and ends. |
| `Conversation.StartUploadFile` | api/telegram.py:232-237 | With no files collection it replies "unavailable" and ends. Otherwise it waits for the file with a prompt. |
| `Conversation.StartGetFile` | api/telegram.py:244-249 | With no files collection it replies "unavailable" and ends. Otherwise it asks for the PIN. |
| `Conversation.GetFileByPin` | api/telegram.py:251-254 | Accepts any text and ends. The single reply quotes the normalised text: no longer than the text, with no whitespace at either end and no lower-case letter. Its value is given by `NormalizePinUpperCasesStripped`. |
| `Conversation.StartAskAi` | api/telegram.py:256-261 | With no AI model it replies "unavailable" and ends. Otherwise it asks for the query. |
| `Conversation.GetAiQuery` | api/telegram.py:263-272 | Stays on the query step with a re-prompt exactly when the query fails `Validation.ValidQuery`, that is, is empty. Otherwise it sends progress and then the AI service's text, and ends. |
| `Conversation.EntryTurn` | api/telegram.py:293-345 | An entry command either ends at once or opens a step of its own workflow. |
| `Conversation.Relayed` | api/telegram.py:148-155 | `send_message_via_api` is called only for text in the message step with a stored non-empty number and non-empty text, and then with exactly that number and that text. |
| `ConversationProperties.EntryPromptsFirstStep` | api/telegram.py:134-261 | With its service configured, each entry command opens its workflow's first step and prompts for that step's input. This covers the unconditional entry handlers `Conversation.StartSendMessage` (lines 134-136: prompt for the number), `Conversation.StartYtDownload` (lines 165-167: prompt for the YouTube URL) and `Conversation.StartDownloadUrl` (lines 218-220: prompt for the download URL). |
| `ConversationProperties.MissingServiceOpensNothing` | api/telegram.py:232-261 | Without the files collection, `/upload_file` and `/get_file` reply "unavailable" and open nothing. Without the AI model, `/ask_ai` does the same. |
| `ConversationProperties.RejectedInputStays` | api/telegram.py:138-267 | Text a step rejects keeps the same step and the same `user_data`, and re-prompts for that step. |
| `ConversationProperties.AcceptedInputAdvances` | api/telegram.py:138-272 | Accepted text moves the recipient step to the message step. It moves every other text step to the end, whatever the relay, the download or the AI service returned. Sending a reply is assumed never to fail; see `Conversation.GetAiQuery` under "Left out". |
| `ConversationProperties.UploadEnds` | api/telegram.py:239-242 | `Conversation.HandleUploadedFile`: an attachment in the upload step gets a progress reply and ends the conversation. |
| `ConversationProperties.CancelEnds` | api/telegram.py:274-276 | `Conversation.CancelConversation`: `/cancel` ends any conversation in progress with the "cancelled" reply and leaves `user_data` alone. |
| `ConversationProperties.CancelTwice` | api/telegram.py:293-345 | After one `/cancel` no conversation is open. A second `/cancel` gets no reply and changes nothing. |
| `ConversationProperties.NoCrossWorkflowStep` | api/telegram.py:290-348 | `Conversation.Transition`, the dispatcher for the registration table, never moves a chat into another workflow's step. The next step is the end, a step of the workflow in progress, or, when no conversation was open, exactly the first step of the entry command just given. |
| `ConversationProperties.UserDataOnlyStoresNumber` | api/telegram.py:138-146 | `user_data` changes only when the recipient step accepts a number, and then only by storing that number under `sendmsg_number`. |
| `ConversationProperties.NumberOutlivesConversation` | api/telegram.py:148-162 | Ending the send-message conversation leaves the stored number in `user_data`. |
| `ConversationProperties.UnrecognisedTextChangesNothing` | api/telegram.py:278-279 | `Conversation.UnhandledMessage`: text with no conversation open, or in the upload step, gets the "not understood" reply and changes nothing. |
| `ConversationProperties.OtherEventsIgnored` | api/telegram.py:293-345 | In the model, during a conversation, commands other than `/cancel` and attachments outside the upload step get no reply and change nothing. Where the library does otherwise is listed under "Left out". |
| `ConversationProperties.SendMessageScenario` | api/telegram.py:134-162 | The exchange `/sendmsg`, "abc", "94712345678", "hello" runs as follows: prompt, re-prompt, then the number is stored. The relay is handed exactly ("94712345678", "hello") (`Relayed`), and the conversation ends with the relay's verdict. |
| `ConversationProperties.RelayCalledIffProgress` | api/telegram.py:151-160 | In the message step the relay is called exactly when the progress reply is sent, and its verdict is then the last reply. |
| `ConversationProperties.PinStepLooksUp` | api/telegram.py:333-336 | The PIN step's handler is `get_file_by_pin`. |
| `ConversationProperties.PinLookupScenario` | api/telegram.py:251-254 | A six-character PIN as `generate_pin` makes it, typed back in any mix of cases with a leading blank and a trailing newline, is quoted exactly as generated, and the conversation ends. |
| `ConversationProperties.TransitionKeepsNumberReady` | api/telegram.py:138-162 | No event can bring the chat to the message step without a valid recipient number stored in `user_data`. |
| `ConversationProperties.RunKeepsNumberReady` | api/telegram.py:293-300 | Any sequence of events keeps that invariant. The proof is by induction on the sequence. |
| `ConversationProperties.RunKeepsNumber` | api/telegram.py:144 | Once `sendmsg_number` is stored, no sequence of events removes it, including the end of a conversation and `/cancel`. |
| `ConversationProperties.MessageStepAlwaysRelays` | api/telegram.py:148-162 | On a chat that started idle with empty `user_data`, the "number missing" branch of `get_sendmsg_message` is never taken. Any non-empty message is handed to the relay together with the stored number, which is a valid phone number, and the relay's verdict is reported. |
| `Session.Chat.GetSendMsgNumber` | api/telegram.py:138-146 | A valid number is stored in place under `sendmsg_number`, replacing any earlier one. An invalid number leaves `user_data` unchanged. The replies and next step are those of `SendMsgNumberTurn`. |
| `Session.Chat.GetSendMsgMessage` | api/telegram.py:148-162 | Always ends. It hands the relay the stored number and the message exactly when both are non-empty. |
| `Session.Chat.Receive` | api/telegram.py:293-348 | The in-place update of the chat's step and `user_data`, and the replies, are those that `Transition` gives for the old step and `user_data`. The chat's invariant is kept: the message step is never reached without a valid number stored. The pair handed to the relay, if any, is `Relayed` of the old step, `user_data` and event. |
| `Session.Chat.ReceiveCommand` | api/telegram.py:293-345 | A command updates the step as `Transition` says: an entry handler when no conversation is open, the cancel fallback inside one. |
| `Session.Chat.ReceiveText` | api/telegram.py:293-348 | Text runs the current step's text handler, or the catch-all reply. The step and `user_data` end up as `Transition` says. The pair handed to the relay is `Relayed` of the old step and `user_data`. |

## Left out

- Firebase and Gemini initialisation and the environment variables (api/telegram.py:24-59). Only "the collection / the model exists or not" enters the model, as `Environment.filesAvailable` and `Environment.aiAvailable`.
- `send_message_via_api`, `ask_gemini_ai` and the `yt_dlp`/temporary-directory download path (api/telegram.py:94-117, 176-213). These are network and file I/O. Only their results enter: the relay's boolean, a `VideoOutcome`, and the AI reply text.
- Real randomness. `random.choice` is a nondeterministic choice of an alphabet index, so no claim about the distribution or about collision probability is made.
- `Pins.IsPinUnique`: the store's answer for a PIN is a fixed function of the PIN, so documents added between two queries are not modelled.
- The 0.1-second `asyncio.sleep` between PIN attempts, `asyncio.to_thread`, `asyncio.run`, and how concurrent webhook deliveries for one chat interleave. Each event is processed as one atomic step.
- The library's dispatch. The model keeps at most one open conversation per chat. In the library, each `ConversationHandler` tracks its own conversation.
- `start_command` (the `/start` help text, api/telegram.py:120-131). It is a fixed reply outside the conversation table, and `/start` is an `Other` command here.
- The Vercel `handler` and its HTTP status codes (api/telegram.py:356-406).
- The Sinhala reply texts. Replies are the enumerated `Conversation.Reply` kinds.
- `Text.IsDigit`, `Text.UpperChar` and `Text.Upper`: Python's `isdigit` and `upper` also act on non-ASCII digits and letters (for example `'²'.isdigit()`, and `'ß'.upper() == 'SS'`). The model covers ASCII digits and ASCII letters only.
- `ConversationProperties.OtherEventsIgnored` holds of the model, not of the library, in two cases. First, `/start` is registered before the conversations (api/telegram.py:290), so it always gets the help text, even during a conversation. Second, another workflow's entry command during a conversation (for example `/yt_download` during `/sendmsg`) is not handled by the conversation in progress. The next `ConversationHandler` then takes it, sends its prompt and opens a second conversation alongside (api/telegram.py:293-345). The model ignores both.
- `Conversation.GetAiQuery`: sending a reply is assumed never to raise. The AI text is sent as it is (api/telegram.py:271). If Telegram refuses it (empty text, or more than 4096 characters), the handler raises before returning `END`, and the library leaves the conversation at the query step with only the progress reply sent. The model always ends. The same assumption covers every other `reply_text` call.
- `Session.Chat`: in the library, `user_data` belongs to the user and is shared across chats, while a conversation is keyed by (chat, user). The model keeps one map per `Chat`. So it does not capture a user who stores a second number through `/sendmsg` in another chat while a first chat waits for the message text. The first chat's message then goes to the second number (api/telegram.py:144, 150).
