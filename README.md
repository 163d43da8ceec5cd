# Telegram AI summarizer: a Dafny model of its core logic

The program is a desktop app in one file, `sum.py`. It signs in to Telegram, lists the chats that have unread messages, and, for each chat the user ticks, sends the unread messages and some older context to Google's Gemini model. It then shows one summary per chat. Most of the file is PyQt, Telethon and aiohttp glue. This project models the parts of it that make decisions:

- **`Config`**: the `ConfigManager` store, a flat string-to-string map kept in a JSON file.
  - `save` merges into what `load` returns.
  - `load` falls back to the empty map when the file is missing or unreadable.
  - `get` is `dict.get`.
  - `ConfigStore` is a class whose field is the file's state.
- **`Telegram`**: the decisions `TelegramWorker` makes.
  - The unread-dialog filter and the split of a fetched history into new and old messages.
  - When a client is built, and what `connect_and_check_auth` answers.
  - The `(ok, message)` pairs of `send_code` and `sign_in`, including the `"2FA_REQUIRED"` sentinel.
  - `Worker` is a class holding whether a client exists and the phone number.
- **`Gemini`**: the chain in `get_gemini_summary` that turns what the HTTP exchange produced into the one string the function returns.
  - The JSON body is a datatype.
  - Each lookup follows Python's own semantics: `in`, `[]`, `[0]` and `.get`, with the `TypeError`, `AttributeError`, `KeyError` and `IndexError` they can raise.
- **`Auth`**: the `AuthWidget` login flow.
  - Steps 0, 1, 2, 22 and 3, the "finished" hand-over, the action button's enabled state and the start-up automatic login.
  - Each transition is a pure function of a `State`.
  - The `AuthWidget` class's methods change the widget's, the store's and the worker's fields, and each method is proved equal to its transition function.
  - An invariant over those functions proves that the flow never hands over to the main window without the API id, the API hash and the Gemini key all stored.
- **`Pipeline`**: the `MainWindow` logic.
  - `load_chats`, the chat selection, and `_format_messages` with its line format read back by a parser.
  - The prompt text.
  - `start_processing`'s loop, which appends one summary or error block per selected chat and moves the progress bar.
  - `MainWindow` is a class over the page shown, the chat list, the status line, the blocks, the progress bar and the back button.

`Wrappers`, `Seqs` and `Text` hold the shared pieces:

- `Option` and `Attempt`;
- order-preserving filter and map;
- Python's `str.strip()`, with its exact set of whitespace characters;
- `str(n)` for a non-negative integer;
- `"\n".join` and `str.split("\n")`.

Everything outside the program is an input of the model:

- what Telethon returned or raised;
- what the HTTP exchange produced;
- whether `markdown.markdown` succeeded;
- the configuration file's state.

Three facts about the code that a quick reading can miss:

- **Escaping exceptions at step 0.** `_process_action` re-enables the action button after every branch, except when an exception escapes step 0. There, `int(api_id)` on a non-numeric id or `client.connect()` can raise, the exception escapes the task, and the button stays disabled. `Auth.AfterAction` states this: the button is enabled exactly when no exception escaped. `Auth.ApiStepTransitions` ties the escape to its cause: both inputs are non-empty and the build or the connection raised. A disabled button emits no click, so `Auth.Apply` ignores clicks while the button is disabled.
- **"Incorrect data" is unreachable.** The credentials are saved non-empty just before `init_client` reads them back, so `init_client` cannot return `False` there (`Auth.ApiStepTransitions`).
- **Nine outcomes of the summary call.** The chain has nine outcomes: the eight `return` statements, plus a non-string text that is returned as it is. The outer `except` turns every exception inside the exchange into "Connection error", whether the transport raised or a lookup into the body did:
  - `TypeError` or `AttributeError` when the body's shape does not fit the `promptFeedback` check or the text path;
  - `KeyError`, `TypeError` or `AttributeError` inside the fallback's own `result['candidates'][0].get('finishReason')`, for instance `KeyError` when `candidates` is a non-empty object.

  `Gemini.Outcome` keeps the transport's failure (`ConnectionError`) apart from a lookup's (`UnexpectedShape`); `Gemini.Message` gives both the same "Connection error" text.

## Model

| member | source | states |
|---|---|---|
| Text.StripKeepsSlice | sum.py:317-318 | `str.strip()` keeps one slice of its input, with only whitespace before and after it |
| Text.StripDropsSpace | sum.py:317-318 | the result of `str.strip()` is empty exactly when every character is whitespace, and otherwise starts and ends with a non-whitespace character |
| Config.Loaded | sum.py:28-35 | a missing or unreadable config file loads as the empty map; a readable one loads as its contents |
| Config.Merge | sum.py:39-40 | `update` keeps every old key, gives every key of `data` its new value, and leaves every other key's value alone |
| Config.Get | sum.py:44-46 | `get(key)` is `None` exactly when the key is absent, and otherwise the stored value |
| Config.SaveTwiceKeepsBoth | sum.py:37-42 | two saves in a row keep the keys of both, and the later save wins on a shared key |
| Config.SavedKeepsStored | sum.py:37-42 | a save whose values are non-empty never removes or empties a stored key |
| Config.ConfigStore.constructor | sum.py:22 | the store starts from the file's state |
| Config.ConfigStore.Load | sum.py:28-35 | a missing or unreadable file loads as the empty map, and a readable one as its contents |
| Config.ConfigStore.GetValue | sum.py:44-46 | the value of `key` in what `load` returns, if there is one |
| Config.ConfigStore.Save | sum.py:37-42 | afterwards every key of `data` has its new value, every other stored key keeps its value, and no key is lost or added besides those of `data` |
| Telegram.UnreadDialogs | sum.py:91-93 | the unread list is no longer than the fetched list |
| Telegram.UnreadDialogsExact | sum.py:91-93 | a dialog is listed iff it was fetched with a positive unread count; each is listed as often as it was fetched, in fetched order; at most 30 when at most 30 were fetched |
| Telegram.SplitHistory | sum.py:95-99 | new messages followed by old messages give back the fetched sequence, and the new part has min(unread, fetched) messages |
| Telegram.SplitHistoryBounds | sum.py:95-99 | with the limit unread+30 honoured, there are at most 30 old messages and exactly `unread` new ones unless the chat has fewer |
| Telegram.InitOutcome | sum.py:54-60 | a client is created iff both `api_id` and `api_hash` are stored and non-empty and building it does not raise; without them the result is `False` |
| Telegram.ConnectAndCheck | sum.py:62-68 | with no client and no credentials the answer is `False` and nothing else happens; a client that fails to build lets its exception escape; with a client, an authorized session answers `True`, an unauthorized one `False`, and a raising one lets its exception escape; a client exists afterwards iff one existed or was created |
| Telegram.SendCodeResult | sum.py:70-77 | success iff the request did not raise; on failure the message is the exception's text |
| Telegram.SignInResult | sum.py:79-89 | success iff sign-in was accepted; the failure text is `"2FA_REQUIRED"` iff a password was needed, or another error's text happens to be that string |
| Telegram.SignInCallFor | sum.py:79-84 | a non-empty password is sent on its own; otherwise the phone and the code are sent, even when the code is `None` |
| Telegram.Worker.constructor | sum.py:49-52 | a new worker has no client and no phone number |
| Telegram.Worker.InitClient | sum.py:54-60 | returns `InitOutcome`; a client exists afterwards iff one existed before or one was created |
| Telegram.Worker.ConnectAndCheckAuth | sum.py:62-68 | the answer and the client's existence are those `ConnectAndCheck` gives |
| Telegram.Worker.SendCode | sum.py:70-77 | remembers the phone number whatever the outcome, and returns `SendCodeResult` |
| Telegram.Worker.SignIn | sum.py:79-89 | returns `SignInResult` of Telethon's answer to the call `SignInCallFor` picks, with the worker's stored phone |
| Gemini.NoTextReason | sum.py:148-153 | a non-object body raises `AttributeError`; the safety notice exactly when `candidates` is present and its first item's `finishReason` is `"SAFETY"`; missing or falsy `candidates` gives "AI returned no text."; a first candidate with any other finish reason gives it too; a truthy `candidates` whose `[0].get('finishReason')` raises ends in "Connection error" with that exception |
| Gemini.AfterBlockCheck | sum.py:143-151 | a status other than 200 gives "API Error" with that status and body; at 200 the text at `candidates[0].content.parts[0].text` is returned as it is; a `KeyError` or `IndexError` on that path goes to `NoTextReason`, and a `TypeError` or `AttributeError` is a shape error |
| Gemini.Classify | sum.py:101-153 | the key-not-found outcome exactly when no non-empty key is stored; the transport-failure outcome exactly when the key is present and the transport raised; the unparsed-body outcome exactly when the body is not JSON; generated text only with status 200 from the `candidates[0].content.parts[0].text` path; an API error only with a status other than 200; a hard block only for a reason that is truthy and not `BLOCK_REASON_UNSPECIFIED` |
| Gemini.Message | sum.py:101-153 | the returned text of each of the nine outcomes: the key, no-text and safety notices, "Connection error: " with the transport's or the lookup's error, "Network error: " with status and raw body, the hard-block notice with the reason (a string reason verbatim), "API Error (status): " with the body; a generated string is returned verbatim, and only a non-string generated value has no text |
| Gemini.NoticeCarriesStatus | sum.py:136-144 | the network and API error notices carry the HTTP status in decimal right after their prefix, and it reads back as the status |
| Gemini.BlockBeforeStatus | sum.py:138-144 | for every body, a block reason that is set and not `BLOCK_REASON_UNSPECIFIED` gives the hard-block outcome whatever the status, even 200, and whatever text the body carries |
| Gemini.ShapeErrorBeforeStatus | sum.py:138-140 | for every body, a block lookup that raises ends in "Connection error" whatever the status |
| Gemini.UnspecifiedDoesNotBlock | sum.py:138-144 | for every body, an unset, falsy or unspecified block reason does not block: the status check decides, and a status other than 200 is an API error carrying the body |
| Gemini.TextReturnedVerbatim | sum.py:143-147 | for every unblocked 200 body, the value at `candidates[0].content.parts[0].text` is returned unchanged |
| Gemini.MissingTextReasons | sum.py:146-151 | for every unblocked 200 body whose text path raises `KeyError` or `IndexError`, the outcome is `NoTextReason`: the safety notice exactly when the first candidate's finish reason is `SAFETY`, and "AI returned no text." when there are no candidates |
| Auth.StepNumberInjective | sum.py:238-305 | the steps carry distinct numbers among 0, 1, 2, 22 and 3, so the integer step field determines the step |
| Auth.Initial | sum.py:156-162 | the flow starts at step 0, unfinished, with the button enabled, holding the given configuration and no phone number, and an automatic login is pending iff both credentials are stored |
| Auth.CheckGemini | sum.py:286-291 | finishes iff a Gemini key is stored, and otherwise goes to step 3 |
| Auth.ApiStep | sum.py:316-327 | step 0 moves only to step 1, never finishes, and stays put when an exception escapes |
| Auth.PhoneStep | sum.py:329-335 | the phone number is remembered; step 1 moves to step 2 iff the code was sent, and otherwise warns with the error |
| Auth.CodeStep | sum.py:337-345 | at step 2 the trimmed code is sent with the stored phone; success runs the Gemini check; the password sentinel moves to step 22, and so does any other failure whose text is `"2FA_REQUIRED"`; any other failure stays with a login error carrying its text |
| Auth.PasswordStep | sum.py:347-353 | at step 22 a non-empty password is sent on its own and an empty one as the stored phone with no code; success runs the Gemini check, and any failure (the sentinel too) stays with an invalid-password notice carrying its text |
| Auth.KeyStep | sum.py:355-361 | at step 3, a non-empty key is merged into the config and finishes; an empty one stays with "Enter key" |
| Auth.Dispatch | sum.py:313-361 | only step 0 can let an exception escape, and a finished flow stays finished |
| Auth.AfterAction | sum.py:313-363 | the button ends enabled iff no exception escaped the handler |
| Auth.AfterAutoLogin | sum.py:222-236 | the pending login is consumed; an answer of `True` runs the Gemini check, `False` goes to step 1, and an escaping exception returns to step 0; no notice is left on screen in any case, since step 0's text overwrites the "Config error" label at once |
| Auth.AfterAutoLoginReported | sum.py:232-236 | the intended automatic login: the same transitions, with a "Config error" notice carrying the exception's text exactly when an exception escaped |
| Auth.AutoLoginErrorLost | sum.py:232-241 | when connecting or the authorization check raises, the login as written ends at step 0 with no notice, while the intended one shows the error |
| Auth.AutoLoginErrorLostExample | sum.py:232-241 | with both credentials stored and `connect` raising, the written login shows nothing and the intended one shows "Config error" with the exception's text |
| Auth.SavedKeepsConfig | sum.py:37-42 | a save of non-empty values keeps stored credentials and a stored key |
| Auth.InitialInv | sum.py:156-162 | the start state satisfies the flow's invariant |
| Auth.ApiStepKeepsInv | sum.py:316-327 | step 0 keeps the invariant: a client or a later step implies stored credentials |
| Auth.KeyStepKeepsInv | sum.py:355-361 | step 3 keeps the invariant: finishing implies a stored key |
| Auth.ActionKeepsInv | sum.py:313-363 | every click keeps the invariant |
| Auth.AutoLoginKeepsInv | sum.py:222-236 | the automatic login, as written and as intended, keeps the invariant |
| Auth.ApplyKeepsInv | sum.py:310-363 | every event (a click or the start-up timer) keeps the invariant |
| Auth.RunKeepsInv | sum.py:310-363 | any sequence of events keeps the invariant |
| Auth.NeverFinishedWithoutConfig | sum.py:286-363 | whatever the user types and the backend answers, the flow hands over only with the API id, the API hash and the Gemini key all stored and non-empty |
| Auth.ApiStepTransitions | sum.py:316-327 | step 0 advances iff both trimmed inputs are non-empty and the client builds and connects; "Fill both fields" iff an input is empty; "Incorrect data" never; the saved credentials read back; an exception escapes iff both inputs are non-empty and building or connecting raises; afterwards a client exists iff one existed before or the build succeeded |
| Auth.AuthWidget.constructor | sum.py:156-162 | the widget's state is `Initial` of the stored config |
| Auth.AuthWidget.CheckGeminiKey | sum.py:286-291 | the new state is `CheckGemini` of the old one |
| Auth.AuthWidget.ApiAction | sum.py:316-327 | the new state and reaction are `ApiStep`'s |
| Auth.AuthWidget.PhoneAction | sum.py:329-335 | the new state and reaction are `PhoneStep`'s |
| Auth.AuthWidget.CodeAction | sum.py:337-345 | the new state and reaction are `CodeStep`'s |
| Auth.AuthWidget.PasswordAction | sum.py:347-353 | the new state and reaction are `PasswordStep`'s |
| Auth.AuthWidget.KeyAction | sum.py:355-361 | the new state and reaction are `KeyStep`'s |
| Auth.AuthWidget.RunStep | sum.py:316-361 | the new state and reaction are `Dispatch`'s on the trimmed inputs |
| Auth.AuthWidget.ProcessAction | sum.py:313-363 | the new state and reaction are `AfterAction`'s |
| Auth.AuthWidget.TryAutoLogin | sum.py:222-236 | the new state and reaction are `AfterAutoLogin`'s, so no notice is left after an exception |
| Pipeline.LinesAt | sum.py:520-530 | line k is the line of the k-th message from the end: the lines run in reverse of input order |
| Pipeline.FormatMessages | sum.py:520-530 | the loop returns `Format`: one line per message, last message first, joined by newlines |
| Pipeline.OneLinePerMessage | sum.py:520-530 | splitting the output on newlines gives exactly one line per message, in reverse order, when no name or text holds a newline |
| Pipeline.LineEndsWithContent | sum.py:523-529 | each line ends with the message's text, or with "[Media/Sticker]" when the text is empty |
| Pipeline.IdRoundTrip | sum.py:526 | the `[ID:<id>]` prefix reads back as the id |
| Pipeline.ReplyRoundTrip | sum.py:527-528 | the `[ReplyTo:<r>]` tag is present iff the message replies to a message, and reads back as the reply id |
| Pipeline.MetaRoundTrip | sum.py:524-529 | a line reads back as its id, its reply id exactly when there is one, and the name-and-text remainder |
| Pipeline.Render | sum.py:563-571 | the prompt opens with the fixed instructions naming the chat, followed by the context verbatim |
| Pipeline.RenderEnds | sum.py:563-571 | after the context come the separator, the new messages verbatim, and the task line, which ends the prompt |
| Pipeline.PromptSplitsHistory | sum.py:558-561 | the prompt asks about the first min(unread, fetched) messages and gives the rest as context, each formatted oldest first |
| Pipeline.ChatBlock | sum.py:553-598 | every block carries its chat's name; a raising history fetch gives an error block with that exception's text, as does a raising sender lookup; a generated summary that is not a string gives an error block holding that value |
| Pipeline.NoRequestAfterFailure | sum.py:557-598 | when fetching the history or a sender raised, the block is an error block whatever the summary service would answer |
| Pipeline.SummaryBlockExactly | sum.py:557-598 | a summary block iff history and senders were fetched and the reply is not a non-string generated value; it holds the classified reply and the unread count, and renders as markdown iff markdown succeeded |
| Pipeline.Blocks | sum.py:553-600 | one block per selected chat |
| Pipeline.BlocksAt | sum.py:553-600 | block i is chat i's own block, so one chat's failure changes no other chat's block |
| Pipeline.ProgressValues | sum.py:547-548 | the bar goes through 0, 1, …, N: after chat idx it reads idx+1 |
| Pipeline.BarStringInjective | sum.py:493-602 | the bar's texts ("Analysis: <chat>...", "Done!", empty, the default) differ for different states, so the text names the chat being summarized |
| Pipeline.ListItems | sum.py:505-512 | one row per unread dialog, in order, with none checked |
| Pipeline.SelectedAppend | sum.py:533-537 | the selection of a list is the selection of its parts, in order |
| Pipeline.NewItemsUnselected | sum.py:505-512 | a freshly loaded list has nothing selected |
| Pipeline.MainWindow.constructor | sum.py:366-375 | the window starts on the sign-in page with the status "Ready to work", and the bar holds Qt's reset value -1 in its default range 0..100 with its default text |
| Pipeline.MainWindow.LoadChats | sum.py:495-518 | on failure the list is kept and the status is "Load error"; otherwise the list is one unchecked row per unread dialog and the status gives the count or says none are unread |
| Pipeline.MainWindow.SetChecked | sum.py:509-510 | ticking a row changes only that row's check box |
| Pipeline.MainWindow.SelectedDialogs | sum.py:533-537 | the checked rows' dialogs, in list order |
| Pipeline.MainWindow.ProcessChat | sum.py:557-598 | the block for one chat is `ChatBlock` |
| Pipeline.MainWindow.StartProcessing | sum.py:532-603 | with nothing selected nothing changes; otherwise the results page shows exactly one block per selected chat in selection order, the bar ends at N after passing 0…N, "Done!" shows and the back button is enabled |
| Pipeline.MainWindow.SummarizeAll | sum.py:547-600 | the loop appends `Blocks` of the selection, leaves the bar at N, and leaves its text naming the last chat |
| Pipeline.MainWindow.SummarizeOne | sum.py:553-600 | one turn names the chat on the bar, appends its block, and moves the bar one step |
| Pipeline.MainWindow.GoBackToList | sum.py:490-493 | back to the list with the bar at 0 and its text cleared, nothing else changed |
| Pipeline.MainWindow.GoToApp | sum.py:486-488 | shows the list page and loads the chats; the blocks, the progress bar and the back button stay as they were |

## Left out

- The PyQt widgets, styles, labels, placeholders, `open_guide` URLs and the `QTimer` deferral. They are presentation only. The model keeps just the state that carries decisions: the step, the button's enabled state, the page shown, the list rows, the status line, the progress bar and the back button.
- Telethon's calls (`connect`, `is_user_authorized`, `send_code_request`, `sign_in`, `get_dialogs`, `get_messages`, `get_sender`). They are a foreign library, so their results or exceptions are inputs.
- The phone-code hash the worker keeps. Nothing in the program's own logic reads it; it is passed back to Telethon unchanged with the code.
- Gemini.Json: numbers are integers; JSON floats are not represented. The chain only tests truthiness and compares with strings, and `str()` of a value is an input (`show`).
- Config.FileState: a file that parses to JSON other than a string-to-string object (a list, a number, an object with non-string values) is not represented. `load` would return such a value as it is, and `update` or `get` on it would raise or yield a non-string. The program itself only ever writes string maps.
- The aiohttp POST, the proxy URL built with `urllib.parse.quote`, the payload and the safety settings. These are network I/O. The exchange's outcome is an input (`Gemini.Reply`, and `ChatEffects.service` for the loop).
- `str()` of a JSON value and of an exception inside the returned messages. `Gemini.Message` takes them as functions, and requires only that `str()` of a JSON string is the string itself.
- Gemini.Message: `explain` maps an exception's kind to its text. `PyError` does not carry the missing key or index, so the key that `str(KeyError('content'))` shows is not modelled.
- `markdown.markdown`, `html.escape` and the HTML templates. They are a foreign library and presentation. Blocks are values, and markdown's success is an input.
- Reading and writing `config.json`. This is I/O: the file is a `FileState`, and a write that fails is not modelled.
- asyncio, qasync and `create_task`. The awaits run one after another, and the model runs them in order.
- Pipeline.ChatEffects: the `get_sender` calls of one chat are one input that either raised or did not. Which message's sender raised is not modelled, because the whole chat's block is then the same error block.
- Pipeline.ChatEffects: the service takes the prompt as its three varying parts rather than as the rendered string. `Pipeline.Render` states the text those parts stand for.
- Pipeline.ProcessChat: `markdownOk` is taken as given for any summary string. Markdown raising on a string is outside the program.
- Telegram.Message: an empty and a missing message text are both `""`. Both become the media placeholder in the same way.
- Auth.AuthWidget: the inputs' texts are arguments of each click, not fields. The widget clears and hides them on each step change, which is presentation.
- Auth.AfterAutoLogin: the status text "Checking session..." and the hidden inputs during the check are presentation only.

## Findings

| source | as written | input that shows it | evidently intended | confidence | as-written member | corrected member |
|---|---|---|---|---|---|---|
| sum.py:234-236 | `try_auto_login` writes "Config error: …" into the info label, then `set_step_api()` overwrites that label with step 0's instructions, so the error is never seen | both credentials stored, the client builds, and `client.connect()` raises | the exception's text stays visible after returning to step 0 | not executed; high (both writes are to `lbl_info` in one synchronous call) | Auth.AfterAutoLogin (with Auth.AutoLoginErrorLost, Auth.AutoLoginErrorLostExample) | Auth.AfterAutoLoginReported |

The flow's event model (`Auth.Apply`) uses the intended definition. Its new state is the same as the written one, so the invariant results hold for both. `Auth.AuthWidget.TryAutoLogin` models the method as written.
