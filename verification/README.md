# n8n webhook chat client, modelled in Dafny

The system is a browser chat client. The user types a message, the client
POSTs it as JSON to one configurable n8n webhook URL, and the reply text is
appended to the conversation. This model covers four parts:

- the webhook client `sendMessageToN8n`. It is a total function of the
  message, the URL and the network, where the network is a function from a
  request to its outcome. Its result is the reply together with the list of
  requests it issued. An unconfigured URL gives a fixed simulated
  reply. A transport failure, a status outside 200 to 299 or a body that is
  not JSON gives the fixed error message. A decoded body is normalised in
  the source's order: first `[{"output": s}, ...]`, then `{"output": s}`,
  else the fixed "unexpected format" message;
- the application state (`App`): the active URL, the browser's persistent
  storage, the conversation, the busy flag and the settings flag. Its
  handlers are the start-up read, the mount greeting, the send (split at its
  `await` into `BeginSend` and `ReceiveReply`) and the settings save;
- the input box (`MessageInput`). It sends the trimmed text only when the
  text is not blank and no reply is pending, and then empties the box;
- the shared constants, and JavaScript's `trim` and `includes` over the
  ECMAScript whitespace set.

Files: `wrappers.dfy` (Option), `js_string.dfy`, `constants.dfy`,
`n8n_service.dfy`, `chat_app.dfy`, `message_input.dfy`.

Start-up reads `localStorage.getItem(LOCAL_STORAGE_KEY) || DEFAULT_N8N_WEBHOOK_URL`,
so a stored empty string also falls back to the placeholder. `InitialUrl`
models this. As a result, saving a blank URL and reloading gives the
placeholder, and `ReloadKeepsConfiguration` shows that both are unconfigured.

## Model

| member | source | states |
|---|---|---|
| `JsString.TrimStart` | components/MessageInput.tsx:24 | the result is a suffix of the input, everything dropped is whitespace, and it does not start with whitespace |
| `JsString.TrimEnd` | components/MessageInput.tsx:24 | the result is a prefix of the input, everything dropped is whitespace, and it does not end with whitespace |
| `JsString.Trim` | App.tsx:73 | `trim` gives a text with no whitespace at either end; it is empty exactly when the input is blank |
| `JsString.TrimIsPaddedSlice` | App.tsx:73 | what `trim` keeps is a slice of the input with only whitespace outside it |
| `JsString.TrimRemovesPadding` | App.tsx:73 | trimming blank padding off a string with no whitespace at its ends gives that string back |
| `JsString.TrimIdempotent` | components/MessageInput.tsx:24-25 | trimming an already trimmed text changes nothing |
| `JsString.Contains` | services/n8nService.ts:11 | `includes`: the searched text occurs at some index; every string includes the empty string and none includes a longer one |
| `JsString.OccursBetween` | services/n8nService.ts:11 | a text placed between two others is included in the result |
| `JsString.FirstCharAbsent` | services/n8nService.ts:11 | `includes` is false when no possible start index holds the first character of the searched text |
| `Constants.DefaultUrlContainsMarker` | constants.ts:3 | the default URL contains `YOUR_N8N_INSTANCE` |
| `N8nService.IsUnconfigured` | services/n8nService.ts:11 | a URL is unconfigured when it is empty (the one falsy string) or includes `YOUR_N8N_INSTANCE` |
| `N8nService.IsOk` | services/n8nService.ts:24 | `response.ok`: the status is between 200 and 299 |
| `N8nService.Truthy` | services/n8nService.ts:35-40 | the falsy JSON values are exactly `null`, `false`, `0` and `""` |
| `N8nService.OutputOf` | services/n8nService.ts:35-40 | `typeof j.output === 'string'` holds exactly when `j` is an object whose `output` member is a string, and gives that string |
| `N8nService.Normalize` | services/n8nService.ts:34-46 | the JavaScript tests (truthiness, `Array.isArray`, `typeof output === 'string'`) find reply text exactly when the body is `[{"output": s}, ...]` or `{"output": s}`, and that text is `s` |
| `N8nService.RequestFor` | services/n8nService.ts:16-22 | the request is a POST to the given URL with the single header `Content-Type: application/json` and the JSON body `{"message": userMessage}` |
| `N8nService.SendMessageToN8n` | services/n8nService.ts:9-52 | unconfigured issues no request and gives the simulated reply; configured issues exactly the one JSON POST and reads the reply from its answer; transport failure, non-ok status or an undecodable body gives `BOT_ERROR_MESSAGE`; a documented shape gives its `output`; any other decoded body gives the unexpected-format message; the result is always one of the three fixed strings or reply text of the one exchange |
| `N8nService.UnconfiguredIssuesNoRequest` | services/n8nService.ts:11-14 | an unconfigured URL issues no request, and the outcome is the same whatever the network would answer |
| `N8nService.ConfiguredIssuesOneRequest` | services/n8nService.ts:16-22 | a configured URL issues exactly one request, the JSON POST of the message, and the outcome depends only on the network's answer to it |
| `N8nService.LaterElementsIgnored` | services/n8nService.ts:35-36 | only the first element of an array body is consulted |
| `N8nService.UnexpectedShapes` | services/n8nService.ts:35-46 | an empty array, an array whose first element has no string `output`, null, a boolean, a number, a string and an object without a string `output` all match neither shape |
| `N8nService.FailureMessagesDistinct` | constants.ts:9 | the error message, the simulated reply and the unexpected-format message are three different strings |
| `N8nService.DocumentedExamples` | services/n8nService.ts:34-46 | `{"output":"hi"}` and `[{"output":"hi"},{"output":"ignored"}]` give `"hi"`, `{"output":""}` gives `""`, `{"foo":"bar"}` gives the unexpected-format message |
| `ChatApp.IsUrlConfigured` | App.tsx:26 | `isUrlConfigured`: the URL is non-empty and does not include `YOUR_N8N_INSTANCE` |
| `ChatApp.ConfigurationChecksAgree` | App.tsx:26 | the application's `isUrlConfigured` is the negation of the service's own check on every URL |
| `ChatApp.DefaultUrlUnconfigured` | constants.ts:1-3 | both configuration checks class the default URL as not configured |
| `ChatApp.InitialUrl` | App.tsx:21-23 | the start-up URL is never empty; it is the stored value when that is present and non-empty, else the default placeholder |
| `ChatApp.ReloadKeepsConfiguration` | App.tsx:21-23 | while the active URL and storage stay in step, reading the URL back from storage does not change whether the app is configured |
| `ChatApp.SaveThenReload` | App.tsx:72-75 | after a save, a reload reads the trimmed URL, or the placeholder when the input was blank, and is configured exactly when the saved URL is |
| `ChatApp.SaveExample` | App.tsx:72-75 | saving `" https://x.test/hook "` gives `"https://x.test/hook"`, which counts as configured |
| `ChatApp.App.constructor` | App.tsx:18-23 | the URL is read once from storage under the one key; the conversation is empty and both flags are false |
| `ChatApp.App.MountGreeting` | App.tsx:29-38 | the conversation becomes exactly one bot message with the greeting |
| `ChatApp.App.BeginSend` | App.tsx:45-58 | unconfigured: opens the settings, leaving messages and the busy flag unchanged; configured: appends exactly one user message with the given text and sets the busy flag |
| `ChatApp.App.ReceiveReply` | App.tsx:60-69 | appends exactly one bot message with the reply text and clears the busy flag; earlier messages stay as a prefix |
| `ChatApp.App.HandleSendMessage` | App.tsx:45-70 | with a configured URL it appends the user message followed by the bot message carrying `sendMessageToN8n`'s result, ending not busy; otherwise it only opens the settings |
| `ChatApp.App.SaveSettings` | App.tsx:72-85 | the trimmed URL becomes the active URL and is written to storage under the one key (other keys untouched); the settings close; the conversation becomes the single "Settings saved! " greeting |
| `ChatApp.App.OpenSettings` | App.tsx:94 | the settings flag becomes true |
| `ChatApp.App.CloseSettings` | App.tsx:132 | the settings flag becomes false |
| `MessageInputBox.Submission` | components/MessageInput.tsx:24-25 | text is sent exactly when no reply is pending and the input is not blank; the text sent is non-empty, has no whitespace at either end, and is a slice of the input surrounded only by whitespace |
| `MessageInputBox.SubmitsOnKey` | components/MessageInput.tsx:31 | a key submits exactly when it is Enter without Shift |
| `MessageInputBox.MessageInput.constructor` | components/MessageInput.tsx:16 | the box starts empty |
| `MessageInputBox.MessageInput.HandleInputChange` | components/MessageInput.tsx:18-20 | the box holds the new text, replaced wholesale |
| `MessageInputBox.MessageInput.HandleSubmit` | components/MessageInput.tsx:22-28 | `onSendMessage` is called once with the trimmed text exactly when the guard allows it, and the box is then empty; otherwise nothing is sent and the text stays |
| `MessageInputBox.MessageInput.HandleKeyDown` | components/MessageInput.tsx:30-35 | Enter without Shift behaves as a submit; Shift+Enter and every other key send nothing and leave the box unchanged |

## Left out

- The network call, `response.json()` and `localStorage` are browser I/O. They become inputs: a function from the request to an `Exchange` (a transport failure, or a status and a body that decoded to `Json` or failed to decode), and a `map<string, string>` for storage.
- `ChatApp.InitialUrl`: a `localStorage.getItem` that throws at start-up (storage disabled) is not modelled. In the source it would abort the first render; the model assumes the read succeeds.
- `App.SaveSettings`: a `localStorage.setItem` that throws (storage disabled, quota exceeded) is not modelled. The model assumes the write succeeds. In the source `setN8nWebhookUrl` runs before the write, so a throwing write leaves the new URL queued while storage keeps the old value. That state lies outside `Persisted`. The throw also stops the handler before the settings close and the conversation resets.
- `N8nService.UnconfiguredIssuesNoRequest` and `N8nService.ConfiguredIssuesOneRequest` rest on the `sent` list the function reports. The network is a deterministic function, so a duplicate POST whose answer is not used could not be told apart by the reply alone. The list is what states the number of requests.
- `N8nService.SendMessageToN8n` is total. A `fetch` or `response.json()` that never settles (the source sets no timeout) is not modelled as a call. In the application it is a `BeginSend` with no `ReceiveReply`: the user message stays appended and the busy flag stays set. `HandleSendMessage`, which always ends not busy, covers only exchanges that settle.
- JSON text is not modelled. `JSON.stringify` of the request body is represented by the `Json` value it serialises. JSON numbers are `real`, since their value never matters here.
- `async`/`await` and React's batched state updates. `HandleSendMessage` runs both halves with nothing in between. Other handlers may run between `BeginSend` and `ReceiveReply`; for example, a save followed by the reply leaves the reply after the "Settings saved!" greeting. No scheduling beyond that is modelled.
- `Date.now()` is a clock read. It is a parameter, and a message id is kept as its prefix and that number rather than the formatted string.
- `console.warn`/`console.error` logging and `e.preventDefault()`.
- Strings are sequences of Unicode scalar values, while JavaScript works on UTF-16 code units. Every character `trim` removes and every character of the marker is in the Basic Multilingual Plane, so `trim` and `includes` give the same results either way.
- The disabled textarea blocks typing and Enter while a reply is pending. The model lets `HandleInputChange` and `HandleKeyDown` run then, which only adds behaviours, since `HandleSubmit` checks the busy flag itself. The send button's disabled state repeats the guard `handleSubmit` checks itself.
- components/ChatBubble.tsx, components/SettingsModal.tsx, the typing indicator, the `types` module, the scroll-into-view effect, the configuration banner and the rest of the JSX are presentation. The settings form passes its text to the save handler unchanged.
