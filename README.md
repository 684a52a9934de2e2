# AI Copilot chat client — a Dafny model of its core

The model covers the decision logic of a browser chat client. The user picks a
mode ("generate", "explain" or "debug"), types a message and sends it. The
client posts the message to a backend and shows the reply in a chat bubble. A
small renderer turns triple-backtick fences in the reply into code blocks.

The model has six modules:

- `Wrappers` defines `Option`, `Result` and `Outcome`.
- `Text` models the parts of the JavaScript string library the client relies on:
  - the `\s` and `\w` character classes and `trim`;
  - `startsWith` and `includes`;
  - `split` and `join` with a one-character separator;
  - the decimal rendering of a status number in a template string.
- `MessageBubble` models the fenced-code renderer `renderWithCodeBlocks` and the bubble.
  - The renderer is a method with a loop.
  - It is proved equal to `Render`, a left fold of one scanner step per line.
  - Lemmas relate that fold to independent, declarative descriptions: the fence count, the last fence, and the lines that become paragraphs.
- `Api` models the backend client:
  - the base-URL rule;
  - the mixed-content guard;
  - the JSON helpers `postJSON` and `getJSON`;
  - the three validated operations;
  - the health probe and the hello probe.
- `App` models the conversation controller: a class holding the message list, the "request outstanding" flag and the error banner, and its `handleSubmit`.
- `InputBar` models the input bar: a class holding the mode, the text and the `disabled` flag, and its submit guard.

The network is not modelled. A call takes the outcome of its one `fetch` as a
parameter, `FetchOutcome`: either a transport failure with an optional
message, or a response with a status, a content type and a parsed body. Every
call also returns the request it sent, if any, so "nothing was sent" can be
stated. The build-time setting `REACT_APP_BACKEND_BASE_URL` and
`window.location.protocol` are also parameters, passed in an `Environment`.

Lines inside a code block never become paragraphs:

- `MessageBubble.ScanParts` counts one paragraph per line outside code.
- `MessageBubble.RenderCount` adds one block per closed fence pair, and one for an open fence.

## Model

| member | source | states |
|---|---|---|
| `MessageBubble.RenderWithCodeBlocks` | frontend_app/src/components/MessageBubble.js:7-54 | The in-place scan returns exactly the blocks of the scanner specification `Render`. Its loop invariant is that the scanner's variables equal the fold over the lines seen so far. |
| `MessageBubble.FenceTag` | frontend_app/src/components/MessageBubble.js:15 | A line is a fence only if it starts with three backticks. The tag it yields is a run of word characters that fits in the rest of the line. `FenceTagSound` and `FenceTagComplete` give the exact characterisation in both directions. |
| `MessageBubble.FenceTagSound` | frontend_app/src/components/MessageBubble.js:15 | A fence line is three backticks, a tag of word characters, and whitespace only. The tag it carries is exactly that word run. |
| `MessageBubble.FenceTagComplete` | frontend_app/src/components/MessageBubble.js:15-20 | Conversely, three backticks followed by any word run and any whitespace is a fence. Its language is that word run, or `""` when there is none. |
| `MessageBubble.NotFenceExamples` | frontend_app/src/components/MessageBubble.js:15 | These lines are not fences: three backticks, a space and "js" (space before the tag); three backticks and "js x" (a second word); four backticks; two backticks; and the empty line. |
| `MessageBubble.FenceTagExamples` | frontend_app/src/components/MessageBubble.js:15-20 | Three bare backticks open with language "". Three backticks and "js" carry "js". A trailing carriage return is whitespace, so three backticks, "python", a space and a carriage return carry "python". |
| `MessageBubble.ScanState` | frontend_app/src/components/MessageBubble.js:14-42 | After any prefix of the lines, the scanner is in code exactly when an odd number of fences has been seen. Then its language is the tag of the last fence and its buffer holds every line after that fence. Otherwise both are reset. |
| `MessageBubble.ScanParts` | frontend_app/src/components/MessageBubble.js:14-42 | The paragraphs emitted are exactly the non-fence lines preceded by an even number of fences, in order. The blocks emitted number those paragraphs plus one per closed fence pair. |
| `MessageBubble.ScanCodeBodies` | frontend_app/src/components/MessageBubble.js:24-34 | For input split at line breaks, no line of any code body, and no line of the open buffer, is a fence. |
| `MessageBubble.RenderCount` | frontend_app/src/components/MessageBubble.js:7-54 | The output has one block per paragraph line, one per closed fence pair, and one more when a fence is left open. |
| `MessageBubble.RenderParagraphs` | frontend_app/src/components/MessageBubble.js:33-41 | The rendered paragraphs are exactly the lines outside code, in order. None of them is a fence. |
| `MessageBubble.ParagraphLinesAreNotFences` | frontend_app/src/components/MessageBubble.js:16-35 | No line outside code that becomes a paragraph is a fence. |
| `MessageBubble.RenderCodeBodies` | frontend_app/src/components/MessageBubble.js:24-28 | No line of a rendered code body is a fence. |
| `MessageBubble.RenderUnclosed` | frontend_app/src/components/MessageBubble.js:44-51 | With an odd number of fences, the last block is a code block. Its language is the tag of the last fence, and its body is the lines after that fence joined with line breaks. |
| `MessageBubble.ClosingFence` | frontend_app/src/components/MessageBubble.js:22-32 | A closing fence emits a code block. Its language comes from the opening fence, not the closing one, and its body is the lines strictly between the two fences. |
| `MessageBubble.RenderEmpty` | frontend_app/src/components/MessageBubble.js:9 | Missing content and empty content both render as one empty paragraph. |
| `MessageBubble.RunAppend` | frontend_app/src/components/MessageBubble.js:14 | Lines are processed strictly in order: scanning `xs + ys` is scanning `xs` and then `ys`. |
| `MessageBubble.RunExtends` | frontend_app/src/components/MessageBubble.js:14-42 | Scanning more lines only appends blocks. Every block already emitted keeps its index. |
| `MessageBubble.EmittedStays` | frontend_app/src/components/MessageBubble.js:14-53 | The blocks emitted for any prefix of the lines begin the rendered output, in the same order. Output order follows input line order. |
| `MessageBubble.ClosedBlockStays` | frontend_app/src/components/MessageBubble.js:22-32 | In the rendered output, the code block closed by the fence at line j sits right after the blocks of the lines before it. Its language is the opening fence's tag, and its body is the lines between the two fences. |
| `MessageBubble.RunBuffers` | frontend_app/src/components/MessageBubble.js:33-34 | Inside code, non-fence lines only extend the buffer. Nothing is emitted and the language is kept. |
| `MessageBubble.MessageBubble` | frontend_app/src/components/MessageBubble.js:57-68 | The label is "User message" exactly for role `"user"`, and "Assistant message" for every other role, the default "assistant" included. The class follows the same test. The content is rendered by `Render`. |
| `Text.TrimEmptyIffBlank` | frontend_app/src/api.js:106 | `!s.trim()` holds exactly when every character of `s` is JavaScript whitespace, the empty string included. |
| `Text.SplitCount` | frontend_app/src/components/MessageBubble.js:9 | Splitting gives one more line than there are line breaks. |
| `Text.JoinSplit` | frontend_app/src/components/MessageBubble.js:26 | Joining the pieces of a split with the same separator restores the text. |
| `Text.SplitJoin` | frontend_app/src/components/MessageBubble.js:48 | Splitting a join of separator-free pieces restores the pieces. |
| `Text.DecimalStringRoundTrip` | frontend_app/src/api.js:56 | The number rendered in "Request failed with status N" reads back as the response status. |
| `Api.BaseUrl` | frontend_app/src/api.js:5-6 | The base URL is never empty and never ends in a slash. It is the default `http://localhost:3001` when the setting is missing or all slashes. Otherwise it is the setting with exactly its trailing slashes removed. `getBaseUrl` at line 129-132 returns this value. |
| `Api.StripTrailingSlashes` | frontend_app/src/api.js:6 | Replacing `/\/*$/` by "" leaves a prefix that does not end in a slash, and everything removed is a slash. |
| `Api.CheckMixedContent` | frontend_app/src/api.js:11-20 | The guard fails exactly when the page protocol is `https:` and the base URL starts with `http://`. It fails with the exact message. Without a window it always passes. |
| `Api.GuardPasses` | frontend_app/src/api.js:13 | An `https://` base URL always passes the guard, and so does any page not served over `https:`. |
| `Api.MixedContentMessageNamesUrl` | frontend_app/src/api.js:15-18 | The mixed-content message names the offending base URL. |
| `Api.ReadPayload` | frontend_app/src/api.js:48-50 | The payload is the parsed body exactly when the content type includes `application/json` and the body parsed. Otherwise it is null. |
| `Api.FirstTruthy` | frontend_app/src/api.js:53-56 | A chain of logical-or alternatives yields the first truthy candidate, or the fallback when none is truthy. It is never empty when the fallback is not. |
| `Api.StatusErrorPriority` | frontend_app/src/api.js:52-62 | A non-2xx message is `error.message` if truthy, else `message` if truthy, else "Request failed with status N". It is never empty. |
| `Api.FetchJson` | frontend_app/src/api.js:26-64 | See the items below the table. |
| `Api.PostJson` | frontend_app/src/api.js:26-64 | `postJSON` is `FetchJson` with a POST of the JSON body. It fails only with a non-empty message. |
| `Api.GetJson` | frontend_app/src/api.js:69-99 | `getJSON` is `FetchJson` with a GET and no body, under the same contract. |
| `Api.FetchJsonOutcomes` | frontend_app/src/api.js:26-99 | A helper call succeeds exactly when a request was sent, a response arrived, and its status is 2xx. A non-2xx response without a parsed JSON body fails with the status text and that status. Every error message is non-empty. |
| `Api.GetHello` | frontend_app/src/api.js:160-163 | `getHello` is a `getJSON` of `/api/hello`. |
| `Api.RequireField` | frontend_app/src/api.js:106 | Validation fails exactly when the field is missing or blank, with the given message and no status. |
| `Api.PostGenerate` | frontend_app/src/api.js:102-108 | A missing or blank prompt fails with "Prompt is required." and sends nothing. Otherwise it is a `postJSON` to `/generate` of the prompt and the optional fields. |
| `Api.PostExplain` | frontend_app/src/api.js:111-117 | A missing or blank code fails with "Code is required." and sends nothing. Otherwise it is a `postJSON` to `/explain` of the code and the optional fields. |
| `Api.PostDebug` | frontend_app/src/api.js:120-126 | A missing or blank code fails with "Code is required." and sends nothing. Otherwise it is a `postJSON` to `/debug` of the code, the error and the optional fields. |
| `Api.ValidationBeforeGuard` | frontend_app/src/api.js:106-107 | Validation runs before the mixed-content guard. A blank field reports the validation message even where the guard would fail. The guard's failure sends nothing. |
| `Api.HealthPriority` | frontend_app/src/api.js:144 | The probe prefers `message` over `error.message`, the reverse of the helpers. When a payload holds two different truthy messages, the probe and the helpers report different ones. |
| `Api.GetHealth` | frontend_app/src/api.js:135-157 | See the items below the table. |
| `Api.HealthErrorMessage` | frontend_app/src/api.js:141-155 | A non-2xx response whose content type includes `application/json` and whose body carries only `error.message = m` fails with `m`, a space and the "Unable to reach" hint, with no status. |
| `App.AssistantReply` | frontend_app/src/App.js:48-57 | Every assistant turn of a settled call has the assistant role and non-empty content. |
| `App.ErrorText` | frontend_app/src/App.js:51 | The banner text is never empty. It is the error's own message when that is non-empty, and "Unexpected error occurred." otherwise. |
| `App.AlternatingExtend` | frontend_app/src/App.js:35-57 | One submission appends one user turn and one assistant turn. This keeps the list as the greeting followed by strictly alternating user and assistant turns. |
| `App.BubbleFollowsRole` | frontend_app/src/App.js:70-72 | Each turn is shown in the bubble of its role, with its content rendered by `Render`. |
| `App.FencedEchoRenders` | frontend_app/src/App.js:55 | A one-line preamble, a blank line and a message inside an untagged fence render as two paragraphs and one untagged code block. The code block holds the message verbatim, provided no line of the message is a fence. |
| `App.FailureEchoRenders` | frontend_app/src/App.js:51-56 | The failure reply renders as the apology, an empty paragraph, and the error message verbatim in one untagged code block. This holds when no line of the message is a fence. |
| `App.Dispatch` | frontend_app/src/App.js:40-47 | Mode "generate" posts the text as the prompt. Mode "explain" posts it as code to explain. Any other mode posts it as code to debug. No optional field is set, and a failure always carries a message. |
| `App.Conversation.constructor` | frontend_app/src/App.js:15-19 | The conversation starts with the greeting alone, nothing outstanding, and no error. |
| `App.Conversation.BeginSubmit` | frontend_app/src/App.js:32-36 | Starting a submission is allowed only when nothing is outstanding. It clears the error, marks a request outstanding, and shows the user's text as a new turn before any answer. It keeps `Valid`: the earlier turns alternate and the last turn is the unanswered user turn. |
| `App.Conversation.Settle` | frontend_app/src/App.js:48-59 | Settling is allowed only while a request is outstanding. It appends the assistant turn and clears the outstanding flag. A failure's message goes to the error banner. It keeps `Valid`: the answered turn restores strict alternation. |
| `App.Conversation.HandleSubmit` | frontend_app/src/App.js:31-61 | See the items below the table. |
| `InputBar.ModeValues` | frontend_app/src/components/InputBar.js:6-10 | The selector offers exactly the modes "generate", "explain" and "debug". |
| `InputBar.Bar.constructor` | frontend_app/src/components/InputBar.js:13-22 | A new bar has the given default mode, or "generate" when none is given. Its text is empty. It takes the parent's `disabled` flag, or false when none is given. |
| `InputBar.Bar.ChangeText` | frontend_app/src/components/InputBar.js:66 | Typing replaces the text and nothing else. |
| `InputBar.Bar.ChangeMode` | frontend_app/src/components/InputBar.js:40 | Choosing an option sets the mode to that option's value and nothing else. |
| `InputBar.Bar.SetDisabled` | frontend_app/src/components/InputBar.js:13 | The parent's flag replaces `disabled` and nothing else. |
| `InputBar.Bar.SendEnabled` | frontend_app/src/components/InputBar.js:75 | The send button is enabled exactly when the bar is not disabled and the text has a non-whitespace character. |
| `InputBar.Bar.SendLabel` | frontend_app/src/components/InputBar.js:76-78 | The button reads "Sending..." exactly while disabled, and "Send" otherwise. |
| `InputBar.Bar.HandleSubmit` | frontend_app/src/components/InputBar.js:24-29 | Submitting fires exactly when the send button is enabled. It hands over the current mode and the untrimmed text, and clears the text. A blank or disabled submit changes nothing. The mode never changes. |

Three contracts are too long for one table cell:

- `Api.FetchJson`:
  - The mixed-content guard runs first. When it fails, nothing is sent and its error is returned as is.
  - Otherwise exactly one request goes to the base URL plus the path.
  - A transport failure gives its own message, or "Network request failed.", then a space and the "Failed to reach" hint, with no status.
  - A non-2xx response fails with the chosen message and its status.
  - A 2xx response yields the payload unchanged.
- `Api.GetHealth`:
  - The probe is a GET of the base URL plus `/`.
  - A guard failure is returned unwrapped and sends nothing.
  - A transport failure is wrapped with "Network error during health check." when it has no message, then the "Unable to reach" hint.
  - A non-2xx response's message is also re-wrapped with the hint, and its status is dropped.
  - A 2xx response yields the parsed JSON, or `{}` for a non-JSON or unparsable body.
  - Every failure has a non-empty message and no status.
- `App.Conversation.HandleSubmit`:
  - It runs only when nothing is outstanding. The send button is disabled while a request is outstanding, so this is the only state the source calls it in.
  - Exactly one user turn and one assistant turn are appended. Earlier turns are unchanged and the alternation is kept.
  - Nothing is outstanding afterwards.
  - The error banner is empty on success. On failure it holds the call's own message, which is never empty.
  - The call made is the mode's operation, under that operation's contract.

## Left out

- The network, promises and `async`/`await` are not modelled. The one `fetch` outcome and the environment settings are parameters, and each call runs to completion.
- JSON parsing and serialisation are not modelled:
  - A response carries an already parsed body, or none when parsing failed.
  - Only the fields the client reads are kept: `content`, `message` and `error.message`. `model`, `usage` and other fields are not modelled.
  - A request body keeps unset optional fields as `None`. `JSON.stringify` drops them on the wire; the model does not show that.
- JavaScript values of the wrong type are not modelled, such as a numeric `message` or non-string content. Every such field is an optional string, and "truthy" means present and non-empty.
- The error objects' `payload`, `url` and `cause` properties are not modelled. Only the message and the status are kept.
- React rendering is not modelled: JSX, element keys, the `pre`/`code`/`p` markup and its classes, the typing indicator, the banner markup, the theme class, and the auto-scroll effect. The renderer's output is the block list, and the bubble is its label, class and blocks.
- Overlapping submissions are not modelled. React's functional state updates are each modelled as an atomic append. The input bar is disabled while a request is outstanding.
- The textarea placeholder text (`frontend_app/src/components/InputBar.js`, lines 58-64) is display text only and is not modelled.
- `e.preventDefault()` and the optional `onSubmit?.` call are not modelled. `InputBar.Bar.HandleSubmit` returns the submission it would hand to `onSubmit`.
- `InputBar.Bar.ChangeMode` requires one of the listed modes, because a `select` can only produce the values of its options.
- `frontend_app/src/components/Header.js` and `frontend_app/src/index.js` are static markup and bootstrapping, and are not part of this model.
