# gpt-cli conversation core in Dafny

This project models the conversation session of gpt-cli, a command-line client for a
chat-completion service. It covers:

- `ChatHistory`, the conversation log with its last reported usage, start time and title.
  It is modelled as a Dafny class whose methods update those fields.
- The local token estimate, as a loop proved against a closed-form specification.
- The streaming fold, which keeps the last role, the concatenated content and the
  last-reported usage.
- Lazy title population, the save-file name, and the storage conversion of messages.
- `InMemoryHistory`, the bounded prompt history (most recent first, at most 20 entries).
- The loop step of `main`: typed input is either submitted or, when it is `"/?"`, opens the action menu, including the "regenerate" pop-pop-resubmit step.

The modules follow the source:

| Module | Models |
|---|---|
| `Messages` | roles, messages, usage and storage records |
| `TokenCount` | the specification of the estimate |
| `Streaming` | the stream fold |
| `ChatManager` | `src/chat_manager.rs` |
| `CliHistory` | `src/cli_history.rs` |
| `Menu` | `src/main.rs` |
| `Text` | Rust's `str::trim` |
| `Wrappers` | `Option` and `Result` |

How the outside world enters the model:

- The tokenizer is a parameter `tok: string -> nat`. Only the token count of a string is used.
- Replies from the service are parameters: a `Reply` value, or a sequence of `StreamItem`s
  for streaming. Each one is either a decoded response or the error the call reported.
- A turn that asks for a title also takes the reply to that title request as a parameter.
- Whatever would be sent to the service is returned to the caller: the chat request as
  `request`, and the title request, when one is sent, as `titleRequest`.
- Clock readings are opaque strings, namely their RFC 3339 rendering.
- A stored file is the already-decoded `HistoryStorage`, or the error from opening or decoding it.

Where the code and the design description disagree, the model follows the code:

- `load_from_file` restores only the messages. It sets usage, start time and title to
  `None` (src/chat_manager.rs:360-365). It is not a full round trip of the session.
  `ChatHistoryStorage` stores only `messages`.
- A non-streaming reply with no choices is not reported as an error. The code reads
  `choices[0]` directly, so it panics. The model states this as a precondition (`Answered`).
- A non-streaming turn replaces the recorded usage with whatever the reply carries,
  including `None` (src/chat_manager.rs:166).
- A streamed item with usage but no choice still records that usage before the turn
  is aborted (src/chat_manager.rs:204-213).
- If the title request fails after a turn, the turn returns that error. The User message,
  the reply and the usage are already recorded at that point.
- There is no model identity or persona field in the code. The prompt only seeds the
  first System message.

## Model

| member | source | states |
|---|---|---|
| `Messages.RoleName` | src/chat_manager.rs:89-92 | the lower-case role label the tokenizer counts; `RoleNameInjective` shows the labels are distinct |
| `Messages.Plain` | src/chat_manager.rs:146-149 | the message the builder makes from a role and a content, with no name; `ChatHistory.constructor`, `NextMessage` and `PopulateTitle` state the messages built with it |
| `Messages.RoleNameInjective` | src/chat_manager.rs:89-92 | the role label the tokenizer counts determines the role |
| `Messages.ToElement` | src/chat_manager.rs:369-377 | the storage record carries the message's role, content and name unchanged |
| `Messages.FromElement` | src/chat_manager.rs:379-387 | the rebuilt message carries the record's role, content and name unchanged |
| `Messages.MessageRoundTrip` | src/chat_manager.rs:369-387 | message → record → message is the identity |
| `Messages.ElementRoundTrip` | src/chat_manager.rs:369-387 | record → message → record is the identity |
| `Messages.ToStorage` | src/chat_manager.rs:323-328 | the stored document has one record per message, in order, each converting back to its message |
| `Messages.FromStorage` | src/chat_manager.rs:355-359 | the loaded log has one message per record, in order, each converting back to its record |
| `Messages.StorageRoundTrip` | src/chat_manager.rs:323-359 | storing a log and loading it back gives the same log |
| `Messages.DocumentRoundTrip` | src/chat_manager.rs:323-359 | loading a document and storing it again gives the same document |
| `TokenCount.MessageCost` | src/chat_manager.rs:64-96 | a message adds at least 3 to the estimate, and at least 4 unless it is a named User message |
| `TokenCount.CostSum` | src/chat_manager.rs:64-96 | the messages of a log together add at least 3 per message |
| `TokenCount.Estimate` | src/chat_manager.rs:56-98 | the value `count_tokens` returns is at least 3 per message minus 1; `EstimateClosedForm` gives it exactly |
| `TokenCount.EstimateSign` | src/chat_manager.rs:63-97 | an empty log is estimated at -1; any other log at 2 or more |
| `TokenCount.EstimateAppend` | src/chat_manager.rs:64-96 | appending a message raises the estimate by exactly that message's cost |
| `TokenCount.EstimateConcat` | src/chat_manager.rs:64-96 | the estimate of a concatenation is the first log's estimate plus the second log's costs |
| `TokenCount.EstimateGrows` | src/chat_manager.rs:64-96 | appending a message raises the estimate by at least 3 |
| `TokenCount.EstimatePrefix` | src/chat_manager.rs:64-96 | a prefix is estimated at least 3 lower per message it lacks |
| `TokenCount.EstimateClosedForm` | src/chat_manager.rs:63-97 | estimate = -1 + 4 per message - 1 per named User message + tokens of every role label, content and User name |
| `ChatManager.ChatHistory.CountTokens` | src/chat_manager.rs:56-98 | the loop returns exactly the specified estimate of the current log |
| `Streaming.Absorb` | src/chat_manager.rs:203-222 | the chunk's usage, if any, replaces the recorded one; the loop stops with "no first choice" exactly when the chunk has no choice, then keeping role and buffer; the buffer only grows and a role once seen is kept |
| `Streaming.Consume` | src/chat_manager.rs:202-224 | over any stream the buffer only grows and a role once seen is kept; `ConsumeClean` and `ConsumeAborts` give its result exactly |
| `Streaming.StreamedReply` | src/chat_manager.rs:254-257 | the pushed reply has the buffered content and no name; its role is the last role seen, else Assistant |
| `Streaming.ConsumeStops` | src/chat_manager.rs:202-213 | once an item has stopped the loop, later items change nothing |
| `Streaming.ConsumeCompletes` | src/chat_manager.rs:202-224 | the loop runs to exhaustion iff every item decoded and has a first choice |
| `Streaming.ConsumeClean` | src/chat_manager.rs:196-224 | on a clean stream: role = last delta role given, content = all delta contents in order, usage = last reported usage (else the prior one) |
| `Streaming.ConsumeAborts` | src/chat_manager.rs:202-213 | at the first bad item the loop stops with its error (or "no first choice"), keeping role and content of the items before and the usage reported up to and including that item |
| `Streaming.HelloExample` | src/chat_manager.rs:196-259 | role Assistant, then "Hel", then "lo" yields one Assistant reply "Hello" and leaves the usage alone |
| `Text.SkipWhitespace` | src/chat_manager.rs:130 | the scan stops at the first non-whitespace position, having passed only whitespace |
| `Text.SkipWhitespaceBack` | src/chat_manager.rs:130 | the backward scan stops just after the last non-whitespace character, having passed only whitespace |
| `Text.Trim` | src/chat_manager.rs:130 | the result is no longer than the input and neither starts nor ends with whitespace |
| `Text.TrimEmptyIff` | src/chat_manager.rs:130 | the trimmed title is empty iff the reply is all whitespace |
| `Text.TrimOfTrimmed` | src/chat_manager.rs:130 | a reply with no whitespace at either end is unchanged |
| `Text.TrimIsSlice` | src/chat_manager.rs:130 | the reply is leading whitespace, then the trimmed title, then trailing whitespace |
| `Text.TrimIdempotent` | src/chat_manager.rs:130 | trimming twice equals trimming once |
| `ChatManager.Retitle` | src/chat_manager.rs:110-133 | a successful title request sets a trimmed title taken from the first choice; a failed one keeps the old title and reports the error |
| `ChatManager.RetitleIfEmpty` | src/chat_manager.rs:102-107 | an existing title is kept and nothing is asked; otherwise it behaves as `populate_title` |
| `ChatManager.RetitleIfEmptySettles` | src/chat_manager.rs:102-107 | from no title, a title is set iff the request succeeded; once set, later lazy calls leave it unchanged |
| `ChatManager.SaveFileName` | src/chat_manager.rs:315-321 | the name ends with the time and ".yaml"; without a title it is time + ".yaml"; with one it starts with title + "_" and has no other characters (its length is that of title + "_" + time + ".yaml") |
| `ChatManager.FileNameDeterminesTitle` | src/chat_manager.rs:315-321 | for a fixed time, different titles (or none) give different file names |
| `ChatManager.ChatHistory.constructor` | src/chat_manager.rs:32-44 | the log is exactly [System(prompt)]; usage and title are None; the start time is the clock reading |
| `ChatManager.ChatHistory.Load` | src/chat_manager.rs:360-365 | the log is the converted stored messages; usage, start time and title are None |
| `ChatManager.ChatHistory.LoadFromFile` | src/chat_manager.rs:352-366 | a file error is returned as is; otherwise a fresh session as `Load` builds it |
| `ChatManager.ChatHistory.PopLastMessage` | src/chat_manager.rs:136-138 | an empty log gives None and stays empty; otherwise the old log is the new log plus the returned message |
| `ChatManager.ChatHistory.PopulateTitle` | src/chat_manager.rs:110-133 | the log is unchanged; the request is the log plus the title prompt as a User message; the title and outcome are as `Retitle` states |
| `ChatManager.ChatHistory.PopulateTitleIfEmpty` | src/chat_manager.rs:102-107 | the title and outcome are as `RetitleIfEmpty` states; a title request (the log plus the title prompt) is sent exactly when there was no title |
| `ChatManager.ChatHistory.NextMessage` | src/chat_manager.rs:141-171 | request = old log + User(text); on a failed call only the User message is added; on success the log gains User(text) then the first choice, the usage becomes the reply's usage (even None), the title is lazily populated, and the first choice's content is returned unless the title request failed; the title request, sent only after a successful call when there was no title, is the log with the reply pushed plus the title prompt |
| `ChatManager.ChatHistory.NextMessageStream` | src/chat_manager.rs:174-268 | the usage is that of the stream fold; if the fold stopped, the log is old log + User(text) and its error is returned; otherwise it also gains the streamed reply, the title is lazily populated and the buffer is returned; a title request, the log with the streamed reply plus the title prompt, is sent only when the fold completed and there was no title |
| `ChatManager.ChatHistory.SaveToFile` | src/chat_manager.rs:310-328 | the file name comes from the title and the start time (the clock when there is none); the document is the stored log and loads back to it |
| `CliHistory.Written` | src/cli_history.rs:25-30 | the written value is at the front; the length grows by one when there is room and stays at max when full; the bound is kept; every earlier entry that remains moves one place back |
| `CliHistory.WrittenEvictsOldest` | src/cli_history.rs:26-29 | a full queue becomes [val] + all entries but the oldest; the oldest is gone unless it occurs elsewhere or equals val |
| `CliHistory.WrittenKeepsAll` | src/cli_history.rs:26-29 | a queue with room becomes [val] + all its entries |
| `CliHistory.InMemoryHistory.Default` | src/cli_history.rs:11-17 | max is 20 and the queue is empty |
| `CliHistory.InMemoryHistory.Read` | src/cli_history.rs:21-23 | returns Some iff pos < len, and then the entry at pos; it reads only |
| `CliHistory.InMemoryHistory.Write` | src/cli_history.rs:25-30 | the queue becomes `Written(old, max, val)`; len <= max is kept; read(0) is the written value |
| `Menu.AsStr` | src/main.rs:167-174 | the menu label of each action; `AsStrInjective` shows distinct actions get distinct labels |
| `Menu.AsStrInjective` | src/main.rs:167-174 | distinct actions have distinct labels |
| `Menu.All` | src/main.rs:176-183 | four actions, each listed once, every action listed, ReturnToChat first |
| `Menu.AllStr` | src/main.rs:185-187 | one label per action, `AllStr()[i] == AsStr(All()[i])`, all distinct |
| `Menu.Select` | src/main.rs:103 | a dismissed menu or an out-of-range index selects nothing; otherwise the action whose label was shown at that index |
| `Menu.RegeneratedLog` | src/main.rs:112-113 | the log after the two pops; `RegenerateRestoresLength`, `RegenerateOnShortLog` and `Regenerate` characterise it |
| `Menu.RegeneratedQuestion` | src/main.rs:113 | the question resubmitted after the two pops; the same lemmas and `Regenerate` characterise it |
| `Menu.RegenerateRestoresLength` | src/main.rs:110-114 | with two or more messages, regenerating and then getting a reply leaves a log of the same length with the same prefix and the same question |
| `Menu.RegenerateOnShortLog` | src/main.rs:110-114 | with fewer than two messages the log ends up empty and the empty question is submitted |
| `Menu.RegenerateExample` | src/main.rs:110-114 | [System, User "hi", Assistant "hello"] becomes [System] and "hi" is resubmitted |
| `Menu.Regenerate` | src/main.rs:110-114 | pops twice: the log loses its last two messages, and the question is the second popped content or "" |
| `Menu.Dispatch` | src/main.rs:95-121 | input other than "/?" is submitted as it is and changes nothing; from the menu only RegenerateResponse changes the log and submits; only RecreateTitle sends the title request (log plus title prompt) and changes the title (an error there leaves `main`); the other selections continue |
| `Menu.JoiPrompt` | src/utils.rs:39-46 | the "joi" prompt text ends with the clock reading it was rendered with |
| `Menu.StartSession` | src/main.rs:83-87 | with a file, the session is loaded from it or its error is returned; without one, a new session is seeded with the "joi" prompt |

## Left out

- Network calls (`create`, `create_stream`), async/await and the futures stream. Replies and stream items are given values.
- The terminal: writing each delta to the terminal as it arrives, cursor control, usage lines, window title, `print_history` and the dialoguer prompts. All of this is output only. A failing terminal write would end a turn early; the model assumes these writes succeed.
- Filesystem work and YAML: `get_project_dirs`, `create_dir_all`, file create/open, `serde_yaml`, `get_all_saved_conversations`, and the cache directory prefix of the save path. The model covers the element conversion, the document and the file name.
- The builders' `build()?` calls. Both required fields are always set, so these calls never fail in practice.
- `token_usage()`, a plain accessor for the recorded usage.
- tiktoken's BPE, which is the abstract parameter `tok`.
- ChatManager.ChatHistory.CountTokens: the source accumulates in an `i64` and casts lengths with `as i64`. The model uses unbounded integers, because realistic logs are far below the 64-bit range.
- CliHistory.InMemoryHistory.Write: the generic `T: ToString` argument is modelled as the string `to_string` produced.
- The rest of `main`: argument parsing, `--create-config`, file selection, and the loop's choice between streaming and non-streaming turns and saving after each turn. The operations those steps call are modelled above.
- src/configuration.rs: configuration, environment and directory resolution are not part of this model.
- src/utils.rs: only the "joi" prompt text is modelled. Its clock reading is a parameter.
