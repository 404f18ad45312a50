# RootGPT conversation store

RootGPT is a desktop chat client: a PyQt window in which the user holds several
named conversations with the Gemini model, and a history file (`chat_history.txt`)
that keeps the transcripts between runs. This project models the part of the
`ChatApp` class that keeps the conversations:

- `chat_data`, a map from a chat id (`"Chat 1"`, `"Chat 2"`, …) to the ordered list of
  `(sender, text)` turns of that chat, where the sender is `"You"` or `"RootGPT"`;
- `current_chat_id`, the chat on screen, or `None`;
- the history file, rewritten in full with `chat_data` on every save, or absent;

and the operations that change them: start-up (`__init__` with `load_chat_history`),
`new_chat`, `load_chat`, `send_message`, `save_chat_history` and
`remove_chat_history`, together with the pure helpers they rely on: `str.strip`,
the `f"Chat {n}"` id format and the keyword test `is_code`.

Layout:

- `wrappers.dfy` (`Wrappers`): `Option`, standing for Python's `None`.
- `text.dfy` (`Text`): `str.isspace` and `str.strip()`.
- `decimal.dfy` (`Decimal`): `str(n)` for a natural number, and reading it back.
- `code_detect.dfy` (`CodeDetect`): substring search (`k in m`) and `is_code`.
- `conversations.dfy` (`Conversations`): the store as a value (`Store`), each user
  action as a function on it (`Init`, `NewChatStep`, `LoadChatStep`, `SendStep`,
  `RemoveStep`, and `Step`/`Run` for whole sessions), and the properties proved
  about them.
- `chat_app.dfy` (`App`): the class `ChatApp` with the fields `chatData`,
  `currentChatId` and `historyFile`, whose methods update them in place; each
  method's postcondition says its new state is the matching step function applied
  to the old state.

The remote call is a parameter `remote: Remote` (`Success(reply)` or
`Failure(error)`), so the network is not modelled. The history file is a field
`historyFile: Option<Chats>` holding what the file contains (`None` when it does not
exist); the constructor receives its contents at start-up.

What is proved, in short:

- `send_message` ignores input that is empty or whitespace after stripping; on
  other input it appends `("You", stripped)` to the current chat and, on a reply,
  `("RootGPT", reply)`; a remote error stores nothing more. Every stored message is
  followed by a save, so the file then equals memory, and reloading it gives the
  chats back.
- `new_chat` adds `"Chat " + str(len + 1)` with an empty transcript and selects it.
  That id is fresh whenever the keys are exactly `"Chat 1"` … `"Chat n"`. This
  holds in every session that starts without a file, across any number of
  restarts and history deletions, because the file only ever holds such a map
  (`RunInv`). A hand-made file with, say, only `"Chat 2"` makes `new_chat` reuse
  `"Chat 2"` and wipe its transcript (`NextIdCollidesOnForeignKeys`).
- In every session whose ids are `"Chat 1"` … `"Chat n"`, as in any session that
  began without a history file (`Inv`), no chat is dropped within one run and
  transcripts only grow (`RunAppendOnly`). In such sessions the file never holds a
  chat or a turn that memory lacks.
- After loading a non-empty history no chat is selected. A message sent before
  picking a chat then raises `KeyError` in `chat_data[None]`
  (`LoadedHistoryHasNoSelection`).

Behaviour of the source worth knowing:

- `remove_chat_history` deletes the file and exits only when the file exists.
  Without a file it does nothing and the process keeps running.
- On a remote error the error text is only shown on screen. No turn of any kind is
  added to `chat_data`.
- The selected chat need not exist. After a non-empty history is loaded,
  `current_chat_id` is `None`. `load_chat` sets `current_chat_id` before it looks
  the id up, so it stays set even when that lookup raises `KeyError`. `send_message`
  then raises `KeyError` and stores nothing (`SendStatus.NoActiveChat`).
- Ids are unique only in the sense above, not in general.

## Model

| member | source | states |
|---|---|---|
| Text.Strip | RootGPT.py:180 | `strip()` yields a contiguous slice of the input whose surrounding parts are all whitespace, with no whitespace at either end; it is empty exactly when the input is all whitespace |
| Text.StripIdempotent | RootGPT.py:180 | stripping an already stripped message changes nothing |
| Text.LeadingSpaces | RootGPT.py:180 | the leading whitespace run: all whitespace, followed by a non-whitespace character or the end |
| Text.TrailingStart | RootGPT.py:180 | the trailing whitespace run: all whitespace, preceded by a non-whitespace character or the start |
| Decimal.NatToString | RootGPT.py:166 | `str(n)` is a non-empty string of decimal digits with no leading zero |
| Decimal.ParseNatToString | RootGPT.py:166 | reading back the digits of `str(n)` gives `n` |
| Decimal.NatToStringInjective | RootGPT.py:166 | different numbers give different strings |
| CodeDetect.Contains | RootGPT.py:220 | `k in m` holds exactly when `k` occurs in `m` at some index |
| CodeDetect.IsCode | RootGPT.py:218-220 | `is_code(m)` holds exactly when one of `def`, `class`, `import`, `for`, `if`, `else`, `return` occurs in `m` as a substring |
| CodeDetect.KeywordInsideWord | RootGPT.py:219-220 | a keyword inside a longer word counts ("information" contains "for") |
| CodeDetect.IsCodeInContext | RootGPT.py:219-220 | adding text before or after a message that counts as code keeps it code |
| CodeDetect.ShortMessageIsNotCode | RootGPT.py:219-220 | a message shorter than two characters, the empty one included, is never code |
| Conversations.ChatIdInjective | RootGPT.py:166 | `f"Chat {i}"` equals `f"Chat {j}"` only when `i == j` |
| Conversations.NextIdFresh | RootGPT.py:166-167 | when the keys are exactly "Chat 1".."Chat n", the id `new_chat` generates is not a key |
| Conversations.AddNextIdKeepsCanonical | RootGPT.py:166-167 | adding that id keeps the keys "Chat 1".."Chat n+1" and grows the map by exactly one |
| Conversations.NextIdCollidesOnForeignKeys | RootGPT.py:166-167 | with only "Chat 2" stored, `new_chat` picks "Chat 2" again and empties its transcript |
| Conversations.NewChatAddsOneChat | RootGPT.py:165-168 | whenever the next id is unused, `new_chat` adds exactly that key with an empty transcript, selects it, keeps all other chats and leaves the file alone |
| Conversations.LoadChatOnlySelects | RootGPT.py:172-173 | `load_chat(id)` sets the selection to `id` and changes neither the chats nor the file |
| Conversations.SendBlankIsIgnored | RootGPT.py:180-181 | the send ends as `Ignored` with store, selection and file untouched exactly when the input is all whitespace |
| Conversations.SendWithoutChatStoresNothing | RootGPT.py:183 | non-blank input with no existing chat selected raises `KeyError` and stores nothing |
| Conversations.SendWithReply | RootGPT.py:183-199 | on a reply the selected chat becomes `old + [("You", stripped), ("RootGPT", reply)]`, other chats unchanged, file equal to memory |
| Conversations.SendWithFailure | RootGPT.py:183-201 | on a remote error the selected chat becomes `old + [("You", stripped)]`, the error is not stored, file equal to memory |
| Conversations.SendSavesStore | RootGPT.py:185-199 | whenever a message was stored, the file equals the chats in memory afterwards |
| Conversations.ReloadAfterSend | RootGPT.py:207-216 | reloading the file written by a send gives back the same chats, with no chat selected |
| Conversations.LoadedHistoryHasNoSelection | RootGPT.py:161-163 | after loading a non-empty history the chats are the file's, no chat is selected, and a non-blank send raises `KeyError` |
| Conversations.InitInv | RootGPT.py:161-163 | start-up from no file, a file holding `{}`, or a file with keys "Chat 1".."Chat n" yields a store satisfying the invariant |
| Conversations.StepInv | RootGPT.py:165-216 | every action preserves the invariant (canonical ids in memory and on file, file a prefix of memory); every action but a restart keeps all chats and only extends transcripts |
| Conversations.RunInv | RootGPT.py:165-216 | any session of actions, restarts and deletions included, preserves the invariant |
| Conversations.RunAppendOnly | RootGPT.py:167-198 | in every session whose ids are "Chat 1".."Chat n" (`Inv`), as in any session that began without a history file, no chat disappears within one run and every transcript is a prefix of its later self |
| Conversations.NewChatFreshFromCleanStart | RootGPT.py:162-167 | in any session that began without a history file, the id `new_chat` generates next is not in use |
| Conversations.NewChatsAreNumbered | RootGPT.py:165-167 | n calls of `new_chat` from empty give exactly the keys "Chat 1".."Chat n", all with empty transcripts |
| Conversations.CleanStart | RootGPT.py:161-163 | without a history file the app starts with the empty chat "Chat 1" selected and no file |
| Conversations.FirstExchangeIsSaved | RootGPT.py:179-199 | from a clean start, "hello" answered by "hi there" leaves the file holding `{"Chat 1": [("You","hello"), ("RootGPT","hi there")]}` |
| Conversations.FailedExchangeKeepsUserTurn | RootGPT.py:179-201 | from a clean start, a failed "test" leaves the file holding `{"Chat 1": [("You","test")]}` |
| Conversations.RestartRestoresSavedChat | RootGPT.py:207-216 | after that exchange and a restart, the chat is back and nothing is selected |
| Conversations.RestartLosesUnsavedChat | RootGPT.py:165-170 | a chat created by `new_chat` but never written to is not saved and is gone after a restart |
| App.ChatApp.constructor | RootGPT.py:118-163 | start-up: `chat_data` empty and no selection, the history loaded when the file exists, and one new chat when that leaves no chats |
| App.ChatApp.LoadChatHistory | RootGPT.py:211-214 | `chat_data` becomes the file's contents when the file exists and is unchanged otherwise |
| App.ChatApp.SaveChatHistory | RootGPT.py:207-209 | the file afterwards holds exactly `chat_data` |
| App.ChatApp.NewChat | RootGPT.py:165-168 | updates the fields in place as `NewChatStep` describes |
| App.ChatApp.LoadChat | RootGPT.py:172-175 | selects `id` as `LoadChatStep` describes and returns its transcript, or `None` when the lookup raises `KeyError` |
| App.ChatApp.SendMessage | RootGPT.py:179-201 | updates the chats and the file in place, saving after each appended turn, as `SendStep` describes, and returns how the send ended |
| App.ChatApp.RemoveChatHistory | RootGPT.py:203-206 | the file no longer exists afterwards, and the process exits exactly when it existed before |

## Left out

- Widget construction, palettes, style sheets, the chat list widget, the Qt event loop and `__main__` (RootGPT.py:27-159, 222-226). This is presentation only. The chat list always shows the keys of `chat_data`, which is why `load_chat` is only ever given an existing id in practice.
- The HTML appended to `chat_display`, and which of the two formats `is_code` selects for a reply (RootGPT.py:177, 182, 194-196, 201). This is display only and never reaches `chat_data`. `is_code` itself is modelled.
- `user_input.clear()` (RootGPT.py:184). This is a widget operation.
- Gemini configuration, the API key and `chat_session.send_message` (RootGPT.py:10-25, 188-189). The outcome of the call is the `remote` parameter. The remote session's own memory of earlier messages, which the client shares across all local chats, is not modelled.
- JSON encoding and decoding, I/O errors, and files that do not decode to a map of chat ids to `[sender, text]` pairs (RootGPT.py:207-216). The file is modelled as the map it holds. A turn's sender is one of two values rather than an arbitrary string.
- `sys.exit()` (RootGPT.py:206). `RemoveChatHistory` reports whether the process exits. The `Restart` action in a session stands for the process ending and being started again on the same file.
- Text.Strip: characters are Unicode code points; Python's lone surrogates, which a Dafny `char` cannot hold, are not modelled.
