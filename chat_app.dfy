/** The bookkeeping part of the `ChatApp` widget: its fields `chat_data` and
    `current_chat_id`, the history file it reads and rewrites, and the methods that
    update them in place. Each method's new state is the corresponding step function
    of `Conversations` applied to the old state. */
module App {
  import opened Wrappers
  import opened Text
  import opened Conversations

  class ChatApp {
    var chatData: Chats
    var currentChatId: Option<string>
    /** Contents of `chat_history.txt`; `None` when the file does not exist. */
    var historyFile: Option<Chats>

    ghost function State(): Store
      reads this
    {
      Store(chatData, currentChatId, historyFile)
    }

    /** `__init__`, given what the history file holds at start-up. */
    constructor (history: Option<Chats>)
      ensures State() == Init(history)
    {
      chatData := map[];
      currentChatId := None;
      historyFile := history;
      new;
      LoadChatHistory();
      if chatData == map[] {
        NewChat();
      }
    }

    /** `load_chat_history`: replace `chat_data` by the file's contents when it exists. */
    method LoadChatHistory()
      modifies this`chatData
      ensures chatData == if historyFile.Some? then historyFile.value else old(chatData)
    {
      if historyFile.Some? {
        chatData := historyFile.value;
      }
    }

    /** `save_chat_history`: rewrite the whole file with `chat_data`. */
    method SaveChatHistory()
      modifies this`historyFile
      ensures historyFile == Some(chatData)
    {
      historyFile := Some(chatData);
    }

    /** `new_chat` */
    method NewChat()
      modifies this`chatData, this`currentChatId
      ensures State() == NewChatStep(old(State()))
    {
      var chatId := ChatId(|chatData| + 1);
      chatData := chatData[chatId := []];
      currentChatId := Some(chatId);
    }

    /** `load_chat`: select `id`, then return the transcript to display, or `None` when
        the lookup raises `KeyError` (the selection has already changed by then). */
    method LoadChat(id: string) returns (shown: Option<seq<Turn>>)
      modifies this`currentChatId
      ensures State() == LoadChatStep(old(State()), id)
      ensures shown == if id in chatData then Some(chatData[id]) else None
    {
      currentChatId := Some(id);
      if id in chatData {
        shown := Some(chatData[id]);
      } else {
        shown := None;
      }
    }

    /** `send_message`, with the remote call's outcome as a parameter. */
    method SendMessage(input: string, remote: Remote) returns (status: SendStatus)
      modifies this`chatData, this`historyFile
      ensures State() == SendStep(old(State()), input, remote).store
      ensures status == SendStep(old(State()), input, remote).status
    {
      var userMessage := Strip(input);
      if userMessage == [] {
        return Ignored;
      }
      if currentChatId.None? || currentChatId.value !in chatData {
        return NoActiveChat;
      }
      var id := currentChatId.value;
      chatData := chatData[id := chatData[id] + [Turn(You, userMessage)]];
      SaveChatHistory();
      match remote {
        case Success(reply) =>
          chatData := chatData[id := chatData[id] + [Turn(RootGPT, reply)]];
          SaveChatHistory();
          status := Replied;
        case Failure(_) =>
          status := RemoteFailed;
      }
    }

    /** `remove_chat_history`: delete the file if it exists; `exits` tells whether the
        process then exits (it does only when there was a file). */
    method RemoveChatHistory() returns (exits: bool)
      modifies this`historyFile
      ensures State() == RemoveStep(old(State()))
      ensures exits == old(historyFile).Some?
    {
      exits := historyFile.Some?;
      if exits {
        historyFile := None;
      }
    }
  }
}
