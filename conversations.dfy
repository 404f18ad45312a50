/** The conversation store of `ChatApp`: a map from chat id to its ordered turns, the
    chat currently shown, and the contents of the history file. This module describes
    the store as a value and each user action as a function on it; `App.ChatApp`
    performs the same actions in place. */
module Conversations {
  import opened Wrappers
  import opened Text
  import Decimal

  datatype Sender = You | RootGPT

  /** One `(sender, text)` pair of a transcript. */
  datatype Turn = Turn(sender: Sender, text: string)

  /** `chat_data`: chat id to transcript. */
  type Chats = map<string, seq<Turn>>

  /** What the remote model call does for one message: return a reply, or raise. */
  datatype Remote = Success(reply: string) | Failure(error: string)

  /** How `send_message` ended. `NoActiveChat` is the `KeyError` raised by
      `chat_data[current_chat_id]` when no existing chat is selected. */
  datatype SendStatus = Ignored | NoActiveChat | Replied | RemoteFailed

  /** `chat_data`, `current_chat_id`, and the history file (`None` when it does not exist). */
  datatype Store = Store(chatData: Chats, current: Option<string>, historyFile: Option<Chats>)

  datatype Sent = Sent(store: Store, status: SendStatus)

  // ---------------------------------------------------------------------------
  // Chat ids

  /** `f"Chat {n}"` */
  function ChatId(n: nat): string {
    "Chat " + Decimal.NatToString(n)
  }

  /** The id `new_chat` picks: one more than the number of chats. */
  function NextId(chats: Chats): string {
    ChatId(|chats| + 1)
  }

  lemma ChatIdInjective(i: nat, j: nat)
    requires ChatId(i) == ChatId(j)
    ensures i == j
  {
    assert ChatId(i)[5..] == Decimal.NatToString(i);
    assert ChatId(j)[5..] == Decimal.NatToString(j);
    Decimal.NatToStringInjective(i, j);
  }

  ghost function IdsUpTo(n: nat): set<string> {
    set i | 1 <= i <= n :: ChatId(i)
  }

  /** The keys are exactly "Chat 1" .. "Chat n", where n is the number of chats. */
  ghost predicate Canonical(chats: Chats) {
    chats.Keys == IdsUpTo(|chats|)
  }

  /** The id scheme is fresh on canonical stores. */
  lemma NextIdFresh(chats: Chats)
    requires Canonical(chats)
    ensures NextId(chats) !in chats
  {
    if NextId(chats) in chats {
      var i :| 1 <= i <= |chats| && ChatId(i) == NextId(chats);
      ChatIdInjective(i, |chats| + 1);
    }
  }

  /** Adding the next id to a canonical map gives a canonical map one larger. */
  lemma AddNextIdKeepsCanonical(chats: Chats, v: seq<Turn>)
    requires Canonical(chats)
    ensures NextId(chats) !in chats
    ensures |chats[NextId(chats) := v]| == |chats| + 1
    ensures Canonical(chats[NextId(chats) := v])
  {
    NextIdFresh(chats);
    var n := |chats|;
    var grown := chats[NextId(chats) := v];
    assert grown.Keys == chats.Keys + {ChatId(n + 1)};
    assert IdsUpTo(n + 1) == IdsUpTo(n) + {ChatId(n + 1)};
  }

  /** Outside a canonical store the scheme collides: with only "Chat 2" stored,
      `new_chat` picks "Chat 2" again and replaces its transcript by an empty one. */
  lemma NextIdCollidesOnForeignKeys(t: Turn)
    ensures var chats := map[ChatId(2) := [t]];
            NextId(chats) in chats && NewChatStep(Store(chats, None, None)).chatData[NextId(chats)] == []
  {
  }

  // ---------------------------------------------------------------------------
  // Actions as functions on the store

  /** `__init__`: load the history file if it exists; if that leaves no chats, create one.
      After loading a non-empty history no chat is selected. */
  function Init(history: Option<Chats>): Store {
    var loaded := if history.Some? then history.value else map[];
    var s := Store(loaded, None, history);
    if loaded == map[] then NewChatStep(s) else s
  }

  /** `new_chat`: store an empty transcript under the next id and select it. */
  function NewChatStep(s: Store): Store {
    var id := NextId(s.chatData);
    s.(chatData := s.chatData[id := []], current := Some(id))
  }

  /** `load_chat`: select `id`. (The lookup that follows raises `KeyError` when `id` is
      not a key, after `current_chat_id` has been set.) */
  function LoadChatStep(s: Store, id: string): Store {
    s.(current := Some(id))
  }

  /** `send_message`: strip the input; ignore it when empty; otherwise append the user's
      turn and save, then on a reply append the reply and save again. */
  function SendStep(s: Store, input: string, remote: Remote): Sent {
    var msg := Strip(input);
    if msg == [] then Sent(s, Ignored)
    else if s.current.None? || s.current.value !in s.chatData then Sent(s, NoActiveChat)
    else
      var id := s.current.value;
      var withUser := s.chatData[id := s.chatData[id] + [Turn(You, msg)]];
      match remote
      case Success(reply) =>
        var withReply := withUser[id := withUser[id] + [Turn(RootGPT, reply)]];
        Sent(s.(chatData := withReply, historyFile := Some(withReply)), Replied)
      case Failure(_) =>
        Sent(s.(chatData := withUser, historyFile := Some(withUser)), RemoteFailed)
  }

  /** `remove_chat_history`: delete the file if it exists (the process then exits). */
  function RemoveStep(s: Store): Store {
    s.(historyFile := None)
  }

  datatype Action =
    | NewChat
    | LoadChat(id: string)
    | Send(input: string, remote: Remote)
    | RemoveHistory
    | Restart   // the process ends and is started again on the same history file

  function Step(s: Store, a: Action): Store {
    match a
    case NewChat => NewChatStep(s)
    case LoadChat(id) => LoadChatStep(s, id)
    case Send(input, remote) => SendStep(s, input, remote).store
    case RemoveHistory => RemoveStep(s)
    case Restart => Init(s.historyFile)
  }

  function Run(s: Store, actions: seq<Action>): Store
    decreases |actions|
  {
    if actions == [] then s else Run(Step(s, actions[0]), actions[1..])
  }

  // ---------------------------------------------------------------------------
  // One action at a time

  /** When the next id is unused (`NextIdFresh` gives this for canonical keys),
      `new_chat` adds exactly that id, with an empty transcript, selects it, keeps
      every other chat, and does not write the history file. */
  lemma NewChatAddsOneChat(s: Store)
    requires NextId(s.chatData) !in s.chatData
    ensures var t := NewChatStep(s); var id := NextId(s.chatData);
            && t.chatData.Keys == s.chatData.Keys + {id}
            && |t.chatData| == |s.chatData| + 1
            && t.chatData[id] == []
            && (forall other :: other in s.chatData ==> t.chatData[other] == s.chatData[other])
            && t.current == Some(id)
            && t.historyFile == s.historyFile
  {
  }

  /** `load_chat` only changes the selection. */
  lemma LoadChatOnlySelects(s: Store, id: string)
    ensures var t := LoadChatStep(s, id);
            t.current == Some(id) && t.chatData == s.chatData && t.historyFile == s.historyFile
  {
  }

  /** Blank input (empty or whitespace only after stripping) changes nothing. */
  lemma SendBlankIsIgnored(s: Store, input: string, remote: Remote)
    ensures AllSpace(input) <==> SendStep(s, input, remote) == Sent(s, Ignored)
  {
  }

  /** Non-blank input with no existing chat selected raises `KeyError` and stores nothing. */
  lemma SendWithoutChatStoresNothing(s: Store, input: string, remote: Remote)
    requires !AllSpace(input)
    requires s.current.None? || s.current.value !in s.chatData
    ensures SendStep(s, input, remote) == Sent(s, NoActiveChat)
  {
  }

  /** On a reply the selected chat gains the user's stripped turn and the reply, in that
      order; nothing else changes, and the file then holds exactly the store. */
  lemma SendWithReply(s: Store, input: string, reply: string)
    requires !AllSpace(input)
    requires s.current.Some? && s.current.value in s.chatData
    ensures var id := s.current.value; var r := SendStep(s, input, Success(reply));
            && r.status == Replied
            && r.store.chatData == s.chatData[id := s.chatData[id] + [Turn(You, Strip(input)), Turn(RootGPT, reply)]]
            && r.store.current == s.current
            && r.store.historyFile == Some(r.store.chatData)
  {
    var turns := s.chatData[s.current.value];
    var you, bot := Turn(You, Strip(input)), Turn(RootGPT, reply);
    assert turns + [you] + [bot] == turns + [you, bot];
  }

  /** On a remote failure the selected chat gains only the user's turn; the error text
      is not stored, and the file holds exactly the store. */
  lemma SendWithFailure(s: Store, input: string, error: string)
    requires !AllSpace(input)
    requires s.current.Some? && s.current.value in s.chatData
    ensures var id := s.current.value; var r := SendStep(s, input, Failure(error));
            && r.status == RemoteFailed
            && r.store.chatData == s.chatData[id := s.chatData[id] + [Turn(You, Strip(input))]]
            && r.store.current == s.current
            && r.store.historyFile == Some(r.store.chatData)
  {
  }

  /** Whenever a message was stored, the history file equals the store afterwards. */
  lemma SendSavesStore(s: Store, input: string, remote: Remote)
    ensures var r := SendStep(s, input, remote);
            r.status in {Replied, RemoteFailed} ==> r.store.historyFile == Some(r.store.chatData)
  {
  }

  /** Reloading the file written by a send gives back exactly the chats in memory. */
  lemma ReloadAfterSend(s: Store, input: string, remote: Remote)
    requires SendStep(s, input, remote).status in {Replied, RemoteFailed}
    ensures var t := SendStep(s, input, remote).store;
            Init(t.historyFile).chatData == t.chatData && Init(t.historyFile).current == None
  {
  }

  /** After loading a non-empty history no chat is selected, so the first message sent
      before picking a chat raises `KeyError`. */
  lemma LoadedHistoryHasNoSelection(history: Chats, input: string, remote: Remote)
    requires history != map[] && !AllSpace(input)
    ensures Init(Some(history)).current == None
    ensures Init(Some(history)).chatData == history
    ensures SendStep(Init(Some(history)), input, remote).status == NoActiveChat
  {
  }

  // ---------------------------------------------------------------------------
  // Whole sessions

  /** `b` keeps every chat of `a`, each transcript of `a` being a prefix of `b`'s. */
  ghost predicate Extends(a: Chats, b: Chats) {
    forall id :: id in a ==> id in b && a[id] <= b[id]
  }

  /** The invariant of every reachable store: canonical ids in memory and on file, and
      the file never holding a chat or a turn that memory does not. */
  ghost predicate Inv(s: Store) {
    && Canonical(s.chatData)
    && (s.historyFile.Some? ==> Canonical(s.historyFile.value) && Extends(s.historyFile.value, s.chatData))
  }

  lemma InitInv(history: Option<Chats>)
    requires history.Some? ==> Canonical(history.value)
    ensures Inv(Init(history))
  {
  }

  lemma StepInv(s: Store, a: Action)
    requires Inv(s)
    ensures Inv(Step(s, a))
    ensures !a.Restart? ==> Extends(s.chatData, Step(s, a).chatData)
  {
    match a
    case NewChat =>
      AddNextIdKeepsCanonical(s.chatData, []);
    case LoadChat(_) =>
    case Send(input, remote) =>
      var t := SendStep(s, input, remote).store;
      if t != s {
        assert t.chatData.Keys == s.chatData.Keys;
      }
    case RemoveHistory =>
    case Restart =>
      InitInv(s.historyFile);
  }

  /** Every session keeps the invariant, across restarts and history deletion. */
  lemma {:induction false} RunInv(s: Store, actions: seq<Action>)
    requires Inv(s)
    ensures Inv(Run(s, actions))
    decreases |actions|
  {
    if actions != [] {
      StepInv(s, actions[0]);
      RunInv(Step(s, actions[0]), actions[1..]);
    }
  }

  /** Within one process (no restart), chats are never dropped and transcripts only grow. */
  lemma {:induction false} RunAppendOnly(s: Store, actions: seq<Action>)
    requires Inv(s)
    requires forall k :: 0 <= k < |actions| ==> !actions[k].Restart?
    ensures Extends(s.chatData, Run(s, actions).chatData)
    decreases |actions|
  {
    if actions != [] {
      var t := Step(s, actions[0]);
      StepInv(s, actions[0]);
      RunAppendOnly(t, actions[1..]);
      var u := Run(t, actions[1..]).chatData;
      forall id | id in s.chatData ensures id in u && s.chatData[id] <= u[id] {
        assert s.chatData[id] <= t.chatData[id] <= u[id];
      }
    }
  }

  /** In every session that starts without a history file, each `new_chat` picks an id
      that is not yet in use. */
  lemma NewChatFreshFromCleanStart(actions: seq<Action>)
    ensures NextId(Run(Init(None), actions).chatData) !in Run(Init(None), actions).chatData
  {
    InitInv(None);
    RunInv(Init(None), actions);
    NextIdFresh(Run(Init(None), actions).chatData);
  }

  /** `n` calls of `new_chat` from an empty store. */
  function NewChats(n: nat): Store {
    if n == 0 then Store(map[], None, None) else NewChatStep(NewChats(n - 1))
  }

  /** A store built only by `new_chat` holds "Chat 1" .. "Chat n", all empty. */
  lemma {:induction false} NewChatsAreNumbered(n: nat)
    ensures |NewChats(n).chatData| == n
    ensures NewChats(n).chatData.Keys == IdsUpTo(n)
    ensures forall id :: id in NewChats(n).chatData ==> NewChats(n).chatData[id] == []
  {
    if n == 0 {
      assert IdsUpTo(0) == {};
    } else {
      NewChatsAreNumbered(n - 1);
      AddNextIdKeepsCanonical(NewChats(n - 1).chatData, []);
    }
  }

  // ---------------------------------------------------------------------------
  // Sessions from a clean start

  /** Without a history file the app starts with the empty chat "Chat 1" selected. */
  lemma CleanStart()
    ensures Init(None) == Store(map["Chat 1" := []], Some("Chat 1"), None)
  {
    assert Decimal.NatToString(1) == "1";
    assert ChatId(1) == "Chat " + "1" == "Chat 1";
    assert NextId(map[]) == ChatId(0 + 1);
  }

  /** First exchange: "hello" answered by "hi there" leaves both turns on file. */
  lemma FirstExchangeIsSaved()
    ensures var r := SendStep(Init(None), "hello", Success("hi there"));
            && r.status == Replied
            && r.store.historyFile == Some(map["Chat 1" := [Turn(You, "hello"), Turn(RootGPT, "hi there")]])
  {
    CleanStart();
    assert !IsSpace("hello"[0]);
    SendWithReply(Init(None), "hello", "hi there");
    assert Strip("hello") == "hello";
    var turns := [Turn(You, "hello"), Turn(RootGPT, "hi there")];
    assert [] + turns == turns;
    assert SendStep(Init(None), "hello", Success("hi there")).store.chatData == map["Chat 1" := turns];
  }

  /** A failed call still leaves the user's turn on file, and no error turn. */
  lemma FailedExchangeKeepsUserTurn(error: string)
    ensures var r := SendStep(Init(None), "test", Failure(error));
            && r.status == RemoteFailed
            && r.store.historyFile == Some(map["Chat 1" := [Turn(You, "test")]])
  {
    CleanStart();
    assert !IsSpace("test"[0]);
    SendWithFailure(Init(None), "test", error);
    assert Strip("test") == "test";
    assert [] + [Turn(You, "test")] == [Turn(You, "test")];
    assert SendStep(Init(None), "test", Failure(error)).store.chatData == map["Chat 1" := [Turn(You, "test")]];
  }

  /** After a restart the saved chat is back, but no chat is selected. */
  lemma RestartRestoresSavedChat()
    ensures var s := Run(Init(None), [Send("hello", Success("hi there")), Restart]);
            && s.chatData == map["Chat 1" := [Turn(You, "hello"), Turn(RootGPT, "hi there")]]
            && s.current == None
  {
    FirstExchangeIsSaved();
    var acts := [Send("hello", Success("hi there")), Restart];
    assert acts[1..][1..] == [];
  }

  /** A chat that never received a message was never saved, so a restart loses it. */
  lemma RestartLosesUnsavedChat()
    ensures Run(Init(None), [NewChat, Restart]) == Init(None)
  {
    var acts := [NewChat, Restart];
    assert acts[1..][1..] == [];
  }
}
