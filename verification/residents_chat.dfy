/**
 The residents' chat screen: a searchable list of chats, an open
 conversation selected by chat id, and a message box whose send button
 only accepts text that is not blank.
 */
module ResidentsChat {

  import opened Optional
  import opened Text
  import opened Sequences

  datatype Chat = Chat(id: string, name: string, lastMessage: string, unread: nat)

  /** `activeChat` is the id of the open conversation, if any. */
  datatype ChatState = ChatState(activeChat: Option<string>, message: string, searchQuery: string)

  /** The five chats the screen lists. */
  const Chats: seq<Chat> := [
    Chat("1", "Общий чат дома", "Елена: Добрый день! Кто-нибудь знает...", 3),
    Chat("2", "Чат подъезда №2", "Алексей: Завтра будут перекрывать воду", 7),
    Chat("3", "Анна Петрова", "Спасибо большое!", 0),
    Chat("4", "Дмитрий Сидоров", "Хорошо, договорились", 0),
    Chat("5", "Родительский комитет", "Мария: Собираемся в субботу", 12)]

  function Init(): (s: ChatState)
    ensures s.activeChat.None? && s.message == [] && s.searchQuery == []
  {
    ChatState(None, "", "")
  }

  /** The search predicate: the lower-cased name includes the lower-cased
      query. */
  predicate MatchesQuery(c: Chat, query: string) {
    Contains(Lower(c.name), Lower(query))
  }

  /** The chats listed for a search query. They keep the original order,
      hold exactly the listed chats that match, and keep every matching chat
      as often as it occurs. */
  function FilteredChats(chats: seq<Chat>, query: string): (r: seq<Chat>)
    ensures IsSubsequence(r, chats)
    ensures forall c :: c in r <==> c in chats && MatchesQuery(c, query)
    ensures forall c :: multiset(r)[c] == if MatchesQuery(c, query) then multiset(chats)[c] else 0
  {
    Filter(chats, c => MatchesQuery(c, query))
  }

  /** An empty query lists every chat, in order. */
  lemma EmptyQueryKeepsAll(chats: seq<Chat>)
    ensures FilteredChats(chats, "") == chats
  {
    forall k | 0 <= k < |chats|
      ensures MatchesQuery(chats[k], "")
    {
      ContainsEmpty(Lower(chats[k].name));
    }
    FilterAllPass(chats, c => MatchesQuery(c, ""));
  }

  /** The search ignores letter case in the query. */
  lemma SearchIgnoresQueryCase(chats: seq<Chat>, query: string)
    ensures FilteredChats(chats, Lower(query)) == FilteredChats(chats, query)
  {
    LowerIdempotent(query);
    FilterSamePredicate(chats, c => MatchesQuery(c, Lower(query)), c => MatchesQuery(c, query));
  }

  /** The send button. A message that is blank after trimming stays in the
      box and nothing is sent; otherwise the box is cleared. The result's
      flag says whether a message went out. */
  function HandleSendMessage(s: ChatState): (r: (ChatState, bool))
    ensures r.1 <==> !AllWhitespace(s.message)
    ensures r.1 ==> r.0 == s.(message := "")
    ensures !r.1 ==> r.0 == s
  {
    BlankIffAllWhitespace(s.message);
    if !IsBlank(s.message) then (s.(message := ""), true) else (s, false)
  }

  /** Opening a chat from the list. */
  function SelectChat(s: ChatState, id: string): (r: ChatState)
    ensures r.activeChat == Some(id)
    ensures r.message == s.message && r.searchQuery == s.searchQuery
  {
    s.(activeChat := Some(id))
  }

  /** The back button of an open conversation. */
  function CloseChat(s: ChatState): (r: ChatState)
    ensures r.activeChat.None?
    ensures r.message == s.message && r.searchQuery == s.searchQuery
  {
    s.(activeChat := None)
  }

  /** The conversation view is shown when `activeChat` is a non-empty id
      (JavaScript truthiness); otherwise the list is. */
  predicate ConversationShown(s: ChatState) {
    s.activeChat.Some? && s.activeChat.value != []
  }

  /** Every listed chat has a non-empty id, so selecting one from the list
      shows its conversation, and going back returns to the list. */
  lemma SelectThenBack(s: ChatState, k: nat)
    requires k < |Chats|
    ensures ConversationShown(SelectChat(s, Chats[k].id))
    ensures !ConversationShown(CloseChat(SelectChat(s, Chats[k].id)))
  {
  }
}
