/** The conversation list with its search box, and the message composer of
    the backup copy's chat screen. */
module Chat {
  import opened Common

  // ---------------------------------------------------------------------
  // The conversation list

  datatype ChatUser = ChatUser(id: string, name: string, avatar: string)

  /** A conversation as the list shows it: the other reader, the last
      message and the book being discussed. */
  datatype ChatSummary = ChatSummary(id: string, user: ChatUser, lastMessage: string, timestamp: string,
                                     book: string, unread: bool)

  const MockChats: seq<ChatSummary> := [
    ChatSummary("1", ChatUser("user1", "María González", "MG"),
                "¡Perfecto! ¿Nos vemos el sábado en el parque?", "2 min", "Cien años de soledad", true),
    ChatSummary("2", ChatUser("user2", "Carlos Ruiz", "CR"),
                "El libro está en muy buenas condiciones", "1h", "El nombre del viento", false),
    ChatSummary("3", ChatUser("user3", "Ana López", "AL"),
                "Gracias por el intercambio 📚", "Ayer", "Sapiens", false)
  ]

  /** The lower-cased name of the other reader or the lower-cased book title
      contains the lower-cased query. */
  predicate ChatMatches(c: ChatSummary, query: string)
  {
    Contains(Lower(c.user.name), Lower(query)) || Contains(Lower(c.book), Lower(query))
  }

  /** `filteredChats`: the conversations the search lets through, in their
      original order. */
  function FilteredChats(chats: seq<ChatSummary>, query: string): (r: seq<ChatSummary>)
    ensures forall c :: c in r <==> c in chats && ChatMatches(c, query)
    ensures |r| <= |chats|
    ensures SubsequenceOf(r, chats)
  {
    FilterSubsequence(chats, c => ChatMatches(c, query));
    Filter(chats, c => ChatMatches(c, query))
  }

  /** An empty search keeps every conversation. */
  lemma FilteredChatsEmptyQuery(chats: seq<ChatSummary>)
    ensures FilteredChats(chats, "") == chats
  {
    forall c | c in chats ensures ChatMatches(c, "") {
      ContainsEmpty(Lower(c.user.name));
    }
    FilterKeepsAll(chats, c => ChatMatches(c, ""));
  }

  /** What the list area shows. */
  datatype ListView = ChatList(shown: seq<ChatSummary>) | NoResults | NoConversations

  /** The list when the search keeps something; otherwise "no results" when
      something was typed and "no conversations yet" when nothing was. */
  function ListViewOf(chats: seq<ChatSummary>, query: string): (r: ListView)
    ensures r.ChatList? <==> FilteredChats(chats, query) != []
    ensures r.ChatList? ==> r.shown == FilteredChats(chats, query)
    ensures r == NoResults <==> FilteredChats(chats, query) == [] && query != []
    ensures r == NoConversations <==> FilteredChats(chats, query) == [] && query == []
  {
    var shown := FilteredChats(chats, query);
    if |shown| > 0 then ChatList(shown)
    else if query != [] then NoResults
    else NoConversations
  }

  /** "No conversations yet" appears only for an empty list of conversations,
      so never for the fixed conversations of the screen. */
  lemma NoConversationsOnlyWhenEmpty(chats: seq<ChatSummary>, query: string)
    ensures ListViewOf(chats, query) == NoConversations ==> chats == []
    ensures ListViewOf(MockChats, query) != NoConversations
  {
    FilteredChatsEmptyQuery(chats);
    FilteredChatsEmptyQuery(MockChats);
  }

  /** Where a click in the list leads: a conversation or a reader's profile. */
  datatype Target = OpenChat(chatId: string) | OpenProfile(userId: string)

  /** The location a target navigates to. */
  function TargetPath(t: Target): string
  {
    match t
    case OpenChat(id) => "/chat/" + id
    case OpenProfile(id) => "/profile/" + id
  }

  /** An id the router reads back as one path segment. */
  predicate IsSegment(id: string)
  {
    id != [] && '/' !in id
  }

  /** The router's reading of a location as one of the two patterns. */
  function ParseTarget(s: string): Option<Target>
  {
    if IsPrefix("/chat/", s) && IsSegment(s[6..]) then Some(OpenChat(s[6..]))
    else if IsPrefix("/profile/", s) && IsSegment(s[9..]) then Some(OpenProfile(s[9..]))
    else None
  }

  /** Every location a click produces is read back as the same target. */
  lemma ParseTargetPath(t: Target)
    requires t.OpenChat? ==> IsSegment(t.chatId)
    requires t.OpenProfile? ==> IsSegment(t.userId)
    ensures ParseTarget(TargetPath(t)) == Some(t)
  {
    var s := TargetPath(t);
    match t {
      case OpenChat(id) =>
        assert s[..6] == "/chat/" && s[6..] == id;
      case OpenProfile(id) =>
        assert s[1] == 'p';
        assert s[..9] == "/profile/" && s[9..] == id;
    }
  }

  /** Where a click on a list item lands: on the avatar, on the conversation
      body beside it, or on the item's own padding and margins. */
  datatype ClickSpot = OnAvatar | OnBody | OnPadding

  /** A click on an item: the avatar opens the reader's profile and stops
      there; the body opens the conversation; the item itself has no
      handler, so a click on its padding opens nothing. */
  function ItemClick(c: ChatSummary, spot: ClickSpot): (r: Option<Target>)
    ensures r.None? <==> spot == OnPadding
    ensures r.Some? ==> (r.value.OpenProfile? <==> spot == OnAvatar)
    ensures spot == OnAvatar ==> r == Some(OpenProfile(c.user.id))
    ensures spot == OnBody ==> r == Some(OpenChat(c.id))
  {
    match spot
    case OnAvatar => Some(OpenProfile(c.user.id))
    case OnBody => Some(OpenChat(c.id))
    case OnPadding => None
  }

  // ---------------------------------------------------------------------
  // The message composer of the backup chat screen

  datatype Message = Message(id: string, text: string, timestamp: string, isOwn: bool)

  const MockMessages: seq<Message> := [
    Message("1", "¡Hola! Me interesa mucho tu libro \"Cien años de soledad\"", "10:30", false),
    Message("2", "¡Hola! Claro, está disponible. ¿En qué estado está el tuyo?", "10:32", true),
    Message("3", "Está en muy buen estado, apenas tiene marcas de uso. ¿Podemos vernos para intercambiar?", "10:35", false),
    Message("4", "¡Perfecto! ¿Nos vemos el sábado en el parque del Retiro?", "10:40", true),
    Message("5", "Me parece genial. ¿A qué hora te viene bien?", "10:42", false)
  ]

  /** The send button is enabled exactly when the trimmed input is not empty. */
  function SendEnabled(input: string): (r: bool)
    ensures r <==> !IsBlank(input)
  {
    TrimEmptyIffBlank(input);
    Trim(input) != []
  }

  /** A key press sends exactly when it is Enter without Shift. */
  predicate SendsOnKey(key: string, shift: bool)
  {
    key == "Enter" && !shift
  }

  class Composer {
    /** The conversation shown; the screen never adds to it. */
    const messages: seq<Message>
    var newMessage: string

    constructor ()
      ensures messages == MockMessages && newMessage == []
    {
      messages := MockMessages;
      newMessage := "";
    }

    /** Typing replaces the input. */
    method InputChange(value: string)
      modifies this`newMessage
      ensures newMessage == value
    {
      newMessage := value;
    }

    /** `handleSendMessage`: blank input stays as it is, anything else is
      cleared; either way the button is disabled afterwards. */
    method Send()
      modifies this`newMessage
      ensures IsBlank(old(newMessage)) ==> newMessage == old(newMessage)
      ensures !IsBlank(old(newMessage)) ==> newMessage == []
      ensures !SendEnabled(newMessage)
    {
      if SendEnabled(newMessage) {
        newMessage := "";
      }
    }

    /** `handleKeyPress`: Enter without Shift sends (and the default line
        break is suppressed); every other key leaves the input alone. */
    method KeyPress(key: string, shift: bool) returns (prevented: bool)
      modifies this`newMessage
      ensures prevented <==> SendsOnKey(key, shift)
      ensures !prevented ==> newMessage == old(newMessage)
      ensures prevented && IsBlank(old(newMessage)) ==> newMessage == old(newMessage)
      ensures prevented && !IsBlank(old(newMessage)) ==> newMessage == []
    {
      prevented := SendsOnKey(key, shift);
      if prevented {
        Send();
      }
    }
  }
}
