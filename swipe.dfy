/** The swipe deck, the same in the current screen and in the older copy:
    a fixed deck of books and the position of the card shown. Liking and
    rejecting a card both move to the next one; past the last card the
    screen shows its empty state and no buttons. */
module Swipe {
  import opened Common

  /** A card: the book and its owner's name (the owner's distance, avatar
      and the cover emoji are display text only). */
  datatype SwipeBook = SwipeBook(id: string, title: string, author: string, genre: string,
                                 condition: string, ownerName: string)

  const MockDeck: seq<SwipeBook> := [
    SwipeBook("1", "Cien años de soledad", "Gabriel García Márquez", "Realismo mágico", "Excelente", "María González"),
    SwipeBook("2", "El nombre del viento", "Patrick Rothfuss", "Fantasía", "Bueno", "Carlos Ruiz"),
    SwipeBook("3", "Sapiens", "Yuval Noah Harari", "Historia", "Como nuevo", "Ana López")
  ]

  /** The older copy's deck, whose accented text is stored garbled. */
  const LegacyMockDeck: seq<SwipeBook> := [
    SwipeBook("1", "Cien a침os de soledad", "Gabriel Garc칤a M치rquez", "Realismo m치gico", "Excelente", "Mar칤a Gonz치lez"),
    SwipeBook("2", "El nombre del viento", "Patrick Rothfuss", "Fantas칤a", "Bueno", "Carlos Ruiz"),
    SwipeBook("3", "Sapiens", "Yuval Noah Harari", "Historia", "Como nuevo", "Ana L칩pez")
  ]

  /** The card shown at a position: `books[index]`, or none past the end. */
  function CardAt(books: seq<SwipeBook>, index: nat): (r: Option<SwipeBook>)
    ensures r.Some? <==> index < |books|
    ensures r.Some? ==> r.value == books[index]
  {
    if index < |books| then Some(books[index]) else None
  }

  /** Both decks hold three cards with ids "1", "2", "3" and agree wherever
      no accented text is involved. */
  lemma DecksAgree()
    ensures |MockDeck| == |LegacyMockDeck| == 3
    ensures forall i :: 0 <= i < 3 ==>
              (MockDeck[i].id == LegacyMockDeck[i].id && MockDeck[i].condition == LegacyMockDeck[i].condition)
    ensures MockDeck[1].title == LegacyMockDeck[1].title && MockDeck[2].title == LegacyMockDeck[2].title
  {
  }

  class SwipeDeck {
    const books: seq<SwipeBook>
    var index: nat

    /** The position never passes the end of the deck. */
    predicate Valid()
      reads this
    {
      index <= |books|
    }

    constructor (deck: seq<SwipeBook>)
      ensures books == deck && index == 0 && Valid()
    {
      books := deck;
      index := 0;
    }

    function Current(): (r: Option<SwipeBook>)
      reads this
      ensures r == CardAt(books, index)
      ensures r.Some? <==> index < |books|
    {
      CardAt(books, index)
    }

    /** The cards already swiped, in deck order. */
    function Swiped(): (r: seq<SwipeBook>)
      reads this
      requires Valid()
      ensures |r| == index
    {
      books[..index]
    }

    /** `handleLike`: only offered while a card is shown; moves to the next. */
    method Like()
      modifies this`index
      requires Valid() && Current().Some?
      ensures index == old(index) + 1 && Valid()
      ensures Swiped() == old(Swiped()) + [old(Current()).value]
    {
      Advance();
    }

    /** `handleReject`: the same step as a like. */
    method Reject()
      modifies this`index
      requires Valid() && Current().Some?
      ensures index == old(index) + 1 && Valid()
      ensures Swiped() == old(Swiped()) + [old(Current()).value]
    {
      Advance();
    }

    method Advance()
      modifies this`index
      requires Valid() && Current().Some?
      ensures index == old(index) + 1 && Valid()
      ensures Swiped() == old(Swiped()) + [old(Current()).value]
    {
      assert books[..index + 1] == books[..index] + [books[index]];
      index := index + 1;
    }
  }

  /** After k swipes from the start, the deck shows card k, and the empty
      state exactly after the whole deck. */
  lemma AfterSwipes(books: seq<SwipeBook>, k: nat)
    requires k <= |books|
    ensures CardAt(books, k).None? <==> k == |books|
    ensures CardAt(MockDeck, 3).None? && CardAt(MockDeck, 0) == Some(MockDeck[0])
  {
  }
}
