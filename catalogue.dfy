/** The personal catalogue screen ("Mi Biblioteca"): search, add, edit,
    remove, reading progress and the three-shelf 3D view. The list edits are
    functions on `seq<Book>`; the screen's own state is the class `MyBooks`. */
module Catalogue {
  import opened Common
  import opened Entities

  // ---------------------------------------------------------------------
  // Search

  /** The lower-cased title or author contains the lower-cased query. */
  predicate Matches(b: Book, query: string)
  {
    Contains(Lower(b.title), Lower(query)) || Contains(Lower(b.author), Lower(query))
  }

  /** `filtered`: the books the search box lets through, in catalogue order. */
  function Search(books: seq<Book>, query: string): (r: seq<Book>)
    ensures forall b :: b in r <==> b in books && Matches(b, query)
    ensures |r| <= |books|
    ensures SubsequenceOf(r, books)
  {
    FilterSubsequence(books, b => Matches(b, query));
    Filter(books, b => Matches(b, query))
  }

  /** Searching a concatenation searches each part: the order is kept. */
  lemma SearchAppend(a: seq<Book>, b: seq<Book>, query: string)
    ensures Search(a + b, query) == Search(a, query) + Search(b, query)
  {
    FilterAppend(a, b, b => Matches(b, query));
  }

  /** An empty search shows the whole catalogue. */
  lemma SearchEmptyQuery(books: seq<Book>)
    ensures Search(books, "") == books
  {
    forall b | b in books ensures Matches(b, "") {
      ContainsEmpty(Lower(b.title));
    }
    FilterKeepsAll(books, b => Matches(b, ""));
  }

  // ---------------------------------------------------------------------
  // Online search (a fixed list standing in for a remote service)

  datatype OnlineBook = OnlineBook(id: string, title: string, author: string, genre: string, coverImage: string)

  const MockOnlineBooks: seq<OnlineBook> := [
    OnlineBook("online1", "Cien años de soledad", "Gabriel García Márquez", "Realismo mágico",
               "https://images-na.ssl-images-amazon.com/images/I/81PIyuNJ7AL.jpg"),
    OnlineBook("online2", "1984", "George Orwell", "Distopía",
               "https://images-na.ssl-images-amazon.com/images/I/61ZewDE3beL.jpg"),
    OnlineBook("online3", "El Quijote", "Miguel de Cervantes", "Clásico",
               "https://images-na.ssl-images-amazon.com/images/I/81PIyuNJ7AL.jpg"),
    OnlineBook("online4", "Harry Potter y la Piedra Filosofal", "J.K. Rowling", "Fantasía",
               "https://images-na.ssl-images-amazon.com/images/I/81YOuOGFCJL.jpg"),
    OnlineBook("online5", "Orgullo y Prejuicio", "Jane Austen", "Romance",
               "https://images-na.ssl-images-amazon.com/images/I/71Q1tPupKjL.jpg")
  ]

  predicate OnlineMatches(b: OnlineBook, query: string)
  {
    Contains(Lower(b.title), Lower(query)) || Contains(Lower(b.author), Lower(query))
  }

  /** `searchOnlineBooks`: the mock results whose title or author contains the query. */
  function SearchOnline(query: string): (r: seq<OnlineBook>)
    ensures forall b :: b in r <==> b in MockOnlineBooks && OnlineMatches(b, query)
  {
    Filter(MockOnlineBooks, b => OnlineMatches(b, query))
  }

  /** The "Online" button searches with `''` and so lists all five books. */
  lemma OnlineSearchEmptyListsAll()
    ensures SearchOnline("") == MockOnlineBooks
    ensures |SearchOnline("")| == 5
  {
    forall b | b in MockOnlineBooks ensures OnlineMatches(b, "") {
      ContainsEmpty(Lower(b.title));
    }
    FilterKeepsAll(MockOnlineBooks, b => OnlineMatches(b, ""));
  }

  /** The search the "Online" button starts. */
  method SearchAllOnline() returns (r: seq<OnlineBook>)
    ensures r == MockOnlineBooks
  {
    OnlineSearchEmptyListsAll();
    r := SearchOnline("");
  }

  /** `addOnlineBook`: the new entry built from an online result. */
  function FromOnline(b: OnlineBook, newId: string): (r: Book)
    ensures r.id == newId && r.title == b.title && r.author == b.author && r.genre == b.genre
    ensures r.isAvailable && r.status == Some(Available) && r.forExchange == Some(true)
    ensures r.condition == Good && r.coverImage == Some(b.coverImage) && r.progress == None
  {
    Book(newId, b.title, b.author, b.genre, Some(b.coverImage), Good, true,
         Some(Available), Some(true), None)
  }

  // ---------------------------------------------------------------------
  // The add / edit form

  datatype BookForm = BookForm(title: string, author: string, cover: string, status: Status, forExchange: bool)

  const EmptyForm := BookForm("", "", "", Available, true)

  const UnknownAuthor := "Autor desconocido"

  /** `form.author || 'Autor desconocido'` */
  function AuthorOrDefault(author: string): (r: string)
    ensures r != []
    ensures author != [] ==> r == author
  {
    if author == [] then UnknownAuthor else author
  }

  /** `form.cover || undefined` */
  function CoverOrNone(cover: string): (r: Option<string>)
    ensures r.None? <==> cover == []
    ensures r.Some? ==> r.value == cover
  {
    if cover == [] then None else Some(cover)
  }

  /** The book the add branch of `addBook` creates. */
  function NewBook(form: BookForm, newId: string): (r: Book)
    ensures r.id == newId && r.title == form.title && r.author == AuthorOrDefault(form.author)
    ensures r.isAvailable <==> form.status == Available
    ensures r.genre == "General" && r.condition == Good
    ensures r.status == Some(form.status) && r.forExchange == Some(form.forExchange)
    ensures r.coverImage == CoverOrNone(form.cover) && r.progress == None
  {
    Book(newId, form.title, AuthorOrDefault(form.author), "General", CoverOrNone(form.cover), Good,
         form.status == Available, Some(form.status), Some(form.forExchange), None)
  }

  /** `[...books, newBook]` */
  function AddBook(books: seq<Book>, form: BookForm, newId: string): (r: seq<Book>)
    ensures |r| == |books| + 1
    ensures r[..|books|] == books
    ensures r[|books|] == NewBook(form, newId)
  {
    books + [NewBook(form, newId)]
  }

  /** The fields the edit branch rewrites; id, genre, condition,
      availability and progress are kept. */
  function Edited(b: Book, form: BookForm): Book
  {
    b.(title := form.title, author := AuthorOrDefault(form.author), coverImage := CoverOrNone(form.cover),
       status := Some(form.status), forExchange := Some(form.forExchange))
  }

  /** The edit branch of `addBook`: every book whose id is `id` is rewritten
      from the form; every other book is left exactly as it was. */
  function EditBooks(books: seq<Book>, id: string, form: BookForm): (r: seq<Book>)
    ensures |r| == |books|
    ensures forall i :: 0 <= i < |books| ==> r[i].id == books[i].id
    ensures forall i :: 0 <= i < |books| && books[i].id != id ==> r[i] == books[i]
    ensures forall i :: 0 <= i < |books| && books[i].id == id ==>
              r[i].title == form.title && r[i].author == AuthorOrDefault(form.author)
              && r[i].coverImage == CoverOrNone(form.cover) && r[i].status == Some(form.status)
              && r[i].forExchange == Some(form.forExchange)
              && r[i].genre == books[i].genre && r[i].progress == books[i].progress
              && r[i].isAvailable == books[i].isAvailable && r[i].condition == books[i].condition
  {
    seq(|books|, i requires 0 <= i < |books| => if books[i].id == id then Edited(books[i], form) else books[i])
  }

  /** `removeBook`: every book carrying the id goes, the rest keep their order. */
  function RemoveBook(books: seq<Book>, id: string): (r: seq<Book>)
    ensures forall b :: b in r <==> b in books && b.id != id
    ensures |r| <= |books|
    ensures SubsequenceOf(r, books)
  {
    FilterSubsequence(books, (b: Book) => b.id != id);
    Filter(books, (b: Book) => b.id != id)
  }

  /** Removal works book by book: removing from a concatenation removes
      from each part, and a single book is kept exactly when its id differs.
      Together these fix the result, copies and order included. */
  lemma RemoveAppend(a: seq<Book>, c: seq<Book>, id: string)
    ensures RemoveBook(a + c, id) == RemoveBook(a, id) + RemoveBook(c, id)
  {
    FilterAppend(a, c, (b: Book) => b.id != id);
  }

  lemma RemoveSingleton(b: Book, id: string)
    ensures RemoveBook([b], id) == if b.id != id then [b] else []
  {
    FilterSingleton(b, (x: Book) => x.id != id);
  }

  /** Removing an id that no book has changes nothing. */
  lemma RemoveAbsent(books: seq<Book>, id: string)
    requires forall b :: b in books ==> b.id != id
    ensures RemoveBook(books, id) == books
  {
    FilterKeepsAll(books, (b: Book) => b.id != id);
  }

  /** Removing the id of a freshly added book undoes the add, when no other
      book had that id. */
  lemma RemoveUndoesAdd(books: seq<Book>, form: BookForm, newId: string)
    requires forall b :: b in books ==> b.id != newId
    ensures RemoveBook(AddBook(books, form, newId), newId) == books
  {
    var p := (b: Book) => b.id != newId;
    FilterAppend(books, [NewBook(form, newId)], p);
    FilterSingleton(NewBook(form, newId), p);
    RemoveAbsent(books, newId);
  }

  /** Removing a book after editing it is removing it unedited: an edit
      touches no book of another id. */
  lemma {:induction false} RemoveAfterEdit(books: seq<Book>, id: string, form: BookForm)
    ensures RemoveBook(EditBooks(books, id, form), id) == RemoveBook(books, id)
    decreases |books|
  {
    if books != [] {
      var e := EditBooks(books, id, form);
      assert e[1..] == EditBooks(books[1..], id, form);
      RemoveAfterEdit(books[1..], id, form);
      assert e[0].id == books[0].id;
      assert books[0].id != id ==> e[0] == books[0];
    }
  }

  /** Submitting the same edit twice is submitting it once. */
  lemma EditIdempotent(books: seq<Book>, id: string, form: BookForm)
    ensures EditBooks(EditBooks(books, id, form), id, form) == EditBooks(books, id, form)
  {
  }

  // ---------------------------------------------------------------------
  // Reading progress

  /** The status after the progress slider moves to `v`: between 0 and 100
      exclusive the book is being read, at 100 it is finished and no longer
      lent, otherwise the old status stays ('available' when there was none). */
  function NextStatus(prev: Option<Status>, v: int): (r: Status)
    ensures 0 < v < 100 ==> r == Reading
    ensures v == 100 ==> r == NotAvailable
    ensures (v <= 0 || v > 100) && prev.Some? ==> r == prev.value
    ensures (v <= 0 || v > 100) && prev.None? ==> r == Available
  {
    if v > 0 && v < 100 then Reading
    else if v == 100 then NotAvailable
    else Pick(prev, Available)
  }

  function WithProgress(b: Book, v: int): Book
  {
    b.(progress := Some(v), status := Some(NextStatus(b.status, v)))
  }

  /** The slider handler: only the books with the given id change, and of
      those only progress and status. */
  function SetProgress(books: seq<Book>, id: string, v: int): (r: seq<Book>)
    ensures |r| == |books|
    ensures forall i :: 0 <= i < |books| && books[i].id != id ==> r[i] == books[i]
    ensures forall i :: 0 <= i < |books| && books[i].id == id ==>
              r[i].progress == Some(v) && r[i].status == Some(NextStatus(books[i].status, v))
              && r[i].(progress := books[i].progress, status := books[i].status) == books[i]
  {
    seq(|books|, i requires 0 <= i < |books| => if books[i].id == id then WithProgress(books[i], v) else books[i])
  }

  /** Moving the slider to the same value again changes nothing more. */
  lemma SetProgressIdempotent(books: seq<Book>, id: string, v: int)
    ensures SetProgress(SetProgress(books, id, v), id, v) == SetProgress(books, id, v)
  {
    var once := SetProgress(books, id, v);
    var twice := SetProgress(once, id, v);
    forall i | 0 <= i < |books| ensures twice[i] == once[i] {
      if books[i].id == id {
        assert NextStatus(once[i].status, v) == NextStatus(books[i].status, v);
      }
    }
  }

  // ---------------------------------------------------------------------
  // The 3D view

  const ShelfRows := 3
  const SlotsPerRow := 8

  /** `filtered.slice(row * 8, row * 8 + 8)` */
  function ShelfRow(filtered: seq<Book>, row: nat): (r: seq<Book>)
    ensures |r| <= SlotsPerRow
  {
    Slice(filtered, row * SlotsPerRow, row * SlotsPerRow + SlotsPerRow)
  }

  /** The three rows together show the first 24 results, in order, and no more. */
  lemma ShelfRowsShowFirst24(filtered: seq<Book>)
    ensures ShelfRow(filtered, 0) + ShelfRow(filtered, 1) + ShelfRow(filtered, 2)
            == filtered[..Min(24, |filtered|)]
  {
    SliceAppend(filtered, 0, 8, 16);
    SliceAppend(filtered, 0, 16, 24);
  }

  datatype Spine3D = Spine3D(left: int, height: int, width: int, hasCover: bool)

  /** The spine drawn in slot `i` of a row. */
  function Spine(b: Book, i: nat): (r: Spine3D)
    ensures r.left == 14 + 42 * i
    ensures 64 <= r.height <= 82 && 18 <= r.width <= 22
    ensures r.hasCover <==> b.coverImage.Some? && b.coverImage.value != []
    ensures b.coverImage == Some("") ==> !r.hasCover
  {
    Spine3D(14 + i * 42, 64 + (i % 4) * 6, 18 + (i % 3) * 2, b.coverImage.Some? && b.coverImage.value != [])
  }

  /** The grid card's progress bar: a missing progress shows as 0, and the
      fill never leaves 0..100. */
  function ProgressFill(b: Book): (r: int)
    ensures 0 <= r <= 100
    ensures b.progress.None? ==> r == 0
    ensures b.progress.Some? && 0 <= b.progress.value <= 100 ==> r == b.progress.value
  {
    ClampPercent(Pick(b.progress, 0))
  }

  // ---------------------------------------------------------------------
  // The screen

  /** `if (editing)`: an id is only acted on when it is a non-empty string. */
  predicate IsEditing(editing: Option<string>)
    ensures editing == None || editing == Some("") ==> !IsEditing(editing)
    ensures IsEditing(editing) ==> editing.Some? && |editing.value| > 0
  {
    editing.Some? && editing.value != []
  }

  /** What `addBook` does to the list. */
  function SubmitBooks(books: seq<Book>, form: BookForm, editing: Option<string>, newId: string): (r: seq<Book>)
    ensures IsEditing(editing) ==>
              |r| == |books| && forall i :: 0 <= i < |books| && books[i].id != editing.value ==> r[i] == books[i]
    ensures !IsEditing(editing) ==> |r| == |books| + 1 && r[..|books|] == books && r[|books|] == NewBook(form, newId)
  {
    if IsEditing(editing) then EditBooks(books, editing.value, form) else AddBook(books, form, newId)
  }

  /** The catalogue screen. `books` stands for the logged-in user's
      `booksOwned`; every change to it goes through `updateProfile`, whose
      effect on the user is `Merge(user, BooksOwnedPatch(books))`. */
  class MyBooks {
    var books: seq<Book>
    var form: BookForm
    var adding: bool
    var editing: Option<string>
    var search: string
    var showOnlineSearch: bool
    var onlineBooks: seq<OnlineBook>

    constructor (owned: seq<Book>)
      ensures books == owned && form == EmptyForm && !adding && editing == None
      ensures search == [] && !showOnlineSearch && onlineBooks == []
    {
      books := owned;
      form := EmptyForm;
      adding := false;
      editing := None;
      search := [];
      showOnlineSearch := false;
      onlineBooks := [];
    }

    /** What the list or grid shows. */
    function Filtered(): (r: seq<Book>)
      reads this
      ensures forall b :: b in r <==> b in books && Matches(b, search)
    {
      Search(books, search)
    }

    /** `addBook`: a blank title does nothing at all; otherwise the edit or
      add is applied, the form is emptied and closed, and an edit ends. */
    method Submit(newId: string, writeFails: bool)
      modifies this
      ensures IsBlank(old(form.title)) ==> unchanged(this)
      ensures !IsBlank(old(form.title)) && !writeFails ==> books == SubmitBooks(old(books), old(form), old(editing), newId)
      ensures writeFails ==> books == old(books)
      ensures !IsBlank(old(form.title)) ==>
                && form == EmptyForm && !adding
                && editing == (if IsEditing(old(editing)) then None else old(editing))
                && search == old(search) && showOnlineSearch == old(showOnlineSearch)
                && onlineBooks == old(onlineBooks)
    {
      if IsBlank(form.title) {
        return;
      }
      if !writeFails {
        books := SubmitBooks(books, form, editing, newId);
      }
      if IsEditing(editing) {
        editing := None;
      }
      form := EmptyForm;
      adding := false;
    }

    method Remove(id: string, writeFails: bool)
      modifies this`books
      ensures !writeFails ==> books == RemoveBook(old(books), id)
      ensures !writeFails ==> forall b :: b in books <==> b in old(books) && b.id != id
      ensures SubsequenceOf(books, old(books))
      ensures writeFails ==> books == old(books)
    {
      if !writeFails {
        books := RemoveBook(books, id);
      } else {
        SubsequenceOfSelf(books);
      }
    }

    /** `startEdit`: the form is filled from the book and opened. */
    method StartEdit(b: Book)
      modifies this`form, this`editing, this`adding
      ensures form == BookForm(b.title, b.author, Pick(b.coverImage, ""), Pick(b.status, Available),
                               Pick(b.forExchange, true))
      ensures editing == Some(b.id) && adding
    {
      form := BookForm(b.title, b.author, Pick(b.coverImage, ""), Pick(b.status, Available),
                       Pick(b.forExchange, true));
      editing := Some(b.id);
      adding := true;
    }

    method CancelEdit()
      modifies this`form, this`editing, this`adding
      ensures form == EmptyForm && !adding && editing == None
    {
      form := EmptyForm;
      adding := false;
      editing := None;
    }

    /** The header button flips the form open or closed and nothing else. */
    method ToggleAdding()
      modifies this`adding
      ensures adding == !old(adding)
    {
      adding := !adding;
    }

    method ChangeProgress(id: string, v: int, writeFails: bool)
      modifies this`books
      ensures !writeFails ==> books == SetProgress(old(books), id, v)
      ensures writeFails ==> books == old(books)
    {
      if !writeFails {
        books := SetProgress(books, id, v);
      }
    }

    /** `handleOnlineSearch` */
    method OpenOnlineSearch()
      modifies this`showOnlineSearch, this`onlineBooks
      ensures showOnlineSearch && onlineBooks == MockOnlineBooks
    {
      showOnlineSearch := true;
      onlineBooks := SearchAllOnline();
    }

    /** `addOnlineBook`: the result is appended and the dialog closes. */
    method AddOnline(b: OnlineBook, newId: string, writeFails: bool)
      modifies this`books, this`showOnlineSearch
      ensures !writeFails ==> books == old(books) + [FromOnline(b, newId)]
      ensures writeFails ==> books == old(books)
      ensures !showOnlineSearch
    {
      if !writeFails {
        books := books + [FromOnline(b, newId)];
      }
      showOnlineSearch := false;
    }
  }
}
