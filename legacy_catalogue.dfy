/** The older catalogue screen ("Mis libros"): the same search and removal
    as the current one, a form with title, author and cover only, and no
    status, exchange flag or reading progress. */
module LegacyCatalogue {
  import opened Common
  import opened Entities
  import Catalogue

  datatype LegacyForm = LegacyForm(title: string, author: string, cover: string)

  const EmptyLegacyForm := LegacyForm("", "", "")

  /** The book the add branch creates: always available, and without the
      status, exchange and progress fields the newer screen sets. */
  function NewLegacyBook(form: LegacyForm, newId: string): (r: Book)
    ensures r.id == newId && r.title == form.title
    ensures r.author == Catalogue.AuthorOrDefault(form.author) && r.author != []
    ensures r.isAvailable && r.genre == "General" && r.condition == Good
    ensures r.coverImage == Catalogue.CoverOrNone(form.cover)
    ensures r.coverImage.None? <==> form.cover == []
    ensures r.status.None? && r.forExchange.None? && r.progress.None?
  {
    Book(newId, form.title, Catalogue.AuthorOrDefault(form.author), "General",
         Catalogue.CoverOrNone(form.cover), Good, true, None, None, None)
  }

  /** The edit branch: title, author and cover of every book with the id are
      rewritten; every other field, and every other book, is kept. */
  function LegacyEditBooks(books: seq<Book>, id: string, form: LegacyForm): (r: seq<Book>)
    ensures |r| == |books|
    ensures forall i :: 0 <= i < |books| && books[i].id != id ==> r[i] == books[i]
    ensures forall i :: 0 <= i < |books| && books[i].id == id ==>
              r[i].title == form.title && r[i].author == Catalogue.AuthorOrDefault(form.author)
              && r[i].coverImage == Catalogue.CoverOrNone(form.cover)
              && r[i].(title := books[i].title, author := books[i].author,
                       coverImage := books[i].coverImage) == books[i]
  {
    seq(|books|, i requires 0 <= i < |books| =>
      if books[i].id == id then
        books[i].(title := form.title, author := Catalogue.AuthorOrDefault(form.author),
                  coverImage := Catalogue.CoverOrNone(form.cover))
      else books[i])
  }

  /** The older edit is the newer one restricted to the three fields it has:
      with the book's own status and exchange flag in the form, the two agree. */
  lemma LegacyEditIsRestrictedEdit(books: seq<Book>, id: string, form: LegacyForm, status: Status, ex: bool)
    requires forall b :: b in books && b.id == id ==> b.status == Some(status) && b.forExchange == Some(ex)
    ensures LegacyEditBooks(books, id, form)
            == Catalogue.EditBooks(books, id, Catalogue.BookForm(form.title, form.author, form.cover, status, ex))
  {
    var l := LegacyEditBooks(books, id, form);
    var c := Catalogue.EditBooks(books, id, Catalogue.BookForm(form.title, form.author, form.cover, status, ex));
    forall i | 0 <= i < |books| ensures l[i] == c[i] {
      if books[i].id == id {
        assert books[i] in books;
      }
    }
  }

  /** What the older `addBook` does to the list. */
  function LegacySubmitBooks(books: seq<Book>, form: LegacyForm, editing: Option<string>, newId: string): (r: seq<Book>)
    ensures Catalogue.IsEditing(editing) ==>
              |r| == |books| && forall i :: 0 <= i < |books| && books[i].id != editing.value ==> r[i] == books[i]
    ensures !Catalogue.IsEditing(editing) ==>
              |r| == |books| + 1 && r[..|books|] == books && r[|books|] == NewLegacyBook(form, newId)
  {
    if Catalogue.IsEditing(editing) then LegacyEditBooks(books, editing.value, form)
    else books + [NewLegacyBook(form, newId)]
  }

  class LegacyMyBooks {
    var books: seq<Book>
    var form: LegacyForm
    var adding: bool
    var editing: Option<string>
    var search: string

    constructor (owned: seq<Book>)
      ensures books == owned && form == EmptyLegacyForm && !adding && editing == None && search == []
    {
      books := owned;
      form := EmptyLegacyForm;
      adding := false;
      editing := None;
      search := [];
    }

    /** `filtered`: the same case-insensitive title-or-author search. */
    function Filtered(): (r: seq<Book>)
      reads this
      ensures forall b :: b in r <==> b in books && Catalogue.Matches(b, search)
      ensures |r| <= |books|
    {
      Catalogue.Search(books, search)
    }

    /** `addBook`: a blank title is a no-op; otherwise the list is edited or
        extended by one book, and the form is emptied and closed. */
    method Submit(newId: string, writeFails: bool)
      modifies this
      ensures IsBlank(old(form.title)) ==> unchanged(this)
      ensures !IsBlank(old(form.title)) && !writeFails ==>
                books == LegacySubmitBooks(old(books), old(form), old(editing), newId)
      ensures writeFails ==> books == old(books)
      ensures !IsBlank(old(form.title)) ==>
                && form == EmptyLegacyForm && !adding
                && editing == (if Catalogue.IsEditing(old(editing)) then None else old(editing))
                && search == old(search)
      ensures !IsBlank(old(form.title)) && !writeFails && !Catalogue.IsEditing(old(editing)) ==>
                |books| == |old(books)| + 1 && books[..|old(books)|] == old(books)
    {
      if IsBlank(form.title) {
        return;
      }
      if !writeFails {
        books := LegacySubmitBooks(books, form, editing, newId);
      }
      if Catalogue.IsEditing(editing) {
        editing := None;
      }
      form := EmptyLegacyForm;
      adding := false;
    }

    /** `removeBook`: the books with the id go, the others keep their order. */
    method Remove(id: string, writeFails: bool)
      modifies this`books
      ensures !writeFails ==> books == Catalogue.RemoveBook(old(books), id)
      ensures !writeFails ==> forall b :: b in books <==> b in old(books) && b.id != id
      ensures SubsequenceOf(books, old(books))
      ensures writeFails ==> books == old(books)
    {
      if !writeFails {
        books := Catalogue.RemoveBook(books, id);
      } else {
        SubsequenceOfSelf(books);
      }
    }

    method StartEdit(b: Book)
      modifies this`form, this`editing, this`adding
      ensures form == LegacyForm(b.title, b.author, Pick(b.coverImage, ""))
      ensures editing == Some(b.id) && adding
    {
      form := LegacyForm(b.title, b.author, Pick(b.coverImage, ""));
      editing := Some(b.id);
      adding := true;
    }

    method CancelEdit()
      modifies this`form, this`editing, this`adding
      ensures form == EmptyLegacyForm && !adding && editing == None
    {
      form := EmptyLegacyForm;
      adding := false;
      editing := None;
    }

    /** The header button flips the form open or closed and nothing else. */
    method ToggleAdding()
      modifies this`adding
      ensures adding == !old(adding)
    {
      adding := !adding;
    }
  }
}
