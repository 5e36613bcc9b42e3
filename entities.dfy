/** The records the session keeps: a user and the books they own or want.
    Coordinates, the creation date and other display-only fields are not
    part of the model. */
module Entities {
  import opened Common

  datatype Condition = Excellent | Good | Fair | Poor

  /** The reading status a book in the personal catalogue carries. */
  datatype Status = Reading | Available | NotAvailable

  /** A book. `status`, `forExchange` and `progress` are optional: books
      added before these fields existed, or by the older catalogue, lack them. */
  datatype Book = Book(
    id: string,
    title: string,
    author: string,
    genre: string,
    coverImage: Option<string>,
    condition: Condition,
    isAvailable: bool,
    status: Option<Status>,
    forExchange: Option<bool>,
    progress: Option<int>)

  /** Only the address of a location takes part in any decision. */
  datatype Location = Location(address: string)

  datatype User = User(
    id: string,
    name: string,
    email: string,
    phone: string,
    avatar: Option<string>,
    coverImage: Option<string>,
    bio: Option<string>,
    favoriteGenres: seq<string>,
    booksOwned: seq<Book>,
    booksWanted: seq<Book>,
    location: Option<Location>,
    isPremium: bool)

  /** A `Partial<User>`: the fields present in an update. */
  datatype UserPatch = UserPatch(
    name: Option<string>,
    email: Option<string>,
    phone: Option<string>,
    avatar: Option<string>,
    coverImage: Option<string>,
    bio: Option<string>,
    favoriteGenres: Option<seq<string>>,
    booksOwned: Option<seq<Book>>,
    booksWanted: Option<seq<Book>>,
    location: Option<Location>,
    isPremium: Option<bool>)

  const NoChanges := UserPatch(None, None, None, None, None, None, None, None, None, None, None)

  /** The value present, or the default. */
  function Pick<T>(o: Option<T>, d: T): (r: T)
    ensures o.Some? ==> r == o.value
    ensures o.None? ==> r == d
  {
    match o
    case Some(v) => v
    case None => d
  }

  /** An optional field after a spread: the patch's value when present, the old one otherwise. */
  function PickPresent<T>(o: Option<T>, d: Option<T>): (r: Option<T>)
    ensures o.Some? ==> r == o
    ensures o.None? ==> r == d
  {
    if o.Some? then o else d
  }

  /** `{ ...user, ...patch }`: every field present in the patch replaces the
      user's, every other field is kept. */
  function Merge(u: User, p: UserPatch): (r: User)
    ensures r.id == u.id
    ensures p.name.Some? ==> r.name == p.name.value
    ensures p.name.None? ==> r.name == u.name
    ensures p.email.Some? ==> r.email == p.email.value
    ensures p.email.None? ==> r.email == u.email
    ensures p.phone.Some? ==> r.phone == p.phone.value
    ensures p.phone.None? ==> r.phone == u.phone
    ensures p.avatar.Some? ==> r.avatar == p.avatar
    ensures p.avatar.None? ==> r.avatar == u.avatar
    ensures p.coverImage.Some? ==> r.coverImage == p.coverImage
    ensures p.coverImage.None? ==> r.coverImage == u.coverImage
    ensures p.bio.Some? ==> r.bio == p.bio
    ensures p.bio.None? ==> r.bio == u.bio
    ensures p.favoriteGenres.Some? ==> r.favoriteGenres == p.favoriteGenres.value
    ensures p.favoriteGenres.None? ==> r.favoriteGenres == u.favoriteGenres
    ensures p.booksOwned.Some? ==> r.booksOwned == p.booksOwned.value
    ensures p.booksOwned.None? ==> r.booksOwned == u.booksOwned
    ensures p.booksWanted.Some? ==> r.booksWanted == p.booksWanted.value
    ensures p.booksWanted.None? ==> r.booksWanted == u.booksWanted
    ensures p.location.Some? ==> r.location == p.location
    ensures p.location.None? ==> r.location == u.location
    ensures p.isPremium.Some? ==> r.isPremium == p.isPremium.value
    ensures p.isPremium.None? ==> r.isPremium == u.isPremium
  {
    User(
      u.id,
      Pick(p.name, u.name),
      Pick(p.email, u.email),
      Pick(p.phone, u.phone),
      PickPresent(p.avatar, u.avatar),
      PickPresent(p.coverImage, u.coverImage),
      PickPresent(p.bio, u.bio),
      Pick(p.favoriteGenres, u.favoriteGenres),
      Pick(p.booksOwned, u.booksOwned),
      Pick(p.booksWanted, u.booksWanted),
      PickPresent(p.location, u.location),
      Pick(p.isPremium, u.isPremium))
  }

  /** An update with no fields leaves the user as it was. */
  lemma MergeNoChanges(u: User)
    ensures Merge(u, NoChanges) == u
  {
  }

  /** Applying the same update twice is applying it once. */
  lemma MergeIdempotent(u: User, p: UserPatch)
    ensures Merge(Merge(u, p), p) == Merge(u, p)
  {
  }

  /** The patch that only replaces the owned books, as the catalogue sends it. */
  function BooksOwnedPatch(books: seq<Book>): UserPatch
  {
    NoChanges.(booksOwned := Some(books))
  }

  /** Replacing the owned books keeps every other field. */
  lemma MergeBooksOwned(u: User, books: seq<Book>)
    ensures Merge(u, BooksOwnedPatch(books)) == u.(booksOwned := books)
  {
  }
}
