/** The signed-in user's profile screen (badges, tabs, reading progress and
    favourite genres) and the screen showing another reader's profile. */
module ProfileView {
  import opened Common
  import opened Entities
  import Chat

  // ---------------------------------------------------------------------
  // Reading progress

  /** A book's progress, a missing one counting as 0. */
  function ProgressOf(b: Book): int
  {
    Pick(b.progress, 0)
  }

  predicate IsCompleted(b: Book)
  {
    ProgressOf(b) == 100
  }

  /** The books read to the end: those whose progress is exactly 100. */
  function CompletedCount(books: seq<Book>): (r: nat)
    ensures r <= |books|
    ensures (forall b :: b in books ==> IsCompleted(b)) ==> r == |books|
    ensures (forall b :: b in books ==> !IsCompleted(b)) ==> r == 0
  {
    var p := (b: Book) => IsCompleted(b);
    if forall b :: b in books ==> IsCompleted(b) then
      FilterKeepsAll(books, p);
      |Filter(books, p)|
    else if forall b :: b in books ==> !IsCompleted(b) then
      FilterDropsAll(books, p);
      |Filter(books, p)|
    else
      |Filter(books, p)|
  }

  /** Counting works book by book: the count of a concatenation is the sum
      of the counts, and a single book counts 1 exactly when it is completed.
      Together these fix the count for every list. */
  lemma CompletedCountAppend(a: seq<Book>, c: seq<Book>)
    ensures CompletedCount(a + c) == CompletedCount(a) + CompletedCount(c)
  {
    FilterAppend(a, c, (b: Book) => IsCompleted(b));
  }

  lemma CompletedCountSingleton(x: Book)
    ensures CompletedCount([x]) == if IsCompleted(x) then 1 else 0
  {
    FilterSingleton(x, (b: Book) => IsCompleted(b));
  }

  /** The share of completed books in percent, rounded half up and capped at
      100, over a denominator of at least 1. */
  function ReadingPercent(books: seq<Book>): (r: int)
    ensures 0 <= r <= 100
    ensures books == [] ==> r == 0
    ensures books != [] && CompletedCount(books) == |books| ==> r == 100
    ensures var c, d := CompletedCount(books), Max(1, |books|);
            2 * r * d - d <= 200 * c < 2 * r * d + d
  {
    var c, d := CompletedCount(books), Max(1, |books|);
    var q := (200 * c + d) / (2 * d);
    RoundedShare(c, d, q);
    Min(100, q)
  }

  /** `q` is `100 c / d` rounded half up, and lies in 0..100 when `c <= d`. */
  lemma RoundedShare(c: nat, d: nat, q: int)
    requires 1 <= d && c <= d && q == (200 * c + d) / (2 * d)
    ensures 2 * q * d - d <= 200 * c < 2 * q * d + d
    ensures 0 <= q <= 100
    ensures c == d ==> q == 100
  {
    var x, k := 200 * c + d, 2 * d;
    assert k * q <= x < k * q + k;
    assert k * q == 2 * q * d;
    if q > 100 {
      MulMono(101, q, d);
    }
    if q < 0 {
      MulMono(q + 1, 0, d);
    }
    if c == d && q < 100 {
      MulMono(q, 99, d);
    }
  }

  /** The fill of a bar never leaves 0..100. */
  function BarWidth(value: int): (r: int)
    ensures 0 <= r <= 100
    ensures 0 <= value <= 100 ==> r == value
  {
    ClampPercent(value)
  }

  // ---------------------------------------------------------------------
  // Favourite genres

  const DefaultGenres: seq<string> := ["Ficción", "Romance", "Misterio", "Ciencia", "Historia", "Biografía"]

  /** The genre pills: the first six of the user's genres, or the default
      six when the user has no genre list at all; an empty list shows none. */
  function GenrePills(genres: Option<seq<string>>): (r: seq<string>)
    ensures |r| <= 6
    ensures genres.None? ==> r == DefaultGenres
    ensures genres.Some? ==> r == genres.value[..Min(6, |genres.value|)]
    ensures genres == Some([]) ==> r == []
  {
    Slice(Pick(genres, DefaultGenres), 0, 6)
  }

  // ---------------------------------------------------------------------
  // Badges and tabs

  datatype Badge = PremiumBadge | PlaceBadge(place: string) | RatingBadge

  /** The badges under the name: premium for a premium user, the address
      (or "Mi ciudad" when it is empty) when a location is known, and the
      rating always. */
  function Badges(u: User): (r: seq<Badge>)
    ensures PremiumBadge in r <==> u.isPremium
    ensures (exists l :: PlaceBadge(l) in r) <==> u.location.Some?
    ensures u.location.Some? && u.location.value.address != [] ==> PlaceBadge(u.location.value.address) in r
    ensures u.location.Some? && u.location.value.address == [] ==> PlaceBadge("Mi ciudad") in r
    ensures r != [] && r[|r| - 1] == RatingBadge
  {
    var place := if u.location.Some? then
                   [PlaceBadge(if u.location.value.address != [] then u.location.value.address else "Mi ciudad")]
                 else [];
    var r := (if u.isPremium then [PremiumBadge] else []) + place + [RatingBadge];
    assert u.location.Some? ==> r[|r| - 2] in r;
    r
  }

  datatype Tab = Summary | Activity | Reviews

  /** The summary section: number of books, completed books, the progress
      bar and the genre pills. */
  datatype Section =
    | SummarySection(books: nat, completed: nat, percent: int, genres: seq<string>)
    | ActivitySection
    | ReviewsSection

  function SummaryOf(u: User): Section
  {
    SummarySection(|u.booksOwned|, CompletedCount(u.booksOwned), BarWidth(ReadingPercent(u.booksOwned)),
                   GenrePills(Some(u.favoriteGenres)))
  }

  /** The three sections, each drawn under its own condition on the tab:
      exactly one of them is drawn, the one the tab selects. */
  function Sections(tab: Tab, u: User): (r: seq<Section>)
    ensures |r| == 1
    ensures r[0].SummarySection? <==> tab == Summary
    ensures r[0] == ActivitySection <==> tab == Activity
    ensures r[0] == ReviewsSection <==> tab == Reviews
    ensures tab == Summary ==> r[0].completed <= r[0].books == |u.booksOwned| && 0 <= r[0].percent <= 100
  {
    (if tab == Summary then [SummaryOf(u)] else [])
    + (if tab == Activity then [ActivitySection] else [])
    + (if tab == Reviews then [ReviewsSection] else [])
  }

  /** What the screen draws: nothing without a signed-in user. */
  datatype ProfileScreen = ProfileScreen(name: string, email: string, badges: seq<Badge>, sections: seq<Section>)

  function ProfileScreenOf(user: Option<User>, tab: Tab): (r: Option<ProfileScreen>)
    ensures r.Some? <==> user.Some?
    ensures r.Some? ==> r.value.name == user.value.name && |r.value.sections| == 1
                        && (PremiumBadge in r.value.badges <==> user.value.isPremium)
  {
    match user
    case None => None
    case Some(u) => Some(ProfileScreen(u.name, u.email, Badges(u), Sections(tab, u)))
  }

  /** The tab starts on the summary, and a click selects the tab clicked. */
  class TabState {
    var tab: Tab

    constructor ()
      ensures tab == Summary
    {
      tab := Summary;
    }

    method Select(t: Tab)
      modifies this
      ensures tab == t
    {
      tab := t;
    }
  }

  // ---------------------------------------------------------------------
  // Another reader's profile

  datatype ReaderStats = ReaderStats(books: nat, exchanges: nat, rating: real)
  datatype ReaderBook = ReaderBook(id: string, title: string)
  datatype Reader = Reader(id: string, name: string, location: string, stats: ReaderStats, books: seq<ReaderBook>)

  const Reader1 := Reader("user1", "María González", "Santiago, Chile", ReaderStats(15, 8, 4.9),
    [ReaderBook("1", "Cien años de soledad"), ReaderBook("2", "El amor en los tiempos del cólera"),
     ReaderBook("3", "Rayuela"), ReaderBook("4", "Pedro Páramo")])
  const Reader2 := Reader("user2", "Carlos Ruiz", "Valparaíso, Chile", ReaderStats(23, 12, 4.7),
    [ReaderBook("1", "El nombre del viento"), ReaderBook("2", "El temor de un hombre sabio"), ReaderBook("3", "Dune")])
  const Reader3 := Reader("user3", "Ana López", "Concepción, Chile", ReaderStats(19, 15, 4.8),
    [ReaderBook("1", "Sapiens"), ReaderBook("2", "Homo Deus"), ReaderBook("3", "21 lecciones para el siglo XXI")])

  /** The reader named by the route parameter; none when the parameter is
      missing or empty, or names nobody in the table. */
  function LookupReader(userId: Option<string>): (r: Option<Reader>)
    ensures r.Some? <==> userId in {Some("user1"), Some("user2"), Some("user3")}
    ensures r.Some? ==> r.value.id == userId.value
  {
    match userId
    case None => None
    case Some(id) =>
      if id == "user1" then Some(Reader1)
      else if id == "user2" then Some(Reader2)
      else if id == "user3" then Some(Reader3)
      else None
  }

  /** `s.split(sep)`: the pieces between separators, empty pieces included;
      the empty string gives one empty piece. */
  function Split(s: string, sep: char): (r: seq<string>)
    ensures |r| >= 1
    ensures forall p :: p in r ==> sep !in p
  {
    if s == [] then [[]]
    else
      var rest := Split(s[1..], sep);
      if s[0] == sep then [[]] + rest
      else
        assert forall p :: p in rest[1..] ==> p in rest;
        [[s[0]] + rest[0]] + rest[1..]
  }

  /** `pieces.join(sep)` */
  function Join(pieces: seq<string>, sep: char): string
    requires |pieces| >= 1
  {
    if |pieces| == 1 then pieces[0] else pieces[0] + [sep] + Join(pieces[1..], sep)
  }

  /** Splitting and joining with the same separator gives the text back. */
  lemma {:induction false} JoinSplit(s: string, sep: char)
    ensures Join(Split(s, sep), sep) == s
    decreases |s|
  {
    if s != [] {
      var rest := Split(s[1..], sep);
      JoinSplit(s[1..], sep);
      if s[0] != sep {
        var r := Split(s, sep);
        assert r[0] == [s[0]] + rest[0] && r[1..] == rest[1..];
        if |rest| > 1 {
          assert Join(r, sep) == r[0] + [sep] + Join(rest[1..], sep);
          assert Join(rest, sep) == rest[0] + [sep] + Join(rest[1..], sep);
        }
      } else {
        assert Split(s, sep)[1..] == rest;
      }
    }
  }

  /** `map(n => n[0]).join('')`: the first character of every piece, where
      an empty piece gives `undefined` and so contributes nothing. */
  function FirstChars(pieces: seq<string>): (r: string)
    ensures |r| <= |pieces|
    ensures (forall k :: 0 <= k < |pieces| ==> pieces[k] != []) ==>
              |r| == |pieces| && forall k :: 0 <= k < |pieces| ==> r[k] == pieces[k][0]
  {
    if pieces == [] then []
    else (if pieces[0] == [] then [] else [pieces[0][0]]) + FirstChars(pieces[1..])
  }

  /** The initials drawn in place of a missing avatar. */
  function Initials(name: string): (r: string)
    ensures |r| <= |Split(name, ' ')|
  {
    FirstChars(Split(name, ' '))
  }

  /** A leading word without separators becomes the start of the first piece. */
  lemma {:induction false} SplitWord(w: string, rest: string, sep: char)
    requires sep !in w
    ensures var t := Split(rest, sep); Split(w + rest, sep) == [w + t[0]] + t[1..]
    decreases |w|
  {
    if w == [] {
      var t := Split(rest, sep);
      assert w + rest == rest && w + t[0] == t[0];
      assert [t[0]] + t[1..] == t;
    } else {
      assert (w + rest)[1..] == w[1..] + rest;
      SplitWord(w[1..], rest, sep);
      assert [w[0]] + (w[1..] + Split(rest, sep)[0]) == w + Split(rest, sep)[0];
    }
  }

  /** Two words separated by one space give their two first letters. */
  lemma TwoWordInitials(a: string, b: string)
    requires a != [] && b != [] && ' ' !in a && ' ' !in b
    ensures Initials(a + " " + b) == [a[0], b[0]]
  {
    SplitWord(b, [], ' ');
    assert b + [] == b;
    assert Split(b, ' ') == [b];
    assert Split(" " + b, ' ') == [[]] + Split(b, ' ');
    var t := Split(" " + b, ' ');
    assert (" " + b)[1..] == b;
    assert t == [[], b];
    SplitWord(a, " " + b, ' ');
    assert a + " " + b == a + (" " + b);
    assert a + t[0] == a;
    assert Split(a + " " + b, ' ') == [a, b];
    assert [a, b][1..] == [b];
  }

  /** The first reader of the table is drawn as "MG". */
  lemma InitialsOfFirstReader()
    ensures Initials(Reader1.name) == "MG"
  {
    var a, b := "María", "González";
    assert Reader1.name == a + " " + b;
    TwoWordInitials(a, b);
  }

  /** What the other-reader screen draws. */
  datatype ReaderScreen =
    | NotFound
    | Found(initials: string, name: string, location: string, stats: ReaderStats,
            booksHeader: nat, books: seq<ReaderBook>, messagePath: string)

  function ReaderScreenOf(userId: Option<string>): (r: ReaderScreen)
    ensures r == NotFound <==> LookupReader(userId).None?
    ensures r.Found? ==> var u := LookupReader(userId).value;
                         && r.name == u.name && r.initials == Initials(u.name)
                         && r.location == u.location && r.stats == u.stats
                         && r.booksHeader == |u.books| && r.books == u.books
                         && Chat.ParseTarget(r.messagePath) == Some(Chat.OpenChat(userId.value))
  {
    match LookupReader(userId)
    case None => NotFound
    case Some(u) =>
      var target := Chat.OpenChat(userId.value);
      Chat.ParseTargetPath(target);
      Found(Initials(u.name), u.name, u.location, u.stats, |u.books|, u.books, Chat.TargetPath(target))
  }
}
