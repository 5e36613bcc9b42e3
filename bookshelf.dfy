/** The animated bookshelf: spine colour, size and wear formulas, the split
    of the books into shelves, the decorative books that fill every row, the
    label truncation and the statistics under the shelves. */
module Bookshelf {
  import opened Common

  datatype ShelfBook = ShelfBook(id: string, title: string, author: string, category: string)

  // ---------------------------------------------------------------------
  // Colours

  const ClassicColors: seq<string> := [
    "linear-gradient(135deg, #8B4513 0%, #654321 50%, #4A2C17 100%)",
    "linear-gradient(135deg, #A0522D 0%, #8B4513 50%, #654321 100%)",
    "linear-gradient(135deg, #CD853F 0%, #A0522D 50%, #8B4513 100%)",
    "linear-gradient(135deg, #191970 0%, #0F0F2D 50%, #000080 100%)",
    "linear-gradient(135deg, #4682B4 0%, #2F4F4F 50%, #1C3A3A 100%)",
    "linear-gradient(135deg, #483D8B 0%, #2E2759 50%, #1A1A3A 100%)",
    "linear-gradient(135deg, #228B22 0%, #006400 50%, #004500 100%)",
    "linear-gradient(135deg, #556B2F 0%, #35441E 50%, #2A3318 100%)",
    "linear-gradient(135deg, #2E8B57 0%, #1F5F3F 50%, #15402A 100%)",
    "linear-gradient(135deg, #8B0000 0%, #5D0000 50%, #400000 100%)",
    "linear-gradient(135deg, #DC143C 0%, #8B0000 50%, #600000 100%)",
    "linear-gradient(135deg, #B22222 0%, #8B0000 50%, #5D0000 100%)",
    "linear-gradient(135deg, #DAA520 0%, #B8860B 50%, #8B6914 100%)",
    "linear-gradient(135deg, #CD853F 0%, #A0522D 50%, #8B4513 100%)",
    "linear-gradient(135deg, #F4A460 0%, #DEB887 50%, #CD853F 100%)",
    "linear-gradient(135deg, #2F2F2F 0%, #1A1A1A 50%, #0D0D0D 100%)",
    "linear-gradient(135deg, #696969 0%, #454545 50%, #2D2D2D 100%)",
    "linear-gradient(135deg, #708090 0%, #4F5A65 50%, #36434F 100%)",
    "linear-gradient(135deg, #4B0082 0%, #2E0047 50%, #1A0029 100%)",
    "linear-gradient(135deg, #8B008B 0%, #5D005D 50%, #3D003D 100%)",
    "linear-gradient(135deg, #654321 0%, #4A2C17 50%, #2E1A0E 100%)",
    "linear-gradient(135deg, #8B7355 0%, #5D4D37 50%, #3C3322 100%)",
    "linear-gradient(135deg, #2F4F4F 0%, #1C2E2E 50%, #0F1818 100%)",
    "linear-gradient(135deg, #5F9EA0 0%, #4682B4 50%, #2F4F4F 100%)"
  ]

  const FictionColors: seq<string> := [
    "linear-gradient(135deg, #8B4513 0%, #654321 50%, #4A2C17 100%)",
    "linear-gradient(135deg, #191970 0%, #0F0F2D 50%, #000080 100%)",
    "linear-gradient(135deg, #8B0000 0%, #5D0000 50%, #400000 100%)"
  ]

  const NonFictionColors: seq<string> := [
    "linear-gradient(135deg, #2F4F4F 0%, #1C2E2E 50%, #0F1818 100%)",
    "linear-gradient(135deg, #4682B4 0%, #2F4F4F 50%, #1C3A3A 100%)",
    "linear-gradient(135deg, #654321 0%, #4A2C17 50%, #2E1A0E 100%)"
  ]

  const ScienceColors: seq<string> := [
    "linear-gradient(135deg, #4682B4 0%, #2F4F4F 50%, #1C3A3A 100%)",
    "linear-gradient(135deg, #708090 0%, #4F5A65 50%, #36434F 100%)",
    "linear-gradient(135deg, #2F4F4F 0%, #1C2E2E 50%, #0F1818 100%)"
  ]

  /** The palette for a category: three categories have their own, every
      other category (the key "default" included) uses the classic one. */
  function Palette(category: string): (r: seq<string>)
    ensures category == "fiction" ==> r == FictionColors
    ensures category == "non-fiction" ==> r == NonFictionColors
    ensures category == "science" ==> r == ScienceColors
    ensures category !in {"fiction", "non-fiction", "science"} ==> r == ClassicColors
    ensures |r| == 3 || |r| == 24
  {
    if category == "fiction" then FictionColors
    else if category == "non-fiction" then NonFictionColors
    else if category == "science" then ScienceColors
    else ClassicColors
  }

  /** `generateBookColor`: the palette entry at `index` modulo its length. */
  function BookColor(category: string, index: nat): (r: string)
    ensures r in Palette(category)
  {
    var p := Palette(category);
    p[index % |p|]
  }

  /** Colours repeat with the palette's length as period. */
  lemma {:induction false} BookColorPeriodic(category: string, index: nat)
    ensures BookColor(category, index + |Palette(category)|) == BookColor(category, index)
  {
    var n := |Palette(category)|;
    assert (index + n) % n == index % n;
  }

  // ---------------------------------------------------------------------
  // Dimensions and wear

  /** `generateBookDimensions` width: 30 plus up to 20 from the title length
      plus up to 6 from the position; the floor of 28 never binds. */
  function SpineWidth(titleLength: nat, index: nat): (r: int)
    ensures 30 <= r <= 56
    ensures r == 30 + (titleLength % 6) * 4 + (index % 3) * 3
  {
    Max(28, 30 + (titleLength % 6) * 4 + (index % 3) * 3)
  }

  /** `generateBookDimensions` height: never below 160, never above 240. */
  function SpineHeight(titleLength: nat, index: nat): (r: int)
    ensures 160 <= r <= 240
    ensures 150 + (index % 5) * 15 + (titleLength % 4) * 10 >= 160 ==>
              r == 150 + (index % 5) * 15 + (titleLength % 4) * 10
    ensures 150 + (index % 5) * 15 + (titleLength % 4) * 10 < 160 ==> r == 160
  {
    Max(160, 150 + (index % 5) * 15 + (titleLength % 4) * 10)
  }

  /** The wear seed `(index * 7 + 13) % 100`; the wear is this over 100. */
  function WearSeed(index: nat): (r: nat)
    ensures r <= 99
  {
    (index * 7 + 13) % 100
  }

  function Wear(index: nat): (r: real)
    ensures 0.0 <= r <= 0.99
  {
    WearSeed(index) as real / 100.0
  }

  /** A stain is drawn above wear 0.6 and a second mark above 0.8: in terms
      of the seed, the stain needs a seed of at least 61 and the mark one of
      at least 81. The book at index 9 (seed 76) carries the stain only. */
  lemma WearMarks(index: nat)
    ensures Wear(index) > 0.6 <==> WearSeed(index) >= 61
    ensures Wear(index) > 0.8 <==> WearSeed(index) >= 81
    ensures index == 9 ==> Wear(index) > 0.6 && !(Wear(index) > 0.8)
  {
  }

  /** Wear repeats every hundred positions. */
  lemma {:induction false} WearPeriodic(index: nat)
    ensures Wear(index + 100) == Wear(index)
  {
    assert (index + 100) * 7 + 13 == (index * 7 + 13) + 7 * 100;
    assert ((index * 7 + 13) + 7 * 100) % 100 == (index * 7 + 13) % 100;
  }

  // ---------------------------------------------------------------------
  // Labels

  /** Titles and author labels longer than 15 characters are cut to 15 and
      given "..."; shorter ones are shown whole. */
  function Truncate(s: string): (r: string)
    ensures |s| <= 15 ==> r == s
    ensures |s| > 15 ==> r == s[..15] + "..."
    ensures |r| <= 18
  {
    if |s| > 15 then s[..15] + "..." else s
  }

  /** Truncating a label that was already truncated changes nothing. */
  lemma TruncateIdempotent(s: string)
    ensures Truncate(Truncate(s)) == Truncate(s)
  {
    if |s| > 15 {
      var t := s[..15] + "...";
      assert t[..15] == s[..15];
      assert t[15..] == "...";
      assert t == t[..15] + t[15..];
    }
  }

  // ---------------------------------------------------------------------
  // Shelves

  datatype Shelf = Shelf(books: seq<ShelfBook>, visibleBooks: seq<ShelfBook>)

  function CeilDiv(n: nat, m: nat): nat
    requires m >= 1
  {
    (n + m - 1) / m
  }

  /** `Math.ceil(n / m)` is the least count of m-sized groups that covers n. */
  lemma CeilDivCovers(n: nat, m: nat)
    requires m >= 1
    ensures CeilDiv(n, m) * m >= n
    ensures n > 0 ==> (CeilDiv(n, m) - 1) * m < n
    ensures n == 0 <==> CeilDiv(n, m) == 0
  {
    var q := (n + m - 1) / m;
    var r := (n + m - 1) % m;
    assert n + m - 1 == q * m + r;
    assert (q - 1) * m == q * m - m;
  }

  /** The number of shelves drawn: one per started group of m, at least one. */
  function ShelfCount(n: nat, m: nat): (r: nat)
    requires m >= 1
    ensures r >= 1
  {
    Max(1, CeilDiv(n, m))
  }

  /** Shelf `i` holds positions `i*m .. i*m+m` of the list. */
  function ShelfSlice<T>(s: seq<T>, i: nat, m: nat): (r: seq<T>)
    ensures |r| <= m
  {
    Slice(s, i * m, i * m + m)
  }

  function Flatten(shelves: seq<Shelf>): seq<ShelfBook>
  {
    if shelves == [] then [] else Flatten(shelves[..|shelves| - 1]) + shelves[|shelves| - 1].books
  }

  lemma MulSucc(i: nat, m: nat)
    ensures (i + 1) * m == i * m + m
  {
  }

  lemma FlattenPush(shelves: seq<Shelf>, s: Shelf)
    ensures Flatten(shelves + [s]) == Flatten(shelves) + s.books
  {
    assert (shelves + [s])[..|shelves|] == shelves;
  }

  /** The first `count` shelves: shelf k holds the slice of positions
      `k*m .. k*m+m` of the books and of the revealed books. */
  function ShelvesUpTo(books: seq<ShelfBook>, visible: seq<ShelfBook>, m: nat, count: nat): (r: seq<Shelf>)
    ensures |r| == count
    ensures forall k :: 0 <= k < count ==> r[k] == Shelf(ShelfSlice(books, k, m), ShelfSlice(visible, k, m))
  {
    seq(count, k requires 0 <= k < count => Shelf(ShelfSlice(books, k, m), ShelfSlice(visible, k, m)))
  }

  /** The shelves drawn for the books: one per started group of m, or a
      single empty shelf when there are no books. The empty shelf shows no
      books even when the revealed list still holds books of an earlier list.
      With no books a shelf size of 0 also gives the one empty shelf: the
      loop bound `Math.ceil(0 / 0)` is NaN, so the loop does not run. */
  function Shelves(books: seq<ShelfBook>, visible: seq<ShelfBook>, m: nat): (r: seq<Shelf>)
    requires m >= 1 || books == []
    ensures m >= 1 ==> |r| == ShelfCount(|books|, m)
    ensures books == [] ==> r == [Shelf([], [])]
    ensures forall k :: 0 <= k < |r| ==> |r[k].books| <= m && |r[k].visibleBooks| <= m
  {
    var count := if m == 0 then 0 else CeilDiv(|books|, m);
    if count == 0 then [Shelf([], [])] else ShelvesUpTo(books, visible, m, count)
  }

  /** The shelf that starts at `start`, inside the list, is not empty and
      extends the books already shelved. */
  lemma ShelfStep(books: seq<ShelfBook>, start: nat, m: nat)
    requires m >= 1 && start < |books|
    ensures Slice(books, start, start + m) != []
    ensures books[..start] + Slice(books, start, start + m) == books[..Min(start + m, |books|)]
  {
    assert books[start] in Slice(books, start, start + m);
  }

  /** The first `i` shelves hold exactly the first `i*m` books, in order. */
  lemma {:induction false} ShelvesUpToFlatten(books: seq<ShelfBook>, visible: seq<ShelfBook>, m: nat, i: nat)
    requires m >= 1 && i <= CeilDiv(|books|, m)
    ensures Flatten(ShelvesUpTo(books, visible, m, i)) == books[..Min(i * m, |books|)]
  {
    if i > 0 {
      var j := i - 1;
      var start := j * m;
      CeilDivCovers(|books|, m);
      MulMono(j, CeilDiv(|books|, m) - 1, m);
      assert start < |books|;
      MulSucc(j, m);
      assert i * m == start + m;
      var prev := ShelvesUpTo(books, visible, m, j);
      var shelf := Shelf(Slice(books, start, start + m), Slice(visible, start, start + m));
      assert ShelvesUpTo(books, visible, m, i) == prev + [shelf];
      ShelvesUpToFlatten(books, visible, m, j);
      FlattenPush(prev, shelf);
      ShelfStep(books, start, m);
    }
  }

  /** The shelves put every book on a shelf, in order, none twice. */
  lemma ShelvesFlatten(books: seq<ShelfBook>, visible: seq<ShelfBook>, m: nat)
    requires m >= 1
    ensures Flatten(Shelves(books, visible, m)) == books
  {
    var count := CeilDiv(|books|, m);
    CeilDivCovers(|books|, m);
    if count == 0 {
      FlattenPush([], Shelf([], []));
    } else {
      ShelvesUpToFlatten(books, visible, m, count);
      assert Min(count * m, |books|) == |books|;
    }
  }

  /** At least one shelf is drawn, and a shelf more only for a started group
      of m books; no shelf holds more than m, and with books none is empty. */
  lemma ShelvesShape(books: seq<ShelfBook>, visible: seq<ShelfBook>, m: nat)
    requires m >= 1
    ensures |Shelves(books, visible, m)| == ShelfCount(|books|, m)
    ensures forall s :: s in Shelves(books, visible, m) ==> |s.books| <= m && |s.visibleBooks| <= m
    ensures |books| > 0 ==> forall s :: s in Shelves(books, visible, m) ==> s.books != []
  {
    var count := CeilDiv(|books|, m);
    CeilDivCovers(|books|, m);
    var r := Shelves(books, visible, m);
    if count > 0 {
      forall k | 0 <= k < count
        ensures r[k].books != []
      {
        MulMono(k, count - 1, m);
        ShelfStep(books, k * m, m);
      }
    }
  }

  /** The shelf loop of the component. */
  method BuildShelves(books: seq<ShelfBook>, visible: seq<ShelfBook>, m: nat) returns (shelves: seq<Shelf>)
    requires m >= 1 || books == []
    ensures shelves == Shelves(books, visible, m)
  {
    var count := if m == 0 then 0 else CeilDiv(|books|, m);
    shelves := [];
    var i := 0;
    while i < count
      invariant 0 <= i <= count
      invariant shelves == ShelvesUpTo(books, visible, m, i)
    {
      shelves := shelves + [Shelf(ShelfSlice(books, i, m), ShelfSlice(visible, i, m))];
      i := i + 1;
    }
    if |shelves| == 0 {
      shelves := [Shelf([], [])];
    }
  }

  /** While books are being revealed one by one, every shelf shows a prefix
      of the books it holds. */
  lemma VisiblePrefixPerShelf(books: seq<ShelfBook>, visible: seq<ShelfBook>, i: nat, m: nat)
    requires |visible| <= |books| && visible == books[..|visible|]
    ensures var v := ShelfSlice(visible, i, m);
            var b := ShelfSlice(books, i, m);
            |v| <= |b| && v == b[..|v|]
  {
    var a := i * m;
    if a < |visible| {
      var hv := Min(a + m, |visible|);
      assert ShelfSlice(visible, i, m) == visible[a..hv] == books[a..hv];
      assert ShelfSlice(books, i, m) == books[a..Min(a + m, |books|)];
      assert books[a..Min(a + m, |books|)][..hv - a] == books[a..hv];
    }
  }

  // ---------------------------------------------------------------------
  // One row of spines

  datatype SpineView = SpineView(
    title: string, author: string, width: int, height: int, color: string, wear: real, decorative: bool)

  const DecorativeTitles: seq<string> := [
    "El Quijote", "Don Juan", "La Ilíada", "Hamlet", "Fausto", "Divina Comedia",
    "Paradise Lost", "King Lear", "The Odyssey", "Aeneid", "Canterbury Tales",
    "Beowulf", "El Cid", "Romeo y Julieta", "Macbeth", "Othello", "Les Misérables",
    "Notre Dame", "Guerra y Paz", "Anna Karenina", "Crime y Castigo", "Los Hermanos K.",
    "El Idiota", "Madame Bovary", "Tristán", "Isolda", "Parsifal", "Lohengrin"
  ]

  function DigitChar(d: nat): char
    requires d < 10
  {
    ('0' as int + d) as char
  }

  /** The decimal text of a number, as a template literal prints it. */
  function NatToString(n: nat): (r: string)
    ensures |r| >= 1
    decreases n
  {
    if n < 10 then [DigitChar(n)] else NatToString(n / 10) + [DigitChar(n % 10)]
  }

  /** Every spine is 30 to 56 wide and 160 to 240 high, with wear below 1. */
  predicate InBounds(s: SpineView)
  {
    30 <= s.width <= 56 && 160 <= s.height <= 240 && 0.0 <= s.wear <= 0.99
  }

  /** A real book on shelf `shelfIndex`, at position `k` of its row. */
  function BookSpine(b: ShelfBook, shelfIndex: nat, k: nat, m: nat): (r: SpineView)
    ensures !r.decorative && r.title == Truncate(b.title) && r.author == Truncate(b.author)
    ensures r.color == BookColor(b.category, k)
    ensures InBounds(r)
  {
    SpineView(Truncate(b.title), Truncate(b.author), SpineWidth(|b.title|, k), SpineHeight(|b.title|, k),
              BookColor(b.category, k), Wear(shelfIndex * m + k), false)
  }

  /** A decorative book at global position `g`: a classic title chosen by
      `g` modulo 28, the fiction palette, and sizes computed from the text
      "Libro Clásico g". */
  function DecorativeSpine(g: nat): (r: SpineView)
    ensures r.decorative && r.author == "Clásico"
    ensures r.title == DecorativeTitles[g % 28]
    ensures r.color == BookColor("fiction", g)
    ensures InBounds(r)
  {
    var sizeTitle := "Libro Clásico " + NatToString(g);
    SpineView(DecorativeTitles[g % 28], "Clásico", SpineWidth(|sizeTitle|, g),
              SpineHeight(|sizeTitle|, g), BookColor("fiction", g), Wear(g), true)
  }

  /** What occupies a position of a row: a revealed book at its row position,
      or a decorative book at its global position. */
  datatype Slot = Real(book: ShelfBook, position: nat) | Filler(globalIndex: nat)

  /** A row: the revealed books, then decorative books up to exactly m
      slots; the decorative book at row position k has global position
      `shelfIndex * m + k`. */
  function RowSlots(shelf: Shelf, shelfIndex: nat, m: nat): (r: seq<Slot>)
    requires |shelf.visibleBooks| <= m
    ensures |r| == m
    ensures forall k :: 0 <= k < |shelf.visibleBooks| ==> r[k] == Real(shelf.visibleBooks[k], k)
    ensures forall k :: |shelf.visibleBooks| <= k < m ==> r[k] == Filler(shelfIndex * m + k)
  {
    var v := shelf.visibleBooks;
    var base := shelfIndex * m;
    seq(m, k requires 0 <= k < m => if k < |v| then Real(v[k], k) else Filler(base + k))
  }

  /** The spine drawn for a slot: decorative exactly for a filler, and
      always within the size and wear bounds. */
  function SlotSpine(slot: Slot, shelfIndex: nat, m: nat): (r: SpineView)
    ensures r.decorative <==> slot.Filler?
    ensures InBounds(r)
    ensures slot.Real? ==> r.title == Truncate(slot.book.title) && r.color in Palette(slot.book.category)
    ensures slot.Filler? ==> r.title == DecorativeTitles[slot.globalIndex % 28] && r.color in FictionColors
  {
    match slot
    case Real(b, k) => BookSpine(b, shelfIndex, k, m)
    case Filler(g) => DecorativeSpine(g)
  }

  // ---------------------------------------------------------------------
  // Statistics

  /** The distinct categories of the books. */
  function Categories(books: seq<ShelfBook>): (r: set<string>)
    ensures forall b :: b in books ==> b.category in r
    ensures forall c :: c in r ==> exists b :: b in books && b.category == c
  {
    set b | b in books :: b.category
  }

  /** There are never more distinct categories than books. */
  lemma {:induction false} CategoriesBound(books: seq<ShelfBook>)
    ensures |Categories(books)| <= |books|
    decreases |books|
  {
    if books != [] {
      var last := books[|books| - 1];
      var init := books[..|books| - 1];
      assert books == init + [last];
      assert Categories(books) == Categories(init) + {last.category};
      CategoriesBound(init);
    }
  }

  datatype Stats = Stats(collected: nat, shelves: nat, genres: nat)

  /** The three numbers under the shelves. */
  function ShelfStats(books: seq<ShelfBook>, m: nat): (r: Stats)
    requires m >= 1
    ensures r.collected == |books|
    ensures r.shelves == ShelfCount(|books|, m) && r.genres == |Categories(books)|
    ensures r.shelves >= 1
    ensures r.genres <= r.collected
    ensures books != [] ==> r.genres >= 1
  {
    CategoriesBound(books);
    assert books != [] ==> books[0].category in Categories(books);
    Stats(|books|, ShelfCount(|books|, m), |Categories(books)|)
  }
}
