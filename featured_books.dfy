/**
  * The featured-books carousel: a category filter over the catalogue, pages
  * of three books, and the slide index that the arrows, the indicators and
  * the filter buttons move.
  */
module Carousel {
  import Seqs

  datatype Category = OldWorld | NewWorld

  /** The filter buttons: every book, or one category. */
  datatype CategoryFilter = All | Only(category: Category)

  datatype Book = Book(
    id: int, title: string, author: string, year: string, category: Category,
    description: string, price: string, rating: int, image: string, featured: bool)

  /** Books per slide. */
  const PageSize := 3

  /** The categories of the six catalogue books, in catalogue order. */
  const CatalogueCategories := [OldWorld, NewWorld, OldWorld, NewWorld, OldWorld, NewWorld]

  function Min(a: int, b: int): int {
    if a <= b then a else b
  }

  /** `filteredBooks`: the whole catalogue for "all", otherwise that category's books in catalogue order. */
  function FilteredBooks(books: seq<Book>, f: CategoryFilter): (r: seq<Book>)
    ensures f.All? ==> r == books
    ensures f.Only? ==> Seqs.IsSubsequence(r, books)
    ensures f.Only? ==> forall k :: 0 <= k < |r| ==> r[k].category == f.category
    ensures f.Only? ==> forall k :: 0 <= k < |books| && books[k].category == f.category ==> books[k] in r
    ensures f.Only? ==> forall b :: multiset(r)[b] == if b.category == f.category then multiset(books)[b] else 0
  {
    if f.All? then books
    else
      Seqs.FilterMultiplicity(books, (b: Book) => b.category == f.category);
      Seqs.Filter(books, (b: Book) => b.category == f.category)
  }

  /** The two category filters split the catalogue between them. */
  lemma CategoriesPartition(books: seq<Book>)
    ensures |FilteredBooks(books, Only(OldWorld))| + |FilteredBooks(books, Only(NewWorld))| == |books|
  {
    Seqs.FilterComplementCount(books, (b: Book) => b.category == OldWorld, (b: Book) => b.category == NewWorld);
  }

  /** `Math.ceil(n / 3)`: the fewest pages of three that hold `n` books. */
  function PageCount(n: nat): (k: nat)
    ensures PageSize * k >= n
    ensures k > 0 ==> PageSize * (k - 1) < n
  {
    (n + PageSize - 1) / PageSize
  }

  /** `slice(3 * i, 3 * i + 3)`, with `slice`'s clamping at the end of the list. */
  function Page(books: seq<Book>, i: nat): seq<Book> {
    books[Min(PageSize * i, |books|)..Min(PageSize * i + PageSize, |books|)]
  }

  /** Every rendered page holds one to three books. */
  lemma PageSizes(books: seq<Book>, i: nat)
    requires i < PageCount(|books|)
    ensures 1 <= |Page(books, i)| <= PageSize
  {
  }

  /** The slides the carousel renders, one page each. */
  function Slides(books: seq<Book>): (r: seq<seq<Book>>)
    ensures |r| == PageCount(|books|)
    ensures forall i :: 0 <= i < |r| ==> r[i] == Page(books, i)
  {
    seq(PageCount(|books|), i requires 0 <= i => Page(books, i))
  }

  /** The slides from `i` on hold exactly the books from page `i` on. */
  lemma {:induction false} SlidesFrom(books: seq<Book>, i: nat)
    requires i <= PageCount(|books|)
    ensures Seqs.Concat(Slides(books)[i..]) == books[Min(PageSize * i, |books|)..]
    decreases PageCount(|books|) - i
  {
    var slides := Slides(books);
    if i == PageCount(|books|) {
      assert slides[i..] == [];
    } else {
      SlidesFrom(books, i + 1);
      assert slides[i..][1..] == slides[i + 1..];
      assert books[PageSize * i..] == Page(books, i) + books[Min(PageSize * (i + 1), |books|)..];
    }
  }

  /** Reading the slides in order gives back the filtered list: no book is lost, repeated or moved. */
  lemma SlidesConcat(books: seq<Book>)
    ensures Seqs.Concat(Slides(books)) == books
  {
    SlidesFrom(books, 0);
    assert Slides(books)[0..] == Slides(books);
  }

  /** `nextSlide`: one slide on, wrapping from the last to the first. */
  function NextSlide(s: nat, k: nat): (r: nat)
    requires k > 0
    ensures r < k
    ensures s < k - 1 ==> r == s + 1
    ensures s == k - 1 ==> r == 0
  {
    (s + 1) % k
  }

  /** `prevSlide`: one slide back, wrapping from the first to the last. */
  function PrevSlide(s: nat, k: nat): (r: nat)
    requires k > 0
    ensures r < k
    ensures 0 < s < k ==> r == s - 1
    ensures s == 0 ==> r == k - 1
  {
    (s - 1 + k) % k
  }

  /** The two arrows undo each other on every slide. */
  lemma ArrowsInverse(s: nat, k: nat)
    requires s < k
    ensures PrevSlide(NextSlide(s, k), k) == s
    ensures NextSlide(PrevSlide(s, k), k) == s
  {
  }

  /** Arrows and indicators are shown only when there is more than one slide. */
  predicate ShowsControls(k: nat) {
    k > 1
  }

  /** On the six-book catalogue, "all" gives two slides with controls and each category one slide without. */
  lemma CatalogueSlides(books: seq<Book>)
    requires |books| == |CatalogueCategories|
    requires forall k :: 0 <= k < |books| ==> books[k].category == CatalogueCategories[k]
    requires forall i, j :: 0 <= i < j < |books| ==> books[i].id != books[j].id
    ensures PageCount(|FilteredBooks(books, All)|) == 2 && ShowsControls(2)
    ensures PageCount(|FilteredBooks(books, Only(OldWorld))|) == 1
    ensures PageCount(|FilteredBooks(books, Only(NewWorld))|) == 1
  {
    CategoriesPartition(books);
    var old_ := FilteredBooks(books, Only(OldWorld));
    var new_ := FilteredBooks(books, Only(NewWorld));
    assert books[0] in old_ && books[2] in old_ && books[4] in old_;
    assert books[1] in new_ && books[3] in new_ && books[5] in new_;
    CountAtLeastThree(old_, books[0], books[2], books[4]);
    CountAtLeastThree(new_, books[1], books[3], books[5]);
  }

  /** A list holding three different books has at least three elements. */
  lemma CountAtLeastThree(s: seq<Book>, a: Book, b: Book, c: Book)
    requires a in s && b in s && c in s && a != b && b != c && a != c
    ensures |s| >= 3
  {
    var i :| 0 <= i < |s| && s[i] == a;
    var j :| 0 <= j < |s| && s[j] == b;
    var l :| 0 <= l < |s| && s[l] == c;
    assert i != j && j != l && i != l;
  }

  class FeaturedBooks {
    const books: seq<Book>
    var activeCategory: CategoryFilter
    var currentSlide: nat

    /** The slides for the active filter. */
    function SlideCount(): nat
      reads this
    {
      PageCount(|FilteredBooks(books, activeCategory)|)
    }

    /** The slide index names a rendered slide, or is 0 when the filter leaves no book. */
    predicate Valid()
      reads this
    {
      currentSlide < SlideCount() || (SlideCount() == 0 && currentSlide == 0)
    }

    /** The component starts on the first slide of "all". */
    constructor(catalogue: seq<Book>)
      ensures Valid() && books == catalogue && activeCategory == All && currentSlide == 0
    {
      books := catalogue;
      activeCategory := All;
      currentSlide := 0;
    }

    /** The right arrow. */
    method Next()
      requires Valid() && SlideCount() > 0
      modifies this
      ensures activeCategory == old(activeCategory)
      ensures Valid() && currentSlide == NextSlide(old(currentSlide), SlideCount())
    {
      currentSlide := NextSlide(currentSlide, SlideCount());
    }

    /** The left arrow. */
    method Prev()
      requires Valid() && SlideCount() > 0
      modifies this
      ensures activeCategory == old(activeCategory)
      ensures Valid() && currentSlide == PrevSlide(old(currentSlide), SlideCount())
    {
      currentSlide := PrevSlide(currentSlide, SlideCount());
    }

    /** An indicator click: the indicators carry the slide indices. */
    method SelectSlide(index: nat)
      requires Valid() && index < SlideCount()
      modifies this
      ensures Valid() && currentSlide == index && activeCategory == old(activeCategory)
    {
      currentSlide := index;
    }

    /** A filter button: the new filter, and back to the first slide. */
    method SelectFilter(f: CategoryFilter)
      requires Valid()
      modifies this
      ensures Valid() && activeCategory == f && currentSlide == 0
    {
      activeCategory := f;
      currentSlide := 0;
    }
  }
}
