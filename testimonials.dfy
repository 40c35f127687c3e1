/** The home page's testimonial carousel (components/home/testimonials.tsx):
    two testimonials per page, Previous/Next buttons that wrap around, and
    one dot per page. */
module Testimonials {
  import opened Common

  datatype Testimonial = Testimonial(id: nat, name: string, role: string, location: string, image: string, quote: string)

  /** The testimonials the component shows. */
  const All: seq<Testimonial> := [
    Testimonial(1, "Rajesh Kumar", "Electrician", "Dubai, UAE",
      "https://randomuser.me/api/portraits/men/41.jpg",
      "Sunshine helped me secure a well-paying job in Dubai as an electrician. The process was smooth, and their team guided me through every step of the visa and documentation process."),
    Testimonial(2, "Priya Sharma", "Computer Operator", "Doha, Qatar",
      "https://randomuser.me/api/portraits/women/67.jpg",
      "I'm grateful to Sunshine Travel Consultancy for helping me find a great opportunity in Qatar. Their team was professional and kept me updated throughout the process."),
    Testimonial(3, "Mohammed Ali", "Civil Engineer", "Riyadh, Saudi Arabia",
      "https://randomuser.me/api/portraits/men/32.jpg",
      "As a civil engineer, I was looking for opportunities abroad. Sunshine not only found me a great position in Saudi Arabia but also ensured all my paperwork was handled professionally."),
    Testimonial(4, "Ankit Patel", "Pipe Fitter", "Abu Dhabi, UAE",
      "https://randomuser.me/api/portraits/men/22.jpg",
      "The team at Sunshine Travel Consultancy is extremely professional. They helped me get a job in Abu Dhabi with a good salary package. I highly recommend their services.")
  ]

  const ItemsPerPage := 2

  /** `Math.ceil(n / itemsPerPage)`: enough pages for every item, and no
      page more. */
  function PageCount(n: nat): (t: nat)
    ensures n <= t * ItemsPerPage
    ensures t > 0 ==> (t - 1) * ItemsPerPage < n
    ensures n > 0 <==> t > 0
  {
    CeilDiv(n, ItemsPerPage)
  }

  /** The four testimonials make two pages. */
  lemma AllMakeTwoPages()
    ensures |All| == 4 && PageCount(|All|) == 2
  {
  }

  /** JavaScript's `%` for a positive divisor: the remainder takes the sign
      of the dividend. */
  function JsRem(a: int, b: int): (r: int)
    requires b > 0
    ensures a >= 0 ==> 0 <= r < b
    ensures a < 0 ==> -b < r <= 0
    ensures 0 <= a < b ==> r == a
    ensures b <= a < 2 * b ==> r == a - b
  {
    ModSmall(a, b);
    if a >= 0 then a % b else -((-a) % b)
  }

  /** The remainder of a dividend below twice the divisor. */
  lemma ModSmall(a: int, b: int)
    requires b > 0
    ensures 0 <= a < b ==> a % b == a
    ensures b <= a < 2 * b ==> a % b == a - b
  {
  }

  /** `nextPage`: one page on, from the last back to the first. */
  function NextPage(p: int, t: int): (r: int)
    requires t > 0
    ensures 0 <= p < t ==> 0 <= r < t && r == (if p + 1 < t then p + 1 else 0)
  {
    JsRem(p + 1, t)
  }

  /** `prevPage`: one page back, from the first round to the last. */
  function PrevPage(p: int, t: int): (r: int)
    requires t > 0
    ensures 0 <= p < t ==> 0 <= r < t && r == (if p > 0 then p - 1 else t - 1)
  {
    JsRem(p - 1 + t, t)
  }

  /** Each button undoes the other. */
  lemma {:induction false} PrevUndoesNext(p: int, t: int)
    requires 0 <= p < t
    ensures PrevPage(NextPage(p, t), t) == p
    ensures NextPage(PrevPage(p, t), t) == p
  {
  }

  /** `k` presses of Next, as the auto-rotation makes. */
  function Advance(p: int, t: int, k: nat): (r: int)
    requires t > 0
  {
    if k == 0 then p else NextPage(Advance(p, t, k - 1), t)
  }

  /** Within one round, `k` presses of Next move `k` pages on, wrapping
      past the last page. */
  lemma {:induction false} AdvanceWraps(p: int, t: int, k: nat)
    requires 0 <= p < t && k <= t
    ensures Advance(p, t, k) == if p + k < t then p + k else p + k - t
  {
    if k > 0 {
      AdvanceWraps(p, t, k - 1);
    }
  }

  /** The auto-rotation visits every page in turn from the first, and is
      back where it started after one page per page. */
  lemma {:induction false} RotationVisitsEveryPage(p: int, t: int, k: nat)
    requires 0 <= p < t && k < t
    ensures Advance(0, t, k) == k
    ensures Advance(p, t, t) == p
  {
    AdvanceWraps(0, t, k);
    AdvanceWraps(p, t, t);
  }

  /** `visibleTestimonials`. */
  function Visible<T>(items: seq<T>, p: int): (r: seq<T>)
    ensures |r| <= ItemsPerPage
    ensures 0 <= p && p * ItemsPerPage <= |items| ==>
      r == items[p * ItemsPerPage .. if (p + 1) * ItemsPerPage <= |items| then (p + 1) * ItemsPerPage else |items|]
  {
    JsSlice(items, p * ItemsPerPage, (p + 1) * ItemsPerPage)
  }

  /** Item `i` is on page `i / 2`, a page the carousel has. */
  lemma {:induction false} ItemOnItsPage<T>(items: seq<T>, i: nat)
    requires i < |items|
    ensures i / ItemsPerPage < PageCount(|items|)
    ensures items[i] == Visible(items, i / ItemsPerPage)[i % ItemsPerPage]
  {
    var p := i / ItemsPerPage;
    assert p * ItemsPerPage <= i < (p + 1) * ItemsPerPage;
    var r := Visible(items, p);
    assert r[i - p * ItemsPerPage] == items[i];
  }

  /** The first `k` pages, one after the other. */
  function Pages<T>(items: seq<T>, k: nat): seq<T> {
    if k == 0 then [] else Pages(items, k - 1) + Visible(items, k - 1)
  }

  /** The first `k` pages hold the first `2k` items, in order. */
  lemma {:induction false} PagesArePrefix<T>(items: seq<T>, k: nat)
    requires k <= PageCount(|items|)
    ensures Pages(items, k) == items[..if k * ItemsPerPage <= |items| then k * ItemsPerPage else |items|]
  {
    if k > 0 {
      PagesArePrefix(items, k - 1);
      var a := (k - 1) * ItemsPerPage;
      assert a < |items|;
      var b := if k * ItemsPerPage <= |items| then k * ItemsPerPage else |items|;
      assert Visible(items, k - 1) == items[a..b];
      assert items[..a] + items[a..b] == items[..b];
    }
  }

  /** Paging through every page shows every testimonial once, in order. */
  lemma {:induction false} PagesCoverAll<T>(items: seq<T>)
    ensures Pages(items, PageCount(|items|)) == items
  {
    PagesArePrefix(items, PageCount(|items|));
  }

  /** The carousel's state. */
  class Carousel {
    const items: seq<Testimonial>
    const totalPages: nat
    var activePage: int

    /** The active page is one of the pages. */
    ghost predicate Valid()
      reads this
    {
      totalPages == PageCount(|items|) && 0 <= activePage < totalPages
    }

    constructor ()
      ensures Valid() && items == All && activePage == 0
    {
      items := All;
      totalPages := PageCount(|All|);
      activePage := 0;
    }

    /** The testimonials on the active page. */
    method Shown() returns (r: seq<Testimonial>)
      requires Valid()
      ensures r == Visible(items, activePage) && 1 <= |r| <= ItemsPerPage
    {
      r := JsSlice(items, activePage * ItemsPerPage, (activePage + 1) * ItemsPerPage);
    }

    /** The right arrow, and each tick of the auto-rotation. */
    method Next()
      requires Valid()
      modifies this
      ensures Valid() && activePage == NextPage(old(activePage), totalPages)
    {
      activePage := NextPage(activePage, totalPages);
    }

    /** The left arrow. */
    method Prev()
      requires Valid()
      modifies this
      ensures Valid() && activePage == PrevPage(old(activePage), totalPages)
    {
      activePage := PrevPage(activePage, totalPages);
    }

    /** A dot; there is one for each page. */
    method GoTo(i: int)
      requires Valid() && 0 <= i < totalPages
      modifies this
      ensures Valid() && activePage == i
    {
      activePage := i;
    }
  }
}
