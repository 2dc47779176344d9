/** The journal bundle offer condition (`JournalBundleCondition` in
    ecommerce/journal/conditions.py): whether a basket covers a bundle, and
    which basket lines the discount may consume, most expensive first.

    Fetching the bundle from the catalogue service is not visible here: its
    outcome (a bundle, a falsy answer, or the exception it raised) is a
    parameter. */
module JournalCondition {
  import opened Wrappers
  import opened JournalBundles

  datatype StockRecord = StockRecord(partnerSku: Sku)

  /** The part of a basket line the condition reads; `unitPrice` is the
      price the offer machinery reports for the line (absent when it has
      none). */
  datatype BasketLine = BasketLine(stockRecord: Option<StockRecord>, productDiscountable: bool, unitPrice: Option<int>)

  /** The exceptions the bundle fetch can raise. Connection errors are not
      among those `is_satisfied` catches. */
  datatype FetchError = HttpNotFound | SlumberError | Timeout | ConnectionError

  /** What the bundle fetch did: answered (None standing for a falsy answer)
      or raised. */
  datatype Fetch = Fetched(bundle: Option<Bundle>) | Raised(error: FetchError)

  /** The bundle a fetch answered with; nothing when it raised. */
  function FetchedBundle(fetch: Fetch): Option<Bundle>
  {
    if fetch.Fetched? then fetch.bundle else None
  }

  /** A line kept for the discount, with its unit price. */
  datatype PricedLine = PricedLine(price: int, line: BasketLine)

  /** The partner SKUs of the basket's lines. */
  function BasketSkus(lines: seq<BasketLine>): set<Sku>
  {
    set l | l in lines && l.stockRecord.Some? :: l.stockRecord.value.partnerSku
  }

  /** `is_satisfied` on the basket's SKUs and the fetch outcome: its result
      (or the exception it lets through) and the working set it leaves. */
  function SatisfiedSpec(skus: set<Sku>, fetch: Fetch): (r: (Result<bool, FetchError>, set<Sku>))
    ensures r.1 <= skus
    ensures r.0.Err? <==> fetch == Raised(ConnectionError)
    ensures r.0 == Ok(true) ==> fetch.Fetched? && fetch.bundle.Some?
  {
    match fetch
    case Raised(e) => if e == ConnectionError then (Err(e), skus) else (Ok(false), skus)
    case Fetched(None) => (Ok(false), skus)
    case Fetched(Some(b)) =>
      ConsumeCoursesShrinks(skus, b.courses, b.applicableSeatTypes);
      var (met, left) := ConsumeCourses(skus, b.courses, b.applicableSeatTypes);
      if !met then (Ok(false), left) else (Ok(JournalsPresent(left, b.journals)), left)
  }

  /** A basket satisfies a fetched bundle exactly when every course meets
      the SKUs earlier courses did not claim and every journal's SKU is left
      over after all courses took theirs: the journals are checked against
      the course-reduced set, not the whole basket. */
  lemma SatisfiedIff(skus: set<Sku>, b: Bundle)
    ensures SatisfiedSpec(skus, Fetched(Some(b))).0 == Ok(true) <==>
      && (forall i :: 0 <= i < |b.courses| ==>
            LeftFor(skus, b.courses, b.applicableSeatTypes, i) * CourseSkus(b.courses[i], b.applicableSeatTypes) != {})
      && (forall j :: j in b.journals ==> j.sku in skus - CoursesSkus(b.courses, b.applicableSeatTypes))
  {
    ConsumeCoursesSucceedsIff(skus, b.courses, b.applicableSeatTypes);
  }

  /** A failed or falsy fetch never satisfies the condition; only a
      connection error escapes. */
  lemma SatisfiedNeedsBundle(skus: set<Sku>, fetch: Fetch)
    requires !(fetch.Fetched? && fetch.bundle.Some?)
    ensures SatisfiedSpec(skus, fetch).0 == (if fetch == Raised(ConnectionError) then Err(ConnectionError) else Ok(false))
  {
  }

  /** A journal whose SKU is missing from the basket, or is also an eligible
      seat of one of the courses, defeats the condition. */
  lemma SatisfiedNeedsEveryJournal(skus: set<Sku>, b: Bundle, j: Journal)
    requires j in b.journals
    requires j.sku !in skus || j.sku in CoursesSkus(b.courses, b.applicableSeatTypes)
    ensures SatisfiedSpec(skus, Fetched(Some(b))).0 != Ok(true)
  {
    SatisfiedIff(skus, b);
  }

  /** The lines kept by `get_applicable_lines` before sorting, in basket order. */
  function ApplicableTuples(lines: seq<BasketLine>, bundle: Option<Bundle>): seq<PricedLine>
  {
    if lines == [] then []
    else
      var l := lines[|lines| - 1];
      ApplicableTuples(lines[..|lines| - 1], bundle)
      + if Applicable(l, bundle) && l.unitPrice.Some? && l.unitPrice.value != 0
        then [PricedLine(l.unitPrice.value, l)] else []
  }

  /** `can_apply_condition`, with the bundle its SKU lookup would fetch. */
  function Applicable(line: BasketLine, bundle: Option<Bundle>): bool
  {
    line.stockRecord.Some? && line.stockRecord.value.partnerSku in ApplicableSkus(bundle) && line.productDiscountable
  }

  lemma {:induction false} ApplicableTuplesMembers(lines: seq<BasketLine>, bundle: Option<Bundle>)
    ensures forall t :: t in ApplicableTuples(lines, bundle) <==>
      t.line in lines && Applicable(t.line, bundle) && t.line.unitPrice == Some(t.price) && t.price != 0
  {
    if lines != [] {
      ApplicableTuplesMembers(lines[..|lines| - 1], bundle);
      assert lines == lines[..|lines| - 1] + [lines[|lines| - 1]];
    }
  }

  /** `a` may come before `b` in the sorted result. */
  predicate InOrder(a: PricedLine, b: PricedLine, mostExpensiveFirst: bool)
  {
    if mostExpensiveFirst then a.price >= b.price else a.price <= b.price
  }

  predicate SortedByPrice(s: seq<PricedLine>, mostExpensiveFirst: bool)
  {
    forall i, j :: 0 <= i < j < |s| ==> InOrder(s[i], s[j], mostExpensiveFirst)
  }

  function Insert(x: PricedLine, s: seq<PricedLine>, mostExpensiveFirst: bool): seq<PricedLine>
  {
    if s == [] then [x]
    else if InOrder(x, s[0], mostExpensiveFirst) then [x] + s
    else [s[0]] + Insert(x, s[1..], mostExpensiveFirst)
  }

  /** `sorted(line_tuples, reverse=most_expensive_first, key=price)`. */
  function SortByPrice(s: seq<PricedLine>, mostExpensiveFirst: bool): seq<PricedLine>
  {
    if s == [] then [] else Insert(s[0], SortByPrice(s[1..], mostExpensiveFirst), mostExpensiveFirst)
  }

  /** Every element of a permutation of `s[1..]` plus `x` may follow `s[0]`
      in a sorted `s`, given that `x` may. */
  lemma HeadPrecedesRest(x: PricedLine, s: seq<PricedLine>, rest: seq<PricedLine>, mostExpensiveFirst: bool)
    requires s != [] && SortedByPrice(s, mostExpensiveFirst)
    requires InOrder(s[0], x, mostExpensiveFirst)
    requires multiset(rest) == multiset(s[1..]) + multiset{x}
    ensures forall k :: 0 <= k < |rest| ==> InOrder(s[0], rest[k], mostExpensiveFirst)
  {
    forall k | 0 <= k < |rest|
      ensures InOrder(s[0], rest[k], mostExpensiveFirst)
    {
      assert rest[k] in multiset(rest);
      if rest[k] != x {
        assert rest[k] in multiset(s[1..]);
        var m :| 0 <= m < |s[1..]| && s[1..][m] == rest[k];
        assert s[m + 1] == rest[k];
      }
    }
  }

  lemma {:induction false} InsertSorted(x: PricedLine, s: seq<PricedLine>, mostExpensiveFirst: bool)
    requires SortedByPrice(s, mostExpensiveFirst)
    ensures SortedByPrice(Insert(x, s, mostExpensiveFirst), mostExpensiveFirst)
    ensures multiset(Insert(x, s, mostExpensiveFirst)) == multiset(s) + multiset{x}
  {
    if s != [] && !InOrder(x, s[0], mostExpensiveFirst) {
      InsertSorted(x, s[1..], mostExpensiveFirst);
      var rest := Insert(x, s[1..], mostExpensiveFirst);
      assert s == [s[0]] + s[1..];
      HeadPrecedesRest(x, s, rest, mostExpensiveFirst);
      ConsSorted(s[0], rest, mostExpensiveFirst);
    }
  }

  lemma ConsSorted(h: PricedLine, rest: seq<PricedLine>, mostExpensiveFirst: bool)
    requires SortedByPrice(rest, mostExpensiveFirst)
    requires forall k :: 0 <= k < |rest| ==> InOrder(h, rest[k], mostExpensiveFirst)
    ensures SortedByPrice([h] + rest, mostExpensiveFirst)
  {
    var s := [h] + rest;
    forall i, j | 0 <= i < j < |s|
      ensures InOrder(s[i], s[j], mostExpensiveFirst)
    {
      assert s[j] == rest[j - 1];
      if i > 0 {
        assert s[i] == rest[i - 1];
      }
    }
  }

  /** The sorted lines are ordered by price (descending when the most
      expensive come first) and are a permutation of the input. */
  lemma {:induction false} SortByPriceCorrect(s: seq<PricedLine>, mostExpensiveFirst: bool)
    ensures SortedByPrice(SortByPrice(s, mostExpensiveFirst), mostExpensiveFirst)
    ensures multiset(SortByPrice(s, mostExpensiveFirst)) == multiset(s)
  {
    if s != [] {
      SortByPriceCorrect(s[1..], mostExpensiveFirst);
      InsertSorted(s[0], SortByPrice(s[1..], mostExpensiveFirst), mostExpensiveFirst);
      assert s == [s[0]] + s[1..];
    }
  }

  /** Lines priced 10, 30 and 20 come out as 30, 20, 10 by default. */
  lemma MostExpensiveFirstExample(a: BasketLine, b: BasketLine, c: BasketLine)
    ensures SortByPrice([PricedLine(10, a), PricedLine(30, b), PricedLine(20, c)], true)
         == [PricedLine(30, b), PricedLine(20, c), PricedLine(10, a)]
  {
    var s := [PricedLine(10, a), PricedLine(30, b), PricedLine(20, c)];
    assert s[1..][1..][1..] == [];
    assert SortByPrice(s[1..][1..], true) == [PricedLine(20, c)];
    assert SortByPrice(s[1..], true) == [PricedLine(30, b), PricedLine(20, c)];
    assert Insert(PricedLine(10, a), [PricedLine(20, c)], true) == [PricedLine(20, c), PricedLine(10, a)];
  }

  class JournalBundleCondition {
    /** The working set of basket SKUs that the checks consume. */
    var basketSkus: set<Sku>
    var journalBundle: Option<Bundle>

    constructor ()
      ensures basketSkus == {} && journalBundle == None
    {
      basketSkus := {};
      journalBundle := None;
    }

    /** `basket_contains_all_required_courses`. */
    method BasketContainsAllRequiredCourses() returns (r: bool)
      requires journalBundle.Some?
      modifies this`basketSkus
      ensures (r, basketSkus) == ConsumeCourses(old(basketSkus), journalBundle.value.courses,
                                                journalBundle.value.applicableSeatTypes)
    {
      var types := journalBundle.value.applicableSeatTypes;
      var courses := journalBundle.value.courses;
      for i := 0 to |courses|
        invariant ConsumeCourses(old(basketSkus), courses, types) == ConsumeCourses(basketSkus, courses[i..], types)
      {
        assert courses[i..][0] == courses[i] && courses[i..][1..] == courses[i + 1..];
        if basketSkus == {} {
          return false;
        }
        var skus := {};
        var runs := courses[i].courseRuns;
        ghost var working := basketSkus;
        for j := 0 to |runs|
          invariant skus == RunsSkus(runs[..j], types)
          invariant basketSkus == working
        {
          RunsSkusSnoc(runs, types, j);
          skus := skus + SeatSkus(runs[j].seats, types);
        }
        assert runs[..|runs|] == runs;
        assert skus == CourseSkus(courses[i], types);
        var diff := basketSkus - skus;
        assert ConsumeCourses(basketSkus, courses[i..], types)
            == if diff == basketSkus then (false, basketSkus) else ConsumeCourses(diff, courses[i + 1..], types);
        if diff == basketSkus {
          return false;
        }
        basketSkus := diff;
      }
      return true;
    }

    /** `basket_contains_all_journals`: every journal's SKU is in the current
        working set. */
    predicate BasketContainsAllJournals()
      requires journalBundle.Some?
      reads this
      ensures BasketContainsAllJournals() <==> forall j :: j in journalBundle.value.journals ==> j.sku in basketSkus
    {
      JournalsPresent(basketSkus, journalBundle.value.journals)
    }

    /** `is_satisfied`: the working set starts as the basket's SKUs; a failed
        or falsy fetch means false; otherwise the courses check and then the
        journals check on what the courses left. */
    method IsSatisfied(lines: seq<BasketLine>, fetch: Fetch) returns (r: Result<bool, FetchError>)
      requires forall l :: l in lines ==> l.stockRecord.Some?
      modifies this
      ensures (r, basketSkus) == SatisfiedSpec(BasketSkus(lines), fetch)
      ensures journalBundle == if fetch.Fetched? then fetch.bundle else old(journalBundle)
    {
      basketSkus := BasketSkus(lines);
      match fetch
      case Raised(e) =>
        if e == ConnectionError {
          return Err(e);
        }
        return Ok(false);
      case Fetched(b) =>
        journalBundle := b;
        if b.None? {
          return Ok(false);
        }
        var coursesMet := BasketContainsAllRequiredCourses();
        if !coursesMet {
          return Ok(false);
        }
        return Ok(BasketContainsAllJournals());
    }

    /** `get_applicable_skus`: the SKUs the fetched bundle offers, none for
        a falsy answer. Nothing catches an exception from the fetch. */
    method GetApplicableSkus(fetch: Fetch) returns (r: Result<set<Sku>, FetchError>)
      ensures fetch.Raised? ==> r == Err(fetch.error)
      ensures fetch.Fetched? ==> r == Ok(ApplicableSkus(fetch.bundle))
      ensures r.Ok? ==> forall sku :: sku in r.value <==> fetch.bundle.Some? && Offers(fetch.bundle.value, sku)
    {
      if fetch.Raised? {
        return Err(fetch.error);
      }
      var skus := {};
      if fetch.bundle.Some? {
        skus := BundleSkus(fetch.bundle.value);
      }
      forall sku {
        ApplicableSkusMembers(fetch.bundle, sku);
      }
      r := Ok(skus);
    }

    /** The loops of `get_applicable_skus` over a fetched bundle: seats of an
        applicable type in every course run, then every journal. */
    method BundleSkus(bundle: Bundle) returns (skus: set<Sku>)
      ensures skus == ApplicableSkus(Some(bundle))
    {
      var types := bundle.applicableSeatTypes;
      var courses := bundle.courses;
      var journals := bundle.journals;
      skus := {};
      for i := 0 to |courses|
        invariant skus == CoursesSkus(courses[..i], types)
      {
        var runs := courses[i].courseRuns;
        ghost var before := skus;
        for j := 0 to |runs|
          invariant skus == before + RunsSkus(runs[..j], types)
        {
          RunsSkusSnoc(runs, types, j);
          skus := skus + SeatSkus(runs[j].seats, types);
        }
        assert runs[..|runs|] == runs;
        CoursesSkusSnoc(courses, types, i);
      }
      assert courses[..|courses|] == courses;
      for i := 0 to |journals|
        invariant skus == CoursesSkus(courses, types) + JournalSkus(journals[..i])
      {
        JournalSkusSnoc(journals, i);
        skus := skus + {journals[i].sku};
      }
      assert journals[..|journals|] == journals;
    }

    /** `can_apply_condition`: false for a line without a stock record;
        otherwise the bundle is fetched (an exception escapes), and the line
        qualifies when the bundle offers its SKU and its product is
        discountable. */
    function CanApplyCondition(line: BasketLine, fetch: Fetch): (r: Result<bool, FetchError>)
      ensures line.stockRecord.None? ==> r == Ok(false)
      ensures line.stockRecord.Some? && fetch.Raised? ==> r == Err(fetch.error)
      ensures fetch.Fetched? ==>
        && r.Ok?
        && (r.value <==> && line.stockRecord.Some? && line.productDiscountable
                         && fetch.bundle.Some? && Offers(fetch.bundle.value, line.stockRecord.value.partnerSku))
      ensures r.Ok? ==> r.value == Applicable(line, FetchedBundle(fetch))
    {
      if line.stockRecord.None? then Ok(false)
      else if fetch.Raised? then Err(fetch.error)
      else
        ApplicableSkusMembers(fetch.bundle, line.stockRecord.value.partnerSku);
        Ok(Applicable(line, fetch.bundle))
    }

    /** `get_applicable_lines`: the applicable lines with a non-zero unit
        price, paired with that price and sorted by it. The fetch's exception
        escapes at the first line with a stock record. */
    method GetApplicableLines(lines: seq<BasketLine>, fetch: Fetch, mostExpensiveFirst: bool)
      returns (r: Result<seq<PricedLine>, FetchError>)
      ensures r.Err? <==> fetch.Raised? && exists l :: l in lines && l.stockRecord.Some?
      ensures r.Err? ==> r.error == fetch.error
      ensures r.Ok? ==>
        && r.value == SortByPrice(ApplicableTuples(lines, FetchedBundle(fetch)), mostExpensiveFirst)
        && SortedByPrice(r.value, mostExpensiveFirst)
        && multiset(r.value) == multiset(ApplicableTuples(lines, FetchedBundle(fetch)))
        && forall t :: t in r.value <==>
             t.line in lines && CanApplyCondition(t.line, fetch) == Ok(true)
             && t.line.unitPrice == Some(t.price) && t.price != 0
    {
      var bundle := FetchedBundle(fetch);
      var lineTuples := [];
      for i := 0 to |lines|
        invariant lineTuples == ApplicableTuples(lines[..i], bundle)
        invariant fetch.Raised? ==> forall k :: 0 <= k < i ==> lines[k].stockRecord.None?
      {
        assert lines[..i + 1][..i] == lines[..i];
        var applies := CanApplyCondition(lines[i], fetch);
        if applies.Err? {
          return Err(applies.error);
        }
        if !applies.value {
          continue;
        }
        var price := lines[i].unitPrice;
        if price.None? || price.value == 0 {
          continue;
        }
        lineTuples := lineTuples + [PricedLine(price.value, lines[i])];
      }
      assert lines[..|lines|] == lines;
      var sorted := SortByPrice(lineTuples, mostExpensiveFirst);
      SortByPriceCorrect(lineTuples, mostExpensiveFirst);
      ApplicableTuplesMembers(lines, bundle);
      forall t | t in sorted
        ensures t in lineTuples
      {
        assert t in multiset(sorted);
      }
      forall t | t in lineTuples
        ensures t in sorted
      {
        assert t in multiset(lineTuples);
      }
      r := Ok(sorted);
    }
  }
}
