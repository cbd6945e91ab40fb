/**
 * What the three rating screens compute from a selected company: the star
 * count of the overall rating, the category ratings in descending order, and
 * the weighted "Stanley Rating".
 */
module Ratings {
  import opened Company

  /** The API's ratings lie on the 0.0 to 5.0 scale. */
  predicate OnScale(x: real)
  {
    0.0 <= x <= 5.0
  }

  /** All five ratings of a record lie on the scale. */
  predicate Rated(c: CompanyDetails)
  {
    && OnScale(c.overallRating)
    && OnScale(c.seniorLeadershipRating)
    && OnScale(c.compensationAndBenefitsRating)
    && OnScale(c.careerOpportunitiesRating)
    && OnScale(c.workLifeBalanceRating)
  }

  // ---------------------------------------------------------------- stars

  /** `Int(rating)`: the whole part of the rating, cutting toward zero. */
  function StarCount(rating: real): (n: int)
    ensures 0.0 <= rating ==> 0 <= n && n as real <= rating < n as real + 1.0
    ensures rating < 0.0 ==> n <= 0 && n as real - 1.0 < rating <= n as real
  {
    if rating >= 0.0 then rating.Floor else -((-rating).Floor)
  }

  /** A rating on the scale gives between zero and five stars. */
  lemma StarCountOnScale(rating: real)
    requires OnScale(rating)
    ensures 0 <= StarCount(rating) <= 5
  {
  }

  /** The count truncates rather than rounds: 3.4 and 3.9 both give three stars. */
  lemma StarCountTruncates()
    ensures StarCount(3.4) == 3
    ensures StarCount(3.9) == 3
    ensures StarCount(5.0) == 5
  {
  }

  /** The character that stands for one star glyph. */
  const Star: char := '*'

  /** The row of stars a count stands for. */
  function StarLine(count: nat): (line: string)
    ensures |line| == count
    ensures forall i :: 0 <= i < count ==> line[i] == Star
  {
    seq(count, _ => Star)
  }

  /** The loop `for _ in 0..<count` that prints one star per iteration. */
  method DrawStars(count: nat) returns (line: string)
    ensures line == StarLine(count)
  {
    line := [];
    var k := 0;
    while k < count
      invariant k <= count
      invariant line == StarLine(k)
    {
      line := line + [Star];
      k := k + 1;
    }
  }

  // --------------------------------------------------------- rating detail

  /** One line of the rating-detail screen: a category and its rating. */
  datatype Rating = Rating(category: string, value: real)

  /** The four categories in the order the dictionary receives them. */
  function Categories(c: CompanyDetails): (rows: seq<Rating>)
    ensures |rows| == 4
    ensures forall i, j :: 0 <= i < j < |rows| ==> rows[i].category != rows[j].category
  {
    [ Rating("Senior Leadership", c.seniorLeadershipRating),
      Rating("Compensation Benefit", c.compensationAndBenefitsRating),
      Rating("Career Opportunities", c.careerOpportunitiesRating),
      Rating("Work-Life Balance", c.workLifeBalanceRating) ]
  }

  /** Each row's rating is at least that of every row after it. */
  predicate Descending(rows: seq<Rating>)
  {
    forall i, j :: 0 <= i < j < |rows| ==> rows[i].value >= rows[j].value
  }

  /** Puts `x` into a list, ahead of the first row that does not rate above it. */
  function Insert(x: Rating, rows: seq<Rating>): seq<Rating>
  {
    if rows == [] || rows[0].value <= x.value then [x] + rows
    else [rows[0]] + Insert(x, rows[1..])
  }

  /** Inserting into a descending list keeps it descending and adds exactly `x`. */
  lemma {:induction false} InsertKeepsOrder(x: Rating, rows: seq<Rating>)
    requires Descending(rows)
    ensures Descending(Insert(x, rows))
    ensures multiset(Insert(x, rows)) == multiset(rows) + multiset{x}
  {
    if rows == [] || rows[0].value <= x.value {
      ConsDescending(x, rows);
    } else {
      assert rows == [rows[0]] + rows[1..];
      InsertKeepsOrder(x, rows[1..]);
      InsertBounded(x, rows[1..], rows[0].value);
      ConsDescending(rows[0], Insert(x, rows[1..]));
    }
  }

  /** Inserting a row no higher than a bound into rows no higher than it gives rows no higher than it. */
  lemma {:induction false} InsertBounded(x: Rating, rows: seq<Rating>, bound: real)
    requires x.value <= bound
    requires forall j :: 0 <= j < |rows| ==> rows[j].value <= bound
    ensures forall j :: 0 <= j < |Insert(x, rows)| ==> Insert(x, rows)[j].value <= bound
  {
    if rows != [] && rows[0].value > x.value {
      InsertBounded(x, rows[1..], bound);
      var t := Insert(x, rows[1..]);
      assert Insert(x, rows) == [rows[0]] + t;
      forall j | 0 <= j < |t| + 1
        ensures ([rows[0]] + t)[j].value <= bound
      {
        if j > 0 {
          assert ([rows[0]] + t)[j] == t[j - 1];
        }
      }
    }
  }

  /** A row rated at least as high as the head of a descending list can go in front of it. */
  lemma ConsDescending(y: Rating, rows: seq<Rating>)
    requires Descending(rows)
    requires rows == [] || rows[0].value <= y.value
    ensures Descending([y] + rows)
  {
  }

  /**
   * `sorted(by: { $0.value > $1.value })`: the rows, highest rating first.
   * Rows with equal ratings keep the order they are given in; the dictionary
   * of the source hands them over in an unspecified order, so only
   * `SortDescendingRanks` is promised of the result.
   */
  function SortDescending(rows: seq<Rating>): seq<Rating>
  {
    if rows == [] then [] else Insert(rows[0], SortDescending(rows[1..]))
  }

  /** The sort yields a descending arrangement of exactly the rows it was given. */
  lemma {:induction false} SortDescendingRanks(rows: seq<Rating>)
    ensures Descending(SortDescending(rows))
    ensures multiset(SortDescending(rows)) == multiset(rows)
  {
    if rows != [] {
      assert rows == [rows[0]] + rows[1..];
      SortDescendingRanks(rows[1..]);
      InsertKeepsOrder(rows[0], SortDescending(rows[1..]));
    }
  }

  /** The rating-detail screen for a record: its four categories, highest first. */
  function RankedCategories(c: CompanyDetails): seq<Rating>
  {
    SortDescending(Categories(c))
  }

  /**
   * The rating-detail screen shows each of the four categories exactly once,
   * highest rating first.
   */
  lemma RankedCategoriesRanks(c: CompanyDetails)
    ensures Descending(RankedCategories(c))
    ensures multiset(RankedCategories(c)) == multiset(Categories(c))
    ensures |RankedCategories(c)| == 4
  {
    SortDescendingRanks(Categories(c));
    assert |RankedCategories(c)| == |multiset(RankedCategories(c))|;
  }

  /** Removing one row keeps a list descending and takes that row out of its multiset. */
  lemma RemoveRow(b: seq<Rating>, k: nat)
    requires k < |b| && Descending(b)
    ensures Descending(b[..k] + b[k + 1..])
    ensures multiset(b[..k] + b[k + 1..]) == multiset(b) - multiset{b[k]}
  {
    var b' := b[..k] + b[k + 1..];
    assert b == b[..k] + [b[k]] + b[k + 1..];
    forall i, l | 0 <= i < l < |b'|
      ensures b'[i].value >= b'[l].value
    {
      var i0 := if i < k then i else i + 1;
      var l0 := if l < k then l else l + 1;
      assert b'[i] == b[i0] && b'[l] == b[l0];
    }
  }

  /** In two descending arrangements of the same rows the first rows rate the same. */
  lemma SameTop(a: seq<Rating>, b: seq<Rating>, k: nat)
    requires Descending(a) && Descending(b)
    requires multiset(a) == multiset(b)
    requires k < |b| && a != [] && b[k] == a[0]
    ensures forall i :: 0 <= i <= k ==> b[i].value == a[0].value
  {
    assert b[0] in multiset(a);
    var j :| 0 <= j < |a| && a[j] == b[0];
  }

  /**
   * The order is fixed up to ties: any two descending arrangements of the same
   * rows show the same column of ratings, so only rows with equal ratings can
   * change places.
   */
  lemma {:induction false} DescendingArrangementsAgree(a: seq<Rating>, b: seq<Rating>)
    requires Descending(a) && Descending(b)
    requires multiset(a) == multiset(b)
    ensures |a| == |b|
    ensures forall i :: 0 <= i < |a| ==> a[i].value == b[i].value
    decreases |a|
  {
    if a == [] {
      assert |b| == |multiset(b)| == 0;
    } else {
      assert a == [a[0]] + a[1..];
      assert a[0] in multiset(b);
      var k :| 0 <= k < |b| && b[k] == a[0];
      SameTop(a, b, k);
      RemoveRow(b, k);
      var b' := b[..k] + b[k + 1..];
      DescendingArrangementsAgree(a[1..], b');
      assert |a| == |b| by {
        assert |a| == |multiset(a)| && |b| == |multiset(b)|;
      }
      RowsAgreeAfterRemoval(a, b, k);
    }
  }

  /**
   * The step of the proof above: when the rows after the first of `a` rate
   * like `b` without its row `k`, and the rows of `b` up to `k` rate like the
   * first of `a`, then `a` and `b` rate alike row by row.
   */
  lemma RowsAgreeAfterRemoval(a: seq<Rating>, b: seq<Rating>, k: nat)
    requires |a| == |b| && k < |b|
    requires forall i :: 0 <= i <= k ==> b[i].value == a[0].value
    requires var b' := b[..k] + b[k + 1..];
             forall i :: 0 <= i < |a| - 1 ==> a[1..][i].value == b'[i].value
    ensures forall i :: 0 <= i < |a| ==> a[i].value == b[i].value
  {
    var b' := b[..k] + b[k + 1..];
    forall i | 0 < i < |a|
      ensures a[i].value == b[i].value
    {
      assert a[i] == a[1..][i - 1];
      if i <= k {
        assert b'[i - 1] == b[i - 1];
      } else {
        assert b'[i - 1] == b[i];
      }
    }
  }

  /**
   * The ratings from the program's own test record come out highest first:
   * leadership, career, compensation, work-life balance.
   */
  lemma RankedCategoriesExample(c: CompanyDetails)
    requires c.seniorLeadershipRating == 3.3 && c.compensationAndBenefitsRating == 2.1
    requires c.careerOpportunitiesRating == 3.2 && c.workLifeBalanceRating == 1.9
    ensures RankedCategories(c) == [ Rating("Senior Leadership", 3.3), Rating("Career Opportunities", 3.2),
                                     Rating("Compensation Benefit", 2.1), Rating("Work-Life Balance", 1.9) ]
  {
    var rows := Categories(c);
    assert rows == [rows[0], rows[1], rows[2], rows[3]];
    SortFourExample(rows[0], rows[1], rows[2], rows[3]);
  }

  /** Sorting four rows whose ratings stand in the order first, third, second, fourth. */
  lemma SortFourExample(r0: Rating, r1: Rating, r2: Rating, r3: Rating)
    requires r0.value > r2.value > r1.value > r3.value
    ensures SortDescending([r0, r1, r2, r3]) == [r0, r2, r1, r3]
  {
    assert SortDescending([r3]) == [r3] by {
      SortCons([r3]);
      assert [r3][1..] == [];
      InsertAhead(r3, []);
      assert [r3] + [] == [r3];
    }
    assert SortDescending([r2, r3]) == [r2, r3] by {
      SortCons([r2, r3]);
      assert [r2, r3][1..] == [r3];
      InsertAhead(r2, [r3]);
      assert [r2] + [r3] == [r2, r3];
    }
    assert SortDescending([r1, r2, r3]) == [r2, r1, r3] by {
      SortCons([r1, r2, r3]);
      assert [r1, r2, r3][1..] == [r2, r3];
      InsertExample(r1, r2, r3);
    }
    SortCons([r0, r1, r2, r3]);
    assert [r0, r1, r2, r3][1..] == [r1, r2, r3];
    InsertAhead(r0, [r2, r1, r3]);
    assert [r0] + [r2, r1, r3] == [r0, r2, r1, r3];
  }

  /** One unfolding of the sort. */
  lemma SortCons(rows: seq<Rating>)
    requires rows != []
    ensures SortDescending(rows) == Insert(rows[0], SortDescending(rows[1..]))
  {
  }

  /** A row rated at least as high as the head of a descending list goes in front. */
  lemma InsertAhead(x: Rating, rows: seq<Rating>)
    requires rows == [] || rows[0].value <= x.value
    ensures Insert(x, rows) == [x] + rows
  {
  }

  /** The second row of the example sinks below the third. */
  lemma InsertExample(r1: Rating, r2: Rating, r3: Rating)
    requires r2.value > r1.value > r3.value
    ensures Insert(r1, [r2, r3]) == [r2, r1, r3]
  {
    assert [r2, r3][1..] == [r3];
  }

  // ---------------------------------------------------------- custom score

  /** The four category ratings, each multiplied by its weight. */
  function Weighted(c: CompanyDetails): (ys: seq<real>)
    ensures |ys| == 4
  {
    [ c.seniorLeadershipRating * 1.05,
      c.compensationAndBenefitsRating * 1.2,
      c.careerOpportunitiesRating * 1.25,
      c.workLifeBalanceRating * 1.1 ]
  }

  /** `reduce(acc, { x, y in x + (y * 5) })`. */
  function Reduce(acc: real, ys: seq<real>): real
    decreases ys
  {
    if ys == [] then acc else Reduce(acc + ys[0] * 5.0, ys[1..])
  }

  /** The plain sum of a list of reals. */
  function Sum(ys: seq<real>): real
  {
    if ys == [] then 0.0 else ys[0] + Sum(ys[1..])
  }

  /** The reduce adds five times the sum of its elements to its start value. */
  lemma {:induction false} ReduceIsScaledSum(acc: real, ys: seq<real>)
    ensures Reduce(acc, ys) == acc + 5.0 * Sum(ys)
    decreases ys
  {
    if ys != [] {
      ReduceIsScaledSum(acc + ys[0] * 5.0, ys[1..]);
    }
  }

  /** The "Stanley Rating": the reduce started at zero over the weighted ratings. */
  function StanleyRating(c: CompanyDetails): (score: real)
    ensures score == 5.0 * (1.05 * c.seniorLeadershipRating + 1.2 * c.compensationAndBenefitsRating
                            + 1.25 * c.careerOpportunitiesRating + 1.1 * c.workLifeBalanceRating)
  {
    var ys := Weighted(c);
    ReduceIsScaledSum(0.0, ys);
    assert Sum(ys) == ys[0] + Sum(ys[1..]);
    assert Sum(ys[1..]) == ys[1] + Sum(ys[2..]);
    assert Sum(ys[2..]) == ys[2] + Sum(ys[3..]);
    assert Sum(ys[3..]) == ys[3] + Sum(ys[4..]);
    Reduce(0.0, ys)
  }

  /** The score is not clamped to the "/ 100" it is shown against: it ranges over 0 to 115. */
  lemma StanleyRatingRange(c: CompanyDetails)
    requires Rated(c)
    ensures 0.0 <= StanleyRating(c) <= 115.0
  {
  }

  /** Four perfect category ratings give 115, above the advertised maximum of 100. */
  lemma StanleyRatingExceedsHundred(c: CompanyDetails)
    requires c.seniorLeadershipRating == c.compensationAndBenefitsRating == 5.0
    requires c.careerOpportunitiesRating == c.workLifeBalanceRating == 5.0
    ensures StanleyRating(c) == 115.0
  {
  }

  /** The program's test record scores 60.375. */
  lemma StanleyRatingExample(c: CompanyDetails)
    requires c.seniorLeadershipRating == 3.3 && c.compensationAndBenefitsRating == 2.1
    requires c.careerOpportunitiesRating == 3.2 && c.workLifeBalanceRating == 1.9
    ensures StanleyRating(c) == 60.375
  {
  }
}
