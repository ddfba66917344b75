/** `generate_layout_options` of the dynamic-layout script: up to three candidate
    layouts for four images (large on top, large on the left, classic 2x2 grid),
    each kept only if its bounding box fits the available area, scored, and sorted
    by score, highest first. */
module LayoutOptions {
  import opened Geometry

  datatype LayoutName = LargeTop | LargeLeft | ClassicGrid

  /** One entry of the option list; the source's 'type' ('grid') and 'large_pos'
      ('top', 'left', 'any') are fixed by the name. */
  datatype LayoutOption = LayoutOption(name: LayoutName, score: int)

  /** Declaration order of the candidates. */
  function Rank(n: LayoutName): nat
  {
    match n
    case LargeTop => 0
    case LargeLeft => 1
    case ClassicGrid => 2
  }

  /** (total_width, total_height) of "Large top with 3 small below". */
  function LargeTopBox(images: seq<Size>, li: nat, pad: nat): (int, int)
    requires |images| == 4 && li < 4
  {
    var smalls := Smalls(images, li);
    (Max(images[li].width, SumAlong(smalls, Horizontal) + 2 * pad),
     images[li].height + MaxAlong(smalls, Vertical) + 3 * pad)
  }

  /** (total_width, total_height) of "Large left with 3 small right". */
  function LargeLeftBox(images: seq<Size>, li: nat, pad: nat): (int, int)
    requires |images| == 4 && li < 4
  {
    var smalls := Smalls(images, li);
    (images[li].width + MaxAlong(smalls, Horizontal) + 3 * pad,
     Max(images[li].height, SumAlong(smalls, Vertical) + 2 * pad))
  }

  predicate BoxFits(box: (int, int), availWidth: int, availHeight: int)
  {
    box.0 <= availWidth && box.1 <= availHeight
  }

  /** `available_width * available_height - total_width * total_height`. */
  function BoxScore(box: (int, int), availWidth: int, availHeight: int): int
  {
    availWidth * availHeight - box.0 * box.1
  }

  /** Every image fits a grid cell of `((avail_w - pad) / 2, (avail_h - pad) / 2)`. */
  predicate GridFits(images: seq<Size>, availWidth: int, availHeight: int, pad: nat)
  {
    forall i :: 0 <= i < |images| ==>
      images[i].width as real <= (availWidth - pad) as real / 2.0 &&
      images[i].height as real <= (availHeight - pad) as real / 2.0
  }

  function TopOption(images: seq<Size>, li: nat, availWidth: int, availHeight: int, pad: nat): LayoutOption
    requires |images| == 4 && li < 4
  {
    LayoutOption(LargeTop, BoxScore(LargeTopBox(images, li, pad), availWidth, availHeight))
  }

  function LeftOption(images: seq<Size>, li: nat, availWidth: int, availHeight: int, pad: nat): LayoutOption
    requires |images| == 4 && li < 4
  {
    LayoutOption(LargeLeft, BoxScore(LargeLeftBox(images, li, pad), availWidth, availHeight))
  }

  /** The grid's score, `aw * ah - aw * ah`, is always 0. */
  const GridOption: LayoutOption := LayoutOption(ClassicGrid, 0)

  /** The large-top candidate, if its box fits. */
  function TopPart(images: seq<Size>, li: nat, availWidth: int, availHeight: int, pad: nat): seq<LayoutOption>
    requires |images| == 4 && li < 4
  {
    if BoxFits(LargeTopBox(images, li, pad), availWidth, availHeight)
    then [TopOption(images, li, availWidth, availHeight, pad)] else []
  }

  /** The large-left candidate, if its box fits. */
  function LeftPart(images: seq<Size>, li: nat, availWidth: int, availHeight: int, pad: nat): seq<LayoutOption>
    requires |images| == 4 && li < 4
  {
    if BoxFits(LargeLeftBox(images, li, pad), availWidth, availHeight)
    then [LeftOption(images, li, availWidth, availHeight, pad)] else []
  }

  /** The grid candidate, if every image fits a cell. */
  function GridPart(images: seq<Size>, availWidth: int, availHeight: int, pad: nat): seq<LayoutOption>
  {
    if GridFits(images, availWidth, availHeight, pad) then [GridOption] else []
  }

  /** The feasible candidates in declaration order, before sorting. */
  function Candidates(images: seq<Size>, li: nat, availWidth: int, availHeight: int, pad: nat): seq<LayoutOption>
    requires |images| == 4 && li < 4
  {
    TopPart(images, li, availWidth, availHeight, pad) +
    LeftPart(images, li, availWidth, availHeight, pad) +
    GridPart(images, availWidth, availHeight, pad)
  }

  /** `a` comes before `b` in the sorted list: a higher score, or an equal score and
      an earlier declaration. */
  predicate Before(a: LayoutOption, b: LayoutOption)
  {
    a.score > b.score || (a.score == b.score && Rank(a.name) < Rank(b.name))
  }

  predicate InOrder(s: seq<LayoutOption>)
  {
    forall i, j :: 0 <= i < j < |s| ==> Before(s[i], s[j])
  }

  /** Strictly increasing declaration ranks. */
  predicate RankAscending(s: seq<LayoutOption>)
  {
    forall i, j :: 0 <= i < j < |s| ==> Rank(s[i].name) < Rank(s[j].name)
  }

  predicate ScoreDescending(s: seq<LayoutOption>)
  {
    forall i, j :: 0 <= i < j < |s| ==> s[i].score >= s[j].score
  }

  /** Insert `x` in front of the first entry with a strictly smaller score, so that it
      goes after every entry with an equal score. */
  function InsertByScore(sorted: seq<LayoutOption>, x: LayoutOption): (r: seq<LayoutOption>)
    ensures multiset(r) == multiset(sorted) + multiset{x}
  {
    if sorted == [] || sorted[0].score < x.score then [x] + sorted
    else
      assert sorted == [sorted[0]] + sorted[1..];
      [sorted[0]] + InsertByScore(sorted[1..], x)
  }

  /** `list.sort(key=score, reverse=True)`: a stable sort, highest score first, as an
      insertion sort taking the entries in their list order. */
  function SortedByScore(s: seq<LayoutOption>): (r: seq<LayoutOption>)
    ensures multiset(r) == multiset(s)
  {
    if s == [] then []
    else
      assert s == s[..|s| - 1] + [s[|s| - 1]];
      InsertByScore(SortedByScore(s[..|s| - 1]), s[|s| - 1])
  }

  lemma {:induction false} InsertKeepsScoreDescending(sorted: seq<LayoutOption>, x: LayoutOption)
    requires ScoreDescending(sorted)
    ensures ScoreDescending(InsertByScore(sorted, x))
  {
    if sorted != [] && sorted[0].score >= x.score {
      var rest := InsertByScore(sorted[1..], x);
      InsertKeepsScoreDescending(sorted[1..], x);
      forall y | y in rest ensures y.score <= sorted[0].score {
        assert y in multiset(rest);
        assert y == x || y in sorted[1..];
      }
    }
  }

  /** The sort puts the scores in non-increasing order. */
  lemma {:induction false} SortedIsScoreDescending(s: seq<LayoutOption>)
    ensures ScoreDescending(SortedByScore(s))
  {
    if s != [] {
      SortedIsScoreDescending(s[..|s| - 1]);
      InsertKeepsScoreDescending(SortedByScore(s[..|s| - 1]), s[|s| - 1]);
    }
  }

  /** An entry that goes before every entry of an ordered list can lead it. */
  lemma PrependKeepsOrder(x: LayoutOption, s: seq<LayoutOption>)
    requires InOrder(s)
    requires forall i :: 0 <= i < |s| ==> Before(x, s[i])
    ensures InOrder([x] + s)
  {
    var r := [x] + s;
    forall i, j | 0 <= i < j < |r| ensures Before(r[i], r[j]) {
      if i == 0 {
        assert r[j] == s[j - 1];
      } else {
        assert r[i] == s[i - 1] && r[j] == s[j - 1];
      }
    }
  }

  lemma {:induction false} InsertKeepsOrder(sorted: seq<LayoutOption>, x: LayoutOption)
    requires InOrder(sorted)
    requires forall i :: 0 <= i < |sorted| ==> Rank(sorted[i].name) < Rank(x.name)
    ensures InOrder(InsertByScore(sorted, x))
  {
    if sorted == [] || sorted[0].score < x.score {
      forall i | 0 <= i < |sorted| ensures Before(x, sorted[i]) {
        if i > 0 {
          assert Before(sorted[0], sorted[i]);
        }
      }
      PrependKeepsOrder(x, sorted);
    } else {
      var rest := InsertByScore(sorted[1..], x);
      InsertKeepsOrder(sorted[1..], x);
      forall i | 0 <= i < |rest| ensures Before(sorted[0], rest[i]) {
        assert rest[i] in multiset(rest);
        if rest[i] != x {
          var k :| 0 <= k < |sorted[1..]| && sorted[1..][k] == rest[i];
          assert Before(sorted[0], sorted[k + 1]);
        }
      }
      PrependKeepsOrder(sorted[0], rest);
    }
  }

  /** Stability: on entries in declaration order, the sort orders by score, highest
      first, and keeps declaration order among equal scores. */
  lemma {:induction false} SortIsStable(s: seq<LayoutOption>)
    requires RankAscending(s)
    ensures InOrder(SortedByScore(s))
  {
    if s != [] {
      var init := s[..|s| - 1];
      assert RankAscending(init);
      SortIsStable(init);
      var sorted := SortedByScore(init);
      forall i | 0 <= i < |sorted| ensures Rank(sorted[i].name) < Rank(s[|s| - 1].name) {
        assert sorted[i] in multiset(init);
        var j :| 0 <= j < |init| && init[j] == sorted[i];
      }
      InsertKeepsOrder(sorted, s[|s| - 1]);
    }
  }

  /** The first entry with the highest score: scanning in list order, a later entry
      replaces the one kept only when it scores strictly higher. */
  function BestOf(c: seq<LayoutOption>): LayoutOption
    requires c != []
  {
    if |c| == 1 then c[0]
    else if c[|c| - 1].score > BestOf(c[..|c| - 1]).score then c[|c| - 1]
    else BestOf(c[..|c| - 1])
  }

  /** The first-best entry is one of the entries and scores at least as high as each. */
  lemma {:induction false} BestOfIsMaximum(c: seq<LayoutOption>)
    requires c != []
    ensures BestOf(c) in c
    ensures forall x :: x in c ==> x.score <= BestOf(c).score
  {
    if |c| > 1 {
      var init := c[..|c| - 1];
      BestOfIsMaximum(init);
      assert c == init + [c[|c| - 1]];
    }
  }

  /** The stable sort puts the first highest-scoring entry at the head, and sorts
      nothing into an empty list. */
  lemma {:induction false} SortedHeadIsBestOf(c: seq<LayoutOption>)
    ensures SortedByScore(c) == [] <==> c == []
    ensures c != [] ==> SortedByScore(c)[0] == BestOf(c)
  {
    if c != [] {
      var init := c[..|c| - 1];
      SortedHeadIsBestOf(init);
      assert |multiset(SortedByScore(c))| == |c|;
    }
  }

  /** The option list `generate_layout_options` returns. */
  function Options(images: seq<Size>, li: nat, availWidth: int, availHeight: int, pad: nat): seq<LayoutOption>
    requires |images| == 4 && li < 4
  {
    SortedByScore(Candidates(images, li, availWidth, availHeight, pad))
  }

  /** `x` is one of the kept options. */
  predicate Kept(x: LayoutOption, top: LayoutOption, left: LayoutOption, withTop: bool, withLeft: bool, withGrid: bool)
  {
    (x == top && withTop) || (x == left && withLeft) || (x == GridOption && withGrid)
  }

  /** `r` lists exactly the kept ones of the large-top option `top` (kept when
      `withTop`), the large-left option `left` and the grid option, each once, from
      the highest score down, declaration order breaking ties. */
  predicate ListsExactly(r: seq<LayoutOption>, top: LayoutOption, left: LayoutOption,
                         withTop: bool, withLeft: bool, withGrid: bool)
  {
    && |r| <= 3
    && (top in r <==> withTop) && (left in r <==> withLeft) && (GridOption in r <==> withGrid)
    && (forall i :: 0 <= i < |r| ==>
          Kept(r[i], top, left, withTop, withLeft, withGrid))
    && (forall i, j :: 0 <= i < j < |r| ==> r[i].name != r[j].name)
    && InOrder(r)
  }

  /** What the option list is, independently of how it is built: the large-top,
      large-left and grid options are present exactly when their boxes fit, with
      their scores; nothing else is; no score is negative; and the list runs from the
      highest score down, declaration order breaking ties. */
  predicate Describes(r: seq<LayoutOption>, images: seq<Size>, li: nat,
                      availWidth: int, availHeight: int, pad: nat)
    requires |images| == 4 && li < 4
  {
    && ListsExactly(r, TopOption(images, li, availWidth, availHeight, pad),
                    LeftOption(images, li, availWidth, availHeight, pad),
                    BoxFits(LargeTopBox(images, li, pad), availWidth, availHeight),
                    BoxFits(LargeLeftBox(images, li, pad), availWidth, availHeight),
                    GridFits(images, availWidth, availHeight, pad))
    && (forall i :: 0 <= i < |r| ==> r[i].score >= 0)
  }

  lemma MulMonotone(a: int, b: int, c: int, d: int)
    requires 0 <= a <= c && 0 <= b <= d
    ensures a * b <= c * d
  {
    assert a * b <= c * b;
    assert c * b <= c * d;
  }

  /** A box that fits leaves a non-negative score. */
  lemma FittingBoxScoresNonNegative(box: (int, int), availWidth: int, availHeight: int)
    requires 0 <= box.0 && 0 <= box.1
    requires BoxFits(box, availWidth, availHeight)
    ensures BoxScore(box, availWidth, availHeight) >= 0
  {
    MulMonotone(box.0, box.1, availWidth, availHeight);
  }

  /** On entries in declaration order the sort keeps exactly the same entries, and
      orders them so that no name appears twice. */
  lemma SortFacts(c: seq<LayoutOption>)
    requires RankAscending(c)
    ensures var r := SortedByScore(c);
            && |r| == |c|
            && (forall x :: x in r <==> x in c)
            && (forall i, j :: 0 <= i < j < |r| ==> r[i].name != r[j].name)
            && InOrder(r)
  {
    var r := SortedByScore(c);
    SortIsStable(c);
    assert |r| == |multiset(r)| == |multiset(c)| == |c|;
    forall x ensures x in r <==> x in c {
      assert x in r <==> x in multiset(r);
      assert x in c <==> x in multiset(c);
    }
    forall i, j | 0 <= i < j < |r| ensures r[i].name != r[j].name {
      assert Before(r[i], r[j]);
      assert r[i] in c && r[j] in c;
      var i' :| 0 <= i' < |c| && c[i'] == r[i];
      var j' :| 0 <= j' < |c| && c[j'] == r[j];
      assert i' != j';
    }
  }

  /** A selection of the three candidates, in declaration order. */
  function Selection(top: LayoutOption, left: LayoutOption, withTop: bool, withLeft: bool, withGrid: bool)
    : seq<LayoutOption>
  {
    (if withTop then [top] else []) + (if withLeft then [left] else []) + (if withGrid then [GridOption] else [])
  }

  /** A selection holds the selected options, each once, in declaration order. */
  predicate Selects(c: seq<LayoutOption>, top: LayoutOption, left: LayoutOption,
                    withTop: bool, withLeft: bool, withGrid: bool)
  {
    && |c| <= 3 && RankAscending(c)
    && (top in c <==> withTop) && (left in c <==> withLeft) && (GridOption in c <==> withGrid)
    && (forall i :: 0 <= i < |c| ==>
          Kept(c[i], top, left, withTop, withLeft, withGrid))
  }

  lemma SelectionSelects(top: LayoutOption, left: LayoutOption, withTop: bool, withLeft: bool, withGrid: bool)
    requires top.name == LargeTop && left.name == LargeLeft
    ensures Selects(Selection(top, left, withTop, withLeft, withGrid), top, left, withTop, withLeft, withGrid)
  {
  }

  /** Reordering a selection without losing, adding or repeating an entry lists
      exactly the selected options. */
  lemma ReorderedSelectionListsExactly(r: seq<LayoutOption>, c: seq<LayoutOption>, top: LayoutOption,
                                       left: LayoutOption, withTop: bool, withLeft: bool, withGrid: bool)
    requires Selects(c, top, left, withTop, withLeft, withGrid)
    requires |r| == |c| && (forall x :: x in r <==> x in c)
    requires forall i, j :: 0 <= i < j < |r| ==> r[i].name != r[j].name
    requires InOrder(r)
    ensures ListsExactly(r, top, left, withTop, withLeft, withGrid)
  {
    forall i | 0 <= i < |r|
      ensures Kept(r[i], top, left, withTop, withLeft, withGrid)
    {
      assert r[i] in c;
    }
    assert top in r <==> top in c;
    assert left in r <==> left in c;
    assert GridOption in r <==> GridOption in c;
  }

  /** Sorting a selection lists exactly the selected options, in score order. */
  lemma SortedSelectionListsExactly(top: LayoutOption, left: LayoutOption,
                                    withTop: bool, withLeft: bool, withGrid: bool)
    requires top.name == LargeTop && left.name == LargeLeft
    ensures ListsExactly(SortedByScore(Selection(top, left, withTop, withLeft, withGrid)),
                         top, left, withTop, withLeft, withGrid)
  {
    var c := Selection(top, left, withTop, withLeft, withGrid);
    SelectionSelects(top, left, withTop, withLeft, withGrid);
    SortFacts(c);
    ReorderedSelectionListsExactly(SortedByScore(c), c, top, left, withTop, withLeft, withGrid);
  }

  /** The candidate list is the selection of the options whose boxes fit. */
  lemma CandidatesAreSelection(images: seq<Size>, li: nat, availWidth: int, availHeight: int, pad: nat)
    requires |images| == 4 && li < 4
    ensures Candidates(images, li, availWidth, availHeight, pad)
         == Selection(TopOption(images, li, availWidth, availHeight, pad),
                      LeftOption(images, li, availWidth, availHeight, pad),
                      BoxFits(LargeTopBox(images, li, pad), availWidth, availHeight),
                      BoxFits(LargeLeftBox(images, li, pad), availWidth, availHeight),
                      GridFits(images, availWidth, availHeight, pad))
  {
  }

  /** The large-top and large-left options score non-negatively when kept. */
  lemma KeptScoresNonNegative(images: seq<Size>, li: nat, availWidth: int, availHeight: int, pad: nat)
    requires |images| == 4 && li < 4
    ensures BoxFits(LargeTopBox(images, li, pad), availWidth, availHeight) ==>
              TopOption(images, li, availWidth, availHeight, pad).score >= 0
    ensures BoxFits(LargeLeftBox(images, li, pad), availWidth, availHeight) ==>
              LeftOption(images, li, availWidth, availHeight, pad).score >= 0
  {
    var topBox := LargeTopBox(images, li, pad);
    var leftBox := LargeLeftBox(images, li, pad);
    if BoxFits(topBox, availWidth, availHeight) { FittingBoxScoresNonNegative(topBox, availWidth, availHeight); }
    if BoxFits(leftBox, availWidth, availHeight) { FittingBoxScoresNonNegative(leftBox, availWidth, availHeight); }
  }

  /** A list of kept options whose kept scores are non-negative has only
      non-negative scores. */
  lemma ListedScoresNonNegative(r: seq<LayoutOption>, top: LayoutOption, left: LayoutOption,
                                withTop: bool, withLeft: bool, withGrid: bool)
    requires ListsExactly(r, top, left, withTop, withLeft, withGrid)
    requires withTop ==> top.score >= 0
    requires withLeft ==> left.score >= 0
    ensures forall i :: 0 <= i < |r| ==> r[i].score >= 0
  {
  }

  /** The sorted candidate list is the option list Describes characterises. */
  lemma OptionsDescribed(images: seq<Size>, li: nat, availWidth: int, availHeight: int, pad: nat)
    requires |images| == 4 && li < 4
    ensures Describes(Options(images, li, availWidth, availHeight, pad), images, li, availWidth, availHeight, pad)
  {
    var top := TopOption(images, li, availWidth, availHeight, pad);
    var left := LeftOption(images, li, availWidth, availHeight, pad);
    var withTop := BoxFits(LargeTopBox(images, li, pad), availWidth, availHeight);
    var withLeft := BoxFits(LargeLeftBox(images, li, pad), availWidth, availHeight);
    var withGrid := GridFits(images, availWidth, availHeight, pad);
    CandidatesAreSelection(images, li, availWidth, availHeight, pad);
    KeptScoresNonNegative(images, li, availWidth, availHeight, pad);
    SortedSelectionListsExactly(top, left, withTop, withLeft, withGrid);
    var r := Options(images, li, availWidth, availHeight, pad);
    assert ListsExactly(r, top, left, withTop, withLeft, withGrid);
    ListedScoresNonNegative(r, top, left, withTop, withLeft, withGrid);
  }

  /** The first entry of a non-empty option list has the highest score. */
  lemma HeadHasBestScore(r: seq<LayoutOption>, images: seq<Size>, li: nat,
                         availWidth: int, availHeight: int, pad: nat)
    requires |images| == 4 && li < 4
    requires Describes(r, images, li, availWidth, availHeight, pad)
    requires r != []
    ensures forall i :: 0 <= i < |r| ==> r[i].score <= r[0].score
  {
    forall i | 0 < i < |r| ensures r[i].score <= r[0].score {
      assert Before(r[0], r[i]);
    }
  }

  /** `generate_layout_options`: append each candidate whose box fits, in declaration
      order, then sort the list by score, highest first. */
  method GenerateLayoutOptions(images: seq<Size>, li: nat, availWidth: int, availHeight: int, pad: nat)
    returns (layouts: seq<LayoutOption>)
    requires |images| == 4 && li < 4
    ensures layouts == Options(images, li, availWidth, availHeight, pad)
  {
    layouts := [];
    var smalls := Smalls(images, li);

    // Option 1: large on top, three small below
    var totalHeight := images[li].height + MaxAlong(smalls, Vertical) + 3 * pad;
    var totalWidth := Max(images[li].width, SumAlong(smalls, Horizontal) + 2 * pad);
    var topBox := (totalWidth, totalHeight);
    assert topBox == LargeTopBox(images, li, pad);
    if BoxFits(topBox, availWidth, availHeight) {
      layouts := layouts + [LayoutOption(LargeTop, BoxScore(topBox, availWidth, availHeight))];
    }
    assert layouts == TopPart(images, li, availWidth, availHeight, pad);

    // Option 2: large on the left, three small on the right
    totalWidth := images[li].width + MaxAlong(smalls, Horizontal) + 3 * pad;
    totalHeight := Max(images[li].height, SumAlong(smalls, Vertical) + 2 * pad);
    var leftBox := (totalWidth, totalHeight);
    assert leftBox == LargeLeftBox(images, li, pad);
    if BoxFits(leftBox, availWidth, availHeight) {
      layouts := layouts + [LayoutOption(LargeLeft, BoxScore(leftBox, availWidth, availHeight))];
    }
    assert layouts == TopPart(images, li, availWidth, availHeight, pad) + LeftPart(images, li, availWidth, availHeight, pad);

    // Option 3: classic 2x2 grid, every image within a cell
    if GridFits(images, availWidth, availHeight, pad) {
      layouts := layouts + [GridOption];
    }
    assert layouts == Candidates(images, li, availWidth, availHeight, pad);
    layouts := SortedByScore(layouts);
  }
}
