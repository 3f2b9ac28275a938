/** The bounded facet list of the paged dashboard (ui/report/paged-client.ts, applyFacets). */
module Facets {
  import opened Common

  datatype Dimension = Repo | Session | Agent | Model

  datatype FacetRow = FacetRow(dimension: Dimension, value: string)

  datatype FacetList = FacetList(rows: seq<FacetRow>, limited: bool)

  const NO_FACETS := FacetList([], false)

  function Of(rows: seq<FacetRow>, d: Dimension): seq<FacetRow> {
    Filter((row: FacetRow) => row.dimension == d, rows)
  }

  function CountOf(rows: seq<FacetRow>, d: Dimension): nat {
    |Of(rows, d)|
  }

  function PerDimension(limit: nat): nat {
    limit / 4
  }

  /** One page is applied row by row; a full dimension drops its row and sets the flag. */
  function Apply(list: FacetList, page: seq<FacetRow>, limit: nat): FacetList {
    if page == [] then list
    else AddRow(Apply(list, page[..|page| - 1], limit), page[|page| - 1], limit)
  }

  function AddRow(list: FacetList, row: FacetRow, limit: nat): FacetList {
    if CountOf(list.rows, row.dimension) >= PerDimension(limit) then list.(limited := true)
    else list.(rows := list.rows + [row])
  }

  function ApplyPages(list: FacetList, pages: seq<seq<FacetRow>>, limit: nat): FacetList {
    if pages == [] then list
    else Apply(ApplyPages(list, pages[..|pages| - 1], limit), pages[|pages| - 1], limit)
  }

  /** The reference: a row is kept when fewer than `per` earlier rows of the whole input share its
      dimension. Nothing here looks at what was kept before. */
  function Kept(rows: seq<FacetRow>, per: nat): seq<FacetRow> {
    if rows == [] then []
    else
      var front, last := rows[..|rows| - 1], rows[|rows| - 1];
      Kept(front, per) + (if CountOf(front, last.dimension) < per then [last] else [])
  }

  function Min(a: nat, b: nat): nat {
    if a < b then a else b
  }

  lemma {:induction false} ApplyConcat(list: FacetList, xs: seq<FacetRow>, ys: seq<FacetRow>, limit: nat)
    ensures Apply(list, xs + ys, limit) == Apply(Apply(list, xs, limit), ys, limit)
  {
    if ys == [] {
      assert xs + ys == xs;
    } else {
      assert (xs + ys)[..|xs + ys| - 1] == xs + ys[..|ys| - 1];
      ApplyConcat(list, xs, ys[..|ys| - 1], limit);
    }
  }

  /** Where the server cuts the pages makes no difference to the list or to the flag. */
  lemma {:induction false} PageBoundariesDoNotMatter(list: FacetList, pages: seq<seq<FacetRow>>, limit: nat)
    ensures ApplyPages(list, pages, limit) == Apply(list, Flatten(pages), limit)
  {
    if pages != [] {
      var front := pages[..|pages| - 1];
      PageBoundariesDoNotMatter(list, front, limit);
      ApplyConcat(list, Flatten(front), pages[|pages| - 1], limit);
    }
  }

  lemma OfAppend(rows: seq<FacetRow>, row: FacetRow, d: Dimension)
    ensures Of(rows + [row], d) == Of(rows, d) + (if row.dimension == d then [row] else [])
  {
    assert (rows + [row])[..|rows + [row]| - 1] == rows;
  }

  /** Within every dimension the kept rows are exactly the first `per` rows of the input. */
  lemma {:induction false} KeptIsPrefixOfEachDimension(rows: seq<FacetRow>, per: nat, d: Dimension)
    ensures Of(Kept(rows, per), d) == Of(rows, d)[..Min(CountOf(rows, d), per)]
  {
    if rows != [] {
      var front, last := rows[..|rows| - 1], rows[|rows| - 1];
      KeptIsPrefixOfEachDimension(front, per, d);
      OneMoreRowKept(front, last, per);
      assert front + [last] == rows;
      hide Of, Kept;
      var kept := Kept(front, per);
      OfAppend(kept, last, d);
      OfAppend(front, last, d);
      var before, all := Of(front, d), Of(rows, d);
      if last.dimension == d && |before| < per {
        assert all[..Min(|all|, per)] == before[..Min(|before|, per)] + [last];
      } else {
        assert all[..Min(|all|, per)] == before[..Min(|before|, per)];
      }
    }
  }

  lemma OneMoreRowKept(front: seq<FacetRow>, last: FacetRow, per: nat)
    ensures Kept(front + [last], per) == if CountOf(front, last.dimension) < per then Kept(front, per) + [last]
                                         else Kept(front, per)
  {
    assert (front + [last])[..|front|] == front;
    assert Kept(front, per) + [] == Kept(front, per);
  }

  /** The streaming list equals the reference, and the flag is set exactly when a row was dropped. */
  lemma {:induction false} ApplyKeepsFirstRows(rows: seq<FacetRow>, limit: nat)
    ensures Apply(NO_FACETS, rows, limit).rows == Kept(rows, PerDimension(limit))
    ensures Apply(NO_FACETS, rows, limit).limited <==> |Kept(rows, PerDimension(limit))| < |rows|
    ensures |Kept(rows, PerDimension(limit))| <= |rows|
  {
    if rows != [] {
      var front, last := rows[..|rows| - 1], rows[|rows| - 1];
      ApplyKeepsFirstRows(front, limit);
      KeptIsPrefixOfEachDimension(front, PerDimension(limit), last.dimension);
      assert Kept(front, PerDimension(limit)) + [] == Kept(front, PerDimension(limit));
    }
  }

  /** Nothing is made up: every row kept was there before or is on the page. */
  lemma {:induction false} ApplyOnlyKeepsGivenRows(list: FacetList, page: seq<FacetRow>, limit: nat)
    ensures forall row :: row in Apply(list, page, limit).rows ==> row in list.rows || row in page
  {
    if page != [] {
      ApplyOnlyKeepsGivenRows(list, page[..|page| - 1], limit);
    }
  }

  ghost predicate WithinLimit(rows: seq<FacetRow>, limit: nat) {
    forall d :: CountOf(rows, d) <= PerDimension(limit)
  }

  lemma NoRowsWithinLimit(limit: nat)
    ensures WithinLimit([], limit)
  {
  }

  lemma {:induction false} CountsAddUp(rows: seq<FacetRow>)
    ensures |rows| == CountOf(rows, Repo) + CountOf(rows, Session) + CountOf(rows, Agent) + CountOf(rows, Model)
  {
    if rows != [] {
      CountsAddUp(rows[..|rows| - 1]);
    }
  }

  lemma {:induction false} ApplyStaysWithinLimit(list: FacetList, page: seq<FacetRow>, limit: nat)
    requires WithinLimit(list.rows, limit)
    ensures WithinLimit(Apply(list, page, limit).rows, limit)
    ensures |Apply(list, page, limit).rows| <= limit
  {
    if page != [] {
      var before := Apply(list, page[..|page| - 1], limit);
      ApplyStaysWithinLimit(list, page[..|page| - 1], limit);
      var row := page[|page| - 1];
      assert Apply(list, page, limit) == AddRow(before, row, limit);
      forall d ensures CountOf(AddRow(before, row, limit).rows, d) <= PerDimension(limit) {
        OfAppend(before.rows, row, d);
        assert CountOf(before.rows, d) <= PerDimension(limit);
      }
    }
    CountsAddUp(Apply(list, page, limit).rows);
  }

  /** The whole contract of a bounded facet download, for any paging of any rows. */
  lemma FacetDownload(pages: seq<seq<FacetRow>>, limit: nat)
    ensures var list := ApplyPages(NO_FACETS, pages, limit);
            && list.rows == Kept(Flatten(pages), PerDimension(limit))
            && (list.limited <==> |list.rows| < |Flatten(pages)|)
            && |list.rows| <= limit
            && forall d :: Of(list.rows, d) ==
                 Of(Flatten(pages), d)[..Min(CountOf(Flatten(pages), d), PerDimension(limit))]
  {
    PageBoundariesDoNotMatter(NO_FACETS, pages, limit);
    ApplyKeepsFirstRows(Flatten(pages), limit);
    ApplyStaysWithinLimit(NO_FACETS, Flatten(pages), limit);
    forall d ensures Of(Kept(Flatten(pages), PerDimension(limit)), d) ==
        Of(Flatten(pages), d)[..Min(CountOf(Flatten(pages), d), PerDimension(limit))]
    {
      KeptIsPrefixOfEachDimension(Flatten(pages), PerDimension(limit), d);
    }
  }

  /** The loop of the client: a running count per dimension instead of counting again. */
  method ApplyPage(facets: seq<FacetRow>, facetsLimited: bool, page: seq<FacetRow>, limit: nat)
    returns (rows: seq<FacetRow>, limited: bool)
    ensures FacetList(rows, limited) == Apply(FacetList(facets, facetsLimited), page, limit)
  {
    var perDimension := PerDimension(limit);
    var counts := map[Repo := 0, Session := 0, Agent := 0, Model := 0];
    rows := facets;
    forall d: Dimension ensures d in counts && counts[d] == CountOf(rows[..0], d) {
      match d { case Repo => case Session => case Agent => case Model => }
    }
    for i := 0 to |rows|
      invariant forall d :: d in counts && counts[d] == CountOf(rows[..i], d)
    {
      assert rows[..i + 1] == rows[..i] + [rows[i]];
      forall d ensures CountOf(rows[..i + 1], d)
          == CountOf(rows[..i], d) + (if rows[i].dimension == d then 1 else 0) {
        OfAppend(rows[..i], rows[i], d);
      }
      counts := counts[rows[i].dimension := counts[rows[i].dimension] + 1];
    }
    assert rows[..|rows|] == rows;
    limited := facetsLimited;
    ghost var start := FacetList(facets, facetsLimited);
    for i := 0 to |page|
      invariant FacetList(rows, limited) == Apply(start, page[..i], limit)
      invariant forall d :: d in counts && counts[d] == CountOf(rows, d)
    {
      assert page[..i + 1][..i] == page[..i];
      var row := page[i];
      if counts[row.dimension] >= perDimension {
        limited := true;
      } else {
        forall d ensures CountOf(rows + [row], d)
            == CountOf(rows, d) + (if row.dimension == d then 1 else 0) {
          OfAppend(rows, row, d);
        }
        rows := rows + [row];
        counts := counts[row.dimension := counts[row.dimension] + 1];
      }
    }
    assert page[..|page|] == page;
  }
}
