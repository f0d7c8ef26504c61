/**
 * The "Showing X to Y of N results (Page P of T)" arithmetic of
 * libs/ui/src/components/table/DataTablePagination.tsx. The page index, the
 * page size, the filtered row count and the page count come from the table
 * library and are parameters here.
 */
module Pagination {
  import opened Decimal

  function Min(a: int, b: int): int { if a <= b then a else b }

  /** The one-based page number shown. */
  function CurrentPage(pageIndex: nat): (p: nat)
    ensures p == pageIndex + 1 && p >= 1
  {
    pageIndex + 1
  }

  /** The first row of the page, counted from 1. */
  function StartRow(pageIndex: nat, pageSize: nat): (r: int)
    ensures r == pageIndex * pageSize + 1
  {
    (CurrentPage(pageIndex) - 1) * pageSize + 1
  }

  /** The last row of the page: the page's end, cut off at the last row of the data. */
  function EndRow(pageIndex: nat, pageSize: nat, totalRows: nat): (r: int)
    ensures r <= totalRows
    ensures r <= (pageIndex + 1) * pageSize
    ensures r == totalRows || r == (pageIndex + 1) * pageSize
  {
    Min(CurrentPage(pageIndex) * pageSize, totalRows)
  }

  /** A page that starts inside the data shows `pageSize` rows, or fewer when the data ends first. */
  lemma RowsShown(pageIndex: nat, pageSize: nat, totalRows: nat)
    requires pageIndex * pageSize < totalRows
    ensures EndRow(pageIndex, pageSize, totalRows) - StartRow(pageIndex, pageSize) + 1
         == Min(pageSize, totalRows - pageIndex * pageSize)
  {
    assert (pageIndex + 1) * pageSize == pageIndex * pageSize + pageSize;
  }

  /** A full page is followed by a page that starts right after it: the ranges neither gap nor overlap. */
  lemma PagesTile(pageIndex: nat, pageSize: nat, totalRows: nat)
    requires (pageIndex + 1) * pageSize <= totalRows
    ensures StartRow(pageIndex + 1, pageSize) == EndRow(pageIndex, pageSize, totalRows) + 1
  {
  }

  /** Every row of the data lies in the range of exactly one page. */
  lemma EveryRowOnOnePage(row: nat, pageSize: nat, totalRows: nat)
    requires 1 <= row <= totalRows && pageSize > 0
    ensures var k := (row - 1) / pageSize;
      StartRow(k, pageSize) <= row <= EndRow(k, pageSize, totalRows)
    ensures forall k: nat :: StartRow(k, pageSize) <= row <= EndRow(k, pageSize, totalRows) ==>
      k == (row - 1) / pageSize
  {
    var k := (row - 1) / pageSize;
    assert k * pageSize + (row - 1) % pageSize == row - 1;
    assert (k + 1) * pageSize == k * pageSize + pageSize;
    forall j: nat | StartRow(j, pageSize) <= row <= EndRow(j, pageSize, totalRows)
      ensures j == k
    {
      assert j * pageSize <= row - 1 < j * pageSize + pageSize by {
        assert (j + 1) * pageSize == j * pageSize + pageSize;
      }
      DivideWithinBlock(row - 1, pageSize, j);
    }
  }

  /** `j * d <= n < j * d + d` pins `j` down as `n / d`. */
  lemma DivideWithinBlock(n: nat, d: nat, j: nat)
    requires d > 0 && j * d <= n < j * d + d
    ensures n / d == j
  {
    var q := n / d;
    assert q * d + n % d == n && n % d < d;
    assert (q + 1) * d == q * d + d && (j + 1) * d == j * d + d;
    MultiplyMonotone(q + 1, j, d);
    MultiplyMonotone(j + 1, q, d);
  }

  lemma MultiplyMonotone(a: nat, b: nat, d: nat)
    ensures a <= b ==> a * d <= b * d
  {
    if a <= b {
      assert b * d == a * d + (b - a) * d;
    }
  }

  /** The summary line under the table. */
  function Summary(pageIndex: nat, pageSize: nat, totalRows: nat, totalPages: int): (r: string)
    ensures |r| > 8 && r[..8] == "Showing " && r[|r| - 1] == ')'
  {
    var counts := IntToString(StartRow(pageIndex, pageSize)) +
      " to " + IntToString(EndRow(pageIndex, pageSize, totalRows)) +
      " of " + IntToString(totalRows) +
      " results (Page " + IntToString(CurrentPage(pageIndex)) +
      " of " + IntToString(totalPages);
    var line := "Showing " + counts + ")";
    assert line[..8] == "Showing " && line[|line| - 1] == ')';
    line
  }

  /** With no rows the first page still reads "Showing 1 to 0 of 0": the code does not treat it apart. */
  lemma EmptyTableSummary(pageSize: nat, totalPages: int)
    ensures Summary(0, pageSize, 0, totalPages)
         == "Showing " + "1" + " to " + "0" + " of " + "0" + " results (Page " + "1" + " of " + IntToString(totalPages) + ")"
  {
    assert StartRow(0, pageSize) == 1 && EndRow(0, pageSize, 0) == 0 && CurrentPage(0) == 1;
    assert IntToString(1) == "1" by { assert DigitChar(1) == '1'; }
    assert IntToString(0) == "0" by { assert DigitChar(0) == '0'; }
  }
}
