/** The client-side folds of the sales-report page over the rows of a report. */
module SalesReport {

  import opened Wrappers
  import opened Seqs

  /** One row of the report query, with the numeric columns as `Number(...)` reads them. */
  datatype SaleRow = SaleRow(productName: string, purchasePrice: int, sellingPrice: int,
                             quantity: int, total: int, createdAt: string)

  function RowTotal(row: SaleRow): int { row.total }

  /** What one row adds to the profit: purchase price times quantity, less one selling price. */
  function RowProfit(row: SaleRow): int { row.purchasePrice * row.quantity - row.sellingPrice }

  /** `calculateGrandTotal`: `undefined` for an undefined report, else the sum of every row's
      `total`, accumulated by the source's `for ... of` loop. */
  method CalculateGrandTotal(salesReport: Option<seq<SaleRow>>) returns (r: Option<int>)
    ensures salesReport.None? ==> r.None?
    ensures salesReport.Some? ==> r == Some(SumBy(salesReport.value, RowTotal))
  {
    if salesReport.None? {
      return None;
    }
    var rows := salesReport.value;
    var grandTotal := 0;
    for i := 0 to |rows|
      invariant grandTotal == SumBy(rows[..i], RowTotal)
    {
      SumByAppend(rows[..i], [rows[i]], RowTotal);
      assert rows[..i + 1] == rows[..i] + [rows[i]];
      grandTotal := grandTotal + rows[i].total;
    }
    assert rows[..|rows|] == rows;
    return Some(grandTotal);
  }

  /** `calculateProfit`: `undefined` for an undefined report, else the sum of `RowProfit`. */
  method CalculateProfit(salesReport: Option<seq<SaleRow>>) returns (r: Option<int>)
    ensures salesReport.None? ==> r.None?
    ensures salesReport.Some? ==> r == Some(SumBy(salesReport.value, RowProfit))
  {
    if salesReport.None? {
      return None;
    }
    var rows := salesReport.value;
    var profit := 0;
    for i := 0 to |rows|
      invariant profit == SumBy(rows[..i], RowProfit)
    {
      SumByAppend(rows[..i], [rows[i]], RowProfit);
      assert rows[..i + 1] == rows[..i] + [rows[i]];
      profit := profit + rows[i].purchasePrice * rows[i].quantity - rows[i].sellingPrice;
    }
    assert rows[..|rows|] == rows;
    return Some(profit);
  }

  /** An empty report totals 0 on both folds (an empty array is truthy in JavaScript). */
  lemma EmptyReportIsZero()
    ensures SumBy([], RowTotal) == 0 && SumBy([], RowProfit) == 0
  {
  }

  /** The grand total of two reports run together is the sum of their grand totals. */
  lemma GrandTotalOfConcatenation(a: seq<SaleRow>, b: seq<SaleRow>)
    ensures SumBy(a + b, RowTotal) == SumBy(a, RowTotal) + SumBy(b, RowTotal)
  {
    SumByAppend(a, b, RowTotal);
  }

  /** A single row's profit charges its selling price once, whatever its quantity: with two
      units bought at 10 and sold at 15, the fold reports 5, not the margin of 10. */
  lemma ProfitIgnoresQuantityOnSellingSide(row: SaleRow)
    ensures SumBy([row], RowProfit) == row.purchasePrice * row.quantity - row.sellingPrice
    ensures row.purchasePrice == 10 && row.sellingPrice == 15 && row.quantity == 2 ==>
              SumBy([row], RowProfit) == 5
  {
  }

  /** Neither fold depends on the order of the rows. */
  lemma FoldsIgnoreRowOrder(a: seq<SaleRow>, b: seq<SaleRow>)
    requires multiset(a) == multiset(b)
    ensures SumBy(a, RowTotal) == SumBy(b, RowTotal)
    ensures SumBy(a, RowProfit) == SumBy(b, RowProfit)
  {
    SumByPermutation(a, b, RowTotal);
    SumByPermutation(a, b, RowProfit);
  }
}
