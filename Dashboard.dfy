/**
 * The home page's dashboard: the stored records loaded once, the five counters
 * (total, this month, and one per result), the eight most recent records, and the
 * one-line product summary on each record card.
 */
module Dashboard {
  import opened Wrappers
  import opened Text
  import opened Records

  /** A calendar month; `month` counts from 0 as `getMonth()` does. */
  datatype YearMonth = YearMonth(year: int, month: int)

  /** The dashboard counters. */
  datatype Stats = Stats(total: nat, thisMonth: nat, normal: nat, caution: nat, defective: nat)

  /** The counters before anything has been computed. */
  const InitialStats := Stats(0, 0, 0, 0, 0)

  /** `records.filter(i => i.result === label).length`. */
  function CountResult(records: seq<Inspection>, wanted: string): (n: nat)
    ensures n <= |records|
  {
    if |records| == 0 then 0
    else (if records[0].result == wanted then 1 else 0) + CountResult(records[1..], wanted)
  }

  /** Records whose result is none of the three labels (an empty or unexpected value). */
  function CountUnclassified(records: seq<Inspection>): (n: nat)
    ensures n <= |records|
  {
    if |records| == 0 then 0
    else (if IsResultLabel(records[0].result) then 0 else 1) + CountUnclassified(records[1..])
  }

  predicate AllClassified(records: seq<Inspection>)
  {
    forall i :: 0 <= i < |records| ==> IsResultLabel(records[i].result)
  }

  /** Every record is counted once: under one of the three labels or as unclassified. */
  lemma {:induction false} ResultCountsPartition(records: seq<Inspection>)
    ensures CountResult(records, "정상") + CountResult(records, "주의") + CountResult(records, "불량")
            + CountUnclassified(records) == |records|
  {
    if |records| > 0 {
      ResultCountsPartition(records[1..]);
    }
  }

  /** No record is unclassified exactly when every result is one of the three labels. */
  lemma {:induction false} NoUnclassifiedIffAllClassified(records: seq<Inspection>)
    ensures CountUnclassified(records) == 0 <==> AllClassified(records)
  {
    if |records| > 0 {
      NoUnclassifiedIffAllClassified(records[1..]);
      if AllClassified(records) {
        assert AllClassified(records[1..]) by {
          forall i | 0 <= i < |records[1..]| ensures IsResultLabel(records[1..][i].result) {
            assert records[1..][i] == records[i + 1];
          }
        }
      }
      if CountUnclassified(records) == 0 {
        forall i | 0 <= i < |records| ensures IsResultLabel(records[i].result) {
          if i > 0 {
            assert records[i] == records[1..][i - 1];
          }
        }
      }
    }
  }

  /**
   * Whether a record falls in the month `now`: `dateOf` stands for
   * `new Date(inspection_date)` read with `getFullYear`/`getMonth`, `None` for an
   * unparsable date, which matches no month.
   */
  predicate InMonth(r: Inspection, now: YearMonth, dateOf: string -> Option<YearMonth>)
  {
    dateOf(r.inspectionDate) == Some(now)
  }

  /** The `thisMonth` filter's length. */
  function CountThisMonth(records: seq<Inspection>, now: YearMonth, dateOf: string -> Option<YearMonth>): (n: nat)
    ensures n <= |records|
    ensures n == |records| <==> forall i :: 0 <= i < |records| ==> InMonth(records[i], now, dateOf)
  {
    if |records| == 0 then 0
    else
      var rest := CountThisMonth(records[1..], now, dateOf);
      assert (forall i :: 0 <= i < |records| ==> InMonth(records[i], now, dateOf))
         <==> InMonth(records[0], now, dateOf)
              && forall i :: 0 <= i < |records[1..]| ==> InMonth(records[1..][i], now, dateOf) by {
        if forall i :: 0 <= i < |records[1..]| ==> InMonth(records[1..][i], now, dateOf) {
          forall i | 1 <= i < |records| ensures InMonth(records[i], now, dateOf) {
            assert records[i] == records[1..][i - 1];
          }
        }
      }
      (if InMonth(records[0], now, dateOf) then 1 else 0) + rest
  }

  /** The counters `loadInspections` computes over the parsed list. */
  function ComputeStats(records: seq<Inspection>, now: YearMonth, dateOf: string -> Option<YearMonth>): (s: Stats)
    ensures s.total == |records|
    ensures s.thisMonth <= s.total
    ensures s.normal + s.caution + s.defective <= s.total
    ensures s.normal + s.caution + s.defective == s.total <==> AllClassified(records)
  {
    ResultCountsPartition(records);
    NoUnclassifiedIffAllClassified(records);
    Stats(|records|, CountThisMonth(records, now, dateOf),
          CountResult(records, "정상"), CountResult(records, "주의"), CountResult(records, "불량"))
  }

  /**
   * `loadInspections`: the list shown and the counters. Missing storage is an empty
   * list; a parse failure also shows an empty list and leaves the counters at zero.
   */
  function LoadInspections(item: StoredValue, now: YearMonth, dateOf: string -> Option<YearMonth>)
    : (r: (seq<Inspection>, Stats))
    ensures item.Stored? ==> r.0 == item.records && r.1 == ComputeStats(item.records, now, dateOf)
    ensures !item.Stored? ==> r.0 == [] && r.1 == InitialStats
  {
    match ParseStored(item)
    case None => ([], InitialStats)
    case Some(records) => (records, ComputeStats(records, now, dateOf))
  }

  /** `inspections.slice(0, 8)`: the first eight records, newest first, or all of them if fewer. */
  function RecentInspections(records: seq<Inspection>): (r: seq<Inspection>)
    ensures |r| == if |records| < 8 then |records| else 8
    ensures r == records[..|r|]
  {
    if |records| < 8 then records else records[..8]
  }

  function ProductPart(p: ProductLine): string
  {
    p.name + " " + IntToString(p.count) + "대"
  }

  /** A summary part is `name `, the count's numeral and `대`, and the numeral reads back as the count. */
  lemma ProductPartReadsBack(p: ProductLine)
    ensures var r := ProductPart(p);
      && |r| >= |p.name| + 2
      && r[..|p.name| + 1] == p.name + " " && r[|r| - 1] == '대'
      && ParseInt(r[|p.name| + 1..|r| - 1]) == Some(p.count)
  {
    var r := ProductPart(p);
    assert r[|p.name| + 1..|r| - 1] == IntToString(p.count);
    assert r[..|p.name| + 1] == p.name + " ";
    ParseIntOfIntToString(p.count);
  }

  function ProductParts(products: seq<ProductLine>): (r: seq<string>)
    ensures |r| == |products|
    ensures forall i :: 0 <= i < |products| ==> r[i] == ProductPart(products[i])
  {
    seq(|products|, i requires 0 <= i < |products| => ProductPart(products[i]))
  }

  /**
   * The card's product line: absent when the record has no `products` or an empty
   * list, otherwise the `"{name} {count}대"` parts joined by `", "` in stored order.
   */
  function ProductSummary(products: Option<seq<ProductLine>>): (r: Option<string>)
    ensures r.Some? <==> products.Some? && |products.value| > 0
    ensures r.Some? ==> r.value == Join(ProductParts(products.value), ", ")
  {
    if products.Some? && |products.value| > 0 then Some(Join(ProductParts(products.value), ", ")) else None
  }

  /** The summary of two lists in a row is the two summaries with `", "` between them. */
  lemma ProductSummaryConcat(a: seq<ProductLine>, b: seq<ProductLine>)
    requires |a| > 0 && |b| > 0
    ensures ProductSummary(Some(a + b)).Some?
    ensures ProductSummary(Some(a + b)).value == ProductSummary(Some(a)).value + ", " + ProductSummary(Some(b)).value
  {
    var pa, pb, pab := ProductParts(a), ProductParts(b), ProductParts(a + b);
    assert pab == pa + pb by {
      forall i | 0 <= i < |pab| ensures pab[i] == (pa + pb)[i] {
        if i < |a| {
          assert (a + b)[i] == a[i];
        } else {
          assert (a + b)[i] == b[i - |a|];
        }
      }
    }
    JoinConcat(pa, pb, ", ");
  }

  /**
   * After a submission the new record heads the list and the recent records, the
   * total grows by one, and exactly the counter of its result grows by one.
   */
  lemma StatsAfterSubmit(item: StoredValue, rec: Inspection, now: YearMonth, dateOf: string -> Option<YearMonth>)
    requires !item.Unparsable?
    ensures Unshift(item, rec).Some?
    ensures var before := LoadInspections(item, now, dateOf);
            var after := LoadInspections(Unshift(item, rec).value, now, dateOf);
      && after.0 == [rec] + before.0
      && RecentInspections(after.0)[0] == rec
      && after.1.total == before.1.total + 1
      && after.1.thisMonth == before.1.thisMonth + (if InMonth(rec, now, dateOf) then 1 else 0)
      && after.1.normal == before.1.normal + (if rec.result == "정상" then 1 else 0)
      && after.1.caution == before.1.caution + (if rec.result == "주의" then 1 else 0)
      && after.1.defective == before.1.defective + (if rec.result == "불량" then 1 else 0)
  {
    var rs := ParseStored(item).value;
    assert ([rec] + rs)[1..] == rs;
    assert item.Missing? ==> ComputeStats([], now, dateOf) == InitialStats;
  }

  /** A store that only submissions with a chosen result wrote to: the three counters add up to the total. */
  lemma ClassifiedStoreCountsAddUp(item: StoredValue, rec: Inspection, now: YearMonth, dateOf: string -> Option<YearMonth>)
    requires item.Stored? && AllClassified(item.records)
    requires IsResultLabel(rec.result)
    ensures Unshift(item, rec).Some?
    ensures var s := LoadInspections(Unshift(item, rec).value, now, dateOf).1;
      s.normal + s.caution + s.defective == s.total
  {
    var rs := [rec] + item.records;
    forall i | 0 <= i < |rs| ensures IsResultLabel(rs[i].result) {
      if i > 0 {
        assert rs[i] == item.records[i - 1];
      }
    }
  }

  /** Results 정상, 주의, 불량, 정상 count 2, 1 and 1 of 4. */
  lemma ResultCountsExample(a: Inspection, b: Inspection, c: Inspection, d: Inspection,
                            now: YearMonth, dateOf: string -> Option<YearMonth>)
    requires a.result == "정상" && b.result == "주의" && c.result == "불량" && d.result == "정상"
    ensures var s := ComputeStats([a, b, c, d], now, dateOf);
      s.total == 4 && s.normal == 2 && s.caution == 1 && s.defective == 1
  {
    var rs := [a, b, c, d];
    assert rs[1..] == [b, c, d] && rs[1..][1..] == [c, d] && rs[1..][1..][1..] == [d];
    assert [d][1..] == [];
    assert "주의" != "정상" && "불량" != "정상" && "정상" != "주의" && "불량" != "주의"
        && "정상" != "불량" && "주의" != "불량";
    assert CountResult([d], "주의") == 0 && CountResult([c, d], "주의") == 0;
    assert CountResult([b, c, d], "주의") == 1;
    assert CountResult([d], "불량") == 0 && CountResult([c, d], "불량") == 1;
    assert CountResult([b, c, d], "불량") == 1;
  }

  /** A record dated this month is counted in `thisMonth`, one dated in another month is not. */
  lemma ThisMonthExample(cur: Inspection, other: Inspection, now: YearMonth, month: YearMonth,
                         dateOf: string -> Option<YearMonth>)
    requires dateOf(cur.inspectionDate) == Some(now)
    requires dateOf(other.inspectionDate) == Some(month) && month != now
    ensures CountThisMonth([cur, other], now, dateOf) == 1
  {
    assert [cur, other][1..] == [other];
    assert [other][1..] == [];
  }
}
