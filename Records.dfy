/**
 * The inspection record and its parts, as the inspection page builds them and the
 * home page reads them back from the `'inspections'` storage key.
 */
module Records {
  import opened Wrappers
  import opened Checklist

  /** One installed-product line `{name, count}`. */
  datatype ProductLine = ProductLine(name: string, count: int)

  /** One checklist answer `{answer, reason}`; `answer` is `'yes'` or `'no'` as the buttons set it. */
  datatype Answer = Answer(answer: string, reason: string)

  /** The answer map, keyed by checklist item id; a missing key is an unanswered item. */
  type Answers = map<string, Answer>

  /** The form state `InspectionForm` of the inspection page. */
  datatype FormData = FormData(
    inspectionDate: string,
    inspector: string,
    siteName: string,
    city: string,
    district: string,
    result: string,
    summary: string,
    products: seq<ProductLine>)

  /**
   * A stored inspection. `products` and `checklistAnswers` are optional because
   * records written before those fields existed lack them.
   */
  datatype Inspection = Inspection(
    id: string,
    inspectionDate: string,
    inspector: string,
    siteName: string,
    address: string,
    result: string,
    summary: string,
    products: Option<seq<ProductLine>>,
    checklistAnswers: Option<Answers>,
    createdAt: string)

  /**
   * What `localStorage.getItem('inspections')` holds: nothing (or the empty string),
   * a JSON array of records, or text that does not parse as such an array.
   */
  datatype StoredValue = Missing | Stored(records: seq<Inspection>) | Unparsable

  /** `data ? JSON.parse(data) : []`, with `None` for a parse failure. */
  function ParseStored(item: StoredValue): (r: Option<seq<Inspection>>)
    ensures r.None? <==> item.Unparsable?
    ensures item.Missing? ==> r == Some([])
    ensures item.Stored? ==> r == Some(item.records)
  {
    match item
    case Missing => Some([])
    case Stored(rs) => Some(rs)
    case Unparsable => None
  }

  /** The three values the result picker offers besides its empty option. */
  predicate IsResultLabel(result: string)
  {
    result == "정상" || result == "주의" || result == "불량"
  }

  /** A product line the form can produce: a catalog product, at least one unit. */
  predicate ProductsWellFormed(products: seq<ProductLine>)
  {
    forall i :: 0 <= i < |products| ==> InCatalog(products[i].name) && products[i].count >= 1
  }

  /** `products.reduce((sum, p) => sum + p.count, 0)`. */
  function TotalCount(products: seq<ProductLine>): (t: int)
    ensures products == [] ==> t == 0
    ensures (forall i :: 0 <= i < |products| ==> products[i].count >= 0) ==> t >= 0
  {
    if |products| == 0 then 0
    else
      var init := products[..|products| - 1];
      assert (forall i :: 0 <= i < |products| ==> products[i].count >= 0) ==>
             (forall i :: 0 <= i < |init| ==> init[i].count >= 0) by {
        forall i | 0 <= i < |init| ensures init[i] == products[i] { }
      }
      TotalCount(init) + products[|products| - 1].count
  }

  /** The total over a concatenation is the sum of the totals. */
  lemma {:induction false} TotalCountConcat(a: seq<ProductLine>, b: seq<ProductLine>)
    ensures TotalCount(a + b) == TotalCount(a) + TotalCount(b)
    decreases |b|
  {
    if |b| > 0 {
      var b' := b[..|b| - 1];
      assert (a + b)[..|a + b| - 1] == a + b';
      TotalCountConcat(a, b');
    } else {
      assert a + b == a;
    }
  }

  /** With every count at least 1, the total is at least the number of lines (so 0 only for no lines). */
  lemma {:induction false} TotalCountAtLeastLines(products: seq<ProductLine>)
    requires ProductsWellFormed(products)
    ensures TotalCount(products) >= |products|
    ensures TotalCount(products) == 0 <==> products == []
  {
    if |products| > 0 {
      var init := products[..|products| - 1];
      assert ProductsWellFormed(init) by {
        forall i | 0 <= i < |init| ensures InCatalog(init[i].name) && init[i].count >= 1 {
          assert init[i] == products[i];
        }
      }
      TotalCountAtLeastLines(init);
    }
  }

  /** Two lines of 3 and 2 units total 5. */
  lemma TotalCountExample(a: string, b: string)
    ensures TotalCount([ProductLine(a, 3), ProductLine(b, 2)]) == 5
  {
    var ps := [ProductLine(a, 3), ProductLine(b, 2)];
    assert ps[..1] == [ProductLine(a, 3)];
    assert ps[..1][..0] == [];
    assert TotalCount(ps[..1]) == 3;
  }

  /** The record `onSubmit` builds from the draft; `id` and `createdAt` come from the clock. */
  function NewRecord(f: FormData, answers: Answers, id: string, createdAt: string): (r: Inspection)
    ensures r.address == f.city + " " + f.district
    ensures r.products == Some(f.products) && r.checklistAnswers == Some(answers)
    ensures r.inspectionDate == f.inspectionDate && r.inspector == f.inspector && r.siteName == f.siteName
    ensures r.result == f.result && r.summary == f.summary && r.id == id && r.createdAt == createdAt
  {
    Inspection(id, f.inspectionDate, f.inspector, f.siteName, f.city + " " + f.district,
               f.result, f.summary, Some(f.products), Some(answers), createdAt)
  }

  /**
   * Read the stored list, `unshift` the record, and the value to write back;
   * `None` when the stored text does not parse (`JSON.parse` throws).
   */
  function Unshift(item: StoredValue, rec: Inspection): (r: Option<StoredValue>)
    ensures r.None? <==> item.Unparsable?
    ensures r.Some? ==> r.value.Stored? && r.value.records == [rec] + ParseStored(item).value
  {
    match ParseStored(item)
    case None => None
    case Some(rs) => Some(Stored([rec] + rs))
  }

  /** Two submissions in a row leave the second record first, then the first, then the old ones. */
  lemma NewestFirst(item: StoredValue, r1: Inspection, r2: Inspection)
    requires !item.Unparsable?
    ensures Unshift(item, r1).Some?
    ensures Unshift(Unshift(item, r1).value, r2).Some?
    ensures ParseStored(Unshift(Unshift(item, r1).value, r2).value) == Some([r2, r1] + ParseStored(item).value)
  {
    assert [r2] + ([r1] + ParseStored(item).value) == [r2, r1] + ParseStored(item).value;
  }
}
