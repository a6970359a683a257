/**
 * The inspection page's editing state and its handlers: the form fields, the product
 * lines, the checklist answers, the product picker, and the submit step that stores
 * the record newest-first and produces the report text.
 */
module Draft {
  import opened Wrappers
  import opened Text
  import opened Checklist
  import opened Records
  import Report

  /** The text fields `handleInputChange` sets. */
  datatype Field = InspectionDate | Inspector | SiteName | City | District | Result | Summary

  function FieldValue(f: FormData, field: Field): string
  {
    match field
    case InspectionDate => f.inspectionDate
    case Inspector => f.inspector
    case SiteName => f.siteName
    case City => f.city
    case District => f.district
    case Result => f.result
    case Summary => f.summary
  }

  /** `{ ...prev, [field]: value }`: that field becomes `value`, every other field and the products stay. */
  function WithField(f: FormData, field: Field, value: string): (r: FormData)
    ensures FieldValue(r, field) == value
    ensures forall g: Field :: g != field ==> FieldValue(r, g) == FieldValue(f, g)
    ensures r.products == f.products
  {
    match field
    case InspectionDate => f.(inspectionDate := value)
    case Inspector => f.(inspector := value)
    case SiteName => f.(siteName := value)
    case City => f.(city := value)
    case District => f.(district := value)
    case Result => f.(result := value)
    case Summary => f.(summary := value)
  }

  /** `products.filter((_, i) => i !== index)`: the line at `index` goes, the others keep their order. */
  function WithoutIndex(products: seq<ProductLine>, index: int): (r: seq<ProductLine>)
    ensures 0 <= index < |products| ==> r == products[..index] + products[index + 1..]
    ensures !(0 <= index < |products|) ==> r == products
  {
    if |products| == 0 then []
    else
      var rest := WithoutIndex(products[1..], index - 1);
      if index == 0 then rest
      else
        assert 0 < index < |products| ==> products[..index] == [products[0]] + products[1..][..index - 1];
        [products[0]] + rest
  }

  /** Dropping a line keeps the others well formed. */
  lemma WithoutIndexWellFormed(products: seq<ProductLine>, index: int)
    requires ProductsWellFormed(products)
    ensures ProductsWellFormed(WithoutIndex(products, index))
  {
    var r := WithoutIndex(products, index);
    if 0 <= index < |products| {
      forall i | 0 <= i < |r| ensures InCatalog(r[i].name) && r[i].count >= 1 {
        assert r[i] == if i < index then products[i] else products[i + 1];
      }
    }
  }

  /** `parseInt(value) || 1`: `NaN` and 0 both become 1. */
  function CoerceCount(value: string): (n: int)
    ensures n != 0
    ensures ParseInt(value).None? ==> n == 1
    ensures ParseInt(value).Some? ==> n == (if ParseInt(value).value == 0 then 1 else ParseInt(value).value)
  {
    match ParseInt(value)
    case None => 1
    case Some(v) => if v == 0 then 1 else v
  }

  /** A count typed as its decimal numeral is kept as is, unless it is 0. */
  lemma CoerceCountOfNumeral(n: int)
    ensures CoerceCount(IntToString(n)) == if n == 0 then 1 else n
  {
    ParseIntOfIntToString(n);
  }

  /** An empty input, a fractional input, and a fraction below 1 (parsed as 0, so coerced to 1). */
  lemma CoerceCountExamples()
    ensures CoerceCount("") == 1
    ensures CoerceCount("2.5") == 2
    ensures CoerceCount("0.5") == 1
  {
    assert ParseInt("") == None by {
      assert DigitPrefixLength(Unsigned("")) == 0;
    }
    assert "2.5" == IntToString(2) + ".5";
    ParseIntOfNumeralThen(2, ".5");
    assert "0.5" == IntToString(0) + ".5";
    ParseIntOfNumeralThen(0, ".5");
  }

  const YesAnswer := Answer("yes", "")

  /**
   * The answers the checklist buttons can produce: keys are checklist ids, and a
   * non-empty reason goes only with `'no'` (the reason box is shown only then, and
   * the yes button clears the reason).
   */
  predicate AnswersConsistent(answers: Answers)
  {
    && (forall id :: id in answers ==> id in ItemIds())
    && (forall id :: id in answers && answers[id].reason != "" ==> answers[id].answer == "no")
  }

  /** `Object.keys(checklistAnswers).length` never exceeds the 23 items. */
  lemma AnsweredAtMostItems(answers: Answers)
    requires AnswersConsistent(answers)
    ensures |answers| <= |Items|
  {
    ItemIdsSize();
    assert answers.Keys <= ItemIds();
    SubsetSize(answers.Keys, ItemIds());
  }

  lemma {:induction false} SubsetSize(a: set<string>, b: set<string>)
    requires a <= b
    ensures |a| <= |b|
    decreases |b|
  {
    if a != b {
      var x :| x in b && x !in a;
      SubsetSize(a, b - {x});
    }
  }

  /**
   * The `reduce` in `setAllYes`, over whatever item list it is given: every id mapped
   * to `{answer: 'yes', reason: ''}`, nothing else.
   */
  method BuildAllYes(items: seq<ChecklistItem>) returns (acc: Answers)
    ensures acc.Keys == IdsUpTo(items, |items|)
    ensures forall id :: id in acc ==> acc[id] == YesAnswer
  {
    acc := map[];
    var i := 0;
    while i < |items|
      invariant 0 <= i <= |items|
      invariant acc.Keys == IdsUpTo(items, i)
      invariant forall id :: id in acc ==> acc[id] == YesAnswer
    {
      assert IdsUpTo(items, i + 1) == IdsUpTo(items, i) + {items[i].id};
      acc := acc[items[i].id := YesAnswer];
      i := i + 1;
    }
  }

  /** `cityData[city] || []`: the districts offered for the chosen city, none for an unknown one. */
  function AvailableDistricts(cityData: map<string, seq<string>>, city: string): (r: seq<string>)
    ensures city in cityData ==> r == cityData[city]
    ensures city !in cityData ==> r == []
  {
    if city in cityData then cityData[city] else []
  }

  /** The browser storage under the key `'inspections'`. */
  class LocalStore {
    var item: StoredValue

    constructor (initial: StoredValue)
      ensures item == initial
    {
      item := initial;
    }
  }

  /** Why `onSubmit` stored nothing: the stored text did not parse, or `setItem` threw. */
  datatype SubmitError = StorageUnparsable | WriteFailed

  /** The component state of the inspection page. */
  class InspectionDraft {
    var formData: FormData
    var checklistAnswers: Answers
    var selectedProduct: string
    var productCount: int
    var showProductForm: bool

    /** What the handlers keep true given what the form's inputs can send them. */
    ghost predicate Valid()
      reads this
    {
      && ProductsWellFormed(formData.products)
      && (selectedProduct == "" || InCatalog(selectedProduct))
      && productCount != 0
      && (formData.result == "" || IsResultLabel(formData.result))
    }

    /** The initial state; `today` is `new Date().toISOString().split('T')[0]`. */
    constructor (today: string)
      ensures Valid() && AnswersConsistent(checklistAnswers)
      ensures formData == FormData(today, "", "", "", "", "", "", [])
      ensures checklistAnswers == map[]
      ensures selectedProduct == "" && productCount == 1 && !showProductForm
    {
      formData := FormData(today, "", "", "", "", "", "", []);
      checklistAnswers := map[];
      selectedProduct := "";
      productCount := 1;
      showProductForm := false;
    }

    /** `handleInputChange`; the result picker sends only its four option values. */
    method HandleInputChange(field: Field, value: string)
      requires Valid()
      requires field == Result ==> value == "" || IsResultLabel(value)
      modifies this
      ensures Valid()
      ensures formData == WithField(old(formData), field, value)
      ensures checklistAnswers == old(checklistAnswers)
      ensures selectedProduct == old(selectedProduct) && productCount == old(productCount)
      ensures showProductForm == old(showProductForm)
    {
      formData := WithField(formData, field, value);
    }

    /** The product picker's `onChange`; it offers `''` and the catalog names. */
    method SelectProduct(name: string)
      requires Valid()
      requires name == "" || InCatalog(name)
      modifies this
      ensures Valid()
      ensures selectedProduct == name
      ensures formData == old(formData) && checklistAnswers == old(checklistAnswers)
      ensures productCount == old(productCount) && showProductForm == old(showProductForm)
    {
      selectedProduct := name;
    }

    /** The count input's `onChange` (`setProductCount(parseInt(e.target.value) || 1)`). */
    method SetProductCount(value: string)
      requires Valid()
      modifies this
      ensures Valid()
      ensures productCount == CoerceCount(value)
      ensures formData == old(formData) && checklistAnswers == old(checklistAnswers)
      ensures selectedProduct == old(selectedProduct) && showProductForm == old(showProductForm)
    {
      productCount := CoerceCount(value);
    }

    /** The "add product" and "cancel" buttons that open and close the picker. */
    method SetShowProductForm(show: bool)
      requires Valid()
      modifies this
      ensures Valid()
      ensures showProductForm == show
      ensures formData == old(formData) && checklistAnswers == old(checklistAnswers)
      ensures selectedProduct == old(selectedProduct) && productCount == old(productCount)
    {
      showProductForm := show;
    }

    /**
     * `addProduct`: with a product chosen and a positive count, one line is appended
     * and the picker is reset and closed; otherwise nothing changes.
     */
    method AddProduct()
      requires Valid()
      modifies this
      ensures Valid()
      ensures checklistAnswers == old(checklistAnswers)
      ensures old(selectedProduct) != "" && old(productCount) > 0 ==>
        && formData == old(formData).(products := old(formData.products) + [ProductLine(old(selectedProduct), old(productCount))])
        && selectedProduct == "" && productCount == 1 && !showProductForm
      ensures !(old(selectedProduct) != "" && old(productCount) > 0) ==>
        && formData == old(formData)
        && selectedProduct == old(selectedProduct) && productCount == old(productCount)
        && showProductForm == old(showProductForm)
    {
      if selectedProduct != "" && productCount > 0 {
        var newProduct := ProductLine(selectedProduct, productCount);
        formData := formData.(products := formData.products + [newProduct]);
        selectedProduct := "";
        productCount := 1;
        showProductForm := false;
      }
    }

    /** `removeProduct(index)`: the line at `index` goes; an index out of range changes nothing. */
    method RemoveProduct(index: int)
      requires Valid()
      modifies this
      ensures Valid()
      ensures formData == old(formData).(products := WithoutIndex(old(formData.products), index))
      ensures checklistAnswers == old(checklistAnswers)
      ensures selectedProduct == old(selectedProduct) && productCount == old(productCount)
      ensures showProductForm == old(showProductForm)
    {
      WithoutIndexWellFormed(formData.products, index);
      formData := formData.(products := WithoutIndex(formData.products, index));
    }

    /** `updateChecklistAnswer`: the entry for `itemId` becomes `{answer, reason}`, every other entry stays. */
    method UpdateChecklistAnswer(itemId: string, answer: string, reason: string)
      requires Valid()
      modifies this
      ensures Valid()
      ensures checklistAnswers == old(checklistAnswers)[itemId := Answer(answer, reason)]
      ensures AnswersConsistent(old(checklistAnswers)) && itemId in ItemIds() && (reason != "" ==> answer == "no")
              ==> AnswersConsistent(checklistAnswers)
      ensures formData == old(formData) && selectedProduct == old(selectedProduct)
      ensures productCount == old(productCount) && showProductForm == old(showProductForm)
    {
      checklistAnswers := checklistAnswers[itemId := Answer(answer, reason)];
    }

    /** The yes button of item `i` (`updateChecklistAnswer(item.id, 'yes')`). */
    method AnswerYes(i: nat)
      requires Valid() && AnswersConsistent(checklistAnswers)
      requires i < |Items|
      modifies this
      ensures Valid() && AnswersConsistent(checklistAnswers)
      ensures checklistAnswers == old(checklistAnswers)[Items[i].id := YesAnswer]
      ensures formData == old(formData) && selectedProduct == old(selectedProduct)
      ensures productCount == old(productCount) && showProductForm == old(showProductForm)
    {
      UpdateChecklistAnswer(Items[i].id, "yes", "");
    }

    /** The no button of item `i` (`updateChecklistAnswer(item.id, 'no')`), which also clears the reason. */
    method AnswerNo(i: nat)
      requires Valid() && AnswersConsistent(checklistAnswers)
      requires i < |Items|
      modifies this
      ensures Valid() && AnswersConsistent(checklistAnswers)
      ensures checklistAnswers == old(checklistAnswers)[Items[i].id := Answer("no", "")]
      ensures formData == old(formData) && selectedProduct == old(selectedProduct)
      ensures productCount == old(productCount) && showProductForm == old(showProductForm)
    {
      UpdateChecklistAnswer(Items[i].id, "no", "");
    }

    /** Typing in the reason box of item `i` (`updateChecklistAnswer(item.id, 'no', e.target.value)`). */
    method EnterReason(i: nat, reason: string)
      requires Valid() && AnswersConsistent(checklistAnswers)
      requires i < |Items|
      modifies this
      ensures Valid() && AnswersConsistent(checklistAnswers)
      ensures checklistAnswers == old(checklistAnswers)[Items[i].id := Answer("no", reason)]
      ensures formData == old(formData) && selectedProduct == old(selectedProduct)
      ensures productCount == old(productCount) && showProductForm == old(showProductForm)
    {
      UpdateChecklistAnswer(Items[i].id, "no", reason);
    }

    /** `Object.keys(checklistAnswers).length`, shown as "answered / 23". */
    function TotalAnswered(): (n: nat)
      reads this
      ensures n == |checklistAnswers|
      ensures AnswersConsistent(checklistAnswers) ==> n <= |Items|
    {
      if AnswersConsistent(checklistAnswers) then AnsweredAtMostItems(checklistAnswers); |checklistAnswers|
      else |checklistAnswers|
    }

    /**
     * `setAllYes`: the answers become exactly the 23 ids, each `'yes'` with no reason,
     * whatever they were before (so a second call changes nothing).
     */
    method SetAllYes()
      requires Valid()
      modifies this
      ensures Valid() && AnswersConsistent(checklistAnswers)
      ensures checklistAnswers.Keys == ItemIds()
      ensures forall id :: id in checklistAnswers ==> checklistAnswers[id] == YesAnswer
      ensures TotalAnswered() == 23
      ensures formData == old(formData) && selectedProduct == old(selectedProduct)
      ensures productCount == old(productCount) && showProductForm == old(showProductForm)
    {
      var allYes := BuildAllYes(Items);
      checklistAnswers := allYes;
      assert IdsUpTo(Items, |Items|) == ItemIds();
      ItemIdsSize();
    }

    /** The fields the form marks `required`; the browser fires `onSubmit` only when all are non-empty. */
    predicate RequiredFilled()
      reads this
    {
      && formData.inspectionDate != ""
      && formData.inspector != ""
      && formData.siteName != ""
      && formData.result != ""
      && formData.city != ""
      && formData.district != ""
    }

    /**
     * `onSubmit`: build the record, read the stored list, put the record first, write it
     * back, and produce the report text. `id` and `createdAt` stand for `Date.now()` and
     * the ISO timestamp, `generatedAt` for the localized generation time, and `writeOk`
     * for whether `setItem` succeeds. On either failure the store is left as it was.
     */
    method Submit(store: LocalStore, id: string, createdAt: string, generatedAt: string, writeOk: bool)
      returns (outcome: Result<string, SubmitError>)
      requires Valid() && RequiredFilled()
      modifies store
      ensures old(store.item).Unparsable? ==>
        outcome == Failure(StorageUnparsable) && store.item == old(store.item)
      ensures !old(store.item).Unparsable? && !writeOk ==>
        outcome == Failure(WriteFailed) && store.item == old(store.item)
      ensures !old(store.item).Unparsable? && writeOk ==>
        && store.item == Stored([NewRecord(formData, checklistAnswers, id, createdAt)] + ParseStored(old(store.item)).value)
        && outcome == Success(Report.ReportText(formData, checklistAnswers, generatedAt))
      ensures outcome.Success? ==>
        && store.item.Stored? && |store.item.records| > 0
        && IsResultLabel(store.item.records[0].result)
    {
      var newInspection := NewRecord(formData, checklistAnswers, id, createdAt);
      var next := Unshift(store.item, newInspection);
      if next.None? {
        return Failure(StorageUnparsable);
      }
      if !writeOk {
        return Failure(WriteFailed);
      }
      store.item := next.value;
      outcome := Success(Report.ReportText(formData, checklistAnswers, generatedAt));
    }
  }
}
