/**
 * The text report `onSubmit` generates from the draft: a fixed layout with the basic
 * information, one line per product, the product total, the 12 installation and 11
 * check items with their status, the summary and a footer with the generation time.
 */
module Report {
  import opened Wrappers
  import opened Text
  import opened Checklist
  import opened Records

  const Rule := "========================================"
  const YesMarker := "✓ 정상"
  const NoMarker := "✗ 불량"
  const UnsetMarker := "○ 미확인"
  const NoSummary := "점검 요약이 입력되지 않았습니다."

  /** The status of an item: `'yes'` and `'no'` have their markers, anything else (or no entry) is unconfirmed. */
  function StatusMarker(answers: Answers, id: string): (m: string)
    ensures m == YesMarker <==> id in answers && answers[id].answer == "yes"
    ensures m == NoMarker <==> id in answers && answers[id].answer == "no"
    ensures m == UnsetMarker <==> id !in answers || answers[id].answer !in {"yes", "no"}
  {
    if id in answers && answers[id].answer == "yes" then YesMarker
    else if id in answers && answers[id].answer == "no" then NoMarker
    else UnsetMarker
  }

  /** The reason in parentheses, present exactly when the entry has a non-empty reason (the answer is not consulted). */
  function ReasonSuffix(answers: Answers, id: string): (s: string)
    ensures s != "" <==> id in answers && answers[id].reason != ""
    ensures s != "" ==> s == " (사유: " + answers[id].reason + ")"
  {
    if id in answers && answers[id].reason != "" then " (사유: " + answers[id].reason + ")" else ""
  }

  /** `caption: status` followed by the reason suffix. */
  function ItemLine(item: ChecklistItem, answers: Answers): string
  {
    item.caption + ": " + StatusMarker(answers, item.id) + ReasonSuffix(answers, item.id)
  }

  /** An item line starts with the caption and `": "`, followed by the marker and then the suffix. */
  lemma ItemLineShape(item: ChecklistItem, answers: Answers)
    ensures var r, k := ItemLine(item, answers), |item.caption| + 2;
      && |r| >= k && r[..k] == item.caption + ": "
      && r[k..] == StatusMarker(answers, item.id) + ReasonSuffix(answers, item.id)
  {
    var marker := StatusMarker(answers, item.id) + ReasonSuffix(answers, item.id);
    assert ItemLine(item, answers) == (item.caption + ": ") + marker;
  }

  /** One line per item, in the order of `items`. */
  function ChecklistLines(items: seq<ChecklistItem>, answers: Answers): (r: seq<string>)
    ensures |r| == |items|
    ensures forall i :: 0 <= i < |items| ==> r[i] == ItemLine(items[i], answers)
  {
    seq(|items|, i requires 0 <= i < |items| => ItemLine(items[i], answers))
  }

  function ProductText(p: ProductLine): string
  {
    p.name + ": " + IntToString(p.count) + "대"
  }

  /** A product line is `name: `, the count's numeral and `대`, and the numeral reads back as the count. */
  lemma ProductTextReadsBack(p: ProductLine)
    ensures var r := ProductText(p);
      && |r| >= |p.name| + 3
      && r[..|p.name| + 2] == p.name + ": " && r[|r| - 1] == '대'
      && ParseInt(r[|p.name| + 2..|r| - 1]) == Some(p.count)
  {
    var r := ProductText(p);
    assert r[|p.name| + 2..|r| - 1] == IntToString(p.count);
    assert r[..|p.name| + 2] == p.name + ": ";
    ParseIntOfIntToString(p.count);
  }

  /** One line per product, in stored order. */
  function ProductLines(products: seq<ProductLine>): (r: seq<string>)
    ensures |r| == |products|
    ensures forall i :: 0 <= i < |products| ==> r[i] == ProductText(products[i])
  {
    seq(|products|, i requires 0 <= i < |products| => ProductText(products[i]))
  }

  function TotalLine(products: seq<ProductLine>): string
  {
    "총 설치 대수: " + IntToString(TotalCount(products)) + "대"
  }

  /** The total line is the fixed label, the total's numeral and `대`, and the numeral reads back as the total. */
  lemma TotalLineReadsBack(products: seq<ProductLine>)
    ensures var r := TotalLine(products);
      && |r| >= 10 && r[..9] == "총 설치 대수: " && r[|r| - 1] == '대'
      && ParseInt(r[9..|r| - 1]) == Some(TotalCount(products))
  {
    var r := TotalLine(products);
    assert r[9..|r| - 1] == IntToString(TotalCount(products));
    assert r[..9] == "총 설치 대수: ";
    ParseIntOfIntToString(TotalCount(products));
  }

  /** `summary || placeholder`: never empty. */
  function SummaryText(summary: string): (r: string)
    ensures r != ""
    ensures summary != "" ==> r == summary
    ensures summary == "" ==> r == NoSummary
  {
    if summary != "" then summary else NoSummary
  }

  /** The title, the basic information block and the product section heading. */
  function BasicInfoLines(f: FormData): seq<string>
  {
    [ "보일러 점검 보고서",
      "",
      Rule,
      "점검 기본 정보",
      Rule,
      "점검일: " + f.inspectionDate,
      "점검자: " + f.inspector,
      "현장명: " + f.siteName,
      "주소: " + f.city + " " + f.district,
      "점검 결과: " + f.result,
      "",
      Rule,
      "설치 제품 정보",
      Rule ]
  }

  /** From the product total to the installation section heading. */
  function ChecklistHeadLines(products: seq<ProductLine>): seq<string>
  {
    [ TotalLine(products),
      "",
      Rule,
      "점검 체크리스트 결과",
      Rule,
      "",
      "[설치 항목 - 12개]" ]
  }

  const CheckHeadLines: seq<string> := ["", "[점검 항목 - 11개]"]

  /** The summary section and the footer; the last part is the indentation before the closing backtick. */
  function ClosingLines(summary: string, generatedAt: string): seq<string>
  {
    [ "",
      Rule,
      "점검 요약",
      Rule,
      SummaryText(summary),
      "",
      Rule,
      "보고서 생성 정보",
      Rule,
      "생성 시간: " + generatedAt,
      "시스템: 보일러 점검 관리 시스템 v1.0",
      "      " ]
  }

  /**
   * The report as the template literal writes it: newline-separated parts, three of
   * which are themselves newline joins (the products, the installation items, the
   * check items). `generatedAt` is the `toLocaleString('ko-KR')` time.
   */
  function ReportText(f: FormData, answers: Answers, generatedAt: string): string
  {
    Join(BasicInfoLines(f)
         + [Join(ProductLines(f.products), "\n")]
         + ChecklistHeadLines(f.products)
         + [Join(ChecklistLines(ItemsIn(Items, Install), answers), "\n")]
         + CheckHeadLines
         + [Join(ChecklistLines(ItemsIn(Items, Check), answers), "\n")]
         + ClosingLines(f.summary, generatedAt),
         "\n")
  }

  /** The product block: one line per product, or a single blank line when there are none. */
  function ProductBlock(products: seq<ProductLine>): (r: seq<string>)
    ensures |r| == if products == [] then 1 else |products|
    ensures products == [] ==> r == [""]
    ensures products != [] ==> r == ProductLines(products)
  {
    if products == [] then [""] else ProductLines(products)
  }

  /**
   * The report line by line, each joined block spread out into its own lines; the
   * two checklist sections are the first 12 and the last 11 items (ReportTextIsLines
   * shows that this is what filtering by category gives).
   */
  function ReportLines(f: FormData, answers: Answers, generatedAt: string): seq<string>
  {
    BasicInfoLines(f)
    + ProductBlock(f.products)
    + ChecklistHeadLines(f.products)
    + ChecklistLines(Items[..12], answers)
    + CheckHeadLines
    + ChecklistLines(Items[12..], answers)
    + ClosingLines(f.summary, generatedAt)
  }

  /** Spreading the three joined blocks of the template into their own lines leaves the text unchanged. */
  lemma SpreadBlocks(a: seq<string>, p: seq<string>, pb: seq<string>, b: seq<string>, i: seq<string>,
                     c: seq<string>, k: seq<string>, d: seq<string>, sep: string)
    requires |i| > 0 && |k| > 0
    requires if p == [] then pb == [""] else pb == p
    ensures Join(a + [Join(p, sep)] + b + [Join(i, sep)] + c + [Join(k, sep)] + d, sep)
         == Join(a + pb + b + i + c + k + d, sep)
  {
    var jp, ji, jk := Join(p, sep), Join(i, sep), Join(k, sep);
    var x2, x3 := a + pb + b, a + pb + b + i + c;
    var r1, r2 := b + [ji] + c + [jk] + d, c + [jk] + d;
    Regroup5(a + [jp], b, [ji], c, [jk], d);
    Regroup5(a + pb, b, [ji], c, [jk], d);
    Regroup3(x2 + [ji], c, [jk], d);
    Regroup3(x2 + i, c, [jk], d);
    if p != [] {
      JoinFlatten(a, p, r1, sep);
    } else {
      assert [jp] == pb;
    }
    JoinFlatten(x2, i, r2, sep);
    JoinFlatten(x3, k, d, sep);
  }

  lemma Regroup3(x: seq<string>, b: seq<string>, c: seq<string>, d: seq<string>)
    ensures x + b + c + d == x + (b + c + d)
  {
  }

  lemma Regroup5(x: seq<string>, b: seq<string>, c: seq<string>, d: seq<string>, e: seq<string>, f: seq<string>)
    ensures x + b + c + d + e + f == x + (b + c + d + e + f)
  {
  }

  /** The template text is the newline join of the report's lines. */
  lemma ReportTextIsLines(f: FormData, answers: Answers, generatedAt: string)
    ensures ReportText(f, answers, generatedAt) == Join(ReportLines(f, answers, generatedAt), "\n")
  {
    InstallItemsAreFirst();
    CheckItemsAreLast();
    SpreadBlocks(BasicInfoLines(f), ProductLines(f.products), ProductBlock(f.products),
                 ChecklistHeadLines(f.products), ChecklistLines(Items[..12], answers),
                 CheckHeadLines, ChecklistLines(Items[12..], answers),
                 ClosingLines(f.summary, generatedAt), "\n");
  }

  /**
   * Where each part sits in the report's entry list, n being the number of
   * product-block entries: the basic information first, then the products in stored
   * order, the total, the 12 installation items and the 11 check items in definition
   * order, the summary and the generation time. Entries are the template's lines,
   * except that a summary holding newlines spans several lines within its entry.
   */
  lemma ReportLayout(f: FormData, answers: Answers, generatedAt: string)
    ensures var lines, n := ReportLines(f, answers, generatedAt), |ProductBlock(f.products)|;
      && |lines| == 58 + n
      && lines[..14] == BasicInfoLines(f)
      && lines[14..14 + n] == ProductBlock(f.products)
      && lines[14 + n] == TotalLine(f.products)
      && lines[20 + n] == "[설치 항목 - 12개]"
      && lines[21 + n..33 + n] == ChecklistLines(Items[..12], answers)
      && lines[34 + n] == "[점검 항목 - 11개]"
      && lines[35 + n..46 + n] == ChecklistLines(Items[12..], answers)
      && lines[50 + n] == SummaryText(f.summary)
      && lines[55 + n] == "생성 시간: " + generatedAt
  {
    var a, pb := BasicInfoLines(f), ProductBlock(f.products);
    var b, c := ChecklistHeadLines(f.products), CheckHeadLines;
    var d := ClosingLines(f.summary, generatedAt);
    var i := ChecklistLines(Items[..12], answers);
    var k := ChecklistLines(Items[12..], answers);
    var lines, n := ReportLines(f, answers, generatedAt), |pb|;
    assert |i| == 12 && |k| == 11 by {
      ChecklistCategories();
    }
    assert lines == a + pb + b + i + c + k + d;
    Slices(lines, a, pb, b, i, c, k, d);
    BlockEntries(f.products, f.summary, generatedAt);
  }

  lemma BlockEntries(products: seq<ProductLine>, summary: string, generatedAt: string)
    ensures |ChecklistHeadLines(products)| == 7 && |ClosingLines(summary, generatedAt)| == 12
    ensures ChecklistHeadLines(products)[0] == TotalLine(products)
    ensures ChecklistHeadLines(products)[6] == "[설치 항목 - 12개]"
    ensures ClosingLines(summary, generatedAt)[4] == SummaryText(summary)
    ensures ClosingLines(summary, generatedAt)[9] == "생성 시간: " + generatedAt
  {
  }

  /** The positions of seven concatenated blocks of lengths 14, n, 7, 12, 2, 11 and 12. */
  lemma Slices(lines: seq<string>, a: seq<string>, pb: seq<string>, b: seq<string>, i: seq<string>,
               c: seq<string>, k: seq<string>, d: seq<string>)
    requires |a| == 14 && |b| == 7 && |i| == 12 && |c| == 2 && |k| == 11 && |d| == 12
    requires lines == a + pb + b + i + c + k + d
    ensures var n := |pb|;
      && |lines| == 58 + n
      && lines[..14] == a && lines[14..14 + n] == pb
      && lines[14 + n] == b[0] && lines[20 + n] == b[6]
      && lines[21 + n..33 + n] == i && lines[34 + n] == c[1]
      && lines[35 + n..46 + n] == k
      && lines[50 + n] == d[4] && lines[55 + n] == d[9]
  {
    var n := |pb|;
    assert lines[14 + n..21 + n] == b;
    assert lines[33 + n..35 + n] == c;
    assert lines[46 + n..] == d;
  }

  /** With the answers the form can record, a reason suffix appears only after the NO marker. */
  lemma SuffixOnlyAfterNo(answers: Answers, id: string)
    requires forall k :: k in answers && answers[k].reason != "" ==> answers[k].answer == "no"
    ensures ReasonSuffix(answers, id) != "" ==> StatusMarker(answers, id) == NoMarker
  {
  }

  /** `'no'` with reason `'누수'` shows the NO marker and the reason; `'no'` with no reason only the marker; no entry the unconfirmed marker. */
  lemma StatusExamples(item: ChecklistItem, answers: Answers)
    ensures ItemLine(item, answers[item.id := Answer("no", "누수")]) == item.caption + ": ✗ 불량 (사유: 누수)"
    ensures ItemLine(item, answers[item.id := Answer("no", "")]) == item.caption + ": ✗ 불량"
    ensures ItemLine(item, answers - {item.id}) == item.caption + ": ○ 미확인"
  {
  }

  /** With no answers recorded, every item line shows the unconfirmed marker and no reason. */
  lemma NoAnswersAllUnset(items: seq<ChecklistItem>, answers: Answers)
    requires answers == map[]
    ensures forall j :: 0 <= j < |items| ==> ChecklistLines(items, answers)[j] == items[j].caption + ": " + UnsetMarker
  {
  }

  /**
   * A draft with no products and no answers still yields the full layout: one blank
   * product line, a total of 0, and all 23 items unconfirmed.
   */
  lemma EmptyDraftReport(f: FormData, answers: Answers, generatedAt: string)
    requires f.products == [] && answers == map[]
    ensures var lines := ReportLines(f, answers, generatedAt);
      && |lines| == 59
      && lines[14] == ""
      && lines[15] == "총 설치 대수: 0대"
      && (forall j :: 0 <= j < 12 ==> lines[22 + j] == Items[j].caption + ": " + UnsetMarker)
      && (forall j :: 12 <= j < 23 ==> lines[24 + j] == Items[j].caption + ": " + UnsetMarker)
  {
    EmptyDraftHead(f, answers, generatedAt);
    EmptyDraftItems(f, answers, generatedAt);
  }

  /** The product part of the empty-draft report: one blank line and a total of 0. */
  lemma EmptyDraftHead(f: FormData, answers: Answers, generatedAt: string)
    requires f.products == []
    ensures var lines := ReportLines(f, answers, generatedAt);
      |lines| == 59 && lines[14] == "" && lines[15] == "총 설치 대수: 0대"
  {
    var lines := ReportLines(f, answers, generatedAt);
    ReportLayout(f, answers, generatedAt);
    assert lines[14..15] == [""];
    assert TotalCount(f.products) == 0;
  }

  /** The checklist part of the empty-draft report: all 23 items unconfirmed, in order. */
  lemma EmptyDraftItems(f: FormData, answers: Answers, generatedAt: string)
    requires f.products == [] && answers == map[]
    ensures var lines := ReportLines(f, answers, generatedAt);
      && |lines| == 59
      && (forall j :: 0 <= j < 12 ==> lines[22 + j] == Items[j].caption + ": " + UnsetMarker)
      && (forall j :: 12 <= j < 23 ==> lines[24 + j] == Items[j].caption + ": " + UnsetMarker)
  {
    var lines := ReportLines(f, answers, generatedAt);
    ReportLayout(f, answers, generatedAt);
    assert Items[0..12] == Items[..12] && Items[12..23] == Items[12..] by {
      ChecklistCategories();
    }
    UnsetSection(lines, 22, Items, 0, 12, answers);
    UnsetSection(lines, 24, Items, 12, 23, answers);
  }

  /** An unanswered section of the line list: the lines at `offset + j` show items `lo <= j < hi` unconfirmed. */
  lemma UnsetSection(lines: seq<string>, offset: nat, items: seq<ChecklistItem>, lo: nat, hi: nat, answers: Answers)
    requires lo <= hi <= |items| && answers == map[]
    requires offset + hi <= |lines| && lines[offset + lo..offset + hi] == ChecklistLines(items[lo..hi], answers)
    ensures forall j :: lo <= j < hi ==> lines[offset + j] == items[j].caption + ": " + UnsetMarker
  {
    var section := ChecklistLines(items[lo..hi], answers);
    NoAnswersAllUnset(items[lo..hi], answers);
    forall j | lo <= j < hi ensures lines[offset + j] == items[j].caption + ": " + UnsetMarker {
      assert lines[offset + j] == lines[offset + lo..offset + hi][j - lo] == section[j - lo];
      assert items[lo..hi][j - lo] == items[j];
    }
  }

  /** The total of products 3 and 2 reads 5. */
  lemma TotalLineExample(a: string, b: string)
    ensures TotalLine([ProductLine(a, 3), ProductLine(b, 2)]) == "총 설치 대수: 5대"
  {
    TotalCountExample(a, b);
  }
}
