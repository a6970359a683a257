# Boiler inspection: inspection page and dashboard

A model of the two pages of the boiler inspection web application that hold its logic:

- The **inspection page** (`src/pages/InspectionPage.tsx`) holds a draft inspection. It has:
  - the basic fields: date, inspector, site, city, district and result;
  - a list of installed product lines (`{name, count}`), taken from a four-product catalog;
  - a 23-item checklist (12 installation items, 11 check items) with yes/no answers and a reason for "no".
  
  On submit it:
  - builds a record;
  - puts the record at the front of the list stored under the `'inspections'` key;
  - produces a plain-text report with a fixed layout.
- The **home page** (`src/pages/HomePage.tsx`) loads that list once. It computes five counters: total, this month, 정상 (normal), 주의 (caution) and 불량 (defective). It shows the eight most recent records, each with a one-line product summary.

The model has seven modules:

| module | contents |
|---|---|
| `Wrappers` | `Option` and `Result`. |
| `Text` | Newline/comma joining, decimal rendering of counts, and the `parseInt` used by the count input. |
| `Checklist` | The 23 checklist items and the product catalog, verbatim, with their structural facts. |
| `Records` | The form data, the stored record, the storage value, the product total, record construction and the newest-first insertion. |
| `Report` | The report template as a function. Also the lemmas that fix its line layout, the status markers and the reason suffix. |
| `Draft` | The page state. It is a class `InspectionDraft` whose methods are the handlers (`handleInputChange`, product picker, `addProduct`, `removeProduct`, `updateChecklistAnswer`, `setAllYes`, `onSubmit`). Browser storage is a class `LocalStore`. |
| `Dashboard` | `loadInspections` with its counters, `recentInspections` and the product summary of a record card. |

The page state is a class because each handler overwrites the component's state cells (each setter replaces a cell's value with a newly built one). The report, the counters and the summaries are pure functions of their inputs.

The class's `Valid()` predicate lists the facts the handlers keep true, given what the form's inputs can send:
- every product line names a catalog product and has a count of at least 1;
- the product picker's choice is empty or a catalog product;
- the count is never 0;
- the result is empty or one of the three labels.

`AnswersConsistent` states what the checklist buttons can produce:
- every key is a checklist id;
- a non-empty reason goes only with "no".

Environment inputs are parameters:
- `today`, `id`, `createdAt` and `generatedAt` stand for the clock;
- `writeOk` stands for whether `localStorage.setItem` succeeds;
- `now` and `dateOf` stand for `new Date()` and the month/year of a stored date;
- `cityData` stands for the district table.

## Model

| member | source | states |
|---|---|---|
| Checklist.ChecklistCategories | src/pages/InspectionPage.tsx:31-55 | There are 23 items: the first 12 are installation items, the remaining 11 are check items. |
| Checklist.InstallItemsAreFirst | src/pages/InspectionPage.tsx:158-159 | Filtering the items by the installation category gives exactly the first 12, in order. |
| Checklist.CheckItemsAreLast | src/pages/InspectionPage.tsx:166-167 | Filtering by the check category gives exactly the last 11, in order. |
| Checklist.ItemsIn | src/pages/InspectionPage.tsx:159 | The category filter returns no more items than it is given, each of the requested category and taken from the input. |
| Checklist.ItemsInMembership | src/pages/InspectionPage.tsx:159 | An item is in the filtered list exactly when it is in the input and has the requested category. |
| Checklist.ItemsInSplit | src/pages/InspectionPage.tsx:159 | On a list whose first k items have the category and whose rest do not, the filter is the first k items. |
| Checklist.ItemsInSplitTail | src/pages/InspectionPage.tsx:167 | On a list whose first k items lack the category and whose rest have it, the filter is the rest. |
| Checklist.ChecklistIdsDistinct | src/pages/InspectionPage.tsx:31-55 | No two checklist items share an id. |
| Checklist.KeyedIdsDistinct | src/pages/InspectionPage.tsx:31-55 | Ids that a key function maps back to their positions are pairwise distinct. |
| Checklist.KeyedAt | src/pages/InspectionPage.tsx:31-55 | Each item's id determines its position in the checklist. |
| Checklist.IdsUpToSize | src/pages/InspectionPage.tsx:104-108 | With distinct ids, the first n items contribute exactly n keys. |
| Checklist.ItemIdsSize | src/pages/InspectionPage.tsx:208-209 | There are 23 distinct ids, the `totalItems` the progress counter divides by. |
| Checklist.CatalogNames | src/pages/InspectionPage.tsx:24-29 | The catalog's four names are distinct and none is empty, so the picker's empty option is never a product. |
| Text.JoinConcat | src/pages/InspectionPage.tsx:151 | Joining two non-empty lists is joining each and putting one separator between. |
| Text.Join | src/pages/InspectionPage.tsx:151 | `parts.join(sep)`, defined by recursion. Its properties are proved in Text.JoinEnds, Text.JoinConcat and Text.JoinFlatten. |
| Text.JoinEnds | src/pages/HomePage.tsx:268 | A non-empty join starts with its first part and ends with its last. |
| Text.JoinFlatten | src/pages/InspectionPage.tsx:151-172 | A joined block placed as one part of an outer join with the same separator equals its lines spread into the outer list. |
| Text.NatToString | src/pages/InspectionPage.tsx:151 | A decimal rendering is non-empty, all digits, and has no leading zero except for 0. |
| Text.IntToString | src/pages/InspectionPage.tsx:152 | A rendering is non-empty and starts with '-' exactly for negative numbers. |
| Text.DigitsValueOfNatToString | src/pages/InspectionPage.tsx:151 | Reading the digits of a rendering back gives the number. |
| Text.DigitPrefixLength | src/pages/InspectionPage.tsx:369 | The scanned prefix is all digits and stops at the first non-digit. |
| Text.ParseInt | src/pages/InspectionPage.tsx:369 | A parse fails (`NaN`) exactly when no digit follows the optional sign. A negative result comes only from a leading '-'. |
| Text.DigitPrefixOfDigitsThen | src/pages/InspectionPage.tsx:369 | The prefix scan of digits followed by a non-digit (or nothing) takes exactly the digits. |
| Text.ParseIntOfNumeralThen | src/pages/InspectionPage.tsx:369 | `parseInt` of a number's decimal rendering followed by any text not starting with a digit gives the number back, as "2.5" gives 2 and "1e3" gives 1. |
| Text.ParseIntOfIntToString | src/pages/InspectionPage.tsx:369 | `parseInt` of a number's decimal rendering gives the number back. |
| Records.ParseStored | src/pages/InspectionPage.tsx:130-131 | Missing storage reads as the empty list. Stored records read as themselves. Unparsable text is a failure. |
| Records.TotalCount | src/pages/InspectionPage.tsx:136 | The `reduce` sum is 0 for no lines and never negative when no count is negative. Further properties are in Records.TotalCountConcat and Records.TotalCountAtLeastLines. |
| Records.TotalCountConcat | src/pages/InspectionPage.tsx:136 | The product total of a concatenation is the sum of the totals. |
| Records.TotalCountAtLeastLines | src/pages/InspectionPage.tsx:80-88 | With every count at least 1, the total is at least the number of lines. It is 0 exactly when there are none. |
| Records.TotalCountExample | src/pages/InspectionPage.tsx:136 | Lines of 3 and 2 units total 5. |
| Records.NewRecord | src/pages/InspectionPage.tsx:117-128 | The record copies every form field. The address is city, a space and district. The products and answers are present. |
| Records.Unshift | src/pages/InspectionPage.tsx:130-133 | Fails exactly on unparsable storage; otherwise the new list is the record followed by the old list. |
| Records.NewestFirst | src/pages/InspectionPage.tsx:132 | Two submissions leave the later record first, then the earlier one, then the old list. |
| Report.StatusMarker | src/pages/InspectionPage.tsx:161 | ✓ exactly for "yes", ✗ exactly for "no", ○ for a missing entry or any other answer. |
| Report.ReasonSuffix | src/pages/InspectionPage.tsx:162 | The suffix appears exactly when the entry has a non-empty reason, and reads ` (사유: reason)`. |
| Report.ItemLine | src/pages/InspectionPage.tsx:163 | One item's line, defined as the template writes it. Its shape is proved in Report.ItemLineShape. |
| Report.ItemLineShape | src/pages/InspectionPage.tsx:160-163 | An item line is the caption and `": "`, then the status marker, then the reason suffix. |
| Report.ChecklistLines | src/pages/InspectionPage.tsx:159-164 | One line per item in order, each `caption: status` followed by the suffix. |
| Report.ProductText | src/pages/InspectionPage.tsx:151 | One product's line, defined as the template writes it. Its shape is proved in Report.ProductTextReadsBack. |
| Report.ProductTextReadsBack | src/pages/InspectionPage.tsx:151 | A product line is `name: `, the count's numeral and `대`. Parsing the numeral gives back the count. |
| Report.TotalLine | src/pages/InspectionPage.tsx:152 | The total line, defined as the template writes it. Its shape is proved in Report.TotalLineReadsBack. |
| Report.TotalLineReadsBack | src/pages/InspectionPage.tsx:136-152 | The total line is the fixed label, the total's numeral and `대`. Parsing the numeral gives back the `reduce` total. |
| Report.ProductLines | src/pages/InspectionPage.tsx:151 | One `name: count대` line per product, in order. |
| Report.SummaryText | src/pages/InspectionPage.tsx:177 | The summary when it is non-empty, otherwise the placeholder sentence; never empty. |
| Report.ProductBlock | src/pages/InspectionPage.tsx:151 | A non-empty product list spreads into exactly its product lines, one per product; an empty one into a single blank line. |
| Report.ReportText | src/pages/InspectionPage.tsx:137-184 | The report as the template literal writes it: newline-joined parts, three of which are inner joins. Its layout is proved in Report.ReportTextIsLines and Report.ReportLayout. |
| Report.ReportLines | src/pages/InspectionPage.tsx:137-184 | The report as a list of entries, each inner join spread into its own entries. Report.ReportTextIsLines proves that joining them gives Report.ReportText. |
| Report.ReportTextIsLines | src/pages/InspectionPage.tsx:137-184 | The template text equals the newline join of the report's line list. The category filters count as the first 12 and last 11 items. |
| Report.ReportLayout | src/pages/InspectionPage.tsx:137-184 | The line list has 58+n entries, where n is the size of the product block. The summary entry may span several lines of text, since the summary is free text. The lemma fixes the entry of each part: basic info, products, total, both item sections in order, summary and generation time. |
| Report.SuffixOnlyAfterNo | src/pages/InspectionPage.tsx:453-462 | With the answers the buttons can produce, a reason is shown only after the ✗ marker. |
| Report.StatusExamples | src/pages/InspectionPage.tsx:160-163 | Three sample item lines: "no" with the reason 누수, "no" without a reason, and unanswered. |
| Report.NoAnswersAllUnset | src/pages/InspectionPage.tsx:160-161 | With no answers every item line is `caption: ○ 미확인`. |
| Report.EmptyDraftReport | src/pages/InspectionPage.tsx:137-184 | A draft with no products and no answers gives 59 entries. Entry 15 is blank, entry 16 reads a total of 0, and all 23 items are unconfirmed. (The summary entry may span several lines of text.) |
| Report.EmptyDraftHead | src/pages/InspectionPage.tsx:151-152 | With no products there are 59 entries: entry 15 is blank and entry 16 reads a total of 0. |
| Report.EmptyDraftItems | src/pages/InspectionPage.tsx:158-172 | With no answers, the 12 installation items and the 11 check items all show `○ 미확인`, in definition order. |
| Report.UnsetSection | src/pages/InspectionPage.tsx:159-172 | A section rendered from an empty answer map shows each of its items as `caption: ○ 미확인`, at consecutive entries. |
| Report.TotalLineExample | src/pages/InspectionPage.tsx:152 | Products of 3 and 2 give `총 설치 대수: 5대`. |
| Draft.WithField | src/pages/InspectionPage.tsx:76-78 | The named field takes the value; every other field and the products are unchanged. |
| Draft.WithoutIndex | src/pages/InspectionPage.tsx:90-95 | An index in range removes exactly that line and keeps the order. An index out of range changes nothing. |
| Draft.WithoutIndexWellFormed | src/pages/InspectionPage.tsx:90-95 | Removing a line keeps the rest well formed. |
| Draft.CoerceCount | src/pages/InspectionPage.tsx:369 | `parseInt(v) \|\| 1` is never 0. It is 1 for `NaN`, 1 for a parsed 0, and the parsed value otherwise. |
| Draft.CoerceCountOfNumeral | src/pages/InspectionPage.tsx:369 | A typed numeral is kept, except that 0 becomes 1. |
| Draft.CoerceCountExamples | src/pages/InspectionPage.tsx:369 | An empty input gives 1, "2.5" gives 2 and "0.5" gives 1. |
| Draft.AnsweredAtMostItems | src/pages/InspectionPage.tsx:208-209 | With consistent answers the answered count is at most 23. |
| Draft.SubsetSize | src/pages/InspectionPage.tsx:208 | A subset of the ids is no larger than the ids. |
| Draft.BuildAllYes | src/pages/InspectionPage.tsx:105-108 | The `reduce` gives exactly the items' ids as keys, each mapped to yes with an empty reason. |
| Draft.AvailableDistricts | src/pages/InspectionPage.tsx:207 | The city's districts for a known city; none otherwise. |
| Draft.LocalStore.constructor | src/pages/InspectionPage.tsx:130 | The store starts with the given value. |
| Draft.InspectionDraft.constructor | src/pages/InspectionPage.tsx:59-74 | The initial state has today's date, all other fields empty, no products and no answers. The picker is empty and closed, and the count is 1. |
| Draft.InspectionDraft.HandleInputChange | src/pages/InspectionPage.tsx:76-78 | Only the named field changes; the invariant is kept. |
| Draft.InspectionDraft.SelectProduct | src/pages/InspectionPage.tsx:352-361 | Only the picker's choice changes. |
| Draft.InspectionDraft.SetProductCount | src/pages/InspectionPage.tsx:365-369 | The count becomes `parseInt(v) \|\| 1`; nothing else changes. |
| Draft.InspectionDraft.SetShowProductForm | src/pages/InspectionPage.tsx:377 | Only the picker's visibility changes. |
| Draft.InspectionDraft.AddProduct | src/pages/InspectionPage.tsx:80-88 | With a product chosen and a positive count: one line is appended, and the picker resets to empty and 1 and closes. Otherwise nothing changes. Products stay well formed. |
| Draft.InspectionDraft.RemoveProduct | src/pages/InspectionPage.tsx:90-95 | The products become `WithoutIndex`; nothing else changes. |
| Draft.InspectionDraft.UpdateChecklistAnswer | src/pages/InspectionPage.tsx:97-102 | The item's entry is replaced and every other entry is kept. Consistency is kept when the new entry is consistent (a checklist id, and a reason only with "no"). |
| Draft.InspectionDraft.AnswerYes | src/pages/InspectionPage.tsx:439 | The item becomes yes with no reason; answers stay consistent. |
| Draft.InspectionDraft.AnswerNo | src/pages/InspectionPage.tsx:447 | The item becomes no with the reason cleared. |
| Draft.InspectionDraft.EnterReason | src/pages/InspectionPage.tsx:453-460 | The item becomes no with the typed reason. |
| Draft.InspectionDraft.TotalAnswered | src/pages/InspectionPage.tsx:208 | The number of answer entries, at most 23 for consistent answers. |
| Draft.InspectionDraft.SetAllYes | src/pages/InspectionPage.tsx:104-110 | The answers become exactly the 23 ids, each yes with no reason, whatever they were before; the progress reads 23. |
| Draft.InspectionDraft.Submit | src/pages/InspectionPage.tsx:112-205 | Unparsable storage fails and leaves the store unchanged; so does a failing write. Otherwise the store holds the new record followed by the old list, the outcome is the report text, and the stored first record has one of the three result labels. |
| Dashboard.CountResult | src/pages/HomePage.tsx:44-46 | The count of records with a given result is at most the number of records. |
| Dashboard.CountUnclassified | src/pages/HomePage.tsx:44-46 | The count of records with none of the three results is at most the number of records. |
| Dashboard.ResultCountsPartition | src/pages/HomePage.tsx:44-49 | The three result counts plus the unclassified count equal the total. |
| Dashboard.NoUnclassifiedIffAllClassified | src/pages/HomePage.tsx:44-46 | No record is unclassified exactly when every result is a label. |
| Dashboard.InMonth | src/pages/HomePage.tsx:38-42 | The month filter's test: the date's month and year equal the current ones. It is counted by Dashboard.CountThisMonth. |
| Dashboard.CountThisMonth | src/pages/HomePage.tsx:37-42 | At most the total, and equal to it exactly when every record's date falls in the current month and year. |
| Dashboard.ComputeStats | src/pages/HomePage.tsx:37-54 | The total is the number of records, and this month is at most the total. The three counters sum to at most the total, with equality exactly when every result is a label. |
| Dashboard.LoadInspections | src/pages/HomePage.tsx:31-61 | Stored records load with their counters. Missing or unparsable storage gives an empty list and zero counters. |
| Dashboard.RecentInspections | src/pages/HomePage.tsx:66 | The first min(8, n) records, in stored (newest-first) order. |
| Dashboard.ProductPart | src/pages/HomePage.tsx:268 | One product's summary part, defined as the card writes it. Its shape is proved in Dashboard.ProductPartReadsBack. |
| Dashboard.ProductPartReadsBack | src/pages/HomePage.tsx:268 | A summary part is `name `, the count's numeral and `대`. Parsing the numeral gives back the count. |
| Dashboard.ProductParts | src/pages/HomePage.tsx:268 | One `name count대` part per product, in order. |
| Dashboard.ProductSummary | src/pages/HomePage.tsx:263-268 | Absent exactly when the record has no products or an empty list; otherwise the parts joined by ", ". |
| Dashboard.ProductSummaryConcat | src/pages/HomePage.tsx:268 | The summary of two lists in a row is the two summaries with ", " between. |
| Dashboard.StatsAfterSubmit | src/pages/HomePage.tsx:31-66 | After a submission the new record heads the list and the recent records, and the total grows by one. Exactly the counters matching its month and result grow by one. |
| Dashboard.ClassifiedStoreCountsAddUp | src/pages/HomePage.tsx:44-49 | If every stored record has a result label and the submitted one does too, the three counters add up to the total. |
| Dashboard.ResultCountsExample | src/pages/HomePage.tsx:44-49 | Results 정상, 주의, 불량, 정상 count 2, 1 and 1 of 4. |
| Dashboard.ThisMonthExample | src/pages/HomePage.tsx:38-42 | A record of this month counts and one dated in any other month does not. |

## Left out

- Rendering and routing: the JSX, the collapsible checklist panel (`checklistOpen`), icons and badges, and the `navigate` calls. They are presentation only.
- JSON serialisation: the storage holds the record list as a value. `Unparsable` stands for text on which reading the list throws. That is text `JSON.parse` rejects, or valid JSON that is not an array (`null`, an object, a number, a string).
- Serialised field names: the stored field names (`inspection_date`, `site_name`, …) are kept as record fields, not as text.
- Report delivery: the Blob, the object URL, the download filename `점검보고서_{site}_{date}.txt`, and the alerts. `Submit` returns the report text instead.
- Clock and locale: the clock, `toISOString`, `toLocaleString('ko-KR')` and time-zone handling are parameters. `dateOf` stands for `new Date(inspection_date)` read by month and year, so the model does not decide how a date string is parsed.
- The district table: its contents are a parameter of `AvailableDistricts`.
- `photo_count`: declared on the home page's record type but never set or read by the modelled code.
- Concurrency: `isSubmitting` and the disabled submit button only prevent double submission.
- `Draft.InspectionDraft.Submit`: the browser's `required` check is a precondition (`RequiredFilled`), because the form does not call `onSubmit` otherwise.
- `Text.ParseInt`: covers an optional sign followed by decimal digits, stopping at the first non-digit. Leading whitespace, a `0x` prefix and values beyond 2^53 are not modelled; counts are unbounded integers.
- `Draft.InspectionDraft.HandleInputChange`: requires that a Result value is empty or one of the three labels, as the picker's options allow. Other fields take any text.
- `Draft.InspectionDraft.SelectProduct`: requires an empty name or a catalog name, as the picker's options allow.
- `Records.ParseStored`: `Stored` holds only records. A stored JSON array whose elements are not records (such as `[1,2]`) is not modelled. The source parses it, prepends to it, and counts it on the home page (which throws only on a `null` element).
- `Report.ReportLayout`: counts entries of the line list, not lines of text. A summary containing newlines adds lines of text within its one entry.
- The model follows the code as written:
  - the reason suffix tests only for a non-empty reason, not for a "no" answer;
  - `addProduct` checks only for a non-empty choice and a positive count, not catalog membership;
  - nothing validates the record when it is built, beyond the form's `required` fields.
