# 年菜方案 — a verified model of the meal-plan catalogue

The application helps families compare Lunar New Year meal plans (年菜方案) sold by hotels,
restaurants, brands, convenience stores and hypermarkets. Shoppers filter, sort, compare and
collect plans in a browser catalogue. Administrators edit plans, moderate reviews, watch prices
and run a scraping and AI-extraction pipeline. A set of Node and Python scripts cleans, enriches,
de-duplicates and imports the plan file.

This project is a Dafny model of the deterministic core of that application, one module per
source file, and proves what each part promises:

- **Catalogue store** (`PlanStore`, `UiFilters`, `Types`). The plan list, the four-plan
  comparison tray, the twenty-entry history, favourites, notes, the filter chain with its
  sort, the status counts and the CSV export. Also the region, city, district, price-level and
  family-size tables with their invariants.
- **Library code** (`Security`, `Validations`, `HtmlText`, `RateWindow`, `ContentModeration`,
  `Regex`, `PrismaAdapter`, `ApiMiddleware`, `Cache`, `Performance`, `Errors`, `Scraper`,
  `AiPrompt`, `Json`, `Csv`, `Sorting`). Covers:
  - escaping and sanitising;
  - the sliding-window and token-bucket limiters;
  - moderation scoring;
  - the enum adapters and their round trips;
  - handler composition;
  - the TTL cache and the bounded metric buffer;
  - error responses;
  - scraper hints and truncation;
  - AI-answer normalisation and shell quoting.
- **Client stores** (`ShoppingList`, `Theme`).
- **JSON-file API handlers** (`Reviews`, `ShoppingListsApi`, `PriceMonitor`, `OcrRoute`,
  `AiExtractRoute`, `AiVisionRoute`). Each is a state transition over an in-memory database, with
  request validation and error answers.
- **Administration pages** (`AdminPage`, `AdminScraper`, `EditPanel`).
- **Data scripts** (`PlanRecords`, `AddPlans`, `DedupePlans`, `NormalizeData`, `CleanupData`,
  `FixData`, `EnrichData`, `AutoFill`, `CompleteDistance`, `Integrate2026`, `ImportNiantsai`,
  `AddVendorImages`, `ScrapeQueue`, `BatchScrape`, `OcrScript`). Each transforms a sequence of
  untyped plan records, in place where the script works in place. The model proves which fields
  change and under which condition.
- **Components** (`QuickWizard`, `CompareModal`, `FilterSidebar`, `PriceRangeSlider`,
  `ServingsSlider`, `QuickFilters`, `MobileFilterBar`, `VendorList`, `SmartRecommend`,
  `BatchImportModal`, `ShoppingListPanel`). Each handler is a function from the old filter record
  or component state to the new one.

The inputs the code cannot compute are passed in as parameters:

- clocks and random ids;
- network, subprocess and file results;
- the regular-expression engine, `JSON.parse` and the `URL` constructor.

Integers are unbounded. Exact ratios are `real`.

## Model

| member | source | states |
|---|---|---|
| Types.ParsePlanStatus | src/types/index.ts:3 | a wire name reads back to the status spelled that way, and to nothing exactly when no status has that name |
| Types.ParseShippingType | src/types/index.ts:4 | the shipping type a wire name spells, nothing when none does |
| Types.ParseStorageType | src/types/index.ts:5 | the storage type a wire name spells, nothing when none does |
| Types.ParseVendorType | src/types/index.ts:11-18 | the vendor type a wire name spells, nothing when none does |
| Types.ParseProductType | src/types/index.ts:31-37 | the product type a wire name spells, nothing when none does |
| Types.ParseCuisineStyle | src/types/index.ts:49-58 | the cuisine style a wire name spells, nothing when none does |
| Types.ParsePriceLevel | src/types/index.ts:73-77 | the price level a wire name spells, nothing when none does |
| Types.PriceLevelRanges_Contiguous | src/types/index.ts:86-91 | the price-level ranges start at 0, each ends where the next begins, each is non-empty, and only the luxury range is unbounded |
| Types.PriceLevelRanges_Partition | src/types/index.ts:86-91 | every non-negative price lies in exactly one price-level range |
| Types.PriceLevelOf | src/types/index.ts:86-91 | the level computed for a non-negative price is one whose range holds it |
| Types.ParseFamilySize | src/types/index.ts:94-98 | the family size a wire name spells, nothing when none does |
| Types.FamilySizeRanges_Ascending | src/types/index.ts:107-112 | the family-size ranges are non-empty, ascending and gap-free, and cover exactly 1..20 |
| Types.FamilySizeRanges_Disjoint | src/types/index.ts:107-112 | no head count lies in two family-size ranges |
| Types.FamilySizeRanges_Cover | src/types/index.ts:107-112 | every head count in 1..20 lies in some family-size range |
| Types.ParseRegion | src/types/index.ts:126-132 | the region a wire name spells, nothing when none does |
| Types.RegionLabel_Injective | src/types/index.ts:152-159 | every region has a non-empty label and no two regions share one |
| Types.ParseCity | src/types/index.ts:135-141 | a city name reads back to its city, and to nothing exactly when it names no city |
| Types.FindCity | src/types/index.ts:143-150 | looking a name up in a city list finds a listed city of that name, or reports that none is listed |
| Types.AllCities_Complete | src/types/index.ts:135-141 | the list of all cities holds every city |
| Types.AllCities_NoDup | src/types/index.ts:135-141 | no city is listed twice |
| Types.CityName_Injective | src/types/index.ts:135-141 | no two cities share a name |
| Types.CityRegion | src/types/index.ts:126-132 | every city lies in a geographic region, never in 'nationwide' |
| Types.RegionCities_Regions | src/types/index.ts:143-150 | every city listed for a region lies in that region |
| Types.RegionCities_NoDup | src/types/index.ts:143-150 | no region's list repeats a city |
| Types.RegionCities_Partition | src/types/index.ts:143-150 | a city is in a region's list exactly when the city lies in that region, and the nationwide list is empty |
| Types.RegionCities_Concat | src/types/index.ts:143-150 | the region lists, read in order, are exactly the list of all cities |
| Types.CityDistricts_WellFormed | src/types/index.ts:162-169 | district lists exist exactly for the six special municipalities, and each is non-empty with no repeats |
| Types.PublishedOf | src/stores/planStore.ts:548 | the published plans keep only plans whose status is published, and there are no more of them than plans |
| PrismaAdapter.PlanStatusToPrisma | src/lib/prismaAdapter.ts:41-52 | the reverse status map sends the database status of every plan status back to it |
| PrismaAdapter.PlanStatusFromPrisma_RoundTrip | src/lib/prismaAdapter.ts:41-52 | the forward status map sends the plan status read from every database status back to it: the two maps are inverse bijections |
| PrismaAdapter.ShippingTypeToPrisma | src/lib/prismaAdapter.ts:55-66 | the reverse shipping map undoes the forward one |
| PrismaAdapter.ShippingTypeFromPrisma_RoundTrip | src/lib/prismaAdapter.ts:55-66 | the forward shipping map undoes the reverse one |
| PrismaAdapter.StorageTypeToPrisma | src/lib/prismaAdapter.ts:69-82 | the reverse storage map undoes the forward one |
| PrismaAdapter.StorageTypeFromPrisma_RoundTrip | src/lib/prismaAdapter.ts:69-82 | the forward storage map undoes the reverse one |
| PrismaAdapter.VendorTypeToPrisma | src/lib/prismaAdapter.ts:85-104 | the reverse vendor-type map undoes the forward one |
| PrismaAdapter.VendorTypeFromPrisma_RoundTrip | src/lib/prismaAdapter.ts:85-104 | the forward vendor-type map undoes the reverse one |
| PrismaAdapter.ProductTypeToPrisma | src/lib/prismaAdapter.ts:107-124 | the reverse product-type map undoes the forward one |
| PrismaAdapter.ProductTypeFromPrisma_RoundTrip | src/lib/prismaAdapter.ts:107-124 | the forward product-type map undoes the reverse one |
| PrismaAdapter.CuisineStyleToPrisma | src/lib/prismaAdapter.ts:127-150 | the reverse cuisine map undoes the forward one |
| PrismaAdapter.CuisineStyleFromPrisma_RoundTrip | src/lib/prismaAdapter.ts:127-150 | the forward cuisine map undoes the reverse one |
| PrismaAdapter.PriceLevelToPrisma | src/lib/prismaAdapter.ts:153-166 | the reverse price-level map undoes the forward one |
| PrismaAdapter.PriceLevelFromPrisma_RoundTrip | src/lib/prismaAdapter.ts:153-166 | the forward price-level map undoes the reverse one |
| PrismaAdapter.FamilySizeToPrisma | src/lib/prismaAdapter.ts:169-182 | the reverse family-size map undoes the forward one |
| PrismaAdapter.FamilySizeFromPrisma_RoundTrip | src/lib/prismaAdapter.ts:169-182 | the forward family-size map undoes the reverse one |
| PrismaAdapter.RegionToPrisma | src/lib/prismaAdapter.ts:185-201 | the reverse region map undoes the forward one |
| PrismaAdapter.RegionFromPrisma_RoundTrip | src/lib/prismaAdapter.ts:185-201 | the forward region map undoes the reverse one |
| PrismaAdapter.CityToPrisma | src/lib/prismaAdapter.ts:205-256 | every city reads back as itself through the reverse map, except 基隆市, which comes back as 台北市 |
| PrismaAdapter.CityFromPrisma | src/lib/prismaAdapter.ts:230-260 | the reverse city map never yields 基隆市 |
| PrismaAdapter.CityFromPrisma_RoundTrip | src/lib/prismaAdapter.ts:205-260 | the reverse city map is a right inverse of the forward one |
| PrismaAdapter.CityToPrisma_OnlyKeelungCollides | src/lib/prismaAdapter.ts:205-228 | two cities share a database city exactly when they are equal or are 基隆市 and 台北市 |
| PrismaAdapter.IsTaiwanCity | src/lib/prismaAdapter.ts:344-346 | a string passes the city guard exactly when it is the name of a city |
| PrismaAdapter.ReviewStatusToPrisma | src/lib/prismaAdapter.ts:264-280 | a review status maps to a database status exactly for the four known names, and the reverse map sends it back |
| PrismaAdapter.ReviewStatusFromPrisma_RoundTrip | src/lib/prismaAdapter.ts:264-284 | every database review status reads back to itself through both maps |
| PrismaAdapter.ScraperStatusToPrisma | src/lib/prismaAdapter.ts:288-302 | a job status maps to a database status exactly for the five known names, and the reverse map sends it back |
| PrismaAdapter.ScraperStatusFromPrisma_RoundTrip | src/lib/prismaAdapter.ts:288-302 | every database job status reads back to itself through both maps |
| PrismaAdapter.IsPlanStatus | src/lib/prismaAdapter.ts:308-310 | a string passes the status guard exactly when it names a plan status |
| PrismaAdapter.IsShippingType | src/lib/prismaAdapter.ts:312-314 | the shipping guard accepts exactly the shipping-type names |
| PrismaAdapter.IsStorageType | src/lib/prismaAdapter.ts:316-318 | the storage guard accepts exactly the storage-type names |
| PrismaAdapter.IsVendorType | src/lib/prismaAdapter.ts:320-322 | the vendor guard accepts exactly the vendor-type names |
| PrismaAdapter.IsProductType | src/lib/prismaAdapter.ts:324-326 | the product guard accepts exactly the product-type names |
| PrismaAdapter.IsCuisineStyle | src/lib/prismaAdapter.ts:328-330 | the cuisine guard accepts exactly the cuisine-style names |
| PrismaAdapter.IsPriceLevel | src/lib/prismaAdapter.ts:332-334 | the price-level guard accepts exactly the price-level names |
| PrismaAdapter.IsFamilySize | src/lib/prismaAdapter.ts:336-338 | the family-size guard accepts exactly the family-size names |
| PrismaAdapter.IsTaiwanRegion | src/lib/prismaAdapter.ts:340-342 | the region guard accepts exactly the region names |
| Csv.Escape | src/stores/planStore.ts:524 | doubling the quotes of a cell never shortens it |
| Csv.Escape_QuotesPaired | src/stores/planStore.ts:524 | an escaped cell holds exactly twice as many double quotes as the cell |
| Csv.QuoteCell | src/stores/planStore.ts:524 | a written cell starts and ends with a double quote |
| Csv.QuoteAll | src/stores/planStore.ts:524 | a written record holds one quoted cell per cell, in order |
| Csv.EncodeRows | src/stores/planStore.ts:522-526 | the written document holds one encoded line per record, in order |
| Csv.ReadQuoted | src/stores/planStore.ts:524 | the reader of a quoted cell always consumes input (the partner reader of the writer) |
| Csv.ReadRow | src/stores/planStore.ts:524 | reading a record consumes input and yields at least one cell |
| Csv.ReadDoc | src/stores/planStore.ts:522-526 | a document that reads yields at least one record |
| Csv.ReadQuoted_Escape | src/stores/planStore.ts:524 | reading an escaped cell and its closing quote gives the cell back |
| Csv.ReadRow_QuoteCell | src/stores/planStore.ts:524 | one step of the record reader over a quoted cell returns that cell followed by the rest of the record |
| Csv.ReadRow_EncodeRow | src/stores/planStore.ts:524 | reading an encoded record gives its cells back |
| Csv.ReadDoc_EncodeDoc | src/stores/planStore.ts:522-526 | reading an exported document gives back exactly the records written |
| HtmlText.Entity | src/lib/security.ts:150-159 | each character's escape contains no markup character and is 1 to 6 characters long, and a character escapes to itself exactly when it is not one of `&<>"'` |
| HtmlText.Encode | src/lib/security.ts:150-159 | an escaped text contains no markup character and is at most six times as long |
| HtmlText.Encode_Append | src/lib/validations.ts:133-143 | escaping distributes over concatenation |
| HtmlText.Encode_Single | src/lib/validations.ts:133-143 | a one-character text escapes to that character's entity |
| HtmlText.Encode_Chars | src/lib/security.ts:150-159 | each of the five special characters becomes its entity in place, and every other character is kept in place |
| HtmlText.Encode_Plain | src/lib/security.ts:150-159 | a text without special characters is left as it is |
| HtmlText.Decode_Entity | src/lib/security.ts:150-159 | decoding an entity in front of any text yields its character in front of the decoded text |
| HtmlText.Decode_Encode | src/lib/security.ts:150-159 | decoding an escaped text gives the original text back, so the escape loses nothing |
| HtmlText.StripTags | src/lib/security.ts:173 | removing tags never lengthens the text, leaves a text without `>` alone, adds no `>`, and leaves no `<…>` tag behind |
| HtmlText.Collapse | src/lib/security.ts:185 | collapsing white space never lengthens the text, leaves no two spaces side by side, adds no markup character, keeps an empty text empty and turns a leading space run into one space |
| HtmlText.Trim_Tidy | src/lib/validations.ts:153 | trimming a collapsed, escaped text leaves it tidy: no markup, single spaces, no space at either end |
| HtmlText.Scrub | src/lib/validations.ts:149-155 | the shared sanitiser tail leaves a tidy text at most six times as long as its input |
| PlanStore.ApplyStage | src/stores/planStore.ts:547-664 | after a filter stage runs, every remaining plan passes that stage |
| PlanStore.Matching | src/stores/planStore.ts:541-664 | the filter chain keeps exactly the plans that pass every filter, and only those |
| PlanStore.Prefix_Zero | src/stores/planStore.ts:544 | before any stage the working list is the whole catalogue |
| PlanStore.ApplyStage_Step | src/stores/planStore.ts:547-664 | running stage n after the first n stages is filtering by the first n+1 |
| PlanStore.RunStage | src/stores/planStore.ts:547-664 | one guarded `filtered = filtered.filter(...)` step turns the list after n stages into the list after n+1 |
| PlanStore.Prefix_All | src/stores/planStore.ts:541-664 | after the last stage the list holds exactly the matching plans |
| PlanStore.SortedCopy | src/stores/planStore.ts:666-720 | the sorted copy is a permutation of the filtered plans and is ordered by the chosen option |
| PlanStore.PassesFirst_Stage | src/stores/planStore.ts:547-664 | passing the first n stages is passing every one of them |
| PlanStore.Matches_Stage | src/stores/planStore.ts:547-664 | a matching plan passes every single stage |
| PlanStore.Matches_Price | src/stores/planStore.ts:547-586 | a matching plan is published when that is asked for, hits the search text, and lies within the price and servings bounds |
| PlanStore.Matches_Place | src/stores/planStore.ts:588-610 | a matching plan has the chosen shipping type (or ships both ways), the chosen storage type, lies in the chosen region (or is nationwide) and city |
| PlanStore.Matches_Lists | src/stores/planStore.ts:612-654 | a matching plan is a favourite or in the history when asked for, its deadline is after today when asked for, and it contains no excluded keyword |
| PlanStore.Matches_Window | src/stores/planStore.ts:572-586 | a matching plan covers the requested servings, keeps to the per-person price limit, has the requested date choice, and its delivery window holds the target date |
| PlanStore.Matches_Tags | src/stores/planStore.ts:629-639 | with AND logic a matching plan has every selected tag; otherwise it has at least one |
| PlanStore.Le_Total | src/stores/planStore.ts:666-720 | every sort comparator is total |
| PlanStore.Le_Trans | src/stores/planStore.ts:666-720 | every sort comparator is transitive |
| PlanStore.SortedBy_Price | src/stores/planStore.ts:668-673 | `price_asc` lists prices in non-decreasing order and `price_desc` in non-increasing order |
| PlanStore.SortedBy_DeadlineMissingLast | src/stores/planStore.ts:687-693 | under `deadline_asc` every plan with a deadline comes before every plan without one |
| PlanStore.InsertStep | src/stores/planStore.ts:666 | swapping an out-of-order neighbour moves the insertion point left and keeps the sorted part sorted |
| PlanStore.InsertDone | src/stores/planStore.ts:666 | once the inserted element is in order with its left neighbour, the prefix is sorted |
| PlanStore.SwapLeft | src/stores/planStore.ts:666 | exchanging two neighbours permutes the array |
| PlanStore.SortPlans | src/stores/planStore.ts:666-720 | sorting the array in place leaves it ordered by the option and a permutation of what it held |
| PlanStore.ToggleComparisonIds | src/stores/planStore.ts:207-219 | a selected plan leaves the tray; an unselected one is appended only while fewer than four are selected |
| PlanStore.ToggleComparison_Bounded | src/stores/planStore.ts:207-219 | the tray stays duplicate-free and never holds more than four plans |
| PlanStore.ToggleFavoriteIds | src/stores/planStore.ts:266-280 | after the toggle the plan is a favourite exactly when it was not before; every other plan keeps its status |
| PlanStore.ToggleFavorite_Twice | src/stores/planStore.ts:266-280 | toggling twice restores every plan's membership, and the list itself for a plan that was not a favourite |
| PlanStore.AddToHistoryIds | src/stores/planStore.ts:290-303 | the visited id comes first, its older occurrences go, the rest keep their order, and the list is cut to twenty |
| PlanStore.AddToHistory_NoDup | src/stores/planStore.ts:290-303 | a duplicate-free history stays duplicate-free |
| PlanStore.AddToHistory_Head | src/stores/planStore.ts:290-303 | visiting the plan already at the head leaves the history unchanged |
| PlanStore.SetNoteMap | src/stores/planStore.ts:320-336 | a note that is blank after trimming deletes the plan's note, any other is stored as given, and other plans' notes are kept |
| PlanStore.DeleteNoteMap | src/stores/planStore.ts:338-349 | the plan's note is removed and the others are kept |
| PlanStore.SetNote_DeleteNote | src/stores/planStore.ts:320-349 | setting a note and then deleting it leaves the notes as deleting alone would |
| PlanStore.Without | src/stores/planStore.ts:176 | removing ids keeps exactly the listed ids that are not removed |
| PlanStore.FindPlan | src/stores/planStore.ts:726 | the plan found has the id asked for and is in the catalogue; none is found only when no plan has that id |
| PlanStore.PlansOf | src/stores/planStore.ts:724-732 | the plans of a list of ids are catalogue plans whose ids are listed, never more than the ids |
| PlanStore.PlansOf_Complete | src/stores/planStore.ts:724-732 | every listed id that names a plan contributes its plan |
| PlanStore.StatusCount | src/stores/planStore.ts:734-741 | a status count never exceeds the number of plans |
| PlanStore.StatusCounts_Sum | src/stores/planStore.ts:734-741 | the draft, published and needs-review counts add up to the number of plans, every modelled plan having one of the three declared statuses (see Left out for `duplicate`) |
| PlanStore.CsvRow | src/stores/planStore.ts:466-517 | each exported row has one cell per header |
| PlanStore.CsvRows | src/stores/planStore.ts:499-517 | the export has one row per plan, in order |
| PlanStore.ExportCsv | src/stores/planStore.ts:522-527 | the exported file starts with the byte-order mark |
| PlanStore.ExportCsv_RoundTrip | src/stores/planStore.ts:463-538 | reading the file after its byte-order mark gives back the header and every plan's row |
| PlanStore.PlanStore.constructor | src/stores/planStore.ts:112-135 | the initial store: no plans, default filters, price ascending, empty tray, favourites, history and notes from storage |
| PlanStore.PlanStore.LoadPlans | src/stores/planStore.ts:137-145 | loaded plans replace the list and clear the error; a failure records its message and changes nothing else |
| PlanStore.PlanStore.AddPlan | src/stores/planStore.ts:147-157 | after adding, the plans are reloaded and the new id returned; a failure records its message and returns nothing |
| PlanStore.PlanStore.UpdatePlan | src/stores/planStore.ts:159-168 | after updating (one plan, or each plan's status in a batch), the plans are reloaded; a failure records its message |
| PlanStore.PlanStore.SetFilters | src/stores/planStore.ts:185-189 | the filters become the merged filters and nothing else changes |
| PlanStore.PlanStore.ResetFilters | src/stores/planStore.ts:191-193 | the filters become the defaults and nothing else changes |
| PlanStore.PlanStore.SetSortBy | src/stores/planStore.ts:195-197 | only the sort option changes |
| PlanStore.PlanStore.SetCompareModalOpen | src/stores/planStore.ts:225-227 | only the comparison dialog flag changes |
| PlanStore.PlanStore.ToggleComparison | src/stores/planStore.ts:207-219 | the tray becomes the toggled tray, and the tray invariant (no repeats, at most four) is kept |
| PlanStore.PlanStore.ClearComparison | src/stores/planStore.ts:221-223 | the tray is emptied and the dialog closed |
| PlanStore.PlanStore.ToggleFavorite | src/stores/planStore.ts:266-280 | the favourites become the toggled list and nothing else changes |
| PlanStore.PlanStore.ClearFavorites | src/stores/planStore.ts:282-287 | the favourites are emptied and nothing else changes |
| PlanStore.PlanStore.AddToHistory | src/stores/planStore.ts:290-303 | the visited plan heads a history of at most twenty entries |
| PlanStore.PlanStore.ClearHistory | src/stores/planStore.ts:305-310 | the history is emptied and nothing else changes |
| PlanStore.PlanStore.SetNote | src/stores/planStore.ts:320-336 | the notes become the updated note map and nothing else changes |
| PlanStore.PlanStore.DeleteNote | src/stores/planStore.ts:338-349 | the plan's note is removed and nothing else changes |
| PlanStore.PlanStore.GetNote | src/stores/planStore.ts:351-354 | a note is returned exactly when the plan has one, and it is that note |
| PlanStore.PlanStore.DeletePlan | src/stores/planStore.ts:170-183 | after deleting, the plans are reloaded and the id leaves the tray (favourites keep it); a failure records the error; the tray invariant holds |
| PlanStore.PlanStore.BatchDelete | src/stores/planStore.ts:247-263 | every deleted id leaves both the tray and the favourites; a failure records the error; the tray invariant holds |
| PlanStore.PlanStore.HistoryPlans | src/stores/planStore.ts:312-318 | the history's plans, in history order: each listed id that names a catalogue plan gives that plan (PlansOf_Complete), and nothing else appears |
| PlanStore.PlanStore.ComparisonPlans | src/stores/planStore.ts:724-727 | the tray's plans, in tray order: catalogue plans whose ids are in the tray, no more than the tray's ids |
| PlanStore.PlanStore.FavoritePlans | src/stores/planStore.ts:729-732 | the favourite plans, in the order of the favourite ids: catalogue plans whose ids are favourites |
| PlanStore.PlanStore.GetFilteredPlans | src/stores/planStore.ts:541-721 | the result holds exactly the matching plans (as a multiset); it is sorted when the option sorts and keeps catalogue order otherwise |
| PlanStore.PlanStore.StatusCounts | src/stores/planStore.ts:734-741 | the draft, published and needs-review counts are the numbers of plans with each status, and add up to the number of plans (see Left out for `duplicate`) |
| PlanStore.PlanStore.ExportToCsv | src/stores/planStore.ts:463-538 | the exported content is the CSV file of a permutation of the currently matching plans |
| UiFilters.Toggle | src/components/FilterSidebar.tsx:282-290 | after the toggle the value is selected exactly when it was not before, and every other value keeps its state |
| UiFilters.Toggle_Involution | src/components/FilterSidebar.tsx:282-290 | toggling the same value twice restores every membership, and the list itself for a value that was absent |
| UiFilters.Toggle_NoDup | src/components/FilterSidebar.tsx:282-290 | toggling never introduces a duplicate |
| UiFilters.Pick | src/stores/planStore.ts:185-189 | a merged field is the patch's value when the patch sets it, the current value otherwise |
| UiFilters.Merge | src/stores/planStore.ts:185-189 | the merged filters take each key from the patch when it sets that key, and from the current filters otherwise |
| UiFilters.Merge_NoChange | src/stores/planStore.ts:185-189 | an empty patch leaves the filters unchanged |
| UiFilters.Merge_Twice | src/stores/planStore.ts:185-189 | applying the same patch again changes nothing more |
| UiFilters.Merge_Compose | src/stores/planStore.ts:185-189 | two patches in a row are one patch in which the later wins each key |
| UiFilters.StoreView | src/stores/planStore.ts:541-664 | the filter run reads 'published only' exactly when that flag is true, an absent tag or keyword list as empty, and 'all' or absence as no region or shipping restriction |
| UiFilters.Defaults_StoreView | src/stores/planStore.ts:105-109 | the component-side defaults are exactly the store's default filter run |
| UiFilters.ResetPublished | src/components/SmartRecommend.tsx:131-143 | resetting and then asking for published plans shows published plans only |
| UiFilters.ResetPublished_IsDefault | src/stores/planStore.ts:105-109 | that is exactly the default filters, since they already show published plans only |
| Sorting.Insert_Props | src/components/VendorList.tsx:78 | inserting adds exactly the one element, puts it or the old head first, and keeps a sorted sequence sorted |
| Sorting.SortDesc | src/components/VendorList.tsx:78 | the sort by descending key is a permutation of its input and is ordered by the key |
| Sorting.SortDesc_Mem | src/app/api/reviews/route.ts:192-194 | sorting keeps exactly the elements it was given |
| Sorting.SortDesc_Sorted | src/app/api/reviews/route.ts:192-194 | an already sorted sequence is left as it is |
| Sorting.Insert_Stable | src/components/VendorList.tsx:78 | inserting into a sorted sequence puts the new element after every element with its key, and leaves the order among the others |
| Sorting.SortDesc_Stable | src/app/api/reviews/route.ts:192-194 | the sort is stable: for every key, the elements with that key come out in the order they went in |
| Sorting.SortedDesc_Init | src/components/MobileFilterBar.tsx:119 | dropping the last element of a sorted sequence keeps it sorted, and that element is no greater than any other |
| Sorting.Insert_Last | src/components/MobileFilterBar.tsx:119 | inserting an element no greater than every key appends it, so equal keys keep their order |
| Regex.SameEnd | src/lib/contentModeration.ts:195 | the run of characters equal to the one at i ends at the first different character or at the end of the text |
| Regex.RepeatMatches | src/lib/contentModeration.ts:195-197 | every match of the repeated-character pattern is at least five characters long |
| Regex.RepeatCount_Positive | src/lib/contentModeration.ts:195-197 | the scan finds a match exactly when five equal characters occur in a row somewhere after its start |
| Regex.RepeatTest | src/lib/validations.ts:184 | the repeated-character test succeeds exactly when the text holds a run of five equal characters |
| Regex.UpperCount | src/lib/contentModeration.ts:209 | the number of capitals never exceeds the length, and is 0 for a text without capitals |
| Security.HtmlEncode | src/lib/security.ts:150-159 | the encoded text holds no markup character and decodes back to the input |
| Security.RemoveFolded | src/lib/security.ts:176 | removing `javascript:` in any letter case never lengthens the text and leaves a text without it unchanged |
| Security.SpanEnd | src/lib/security.ts:179 | a word or space run ends at the first character outside it |
| Security.HandlerEnd | src/lib/security.ts:179 | a match of the event-handler pattern ends with `=` after at least `on` and one word character |
| Security.RemoveHandlers | src/lib/security.ts:179 | removing event-handler attributes never lengthens the text |
| Security.SanitizeInput | src/lib/security.ts:164-188 | a non-string gives the empty text; any result is free of markup characters, single-spaced, has no space at either end, and is at most six times as long as the kept prefix |
| Security.SanitizeInput_Prefix | src/lib/security.ts:169-170 | only the first `maxLength` characters of the input matter |
| Security.IsValidEmail | src/lib/security.ts:206-209 | an address is valid exactly when it has the shape `x@y.z` with no white space and one `@`, and at most 254 characters |
| Security.EmailScan_Shape | src/lib/security.ts:207 | splitting at the `@` accepts exactly the addresses of the e-mail pattern |
| Security.EmailScan_Sound | src/lib/security.ts:207 | every address the split check accepts has the pattern's shape |
| Security.EmailScan_Complete | src/lib/security.ts:207 | every address of the pattern's shape passes the split check |
| Security.ValidatePasswordStrength | src/lib/security.ts:250-290 | the score counts the length, lower-case, upper-case and digit checks passed (0..4); a password is strong exactly at score 3 or more; one feedback line per failed check, plus the special-character line exactly when it lacks one |
| Security.IsIpAllowed | src/lib/security.ts:306-313 | an empty whitelist admits every address; otherwise exactly the listed ones |
| Security.IsIpAllowed_Extend | src/lib/security.ts:306-313 | once the whitelist is non-empty, adding entries only widens it; the first entry shuts out every unlisted address |
| Security.IsCorsAllowed | src/lib/security.ts:94-111 | a missing origin or a missing rule is refused; an admitted origin matches the exact rule or `*`, or is listed (or `*` is listed) |
| Security.IsCorsAllowed_Wildcard | src/lib/security.ts:94-111 | a `*` rule admits every present origin, and a listed origin is always admitted |
| Security.TokenBucket.constructor | src/lib/security.ts:318-328 | a new bucket is full, with its capacity and refill rate, refilled at the given instant |
| Security.TokenBucket.Refilled | src/lib/security.ts:330-337 | the refilled level never exceeds capacity, and is either full or the old level plus the elapsed seconds times the rate |
| Security.TokenBucket.Refill | src/lib/security.ts:330-337 | the bucket reaches the refilled level and records the instant |
| Security.TokenBucket.ConsumeToken | src/lib/security.ts:339-348 | a request succeeds exactly when the refilled level covers the amount, and then takes exactly that amount; otherwise the level stays refilled |
| Security.TokenBucket.GetAvailableTokens | src/lib/security.ts:350-353 | the answer is the refilled level rounded down |
| Validations.ReviewInputValid_Rating | src/lib/validations.ts:10-17 | a rating the review schema admits is a whole number of stars from 1 to 5 |
| Validations.RateLimiter.constructor | src/lib/validations.ts:104 | the limiter starts with no recorded requests |
| Validations.RateLimiter.CheckRateLimit | src/lib/validations.ts:105-128 | the key's recent timestamps decide: refused (nothing recorded) when `maxRequests` are already recent, otherwise the recent ones plus now are stored and the request admitted |
| Validations.CheckRateLimit_NoRefilter | src/lib/validations.ts:121-125 | an admitted list never holds more than twice `maxRequests` timestamps, so the clean-up branch is never taken |
| Validations.EscapeHtml | src/lib/validations.ts:133-143 | the escaped text holds no markup character and decodes back to the input |
| Validations.EscapeHtml_Chars | src/lib/validations.ts:133-143 | each special character becomes its entity in place and every other character is copied |
| Validations.SanitizeInput | src/lib/validations.ts:147-156 | the sanitised text is tidy and contains no `<` or `>` |
| Validations.ShouldModerateReview | src/lib/validations.ts:161-190 | a review is held exactly when its suspicion score exceeds 3 |
| Validations.SuspicionScore_NoUpperBonus | src/lib/validations.ts:170-181 | the text is lower-cased before capitals are counted, so the capitals rule never adds points; the score is the spam matches, the run bonus and the short-body point |
| Validations.ShouldModerate_CleanText | src/lib/validations.ts:161-190 | with no spam match and no run of five, the score is at most 1 and the review is not held |
| RateWindow.Recent | src/lib/validations.ts:112 | the recent timestamps are exactly the recorded ones younger than the window |
| RateWindow.Admit | src/lib/validations.ts:105-128 | a request is refused exactly when `maxRequests` timestamps are recent; when admitted the stored list is the recent ones plus now, at most `maxRequests` long |
| RateWindow.Count_Le_Filter | src/lib/apiMiddleware.ts:65-77 | the timestamps that last through a later request are among that request's recent ones |
| RateWindow.Count_Shrink | src/lib/apiMiddleware.ts:65-77 | fewer later requests leave at least as many lasting timestamps |
| RateWindow.Count_Recent | src/lib/apiMiddleware.ts:65-77 | dropping the stale timestamps keeps every timestamp that lasts |
| RateWindow.Admitted_Lasting | src/lib/apiMiddleware.ts:65-77 | inside one window, each lasting timestamp takes one of the `maxRequests` places |
| RateWindow.Admitted_Burst | src/lib/apiMiddleware.ts:65-77 | however many requests arrive inside one window, at most `maxRequests` of them are admitted |
| RateWindow.Remaining | src/lib/apiMiddleware.ts:79-84 | the remaining count is 0 exactly when the next request would be refused, and never exceeds `maxRequests` |
| ApiMiddleware.Cleaned | src/lib/apiMiddleware.ts:53-63 | after clean-up a key stays exactly when it has a timestamp younger than an hour, and keeps only those timestamps |
| ApiMiddleware.RateLimitStore.constructor | src/lib/apiMiddleware.ts:42-51 | the store starts empty |
| ApiMiddleware.RateLimitStore.Cleanup | src/lib/apiMiddleware.ts:53-63 | the store becomes its cleaned-up version |
| ApiMiddleware.RateLimitStore.IsAllowed | src/lib/apiMiddleware.ts:65-77 | a request is admitted exactly when fewer than `maxRequests` recent timestamps are stored for the key; then the recent ones plus now are stored, otherwise nothing changes |
| ApiMiddleware.RateLimitStore.GetRemainingRequests | src/lib/apiMiddleware.ts:79-84 | the answer is the remaining allowance, between 0 and `maxRequests` |
| ApiMiddleware.Cleaned_Young | src/lib/apiMiddleware.ts:53-63 | every timestamp younger than an hour survives clean-up, and every surviving timestamp is one of them |
| ApiMiddleware.GetClientIp | src/lib/apiMiddleware.ts:101-106 | the address is the trimmed first entry of `x-forwarded-for` when non-empty, else `x-real-ip` when non-empty, else `unknown` |
| ApiMiddleware.GetClientIp_NoComma | src/lib/apiMiddleware.ts:101-106 | a forwarded address never contains a comma |
| ApiMiddleware.WithMiddleware_Last | src/lib/apiMiddleware.ts:221-226 | the fold puts the last middleware outermost |
| ApiMiddleware.CreateApiHandler_Order | src/lib/apiMiddleware.ts:231-258 | with both layers, rate limiting sits outside error handling |
| ApiMiddleware.CreateApiHandler_Run | src/lib/apiMiddleware.ts:111-219 | with the default options a refused request gets 429 whatever the route does, and a throwing route gets its error's status or 500 |
| Cache.Lookup | src/lib/cache.ts:20-26 | a key is found exactly when it is stored and not expired, and then its data is returned |
| Cache.CacheManager.constructor | src/lib/cache.ts:13-18 | the memory layer starts empty |
| Cache.CacheManager.Get | src/lib/cache.ts:20-50 | `get` returns what the lookup finds and changes nothing |
| Cache.CacheManager.Set | src/lib/cache.ts:53-74 | the key now holds the data, stamped now, with the given or the default time to live |
| Cache.CacheManager.Remove | src/lib/cache.ts:76-89 | the key is removed and nothing else |
| Cache.CacheManager.Clear | src/lib/cache.ts:91-104 | the memory layer is emptied |
| Cache.CacheManager.MemorySize | src/lib/cache.ts:118-127 | the size is the number of stored keys |
| Cache.Lookup_AfterSet | src/lib/cache.ts:20-74 | a lookup after a set of the same key, within its time to live, returns the stored data; other keys are unaffected |
| Cache.Lookup_AfterRemove | src/lib/cache.ts:76-104 | after remove or clear nothing is found for the key; other keys are unaffected by remove |
| Cache.IsExpired_Monotone | src/lib/cache.ts:111-113 | an expired entry stays expired |
| Cache.WithCache | src/lib/cache.ts:187-205 | a truthy cached value is returned without calling the function; otherwise the function is called and its result stored and returned |
| Cache.WithCache_Falsy | src/lib/cache.ts:187-205 | a falsy result is stored but never served, so the next call computes again; a truthy one is served until it expires |
| Cache.GenerateCacheKey | src/lib/cache.ts:180-182 | the key of colon-free parts splits back into those parts |
| Cache.Split_Join_Parts | src/lib/cache.ts:180-182 | joining colon-free parts with colons and splitting gives them back, so distinct part lists give distinct keys |
| Performance.Named | src/lib/performance.ts:86-88 | the metrics of a name keep every metric of that name and nothing else, in order |
| Performance.Unnamed | src/lib/performance.ts:155-157 | the metrics of other names keep every metric of another name and nothing else, in order |
| Performance.Named_Unnamed | src/lib/performance.ts:86-88 | splitting the history by name loses nothing |
| Performance.Shortest | src/lib/performance.ts:121 | the minimum is one of the durations and no duration is smaller |
| Performance.Longest | src/lib/performance.ts:122 | the maximum is one of the durations and no duration is larger |
| Performance.Total_Bounds | src/lib/performance.ts:116 | the total lies between the count times the shortest and the count times the longest duration |
| Performance.Mean | src/lib/performance.ts:123 | the mean times the count is the total |
| Performance.Mean_Bounds | src/lib/performance.ts:123 | a total between n times two bounds has its mean between them |
| Performance.StatsOf | src/lib/performance.ts:104-126 | the statistics count the metrics and sum their durations, are all zero for none, and otherwise the average times the count is the total |
| Performance.StatsOf_Between | src/lib/performance.ts:104-126 | the average lies between the minimum and the maximum |
| Performance.Average | src/lib/performance.ts:93-99 | the average is 0 for a name with no metrics, else the average of the name's statistics |
| Performance.Pushed | src/lib/performance.ts:42-47 | a new metric goes last; once the history is full the oldest is dropped, so it never exceeds 1000 |
| Performance.PerformanceMonitor.constructor | src/lib/performance.ts:12-15 | the monitor starts with no metrics and no marks |
| Performance.PerformanceMonitor.Mark | src/lib/performance.ts:20-22 | the mark records the clock reading and the metrics are unchanged |
| Performance.PerformanceMonitor.Measure | src/lib/performance.ts:27-53 | a missing or zero start mark changes nothing; otherwise a metric of the elapsed time is pushed onto the bounded history |
| Performance.PerformanceMonitor.Time | src/lib/performance.ts:58-81 | the start mark is recorded and the run measured from it, unless the mark reads zero |
| Performance.PerformanceMonitor.GetMetrics | src/lib/performance.ts:86-88 | the metrics of the name, or all of them without a name |
| Performance.PerformanceMonitor.GetStats | src/lib/performance.ts:104-126 | the statistics of the selected metrics |
| Performance.PerformanceMonitor.Clear | src/lib/performance.ts:147-150 | the metrics and the marks are emptied |
| Performance.PerformanceMonitor.ClearMetric | src/lib/performance.ts:155-157 | only the metrics of other names are kept; the marks are unchanged |
| Performance.ClearMetric_Effect | src/lib/performance.ts:155-157 | afterwards no metric of that name is left, and nothing changes when there was none |
| Performance.Named_In | src/lib/performance.ts:86-88 | every selected metric is in the history and has the name |
| Performance.Unnamed_All | src/lib/performance.ts:155-157 | when clearing keeps every metric, the history is unchanged |
| Errors.MakeError | src/lib/errors.ts:50-115 | each error subclass carries its own code and HTTP status; the not-found error's message is built from the resource name; only the validation and internal errors keep their details |
| Errors.Kinds_Distinct | src/lib/errors.ts:50-115 | no two subclasses share a code or a status, and every status is a 4xx or 5xx |
| Errors.SuccessResponse | src/lib/errors.ts:198-207 | a success body is marked successful, carries the data and no error |
| Errors.ErrorResponse | src/lib/errors.ts:212-239 | an error body is unsuccessful, carries the trace id and message; an API error keeps its code and details, any other error is reported as INTERNAL_ERROR without details |
| Errors.CreateErrorResponse | src/lib/errors.ts:244-258 | the HTTP status is the API error's own status and 500 for any other error; the body is the error body and the trace id is echoed in a header |
| Errors.CreateSuccessResponse | src/lib/errors.ts:263-270 | the response carries the data, with status 200 unless one is given |
| Errors.ErrorResponse_Agrees | src/lib/errors.ts:212-258 | for every subclass the response status and the body code agree with the subclass; an error of no subclass is answered exactly like an internal error with the same message |
| ContentModeration.ScanGroup | src/lib/contentModeration.ts:115-192 | one pattern group adds its weight per match to the score and one flag and one detail line per matching pattern, every flag with the group's type and severity |
| ContentModeration.SuggestionFor | src/lib/contentModeration.ts:267-274 | reject exactly at 50 or more, review exactly from 20 to 49, approve exactly below 20 |
| ContentModeration.PatternPhase | src/lib/contentModeration.ts:111-192 | steps 1 to 5 add the pattern score, with the link and profanity groups only when switched on, and keep flags and details in step |
| ContentModeration.ShapePhase | src/lib/contentModeration.ts:194-264 | steps 6 to 9 add the repetition, upper-case, length and strict-mode penalties and keep flags and details in step |
| ContentModeration.ModerateContent | src/lib/contentModeration.ts:97-283 | the reported score is the raw score capped at 100; the suggestion follows the uncapped score; the result is clean exactly when approved; flags and details have equal length |
| ContentModeration.RawScore_Length | src/lib/contentModeration.ts:220-237 | a body under 10 characters costs 15 and one of 10 to 19 costs 5, so such bodies score at least that |
| ContentModeration.RawScore_Options | src/lib/contentModeration.ts:111-113 | strict mode adds exactly the strict penalty; an absent option behaves as its default (links and profanity on, strict off) |
| ContentModeration.Strict_PunctuationReviewed | src/lib/contentModeration.ts:253-263 | in strict mode a body of punctuation only is never approved |
| ContentModeration.NeedsModeration | src/lib/contentModeration.ts:288-291 | moderation is needed exactly when the default-options score reaches 20 |
| ContentModeration.ModerationSummary | src/lib/contentModeration.ts:296-313 | a clean result passes; otherwise the text advises rejection exactly when a flag is high, manual review exactly when none is high and one is medium, and counts minor problems otherwise |
| ContentModeration.Tally | src/lib/contentModeration.ts:371-373 | counting flags keeps a count for every flag type |
| ContentModeration.TallyAll | src/lib/contentModeration.ts:362-374 | counting the flags of every result keeps a count for every flag type |
| ContentModeration.NoFlags_AllKinds | src/lib/contentModeration.ts:350-359 | the initial record has every type at zero |
| ContentModeration.Bump_Sum | src/lib/contentModeration.ts:372 | one increment adds one to the total of the type counts |
| ContentModeration.Tally_Sum | src/lib/contentModeration.ts:371-373 | each tallied flag adds one to the total |
| ContentModeration.TallyAll_Sum | src/lib/contentModeration.ts:362-374 | the type counts add up to the number of flags over all results |
| ContentModeration.Approved_Step | src/lib/contentModeration.ts:363-364 | one more result raises the clean count by one exactly when it is approved |
| ContentModeration.TallyFlags | src/lib/contentModeration.ts:371-373 | the inner loop computes the tally of the result's flags |
| ContentModeration.CalculateModerationStats | src/lib/contentModeration.ts:344-377 | the total is the number of results, clean + review + rejected add up to it, clean counts the approved results, the type counts are the tally of every result's flags and add up to the number of flags |
| ContentModeration.ModerateMultiple | src/lib/contentModeration.ts:318-328 | the map has exactly the ids of the items, and each id holds the default-options moderation of the last item with that id |
| Scraper.FetchDispatch | src/lib/scraper.ts:311-329 | each known service name selects its own backend; firecrawl without a key fails with the key error; an unknown name fails naming the service |
| Scraper.FetchDispatch_Backend | src/lib/scraper.ts:311-329 | every backend is reachable from its own service name |
| Scraper.SchemeLen | src/lib/scraper.ts:111 | the `https?://` part of the image pattern matches a scheme of length 7 or 8 exactly where `http://` or `https://` occurs |
| Scraper.TargetUrl | src/lib/scraper.ts:111 | a captured URL starts with `http://` or `https://` |
| Scraper.TargetUrl_Chars | src/lib/scraper.ts:111 | a captured URL holds no white space and no `)` |
| Scraper.FindTarget | src/lib/scraper.ts:111 | the lazy alt text stops at the first link target and never crosses a line break |
| Scraper.MatchAt | src/lib/scraper.ts:111 | an image match at `!` has its link target after the `![` |
| Scraper.ImagesFrom | src/lib/scraper.ts:110-120 | every image URL found starts with an http or https scheme |
| Scraper.ImagesFrom_Chars | src/lib/scraper.ts:111 | no image URL found holds white space or a `)` |
| Scraper.ImagesFrom_NoImageMarker | src/lib/scraper.ts:110-120 | a text without `![` has no images |
| Scraper.ImagesFrom_Single | src/lib/scraper.ts:110-120 | a text holding one image link yields exactly its URL |
| Scraper.Single_Target | src/lib/scraper.ts:111 | in a single image link the captured URL is the link's URL and the match ends the text |
| Scraper.ExtractImagesFromMarkdown | src/lib/scraper.ts:110-120 | the `exec` loop returns the matches of the global search, in order, each an http or https URL |
| Scraper.CollectPrices | src/lib/scraper.ts:365-374 | the collected prices have no repeats, all lie in 500..50000, and are exactly the in-range prices of the matches |
| Scraper.TopFive | src/lib/scraper.ts:410 | the first five of the sorted distinct prices are sorted, distinct, taken from the prices, and smaller than every price left out |
| Scraper.ExtractHints | src/lib/scraper.ts:354-415 | the price hints are the (at most) five smallest collected prices in ascending order, all of them when there are at most five; the other hints are their first distinct matches up to 3, 5 and 3 |
| Scraper.Hints_Bounded | src/lib/scraper.ts:411-413 | the serving, date and phone hints have no repeats and respect their caps |
| Scraper.LastSentenceEnd | src/lib/scraper.ts:425-431 | the result is one of the five `lastIndexOf` results, and no boundary starts after it |
| Scraper.TruncateContent | src/lib/scraper.ts:420-438 | a text within the limit is unchanged; a longer one becomes a prefix of at most the limit plus the marker, cut just after the last sentence boundary when that lies beyond 70% of the limit and at the limit otherwise |
| Scraper.TruncateContent_KeepsMost | src/lib/scraper.ts:433-437 | a truncated text keeps more than 70% of a positive limit |
| Scraper.TruncateContent_SentenceEnd | src/lib/scraper.ts:425-434 | a cut short of the limit ends on the first character of a sentence boundary |
| AiPrompt.NextFence | src/lib/aiPrompt.ts:127 | the lazy body of a code block stops at the first closing fence: no fence occurs before the one found |
| AiPrompt.SkipSpace | src/lib/aiPrompt.ts:127 | `\s*` consumes the whole run of white space and nothing more |
| AiPrompt.CodeBlockAt | src/lib/aiPrompt.ts:127-130 | a code block opens with a fence and its captured body holds no fence |
| AiPrompt.BraceSpan | src/lib/aiPrompt.ts:133-136 | the greedy brace match starts with `{` and ends with `}` |
| AiPrompt.DateField | src/lib/aiPrompt.ts:158-160 | a date field is kept exactly when it passes the date check, and a kept one has the `dddd-dd-dd` shape |
| AiPrompt.TextField | src/lib/aiPrompt.ts:151-152 | a text field is trimmed, and empty when the value is falsy |
| AiPrompt.TruthyOr | src/lib/aiPrompt.ts:161-164 | `v \|\| undefined` keeps exactly the truthy values |
| AiPrompt.NumField | src/lib/aiPrompt.ts:154-157 | a number field is kept exactly when the value is a number |
| AiPrompt.Normalize | src/lib/aiPrompt.ts:149-167 | shipping is delivery or pickup, storage frozen or room temperature, names are trimmed, a missing price is 0 and missing servings are 4 |
| AiPrompt.ParseAIResponse | src/lib/aiPrompt.ts:121-177 | no plan when the located JSON text does not parse or parses to `null`; otherwise the normalised plan of the parsed value |
| AiPrompt.Normalize_Choices | src/lib/aiPrompt.ts:155-156 | pickup and room temperature are kept exactly when given; any other value, `both` included, falls back to delivery and frozen |
| AiPrompt.IsValidDate_ShapeOnly | src/lib/aiPrompt.ts:180-183 | the date check is by shape only: month 13 passes and a one-digit month does not |
| AiPrompt.EscapeSingleQuotes | src/lib/aiPrompt.ts:189 | escaping never shortens the prompt |
| AiPrompt.InQuotes_Escape | src/lib/aiPrompt.ts:189 | the escaped prompt inside single quotes reads back, by shell quoting rules, as the prompt |
| AiPrompt.ShellWord_Quoted | src/lib/aiPrompt.ts:189-193 | the single-quoted argument of the command is the prompt as the shell reads it |
| AiPrompt.GenerateCLICommand | src/lib/aiPrompt.ts:188-201 | for the three known tools the command echoes the quoted prompt into the tool, and the shell reads back the prompt exactly; any other tool gets a comment line and the raw prompt |
| ShoppingList.AddItemTo | src/stores/shoppingListStore.ts:146-155 | when the plan already has an item no item is added; otherwise exactly one item of the plan, with the quantity and the time, is appended |
| ShoppingList.AddItemTo_Existing | src/stores/shoppingListStore.ts:148-151 | adding to an existing plan raises the quantity of every item of that plan by the amount and leaves every other item as it was |
| ShoppingList.RemoveItemFrom | src/stores/shoppingListStore.ts:189 | no item of the plan is left, every other item is kept, and nothing new appears |
| ShoppingList.RemoveItemFrom_Absent | src/stores/shoppingListStore.ts:189 | removing a plan not in the list changes nothing, and removing twice is removing once |
| ShoppingList.UpdateItemIn | src/stores/shoppingListStore.ts:222-231 | items of other plans are unchanged; items of the plan take the given quantity and notes, an absent one keeping the old value |
| ShoppingList.UpdateItemIn_Nothing | src/stores/shoppingListStore.ts:222-231 | an update with neither quantity nor notes changes nothing |
| ShoppingList.WithoutList | src/stores/shoppingListStore.ts:130 | no list with the id is left and every other list is kept |
| ShoppingList.ReplaceList | src/stores/shoppingListStore.ts:111 | every list with the id is replaced by the updated one, the others kept in place |
| ShoppingList.EditCurrent | src/stores/shoppingListStore.ts:141-144 | an item edit applies only when the current list is the one named; otherwise the current list is unchanged |
| ShoppingList.Store.constructor | src/stores/shoppingListStore.ts:23-27 | the store starts with no lists, no current list, not loading and no error |
| ShoppingList.Store.FetchLists | src/stores/shoppingListStore.ts:29-46 | success replaces the lists and clears the error; failure keeps the lists and records the message; loading ends either way |
| ShoppingList.Store.FetchList | src/stores/shoppingListStore.ts:48-67 | success makes the fetched list current and returns it; failure returns nothing and records the message |
| ShoppingList.Store.CreateList | src/stores/shoppingListStore.ts:69-96 | success appends the new list, makes it current and returns it; failure changes no list and records the message |
| ShoppingList.Store.UpdateList | src/stores/shoppingListStore.ts:98-119 | success replaces the list with that id everywhere, the current one included; failure records the message only |
| ShoppingList.Store.DeleteList | src/stores/shoppingListStore.ts:121-138 | success drops the list and clears the current list only if it was that one; failure records the message only |
| ShoppingList.Store.AddItem | src/stores/shoppingListStore.ts:140-179 | the current list, if it is the one named, gets the item added (quantity 1 by default); a failed sync records its message, otherwise the error is unchanged |
| ShoppingList.Store.RemoveItem | src/stores/shoppingListStore.ts:181-212 | the current list, if it is the one named, loses the plan's items; a failed sync records its message |
| ShoppingList.Store.UpdateItem | src/stores/shoppingListStore.ts:214-253 | the current list, if it is the one named, has the plan's items updated; a failed sync records its message |
| ShoppingList.Store.SetError | src/stores/shoppingListStore.ts:255 | sets the error and nothing else |
| Theme.Next | src/stores/themeStore.ts:43-53 | the toggle always gives a valid theme different from the current one |
| Theme.Next_Cycle | src/stores/themeStore.ts:45-52 | three toggles from any theme come back to it, and fewer never do |
| Theme.StoredTheme | src/stores/themeStore.ts:12-15 | the stored theme when in a browser and non-empty, otherwise `system` |
| Theme.Applied | src/stores/themeStore.ts:17-30 | dark sets the dark class and drops light, light the reverse, system drops both; no other class changes |
| Theme.ThemeStore.constructor | src/stores/themeStore.ts:32-33 | the store starts on `system` |
| Theme.ThemeStore.ApplyTheme | src/stores/themeStore.ts:17-30 | the page classes become the applied classes of the theme, nothing else changes |
| Theme.ThemeStore.SetTheme | src/stores/themeStore.ts:35-41 | the theme is set; in a browser it is also stored and applied, outside one storage and classes are untouched |
| Theme.ThemeStore.ToggleTheme | src/stores/themeStore.ts:43-53 | the theme moves to the next in the cycle and is stored and applied as by setTheme |
| Theme.ThemeStore.InitTheme | src/stores/themeStore.ts:55-60 | in a browser the stored theme is adopted and applied; outside one nothing changes |
| Theme.Applied_Last | src/stores/themeStore.ts:17-30 | applying a theme twice is applying it once, and the last theme applied decides the classes |
| Reviews.PlanReviews | src/app/api/reviews/route.ts:54 | only published reviews of the plan are kept, in stored order |
| Reviews.Distribution | src/app/api/reviews/route.ts:67-73 | the five counts are the numbers of reviews rated 1 to 5 |
| Reviews.StatsOf | src/app/api/reviews/route.ts:53-97 | the total is the number of the plan's published reviews; with none, the average is 0, the counts are zero and there is no last date |
| Reviews.Rated_Step | src/app/api/reviews/route.ts:72-73 | each review raises only the count of its own rating |
| Reviews.CalculateStats | src/app/api/reviews/route.ts:53-97 | the `forEach` pass computes exactly the statistics defined by StatsOf |
| Reviews.Distribution_Sum | src/app/api/reviews/route.ts:67-73 | with ratings from 1 to 5 the counts add up to the number of reviews |
| Reviews.RatingSum_Bounds | src/app/api/reviews/route.ts:74 | with ratings from 1 to 5 the rating total lies between n and 5n |
| Reviews.StatsOf_Consistent | src/app/api/reviews/route.ts:53-97 | the distribution sums to the review count and a non-empty average lies between 1 and 5 |
| Reviews.PlanReviews_Ratings | src/app/api/reviews/route.ts:54 | filtering keeps ratings within 1 to 5 |
| Reviews.FindIndex | src/app/api/admin/reviews/route.ts:218 | the first review with the id, or none when no review has it |
| Reviews.PageOf | src/app/api/reviews/route.ts:205-215 | the page holds at most `limit` reviews, all from the list; `hasMore` tells whether reviews follow the page |
| Reviews.Feedback | src/app/api/reviews/route.ts:256-268 | helpful and unhelpful raise their own counter, a reply with text records the vendor reply, and the update time is set |
| Reviews.Decide | src/app/api/admin/reviews/route.ts:166-180 | approval publishes with the publish time, rejection records the reason; the review's identity, plan and rating are kept |
| Reviews.RemoveAt | src/app/api/admin/reviews/route.ts:227 | `splice(i, 1)` drops exactly the review at i, keeping the rest in order |
| Reviews.NewReview | src/app/api/reviews/route.ts:127-145 | a new review starts published with zero votes, the given fields, and a generated name when none is given |
| Reviews.ReviewDb.constructor | src/app/api/reviews/route.ts:19-38 | the store starts with no reviews and no statistics |
| Reviews.ReviewDb.Post | src/app/api/reviews/route.ts:103-163 | a missing field (a rating of 0 included) or a rating outside 1 to 5 is a 400 that changes nothing; otherwise 201, the review is appended and the plan's statistics recomputed |
| Reviews.ReviewDb.Get | src/app/api/reviews/route.ts:169-227 | without a plan id every stored statistic; with one, a page of the plan's published reviews in the requested order, with stored or freshly computed statistics |
| Reviews.ReviewDb.Patch | src/app/api/reviews/route.ts:233-277 | missing fields give 400 and an unknown review 404, both changing nothing; otherwise exactly that review receives the feedback |
| Reviews.ReviewDb.AdminGet | src/app/api/admin/reviews/route.ts:95-131 | the reviews of the status (pending by default), newest first, one page of 50 from 0 by default |
| Reviews.ReviewDb.AdminPatch | src/app/api/admin/reviews/route.ts:137-199 | missing fields or an unknown action give 400, an unknown review 404; otherwise the decision is applied to that review, and statistics are recomputed on approval only |
| Reviews.ReviewDb.AdminDelete | src/app/api/admin/reviews/route.ts:205-242 | a missing id is 400 and an unknown one 404; otherwise that review is removed |
| Reviews.Listing_Sound | src/app/api/reviews/route.ts:186-205 | every review of a plan listing is a stored published review of that plan |
| Reviews.Feedback_OneCounter | src/app/api/reviews/route.ts:256-259 | a helpful vote changes only the helpful count, an unhelpful vote only the unhelpful count |
| Reviews.RemoveAt_Keeps | src/app/api/admin/reviews/route.ts:227 | deleting one review keeps every other review |
| ShoppingListsApi.StampAll | src/app/api/shopping-lists/route.ts:47-50 | every item of a new list is kept and stamped with the creation time |
| ShoppingListsApi.KeepStamps | src/app/api/shopping-lists/route.ts:141-144 | an item keeps its own time stamp when it has one and is stamped now otherwise |
| ShoppingListsApi.KeepStamps_Stamped | src/app/api/shopping-lists/route.ts:141-144 | after a PUT every item has a time stamp, and existing stamps are unchanged |
| ShoppingListsApi.Updated | src/app/api/shopping-lists/route.ts:137-147 | only the fields given change; identity, sharing and creation time are kept and the update time is set |
| ShoppingListsApi.SharesWithout | src/app/api/shopping-lists/route.ts:180-185 | exactly the share codes not pointing at the list remain, each still pointing where it did |
| ShoppingListsApi.Db.constructor | src/app/api/shopping-lists/route.ts:11-19 | the store starts with no lists and no shares |
| ShoppingListsApi.Db.Post | src/app/api/shopping-lists/route.ts:31-67 | a missing name is 400 and changes nothing; otherwise 201, and the new unshared list with stamped items is stored under its id |
| ShoppingListsApi.Db.Get | src/app/api/shopping-lists/route.ts:73-114 | a share code answers its list or 404, then an id answers its list or 404, otherwise every list |
| ShoppingListsApi.Db.Put | src/app/api/shopping-lists/route.ts:120-157 | a missing id is 400 and an unknown id 404, changing nothing; otherwise the list is updated as Updated says |
| ShoppingListsApi.Db.Delete | src/app/api/shopping-lists/route.ts:163-197 | a missing id is 400 and an unknown id 404; otherwise the list and every share code pointing at it are removed |
| ShoppingListsApi.SharesWithout_Effect | src/app/api/shopping-lists/route.ts:180-185 | after a delete no share code leads to the deleted list and every other code still leads where it did |
| PriceMonitor.FindPlan | src/app/api/price-monitor/route.ts:87 | the plan found has the id, and none is found only when no plan has it |
| PriceMonitor.CheckTask | src/app/api/price-monitor/route.ts:85-146 | the task keeps its identity and is stamped with the check time; a missing plan or a missing price is an error with its message and the previous check kept |
| PriceMonitor.CheckTask_Change | src/app/api/price-monitor/route.ts:108-134 | with a plan and a price the status is `changed` exactly when the price moved by more than 1, only then are the change time and a non-zero percentage set, and a drop is a lower price |
| PriceMonitor.HistoryOf | src/app/api/price-monitor/route.ts:110-119 | a history entry is recorded exactly when the plan exists and a price was obtained, with that plan and price |
| PriceMonitor.FindMonitor | src/app/api/price-monitor/route.ts:206-207 | the first monitor of the plan, or none when no monitor watches it |
| PriceMonitor.StatsOf | src/app/api/price-monitor/route.ts:271-276 | the enabled, changed and error counts never exceed the total, and changed plus errors fit in it |
| PriceMonitor.RecentChanges | src/app/api/price-monitor/route.ts:293-299 | at most ten monitors, all changed and stored, latest change first |
| PriceMonitor.NewMonitor | src/app/api/price-monitor/route.ts:172-185 | a new monitor is enabled and idle, on the plan and URL given, checked daily unless told otherwise |
| PriceMonitor.MonitorDb.constructor | src/app/api/price-monitor/route.ts:18-37 | the store starts with no monitors and no history |
| PriceMonitor.MonitorDb.Add | src/app/api/price-monitor/route.ts:160-188 | a missing field or an already watched plan is a 400 that changes nothing; otherwise the new monitor is appended |
| PriceMonitor.MonitorDb.Remove | src/app/api/price-monitor/route.ts:190-199 | a missing plan id is 400; otherwise every monitor of the plan is removed |
| PriceMonitor.MonitorDb.SetEnabled | src/app/api/price-monitor/route.ts:201-216 | a missing id is 400 and an unwatched plan 404; otherwise only the first monitor of the plan changes its enabled flag |
| PriceMonitor.MonitorDb.CheckOne | src/app/api/price-monitor/route.ts:222-244 | a missing id is 400 and an unwatched plan 404; otherwise the first monitor is replaced by its check and an obtained price is added to the history |
| PriceMonitor.MonitorDb.Post | src/app/api/price-monitor/route.ts:152-256 | an unknown action is 400 and changes nothing; `list` returns the monitors; each other action does what its case does |
| PriceMonitor.MonitorDb.Overview | src/app/api/price-monitor/route.ts:270-305 | the overview holds the statistics and the recent changes |
| PriceMonitor.MonitorDb.ForPlan | src/app/api/price-monitor/route.ts:278-290 | the plan's first monitor and its price history, newest first |
| PriceMonitor.Remove_Then_Add | src/app/api/price-monitor/route.ts:160-199 | after `remove` the plan is no longer watched, so `add` may watch it again |
| OcrRoute.ValidImages | src/app/api/ocr/route.ts:105-107 | exactly the string entries starting with `http` are kept |
| OcrRoute.OcrBatch | src/app/api/ocr/route.ts:118 | at most `maxImages` (10 by default) usable URLs go to the OCR script, all from the request |
| OcrRoute.Post | src/app/api/ocr/route.ts:89-143 | a missing or empty image array is a 400, an array with no usable URL a 400 with its own message; otherwise the OCR result or a 500 |
| OcrRoute.Post_Delegates | src/app/api/ocr/route.ts:116-135 | with usable URLs the script sees exactly the batch, and its answer is passed on with the combined text renamed, or as a 500 with its error |
| AiExtractRoute.OcrImages | src/app/api/ai-extract/route.ts:36-42 | at most `maxImages` images go to OCR, each from the page, starting with `http` and naming no icon, logo or similar marker |
| AiExtractRoute.ProcessImagesWithOcr | src/app/api/ai-extract/route.ts:18-86 | no text without images, without the Python environment or when every image is filtered out; any text returned is the OCR run's on the filtered images |
| AiExtractRoute.CombinedContent | src/app/api/ai-extract/route.ts:204-208 | without OCR text the page text is used unchanged; otherwise the page text, the separator and the OCR text, in that order |
| AiExtractRoute.Validate | src/app/api/ai-extract/route.ts:157-187 | a missing URL is reported first; the request passes exactly when it has a URL, a supported tool, a URL the parser accepts and a key whenever Firecrawl is chosen |
| AiExtractRoute.StampSources | src/app/api/ai-extract/route.ts:239-241 | every parsed plan is kept, in order, with the request URL as its source |
| AiExtractRoute.Post | src/app/api/ai-extract/route.ts:147-280 | a failed check answers 400 with its message; no parsed plan answers 422 with the first 2000 characters of the answer; otherwise the stamped plans |
| AiExtractRoute.DefaultTool | src/app/api/ai-extract/route.ts:331 | the default tool is the first available of claude, gemini and gpt, and none when none is |
| AiExtractRoute.DefaultService | src/app/api/ai-extract/route.ts:333 | Firecrawl is the default exactly when its key is set, Jina otherwise |
| AiVisionRoute.GenerateVisionPrompt | src/app/api/ai-vision/route.ts:41-74 | image-only or no text gives the base prompt; otherwise the base prompt, the reference header and at most 2000 characters of the text, always starting with the base prompt |
| AiVisionRoute.Extension | src/app/api/ai-vision/route.ts:215-216 | `.png` exactly when the lower-cased URL contains it, else `.webp` exactly when that is contained, else `.jpg` |
| AiVisionRoute.Downloaded | src/app/api/ai-vision/route.ts:212-223 | at most n files, each the numbered file of an inspected image that downloaded |
| AiVisionRoute.Downloaded_Empty | src/app/api/ai-vision/route.ts:226-231 | nothing is downloaded exactly when no inspected image downloads |
| AiVisionRoute.DownloadAll | src/app/api/ai-vision/route.ts:212-224 | the loop over the first min(n, 10) images collects exactly the downloaded files, at most 10 |
| AiVisionRoute.Post | src/app/api/ai-vision/route.ts:180-291 | no images is a 400; no downloaded image a 400 with its own message; an unparsable answer returns at most 2000 characters of it; otherwise the parsed plan, with the source URL when given |
| AdminScraper.CalculateRetryDelay | src/app/admin/scraper/page.tsx:862-868 | without back-off the base delay; with it base·2^n capped at the maximum delay, and exactly base·2^n when that fits |
| AdminScraper.CalculateRetryDelay_Monotone | src/app/admin/scraper/page.tsx:862-868 | with or without back-off a later retry never waits less |
| AdminScraper.SortByPriority | src/app/admin/scraper/page.tsx:821-824 | the sort keeps the same items and puts high before normal before low |
| AdminScraper.SortByPriority_Stable | src/app/admin/scraper/page.tsx:821-824 | the items of each priority keep the order they had, as the stable `Array.sort` keeps them |
| AdminScraper.NewItems | src/app/admin/scraper/page.tsx:811-819 | one new item per URL, trimmed, queued, not yet retried, with the priority and retry limit given |
| AdminScraper.AddToQueue | src/app/admin/scraper/page.tsx:810-828 | the queue afterwards holds exactly the old items and the new ones, sorted by priority |
| AdminScraper.AddToQueue_Added | src/app/admin/scraper/page.tsx:810-828 | every added URL is in the queue as a queued item with no retries |
| AdminScraper.UpdateQueuePriority | src/app/admin/scraper/page.tsx:839-848 | the queue is re-sorted by priority and holds the same items with the target's priority replaced |
| AdminScraper.UpdateQueuePriority_Only | src/app/admin/scraper/page.tsx:839-848 | every other item is kept as it was and the target keeps everything but its priority |
| AdminScraper.RemoveFromQueue | src/app/admin/scraper/page.tsx:830-832 | exactly the items with another id remain |
| AdminScraper.Statuses_Partition | src/app/admin/scraper/page.tsx:850-859 | the four status counts add up to the queue length, and high-priority queued items are among the queued |
| AdminScraper.GetQueueStats | src/app/admin/scraper/page.tsx:850-859 | queued + processing + done + failed equals the total, and the high-priority count is at most the queued count |
| AdminScraper.JobRow | src/app/admin/scraper/page.tsx:895-902 | each job row has one cell per header |
| AdminScraper.ExportLogsCsv_Reads | src/app/admin/scraper/page.tsx:894-907 | after the header line the job rows, each cell quoted with inner quotes doubled, read back exactly by a CSV reader |
| AdminScraper.NotificationCenter.constructor | src/app/admin/scraper/page.tsx:1048-1086 | the centre starts empty with a zero badge |
| AdminScraper.NotificationCenter.AddNotification | src/app/admin/scraper/page.tsx:1048-1062 | the new unread notification goes first, at most 50 are kept, and the badge goes up by one |
| AdminScraper.NotificationCenter.MarkRead | src/app/admin/scraper/page.tsx:1065-1070 | the notifications with the id are marked read and the badge becomes the actual unread count |
| AdminScraper.NotificationCenter.MarkAllRead | src/app/admin/scraper/page.tsx:1073-1078 | every notification is marked read and the badge, like the unread count, is 0 |
| AdminScraper.NotificationCenter.ClearAll | src/app/admin/scraper/page.tsx:1081-1085 | no notifications and a zero badge |
| AdminScraper.AllRead_NoUnread | src/app/admin/scraper/page.tsx:1073-1078 | a list of read notifications has no unread one |
| AdminScraper.AddNotification_Badge | src/app/admin/scraper/page.tsx:1058-1060 | while fewer than 50 are kept, adding one keeps the badge equal to the unread count |
| AdminScraper.ExtractImagesFromContent | src/app/admin/scraper/page.tsx:1272-1303 | the URLs are distinct, and are exactly the matched URLs with no skip pattern in their lower-cased form |
| AdminScraper.ToggleImageSelect | src/app/admin/scraper/page.tsx:1658-1669 | the index's membership flips, the job's other indices and every other job's selection stay |
| AdminScraper.ToggleImageSelect_Involution | src/app/admin/scraper/page.tsx:1658-1669 | toggling the same image twice restores every selection |
| AdminScraper.ParseCron | src/app/admin/scraper/page.tsx:2051-2068 | the text is `無效格式` exactly when the expression does not have five space-separated fields; minute 0 and hour `*` is hourly |
| AdminScraper.DigitRun | src/app/admin/scraper/page.tsx:2064 | `parseInt` reads the longest run of digits at the start: every character of the run is a digit of the base, and the next one is not |
| AdminScraper.ParseUnsigned | src/app/admin/scraper/page.tsx:2064 | unsigned text that does not open with a decimal digit reads as NaN |
| AdminScraper.ParseInt | src/app/admin/scraper/page.tsx:2064 | text opening with anything but white space, a sign or a digit reads as NaN |
| AdminScraper.ParseInt_DecimalPrefix | src/app/admin/scraper/page.tsx:2064 | leading decimal digits followed by a non-digit read as the number they spell, whatever follows (unless the text opens with `0x`) |
| AdminScraper.RunValue_Decimal | src/app/admin/scraper/page.tsx:2064 | a decimal run reads as the natural number its digits spell |
| AdminScraper.DayName_Prefix | src/app/admin/scraper/page.tsx:2063-2064 | a day-of-week field that opens with a digit 0 to 6 and no further digit, such as `1-5`, is named by that digit |
| AdminScraper.WeeklyFields | src/app/admin/scraper/page.tsx:2051-2068 | five fields with minute 0, an hour that is neither `*` nor `*/n`, any day and month and a day of the week give the weekly text for that day at hour:00 |
| AdminScraper.ParseCron_Weekdays | src/app/admin/scraper/page.tsx:2051-2068 | `0 <hour> * * <d…>` with d from 0 to 6 reads as the weekly schedule on day d at hour:00 |
| AdminScraper.DiffUpTo | src/app/admin/scraper/page.tsx:2145-2149 | the changes are exactly the inspected fields whose old and new values differ, with both values |
| AdminScraper.GetDataDiff | src/app/admin/scraper/page.tsx:2141-2152 | the loop over the five fields gives exactly the changes DiffUpTo describes, at most five |
| AdminScraper.GetDataDiff_Exact | src/app/admin/scraper/page.tsx:2141-2152 | a field is reported exactly when its values differ |
| AdminScraper.RecordJobHistory | src/app/admin/scraper/page.tsx:2134-2139 | the job's history ends with the new snapshot and holds at most 10; other jobs are untouched; a short history just grows by one |
| AdminScraper.AppendPrice | src/app/admin/scraper/page.tsx:1176 | a plan's price history ends with the new entry and keeps at most 30; a short one just grows by one |
| AdminScraper.PushChange | src/app/admin/scraper/page.tsx:1194 | the change feed starts with the new change and keeps at most 100; a short one just grows by one |
| AdminPage.FilteredPlans | src/app/admin/page.tsx:62-68 | exactly the plans whose title or vendor contains the query case-insensitively and whose status matches, unless the filter is `all` |
| AdminPage.FilteredPlans_All | src/app/admin/page.tsx:62-68 | an empty query with the `all` filter shows every plan |
| AdminPage.Statuses_Partition | src/app/admin/page.tsx:70-75 | the three status counts add up to the number of plans, every modelled plan having one of the three declared statuses (see Left out for `duplicate`) |
| AdminPage.CountsOf | src/app/admin/page.tsx:70-75 | `all` is the number of plans, each status count is the number of plans with that status, and the three add up to `all` |
| AdminPage.ToggleSelect | src/app/admin/page.tsx:84-88 | the id's membership flips and no other id changes |
| AdminPage.ToggleSelect_Involution | src/app/admin/page.tsx:84-88 | toggling twice restores the selection as a set |
| AdminPage.ToggleSelectAllAsWritten | src/app/admin/page.tsx:90-96 | as written: the selection is cleared when it has as many ids as there are shown plans, and otherwise becomes the shown ids |
| AdminPage.ToggleSelectAllAsWritten_Clears | src/app/admin/page.tsx:90-96 | a stale selection of the same size is cleared though no shown plan was selected |
| AdminPage.ToggleSelectAll | src/app/admin/page.tsx:90-96 | as meant: cleared when every shown plan is selected, otherwise exactly the shown ids |
| AdminPage.ToggleSelectAll_Twice | src/app/admin/page.tsx:90-96 | on a list not fully selected one press selects every shown plan and a second press clears the selection |
| AdminPage.OrNum | src/app/admin/page.tsx:156 | `v \|\| fallback` on a number keeps a non-zero value and otherwise gives the fallback |
| AdminPage.OrText | src/app/admin/page.tsx:151 | `v \|\| fallback` on text keeps a non-empty value and otherwise gives the fallback |
| AdminPage.ImportedPlan | src/app/admin/page.tsx:147-173 | an imported plan is always `needs_review`, with the placeholder vendor and title, price 0 and 4 servings when the parse lacks them, and delivery and frozen by default |
| AdminPage.ImportedPlan_Empty | src/app/admin/page.tsx:147-173 | an empty parse still yields a plan to review with every placeholder |
| AdminPage.ExportRow | src/app/admin/page.tsx:261-276 | each exported record has one cell per header column |
| AdminPage.ExportedRows | src/app/admin/page.tsx:249-276 | every exported record has the fourteen columns |
| AdminPage.ExportedRows_Published | src/app/admin/page.tsx:249 | every exported record is the record of a stored published plan |
| AdminPage.ExportedRows_Complete | src/app/admin/page.tsx:249 | every published plan is exported |
| AdminPage.ExportCsvAsWritten | src/app/admin/page.tsx:278-279 | as written: the file starts with the byte order mark, and cells are quoted without escaping |
| AdminPage.WrapRow_Unreadable | src/app/admin/page.tsx:278 | a cell holding a quote yields text that does not read back as CSV |
| AdminPage.ExportCsv | src/app/admin/page.tsx:278-279 | the corrected export starts with the byte order mark |
| AdminPage.ExportCsv_RoundTrip | src/app/admin/page.tsx:278-279 | in the corrected export the records after the header read back as exactly the published plans' rows |
| AdminPage.HeaderDoc | src/app/admin/page.tsx:278 | a header line before the quoted records leaves the records readable |
| AdminPage.Escape_NoQuote | src/app/admin/page.tsx:278 | for a cell without quotes the written and the corrected exports agree |
| OcrScript.KeptRecognised | scripts/ocr.py:58-64 | at most one kept text per recognised text |
| OcrScript.KeptRecognised_Kept | scripts/ocr.py:61-64 | every kept text is one of the recognised texts, its score (1.0 when the score list is short) above 0.5 and not blank |
| OcrScript.KeptLegacy | scripts/ocr.py:66-73 | at most one kept text per legacy line, kept only with confidence above 0.5 |
| OcrScript.CollectRecognised | scripts/ocr.py:61-64 | the loop keeps exactly the recognised texts the filter keeps, in order |
| OcrScript.CollectLegacy | scripts/ocr.py:67-73 | the loop keeps exactly the legacy texts the filter keeps, in order |
| OcrScript.OcrImage | scripts/ocr.py:43-78 | an engine error gives the empty text; otherwise the kept fragments of every item joined by line feeds |
| OcrScript.CombinedText | scripts/ocr.py:125-129 | no results combine to the empty text |
| OcrScript.Results | scripts/ocr.py:95-119 | at most one result per inspected URL; each result's text is trimmed and not blank, and its URL is a readable one among the first inspected that downloaded |
| OcrScript.ProcessImages | scripts/ocr.py:81-148 | without PaddleOCR the install hint; otherwise the results of the first `max_images` URLs, `processed` their number, `total` all URLs, the combined text of the results, and no temporary file left behind |
| OcrScript.RunCommand | scripts/ocr.py:156-196 | no argument prints the usage with exit status 1; bad JSON and an unreadable batch file print their errors; a single URL processes at most one image |
| PlanRecords.OrText | scripts/cleanup-data.js:147-153 | `o \|\| d` on a text field: the field when present and not empty, the default otherwise |
| PlanRecords.Keys_Has | scripts/add-plans.js:207-208 | the `vendorName::title` key of every existing record is in the key set |
| PlanRecords.Keys_Index | scripts/add-plans.js:207-208 | every key in the set belongs to some existing record |
| PlanRecords.Keys_Absent | scripts/add-plans.js:236-237 | a key no record carries is not in the set |
| PlanRecords.FirstMatch | scripts/add-plans.js:24-33 | the answer is the default or the category of some rule of the table |
| PlanRecords.FirstMatch_None | scripts/add-plans.js:24-33 | with no keyword hit the default (`'other'`, `'taiwanese'`) comes back |
| PlanRecords.FirstMatch_First | scripts/add-plans.js:24-33 | the first rule in table order with a keyword hit decides the category |
| PlanRecords.DetectCuisineStyle_Known | scripts/add-plans.js:51-70 | the detected style is one of the eight styles of the table |
| PlanRecords.DetectProductType | scripts/add-plans.js:35-49 | three or more dishes make a set meal, and the answer is one of the five product types |
| PlanRecords.CalculatePriceLevel | scripts/add-plans.js:72-77 | the answer is one of the four price levels |
| PlanRecords.CalculatePriceLevel_MatchesTable | src/types/index.ts:86-91 | for a non-negative price the script's level is the app's price-level range that holds the price |
| PlanRecords.CalculatePriceLevel_Monotone | scripts/add-plans.js:72-77 | a dearer plan never gets a cheaper level |
| PlanRecords.CalculateFamilySize | scripts/add-plans.js:79-85 | the answer is one of the four family sizes |
| PlanRecords.CalculateFamilySize_MatchesTable | src/types/index.ts:107-112 | for 1 to 20 servings the script's family size is the app's size whose range holds the count |
| PlanRecords.Jaccard | scripts/add-plans.js:94-113 | the dish similarity lies between 0 and 1, is 1 for equal dish sets and 0 for disjoint ones |
| AddPlans.Similarity | scripts/add-plans.js:94-113 | the similarity lies between 0 and 1; without dishes, equal normalised titles score 1; with dishes it is the Jaccard index of the dish sets |
| AddPlans.Similarity_Symmetric | scripts/add-plans.js:94-113 | the similarity of two plans does not depend on their order |
| AddPlans.Completeness | scripts/add-plans.js:116-125 | the completeness score is at least the number of dishes |
| AddPlans.FirstSimilar | scripts/add-plans.js:143-148 | the first candidate at or after the start that is similar (same vendor and price, not a duplicate, similarity at least 0.5), or none when no later candidate is |
| AddPlans.CheckDuplicateAndDecide | scripts/add-plans.js:131-190 | add exactly when no candidate is similar; otherwise the first similar candidate decides: more dishes replace, fewer skip, and equal dishes replace only on strictly greater completeness |
| AddPlans.ShippingTypeOf | scripts/add-plans.js:288-290 | 'both' exactly when the list holds delivery and pickup; otherwise 'pickup' or 'delivery' |
| AddPlans.FullPlan | scripts/add-plans.js:276-313 | the built plan keeps the vendor, title and price, is published, and defaults the shipping types to delivery and the storage types to frozen |
| AddPlans.Rejected_Step | scripts/add-plans.js:220-233 | one more record raises the invalid count by one exactly when it fails the required-field check (a name or title that is missing, '未知' or blank once trimmed, or a price that is not positive) |
| AddPlans.Mark_KeepsExisting | scripts/add-plans.js:257-260 | marking a not-yet-duplicate plan keeps every existing plan either untouched or marked as a duplicate |
| AddPlans.Append_KeysSeen | scripts/add-plans.js:315-316 | appending a plan records its key as seen |
| AddPlans.Append_KeepsFresh | scripts/add-plans.js:236-241 | appending a valid published plan under an unseen key keeps every added plan's key new to the file |
| AddPlans.Append_KeepsDistinct | scripts/add-plans.js:236-241 | appending under an unseen key keeps the added keys distinct |
| AddPlans.MarkAt | scripts/add-plans.js:257-260 | the plan file after a replacement: the matched plan marked duplicate, every other plan unchanged |
| AddPlans.Consider | scripts/add-plans.js:219-317 | one incoming record keeps the loop invariant; it is invalid exactly when it fails the required-field check (blank-after-trim names and titles included); skipped exactly when it is valid and its key is seen or the duplicate check skips it; replaces exactly when it is valid, its key unseen and the check replaces; the plan file changes only on a replacement, by marking the matched plan; the built plan is appended and its key recorded exactly when added or replacing |
| AddPlans.Step | scripts/add-plans.js:219-317 | one turn counts exactly one record as added, skipped or invalid, only appends to the added plans, and replaces at most once per added plan |
| AddPlans.Completed | scripts/add-plans.js:278-313 | the full plan of each incoming record is the one built under the id drawn for it |
| AddPlans.Run | scripts/add-plans.js:207-317 | after n records, added, skipped and invalid add up to n and replacements never outnumber additions |
| AddPlans.Run_AddedGrows | scripts/add-plans.js:315 | the added plans after m records are a prefix of those after any later count |
| AddPlans.Run_AddsAt | scripts/add-plans.js:236-316 | a valid record under an unseen key that the duplicate check does not skip has its full plan appended by its own turn |
| AddPlans.Run_AddsUnskipped | scripts/add-plans.js:236-320 | such a record's full plan is among the added plans of the whole run, hence in the written file |
| AddPlans.Run_Invalid | scripts/add-plans.js:219-233 | the invalid counter of the run is the number of records failing the required-field check |
| AddPlans.Consider_Steps | scripts/add-plans.js:219-317 | a turn that does what `Consider` promises is exactly one `Step` of the run, counters included |
| AddPlans.Turn | scripts/add-plans.js:218-317 | one iteration of the loop takes the run from i records to i + 1 and keeps the loop invariant |
| AddPlans.AddPlans | scripts/add-plans.js:195-320 | the written file is the existing plans, each untouched or marked duplicate, followed by the added ones; every added plan is valid, published and carries a key new to the file and to the others; added, skipped and invalid records add up to the incoming ones, and invalid is the number of records failing the required-field check, blank-after-trim names and titles included; and the written file, the added plans and the replaced and skipped counters are those of the record-by-record `Run` over the incoming records and their full plans |
| DedupePlans.Similarity | scripts/dedupe-plans.js:26-53 | the similarity lies between 0 and 1 and is 1 for equal normalised titles |
| DedupePlans.Similarity_Symmetric | scripts/dedupe-plans.js:26-53 | the similarity of two plans does not depend on their order |
| DedupePlans.Similarity_Unrelated | scripts/dedupe-plans.js:26-53 | unrelated titles and disjoint dish lists, not both empty, score 0, so such plans are never duplicates |
| DedupePlans.Contributions | scripts/dedupe-plans.js:97-111 | nine non-negative per-field scores, the dish one being the dish count |
| DedupePlans.Completeness | scripts/dedupe-plans.js:97-111 | the completeness score is never negative and never below the dish count |
| DedupePlans.DecideWhichToKeep | scripts/dedupe-plans.js:61-92 | one plan is kept and the other marked; the plan with more dishes, then greater completeness, then the earlier creation wins; when neither wins the second is kept |
| DedupePlans.DecideWhichToKeep_OrderFree | scripts/dedupe-plans.js:61-92 | unless dishes, completeness and creation all tie, both orders of comparison keep the same plan |
| DedupePlans.Group | scripts/dedupe-plans.js:127-137 | a price group is no longer than the plan list |
| DedupePlans.Group_Members | scripts/dedupe-plans.js:127-137 | a group holds exactly the plans not marked duplicate with its vendor and price key |
| DedupePlans.Group_Step | scripts/dedupe-plans.js:127-137 | one more plan extends a group by that plan or by nothing |
| DedupePlans.Indexed_Skip | scripts/dedupe-plans.js:129 | a plan already marked duplicate leaves the index unchanged |
| DedupePlans.Group_Live | scripts/dedupe-plans.js:131-136 | a live plan joins the group of its own key and of no other |
| DedupePlans.Indexed_Extend | scripts/dedupe-plans.js:136 | a live plan with a known key is pushed onto that key's group |
| DedupePlans.Indexed_New | scripts/dedupe-plans.js:133-135 | a live plan with a new key starts a group, listed after the earlier keys |
| DedupePlans.Indexed_Keys | scripts/dedupe-plans.js:125-137 | the index's keys are exactly the keys of the live plans |
| DedupePlans.BuildIndex | scripts/dedupe-plans.js:125-137 | the loop builds the groups of every key, in first-insertion order, and no other key |
| DedupePlans.PotentialDuplicates | scripts/dedupe-plans.js:140-146 | exactly the keys whose group holds more than one plan |
| DedupePlans.ResultOf | scripts/dedupe-plans.js:184-198 | an entry keeps one of the pair and marks the other |
| DedupePlans.DupIds_Append | scripts/dedupe-plans.js:200 | appending an entry adds its marked id to the processed ones |
| DedupePlans.Results_Append | scripts/dedupe-plans.js:184-200 | appending the entry of a similar pair keeps the earlier entries in place and adds its marked id |
| DedupePlans.CompareFrom | scripts/dedupe-plans.js:176-204 | the inner loop only appends entries, each from a similar pair, keeps the processed set equal to the marked ids, and leaves every later plan that is unmarked at the end scoring below 0.5 against plan i |
| DedupePlans.CompareGroup | scripts/dedupe-plans.js:170-205 | every entry comes from a similar pair of the group; when the first two plans are similar their entry comes first; any two plans of the group that neither got marked score below 0.5 |
| DedupePlans.CompareAll | scripts/dedupe-plans.js:155-205 | the entries of all groups each come from a similar pair of one group, and in every group any two unmarked plans score below 0.5 |
| DedupePlans.FirstKeep | scripts/dedupe-plans.js:238 | a keep id is found exactly when some entry marks the plan |
| DedupePlans.FirstKeep_First | scripts/dedupe-plans.js:238 | `find` takes the keep id of the first entry marking the plan |
| DedupePlans.MarkWith | scripts/dedupe-plans.js:236-246 | a marked plan becomes a duplicate of its first entry's kept plan with a fresh update instant; an unmarked plan is unchanged |
| DedupePlans.MarkWith_Frame | scripts/dedupe-plans.js:240-243 | marking changes nothing but the status, the duplicate link and the update instant |
| DedupePlans.MarkedCount | scripts/dedupe-plans.js:233-246 | the marked count never exceeds the number of plans |
| DedupePlans.MarkAll | scripts/dedupe-plans.js:233-246 | every plan in place becomes its marked version, and the count is the number of plans whose id is marked |
| DedupePlans.MarkedCount_Step | scripts/dedupe-plans.js:245 | one more plan raises the count by one exactly when its id is marked |
| DedupePlans.MarkOne | scripts/dedupe-plans.js:237-246 | one turn marks the plan at hand exactly when its id is marked, and leaves every other plan alone |
| DedupePlans.Dedupe | scripts/dedupe-plans.js:113-254 | every reported group holds several live plans with one key and every entry comes from one of them; every key with several live plans is reported, and in its group any two plans left unmarked score below 0.5; the file is written exactly when not a dry run and something was found; when written every plan is marked as the entries say and the count is the number of marked plans; otherwise the plans are unchanged |
| NormalizeData.DetectProductType | scripts/normalize-data.js:90-125 | a set meal exactly when the title holds a set-meal keyword or there are three dishes or more; soups and single dishes have at most two dishes; the answer is one of the five product types |
| NormalizeData.PriceLevelOfField | scripts/normalize-data.js:141-146 | with a price present, the script's price level of that price |
| NormalizeData.NormalizeTag_Idempotent | scripts/normalize-data.js:65-77 | normalising a normalised tag changes nothing |
| NormalizeData.NormalizedTags | scripts/normalize-data.js:156-166 | the normalised tags hold no repeat and are exactly the normalisations of the input tags |
| NormalizeData.NormalizedTags_Idempotent | scripts/normalize-data.js:156-166 | normalising a normalised tag list changes nothing |
| NormalizeData.NormalizeTags | scripts/normalize-data.js:156-166 | the set-building loop gives the normalised tag list |
| NormalizeData.Seen | scripts/normalize-data.js:168-185 | the `seen` map has exactly the keys of the plans run over |
| NormalizeData.Seen_First | scripts/normalize-data.js:172-182 | `seen` maps each key to the first plan carrying it |
| NormalizeData.FirstOccurrence | scripts/normalize-data.js:172-182 | every key that occurs has a first position |
| NormalizeData.UniqueByKey | scripts/normalize-data.js:206-214 | the unique plans are no more than the input |
| NormalizeData.UniqueByKey_Keys | scripts/normalize-data.js:206-214 | the unique plans carry every key of the input |
| NormalizeData.UniqueByKey_Distinct | scripts/normalize-data.js:206-214 | no key is carried twice among the unique plans |
| NormalizeData.UniqueByKey_Count | scripts/normalize-data.js:197-214 | the kept plans and the reported duplicates add up to the input |
| NormalizeData.FirstOfKey_Extend | scripts/normalize-data.js:172-182 | a plan first with its key stays first after more plans are appended |
| NormalizeData.Duplicates_Pairs | scripts/normalize-data.js:174-178 | each reported pair shares its key, and its original is the first plan of the input with that key |
| NormalizeData.FindDuplicates | scripts/normalize-data.js:168-185 | the loop reports exactly the specified duplicate pairs |
| NormalizeData.UniquePlans | scripts/normalize-data.js:206-214 | the filter with its key set keeps exactly the first plan of each key |
| NormalizeData.NormalizedPlan | scripts/normalize-data.js:234-243 | the rewritten record keeps its id, vendor and title |
| NormalizeData.NormalizedPlan_Fields | scripts/normalize-data.js:226-243 | the rewritten record keeps its price, carries duplicate-free normalised tags and the new instant, and is a set meal with three dishes or more |
| NormalizeData.NormalizedAll | scripts/normalize-data.js:226-244 | the map keeps the number, order, ids and keys of the plans |
| NormalizeData.Normalized_Keys | scripts/normalize-data.js:206-244 | the written plans carry every key of the input exactly once |
| NormalizeData.SameKeys | scripts/normalize-data.js:226-244 | runs with the same keys position by position have the same key set |
| NormalizeData.Normalize | scripts/normalize-data.js:189-257 | reports the duplicate pairs, writes the normalised first plans of each key, and the number removed is the number of duplicate pairs |
| CleanupData.FixCount | scripts/cleanup-data.js:113-163 | the number of fixed records never exceeds the number of records |
| CleanupData.DefaultShippingTypes | scripts/cleanup-data.js:143-149 | the shipping list given to a record without one is never empty |
| CleanupData.OrFill | scripts/cleanup-data.js:117-140 | a truthy field is kept and a falsy one replaced by the computed value |
| CleanupData.Filled | scripts/cleanup-data.js:114-163 | a filled record keeps its id, vendor and title |
| CleanupData.Filled_Keeps | scripts/cleanup-data.js:117-163 | present values are never changed; only the seven filled fields and the update instant can differ, and the instant changes only for a record that needed a fix |
| CleanupData.Filled_Lists | scripts/cleanup-data.js:143-154 | a missing shipping list becomes delivery and pickup for 'both', else the shipping type or 'delivery'; a missing storage list becomes the storage type or 'frozen' |
| CleanupData.DetectVendorType_Known | scripts/cleanup-data.js:23-32 | the vendor type is 'other' or a category of the table |
| CleanupData.Filled_NoFix | scripts/cleanup-data.js:114-163 | a record needing no fix is left exactly as it is |
| CleanupData.VendorType_NonEmpty | scripts/cleanup-data.js:23-32 | the detected vendor type is never empty |
| CleanupData.Levels_NonEmpty | scripts/cleanup-data.js:71-84 | the price level and the family size are never empty |
| CleanupData.Classes_NonEmpty | scripts/cleanup-data.js:34-69 | the product type and cuisine style are never empty |
| CleanupData.Filled_Fixed | scripts/cleanup-data.js:114-163 | a filled record needs no further fix |
| CleanupData.Filled_Idempotent | scripts/cleanup-data.js:114-163 | a second run changes nothing |
| CleanupData.FillOne | scripts/cleanup-data.js:115-163 | one turn of the loop gives the filled record and reports a fix exactly when one was needed |
| CleanupData.FilledUpTo_Step | scripts/cleanup-data.js:114 | filling a record in its place extends the filled prefix by one |
| CleanupData.FixCount_Step | scripts/cleanup-data.js:160-163 | one more record raises the count by one exactly when it needs a fix |
| CleanupData.FillMissing | scripts/cleanup-data.js:113-163 | every record is replaced by its filled version and the fixed ones are counted |
| CleanupData.Cleanup | scripts/cleanup-data.js:86-166 | the written records are the valid ones, in order, each filled and still valid; kept plus removed is the input; the fixed count is that of the valid records |
| FixData.KeywordShipping | scripts/fix-data.js:18-31 | only delivery, pickup and convenience-store methods are named |
| FixData.InferShippingTypes | scripts/fix-data.js:14-45 | the inferred shipping list is never empty |
| FixData.InferShippingTypes_Rule | scripts/fix-data.js:14-45 | keywords decide when any matches; otherwise the old shipping type, 'both' meaning delivery and pickup; otherwise delivery |
| FixData.KeywordStorage | scripts/fix-data.js:51-64 | only frozen, chilled and room-temperature methods are named |
| FixData.InferStorageTypes | scripts/fix-data.js:47-74 | the inferred storage list is never empty |
| FixData.InferStorageTypes_Rule | scripts/fix-data.js:47-74 | keywords decide when any matches; otherwise the old storage type unless missing or 'unknown'; otherwise frozen |
| FixData.FreeThreshold_Subsumed | scripts/fix-data.js:79-86 | wording matching the threshold pattern already contains the free-shipping keyword |
| FixData.InferShippingFee | scripts/fix-data.js:76-89 | the inferred fee is 0 or the plan's own fee |
| FixData.InferShippingFee_Rule | scripts/fix-data.js:76-89 | 0 exactly for free-shipping wording, else the plan's own fee |
| FixData.EstimateOriginal | scripts/fix-data.js:134 | the estimate is 1.1 times the discounted price rounded half up |
| FixData.FixPlan | scripts/fix-data.js:107-143 | the fixed copy keeps its id, vendor and title and carries the new instant |
| FixData.FixPlan_Fields | scripts/fix-data.js:107-143 | non-empty lists, a known fee and a truthy original price are kept; both lists end up non-empty; a missing fee becomes 0 only for free wording; the original price is estimated only when missing and the tags promise a discount |
| FixData.StatsOf | scripts/fix-data.js:98-104 | no counter exceeds the number of records |
| FixData.FixedUpTo_Step | scripts/fix-data.js:107 | fixing the next record extends the fixed prefix by one |
| FixData.StatsOf_Step | scripts/fix-data.js:110-136 | one more record moves each counter exactly when its own condition holds |
| FixData.FixOne | scripts/fix-data.js:107-143 | the callback returns the fixed copy and moves exactly the counters whose conditions hold |
| FixData.Fix | scripts/fix-data.js:91-147 | every record is fixed and restamped in order, and the counters are those of the whole file |
| EnrichData.WithFreeTag | scripts/enrich-data.js:38-41 | '免運' is appended exactly when the tags lack it |
| EnrichData.EnrichFee_Rule | scripts/enrich-data.js:22-58 | a counted fee is always 0; free-shipping wording or a dear delivery plan gets fee 0 and the '免運' tag; an uncounted record changes at most its fee; pickup-only plans stay without a fee |
| EnrichData.WithFreeTag_Once | scripts/enrich-data.js:38-41 | the '免運' tag is never doubled |
| EnrichData.EarlyBirdOriginal | scripts/enrich-data.js:73 | the estimate is the price divided by 0.85, rounded half up |
| EnrichData.HotelOriginal | scripts/enrich-data.js:79 | the estimate is the price divided by 0.88, rounded half up |
| EnrichData.EnrichOriginal_Rule | scripts/enrich-data.js:62-84 | for a non-negative price the estimate is never below the price, and the record changes exactly when it has a discount tag or is a hotel plan |
| EnrichData.EnrichDeadline | scripts/enrich-data.js:88-110 | the deadline rule always sets one of the three deadlines, changes nothing else, and counts |
| EnrichData.EnrichDeadline_Dates | scripts/enrich-data.js:95-109 | frozen delivery closes on 20 January, otherwise pickup on 25 January, otherwise 22 January |
| EnrichData.PriceLabel | scripts/enrich-data.js:159-166 | the price label is never empty |
| EnrichData.FamilyLabel | scripts/enrich-data.js:169-176 | the household label is never empty |
| EnrichData.Labels_Monotone | scripts/enrich-data.js:159-176 | a dearer price never gets a cheaper label, a larger household never a smaller one |
| EnrichData.EnrichClasses | scripts/enrich-data.js:114-179 | the classification rule reports a change exactly when some label was missing |
| EnrichData.EnrichClasses_Fills | scripts/enrich-data.js:114-179 | present labels are kept, and afterwards none is missing |
| EnrichData.Step | scripts/enrich-data.js:186-191 | a record whose condition fails is left alone and not counted |
| EnrichData.Pass | scripts/enrich-data.js:186-191 | one rule's pass keeps the number of records |
| EnrichData.Applied | scripts/enrich-data.js:186-191 | a rule counts at most every record |
| EnrichData.Applied_Condition | scripts/enrich-data.js:187-188 | a rule counts only records whose condition holds |
| EnrichData.Pass_Completes | scripts/enrich-data.js:88-179 | after the deadline pass every record has a deadline; after the classification pass no label is missing |
| EnrichData.PassedUpTo_Step | scripts/enrich-data.js:186 | enriching the next record in place extends the passed prefix |
| EnrichData.Applied_Step | scripts/enrich-data.js:187-190 | one more record raises a rule's count exactly when it is enriched |
| EnrichData.RunRule | scripts/enrich-data.js:186-191 | the inner loop enriches every record in place and counts as the rule says |
| EnrichData.Passes | scripts/enrich-data.js:184-197 | the rules keep the number of records |
| EnrichData.Enrich | scripts/enrich-data.js:184-200 | the four rules run in order over the file, and the total is what they count |
| EnrichData.Enrich_Completes | scripts/enrich-data.js:184-200 | after the script every record has a deadline and every label |
| AutoFill.DefaultFee | scripts/auto-fill-missing-fields.js:17-30 | the default fee is 0, 50, 80 or 100, and 0 for pickup |
| AutoFill.FillFeeAsWritten | scripts/auto-fill-missing-fields.js:15-45 | the fee pass as written changes nothing but the fee |
| AutoFill.FillFeeAsWritten_OverwritesFree | scripts/auto-fill-missing-fields.js:16-22 | a free nationwide delivery plan (fee 0) is treated as missing its fee and given 100 |
| AutoFill.RegionDistanceAsWritten_Islands | scripts/auto-fill-missing-fields.js:62-69 | the app's island region is not in the table as written and falls through to 999 |
| AutoFill.RegionDistance | scripts/auto-fill-missing-fields.js:62-81 | the distance is one of the table's values or 999 |
| AutoFill.RegionDistance_Regions | scripts/auto-fill-missing-fields.js:62-81 | nearer regions get smaller distances, islands 300, and nationwide 999 |
| AutoFill.DistanceFor | scripts/auto-fill-missing-fields.js:53-82 | the distance is one of the table's values or 999 |
| AutoFill.DistanceFor_Rule | scripts/auto-fill-missing-fields.js:53-82 | nationwide delivery areas force 999; otherwise the region's distance, and 999 with no region |
| AutoFill.SuggestedDishes | scripts/auto-fill-missing-fields.js:104-118 | exactly three dishes are suggested |
| AutoFill.SuggestedDishes_Order | scripts/auto-fill-missing-fields.js:107-118 | the Cantonese group wins over the others, and a vegetarian tag gets vegetarian dishes only when no cuisine group comes before it |
| AutoFill.Fill | scripts/auto-fill-missing-fields.js:15-133 | a pass keeps the record's id |
| AutoFill.Fill_Rule | scripts/auto-fill-missing-fields.js:15-133 | a pass touches only its own field and only records needing it, after which they no longer do |
| AutoFill.Fill_KeepsFee | scripts/auto-fill-missing-fields.js:16 | a fee already present, 0 included, survives the corrected fee pass |
| AutoFill.Pass | scripts/auto-fill-missing-fields.js:15-133 | a pass keeps the number of records |
| AutoFill.Logged | scripts/auto-fill-missing-fields.js:35-42 | a pass logs at most one entry per record |
| AutoFill.Logged_Sound | scripts/auto-fill-missing-fields.js:35-42 | every logged entry names a record that needed that field |
| AutoFill.Logged_Count | scripts/auto-fill-missing-fields.js:32-43 | a pass logs exactly as many entries as records needing the field |
| AutoFill.Pass_Settles | scripts/auto-fill-missing-fields.js:15-133 | a second run of a pass fills and logs nothing |
| AutoFill.FilledUpTo_Step | scripts/auto-fill-missing-fields.js:15 | filling the next record in place extends the filled prefix |
| AutoFill.Logged_Step | scripts/auto-fill-missing-fields.js:35-42 | one more record adds its entry exactly when it needed the field |
| AutoFill.RunPass | scripts/auto-fill-missing-fields.js:15-45 | one `forEach` pass fills every record in place and logs as specified |
| AutoFill.AutoFillAll | scripts/auto-fill-missing-fields.js:1-150 | fees, then distances, then dishes; the log is the three passes' entries in order and the counters are their lengths |
| CompleteDistance.CompletedDistance | scripts/complete-distance-data.js:29-42 | nationwide delivery areas give 999, otherwise pickup gives 0, otherwise the region's distance (999 for none) |
| CompleteDistance.Completed | scripts/complete-distance-data.js:27-58 | only the distance can change, and only on a record whose distance is falsy |
| CompleteDistance.Completed_Rule | scripts/complete-distance-data.js:28-46 | a truthy distance is left alone; every considered record ends with its completed distance; the record changes exactly when counted |
| CompleteDistance.Completed_AgreesWithAutoFill | scripts/complete-distance-data.js:29-42 | for a record that is not pickup-only and not nationwide, this pass and the auto-fill pass set the same distance |
| CompleteDistance.Pass | scripts/complete-distance-data.js:27-58 | the pass keeps the number of records |
| CompleteDistance.Changed | scripts/complete-distance-data.js:44-47 | the update count never exceeds the number of records |
| CompleteDistance.Changed_Zero | scripts/complete-distance-data.js:27-58 | the count is zero exactly when the pass leaves the list as it was |
| CompleteDistance.Pass_Settles | scripts/complete-distance-data.js:27-58 | a second run changes nothing |
| CompleteDistance.DoneUpTo_Step | scripts/complete-distance-data.js:27 | completing the next record in place extends the done prefix |
| CompleteDistance.Changed_Step | scripts/complete-distance-data.js:44-47 | one more record raises the count exactly when it changes |
| CompleteDistance.Complete | scripts/complete-distance-data.js:27-58 | the `forEach` completes every record in place and counts the changed ones |
| Integrate2026.VendorTypeOf | scripts/integrate-2026-data.js:27-35 | the vendor type is one of the six the script names |
| Integrate2026.ProductTypeOf | scripts/integrate-2026-data.js:37-45 | the product type is one of five; without a set or combination title, no dishes or exactly one dish makes a single item |
| Integrate2026.CuisineStyleOf | scripts/integrate-2026-data.js:47-57 | the style is one of the eight the script names |
| Integrate2026.Detect_Defaults | scripts/integrate-2026-data.js:34-56 | no tags give 'taiwanese' and an unremarkable vendor name gives 'brand' |
| Integrate2026.Enriched | scripts/integrate-2026-data.js:72-84 | an addition keeps the vendor, title and price of its record |
| Integrate2026.Enriched_Fields | scripts/integrate-2026-data.js:72-84 | an addition is published with zeroed counters and the current instant; a supplied label wins over the detected one |
| Integrate2026.Enriched_Ids | scripts/integrate-2026-data.js:74 | additions from different places of the new data never share an id |
| Integrate2026.ToAdd | scripts/integrate-2026-data.js:63-87 | at most one addition per new record |
| Integrate2026.Split_Count | scripts/integrate-2026-data.js:63-87 | every new record is either added or noted as a duplicate |
| Integrate2026.ToAdd_Fresh | scripts/integrate-2026-data.js:18-24 | no addition matches an existing record on vendor, title and price |
| Integrate2026.Plans | scripts/integrate-2026-data.js:90 | the plans of the additions, in order |
| Integrate2026.Integrate | scripts/integrate-2026-data.js:59-93 | the merged file is the existing records untouched followed by the additions, and its length is the old length plus the new records not duplicated |
| ImportNiantsai.NumOrNull | scripts/import-niantsai.js:60-62 | `n \|\| null`: a truthy number is kept, anything else becomes null |
| ImportNiantsai.TextOrNull | scripts/import-niantsai.js:68-74 | `s \|\| null`: a non-empty text is kept, anything else becomes null |
| ImportNiantsai.ToPlan | scripts/import-niantsai.js:52-83 | the built plan keeps the item's vendor, title and price |
| ImportNiantsai.ToPlan_Defaults | scripts/import-niantsai.js:52-83 | new plans are drafts; servings default to 4, the maximum falling back to the minimum; the region defaults to nationwide; the key is the item's |
| ImportNiantsai.Fresh | scripts/import-niantsai.js:43-51 | the filter keeps at most the items it is given |
| ImportNiantsai.Fresh_Mem | scripts/import-niantsai.js:43-51 | an item is imported exactly when its `vendorName::title` key is not already in the file |
| ImportNiantsai.NewPlans | scripts/import-niantsai.js:52-83 | one plan per imported item |
| ImportNiantsai.Import | scripts/import-niantsai.js:35-91 | the written file is the existing plans followed by the new ones; skipped plus new is the number of items; no new plan repeats an existing key |
| AddVendorImages.ImageFor | scripts/add-vendor-images.js:7-28 | a picture exists exactly for the table's vendors: the seafood photo for 海霸王 and 山海樓, the feast photo for the others |
| AddVendorImages.WithImage | scripts/add-vendor-images.js:36-51 | only the picture can change |
| AddVendorImages.WithImage_Rule | scripts/add-vendor-images.js:38-41 | a record with a picture is never changed; a record changes exactly when it lacks one and its vendor is in the table, and then gets its vendor's picture |
| AddVendorImages.Logged | scripts/add-vendor-images.js:43-48 | at most one log entry per record |
| AddVendorImages.Logged_Sound | scripts/add-vendor-images.js:43-48 | every logged update names a record that lacked a picture, with its vendor's picture |
| AddVendorImages.Pass | scripts/add-vendor-images.js:36-51 | the pass keeps the number of records |
| AddVendorImages.DoneUpTo_Step | scripts/add-vendor-images.js:36 | handling the next record in place extends the done prefix |
| AddVendorImages.Logged_Step | scripts/add-vendor-images.js:40-49 | one more record adds its entry exactly when it is updated |
| AddVendorImages.AddImages | scripts/add-vendor-images.js:33-51 | the `forEach` updates every record in place, logs each update, and the counter is the number of entries |
| ScrapeQueue.NewItem | scripts/scrape-queue.js:58-64 | a new item carries its URL, no retries, no result and no error |
| ScrapeQueue.Urls | scripts/scrape-queue.js:51-52 | the URLs of the items, position by position |
| ScrapeQueue.Ids | scripts/scrape-queue.js:194 | the ids of the items, position by position |
| ScrapeQueue.AiExtractFrom | scripts/scrape-queue.js:127-166 | a success comes from a later service whose body reports success; otherwise the all-services-failed error |
| ScrapeQueue.AiExtract_Order | scripts/scrape-queue.js:129-165 | Firecrawl is asked first, and local scraping only when Firecrawl does not succeed |
| ScrapeQueue.Urls_Append | scripts/scrape-queue.js:51 | the URLs of joined buckets are the joined URLs |
| ScrapeQueue.Urls_Grow | scripts/scrape-queue.js:71-80 | URLs already queued stay queued as more lines are added |
| ScrapeQueue.Finished | scripts/scrape-queue.js:190-202 | a success lands with its result and completion instant, a failure with its error and failure instant; URL and id are kept |
| ScrapeQueue.Completions | scripts/scrape-queue.js:192-197 | at most one completed entry per item taken |
| ScrapeQueue.Failures | scripts/scrape-queue.js:198-203 | at most one failed entry per item taken |
| ScrapeQueue.Outcomes_Step | scripts/scrape-queue.js:190-203 | one more item adds its entry to completed on success and to failed otherwise |
| ScrapeQueue.RunStep_Processing | scripts/scrape-queue.js:181-202 | pushing the item and filtering it out by id keeps processing as the invariant says |
| ScrapeQueue.RunStep_Outcomes | scripts/scrape-queue.js:190-203 | one turn keeps completed and failed as the invariant says |
| ScrapeQueue.Outcomes_Split | scripts/scrape-queue.js:180-211 | every item taken ends in exactly one of completed (with a result) and failed (with its failure instant) |
| ScrapeQueue.WithoutIds_Step | scripts/scrape-queue.js:194 | filtering out the next item's id extends the filtering by one item |
| ScrapeQueue.WithoutIds_Fresh | scripts/scrape-queue.js:182-202 | when no item taken shares an id with one in processing, processing ends as it began |
| ScrapeQueue.Retried | scripts/scrape-queue.js:239-244 | a retried item has one more retry, no error and no failure instant, and is otherwise unchanged |
| ScrapeQueue.Exported | scripts/scrape-queue.js:272-277 | at most one exported record per completed item |
| ScrapeQueue.Exported_Sound | scripts/scrape-queue.js:272-277 | each exported record is a completed item's result with the item's URL as its source |
| ScrapeQueue.UrlLines | scripts/scrape-queue.js:73-75 | the URL lines are trimmed, non-empty and not comments |
| ScrapeQueue.Queue.constructor | scripts/scrape-queue.js:30-40 | a new queue has four empty buckets |
| ScrapeQueue.Queue.AddUrl | scripts/scrape-queue.js:48-68 | a URL already in any bucket is refused; otherwise it is appended to pending as a new item; the other buckets are unchanged and the URL is queued afterwards |
| ScrapeQueue.Queue.AddFromFile | scripts/scrape-queue.js:71-80 | pending only grows at its end, the other buckets are unchanged, and every URL line of the file is queued afterwards |
| ScrapeQueue.Queue.RunQueue | scripts/scrape-queue.js:169-215 | up to `count` items leave the front of pending; each ends in completed or failed as its extraction says, and processing loses their ids |
| ScrapeQueue.Queue.RetryFailed | scripts/scrape-queue.js:229-250 | every failed item, retried, goes to the end of pending; failed is emptied and the number of items is kept |
| ScrapeQueue.Queue.ExportCompleted | scripts/scrape-queue.js:253-290 | the exported results are appended to the new-plans list, completed is emptied, and the count is the number exported |
| ScrapeQueue.Queue.RecoverStuck | scripts/scrape-queue.js:381-385 | items stuck in processing go back to the front of pending; no item is lost or added |
| ScrapeQueue.RunQueue_Total | scripts/scrape-queue.js:180-211 | with fresh ids a run keeps every item: the buckets hold as many as before |
| ScrapeQueue.ImportedUpTo | scripts/scrape-queue.js:311-329 | at most one imported plan per new plan |
| ScrapeQueue.Published | scripts/scrape-queue.js:316-323 | the imported plan is published with the current instants, keeps its key, and only id, status and instants change |
| ScrapeQueue.Imported_New | scripts/scrape-queue.js:313-314 | imported plans have keys the database lacked |
| ScrapeQueue.Imported_From | scripts/scrape-queue.js:311-329 | every imported key is that of one of the new plans |
| ScrapeQueue.Imported_Distinct | scripts/scrape-queue.js:313-326 | no two imported plans share a key |
| ScrapeQueue.Import_Step | scripts/scrape-queue.js:311-329 | one turn of the import loop keeps its invariant |
| ScrapeQueue.ImportOne | scripts/scrape-queue.js:312-328 | a plan with a known key is skipped; otherwise it is added, published; its key becomes known either way |
| ScrapeQueue.ImportToDatabase | scripts/scrape-queue.js:293-340 | the database becomes the existing plans followed by each new plan whose key is new to the database and to the plans before it, and the count is their number |
| BatchScrape.ScrapeFrom | scripts/batch-scrape-v2.js:59-104 | the attempts made stay between the starting attempt and the limit |
| BatchScrape.ScrapeFrom_Succeeds | scripts/batch-scrape-v2.js:59-104 | a scrape succeeds exactly when some remaining attempt succeeds |
| BatchScrape.ScrapeFrom_First | scripts/batch-scrape-v2.js:59-104 | the outcome is the first successful attempt, in service order then attempt order, after failed attempts only; with none, the all-services-failed error after every attempt |
| BatchScrape.TryNumber | scripts/batch-scrape-v2.js:60-61 | attempt `n` at service `s` is numbered `s · maxRetries + n − 1`, within the limit |
| BatchScrape.ScrapeFrom_Next | scripts/batch-scrape-v2.js:61-101 | a failed attempt passes on to the next; a successful one ends the scan with its service and data |
| BatchScrape.ScrapeWithRetry | scripts/batch-scrape-v2.js:59-104 | the nested loop gives the specified outcome and attempt count |
| BatchScrape.Scrape_Bounded | scripts/batch-scrape-v2.js:59-104 | at most services × maxRetries attempts; a URL is given up exactly when every attempt at every service fails |
| BatchScrape.Scrape_FirstAttempt | scripts/batch-scrape-v2.js:59-83 | when the first attempt at Jina succeeds nothing else is asked |
| BatchScrape.AiFrom | scripts/batch-scrape-v2.js:107-149 | the attempts made stay within the retry limit |
| BatchScrape.AiFrom_First | scripts/batch-scrape-v2.js:107-149 | the outcome is the first body the service returns, after failed attempts only; with none in maxRetries attempts, the AI-failed error |
| BatchScrape.AiExtractWithRetry | scripts/batch-scrape-v2.js:107-149 | the retry loop gives the specified outcome and attempt count |
| BatchScrape.WordEnd | scripts/batch-scrape-v2.js:159 | the end of the run of word characters from a position |
| BatchScrape.BareHost_Rejected | scripts/batch-scrape-v2.js:152-163 | a site's home page is never a product page |
| BatchScrape.WordEnd_Run | scripts/batch-scrape-v2.js:159 | a maximal run of word characters ends where `WordEnd` says |
| BatchScrape.Search_Rejected | scripts/batch-scrape-v2.js:152-163 | a URL with `/search` in any letter case is never a product page |
| BatchScrape.EntryFor | scripts/batch-scrape-v2.js:192-241 | the line names its URL, is a skip exactly for an invalid URL, and a success carries the plan, the service and the scraped summary |
| BatchScrape.EntryFor_Success | scripts/batch-scrape-v2.js:192-241 | success exactly for a valid URL that scraped and whose extraction returned data, carrying that service and that plan |
| BatchScrape.NewEntries | scripts/batch-scrape-v2.js:189-258 | one line per URL from the start index |
| BatchScrape.NewEntries_At | scripts/batch-scrape-v2.js:189-258 | line `i` is the line of URL `i` |
| BatchScrape.NewEntries_Resume | scripts/batch-scrape-v2.js:177-189 | resuming after a checkpoint gives the lines of an uninterrupted run |
| BatchScrape.Counts_Partition | scripts/batch-scrape-v2.js:189-258 | every line is a success, a counted failure or a skip |
| BatchScrape.Counts_Saved | scripts/batch-scrape-v2.js:184-185 | the successes and failures counted from saved lines add up to the lines |
| BatchScrape.LoadUrls | scripts/batch-scrape-v2.js:34-40 | the URLs are trimmed lines that are neither blank nor comments |
| BatchScrape.Run | scripts/batch-scrape-v2.js:166-273 | the lines are the starting ones followed by one line per remaining URL; the last index is the last URL's when any was handled; the success count counts every successful line and the failure count adds the new non-skipped failures to the saved failures |
| BatchScrape.RunFrom | scripts/batch-scrape-v2.js:189-258 | the loop appends one line per URL from the start and keeps both counters as specified |
| BatchScrape.CountEntry | scripts/batch-scrape-v2.js:196-237 | a success raises the success count; a failure that is not a skip raises the failure count |
| BatchScrape.Run_Step | scripts/batch-scrape-v2.js:189-258 | one more URL extends the lines by its line and each counter by one when the line is of its kind |
| BatchScrape.Step | scripts/batch-scrape-v2.js:190-241 | the loop body appends the specified line for its URL |
| EditPanel.Validate | src/components/EditPanel.tsx:71-89 | the form passes exactly when no message is recorded; each of the four fields has a message exactly when its own check fails, and no other key appears |
| EditPanel.Valid_NonBlank | src/components/EditPanel.tsx:71-89 | a form passes exactly when both names have a non-blank character and price and servings are positive |
| EditPanel.CanPublish_Valid | src/components/EditPanel.tsx:91-99 | publishable exactly when valid and carrying a deadline or a fulfilment date |
| EditPanel.AddDish | src/components/EditPanel.tsx:125-133 | a blank input changes nothing; otherwise the trimmed dish is appended after the unchanged list and the input is cleared |
| EditPanel.AddDish_Clean | src/components/EditPanel.tsx:125-133 | adding keeps every dish trimmed and non-empty |
| EditPanel.DropIndex | src/components/EditPanel.tsx:138 | removing by position never lengthens the list |
| EditPanel.DropIndex_Slices | src/components/EditPanel.tsx:138 | exactly the element at the index is dropped, and nothing for an index out of range |
| EditPanel.RemoveDish | src/components/EditPanel.tsx:135-140 | one dish fewer for an index in range, the rest in order; the list unchanged otherwise |
| EditPanel.RemoveDish_Clean | src/components/EditPanel.tsx:135-140 | removing keeps every dish trimmed and non-empty |
| EditPanel.ToggleTag | src/components/EditPanel.tsx:142-149 | the tag's membership flips and every other tag's membership is kept |
| EditPanel.ToggleTag_Involution | src/components/EditPanel.tsx:142-149 | toggling twice restores membership, and restores a list that did not hold the tag |
| EditPanel.AddCustomTag | src/components/EditPanel.tsx:151-159 | at most one tag is appended after the unchanged list, and exactly when the input is cleared and was not blank |
| EditPanel.AddCustomTag_NoDup | src/components/EditPanel.tsx:151-159 | a tag is never added twice, and a non-blank input is a tag afterwards |
| EditPanel.HandleSave | src/components/EditPanel.tsx:101-123 | nothing happens on a failed validation; a new panel or one without a plan adds, otherwise the edited plan is updated under its id; the status is the requested one or the form's, the vendor id the form's or a fresh one |
| EditPanel.HandleSave_Saved | src/components/EditPanel.tsx:101-123 | what is saved passes validation, carries a vendor id, and differs from the form only in status and vendor id |
| QuickWizard.Advance | src/components/QuickWizard.tsx:211-229 | the next question, staying on a question; the result page shows from the last question on |
| QuickWizard.Back | src/components/QuickWizard.tsx:231-235 | the previous question, never before the first |
| QuickWizard.AdvanceN_Result | src/components/QuickWizard.tsx:211-229 | after `n` answers or skips the result page shows exactly when `n` reaches the number of questions, resting on the last one |
| QuickWizard.Wizard.constructor | src/components/QuickWizard.tsx:104-107 | the wizard starts closed, at the first question, with no answers and no result |
| QuickWizard.Wizard.Open | src/components/QuickWizard.tsx:332-343 | the button opens the wizard and changes nothing else |
| QuickWizard.Wizard.HandleSelect | src/components/QuickWizard.tsx:211-221 | the answer is recorded under its question and the wizard moves on as `Advance` says |
| QuickWizard.Wizard.HandleSkip | src/components/QuickWizard.tsx:223-229 | the wizard moves on as `Advance` says, the answers untouched |
| QuickWizard.Wizard.HandleBack | src/components/QuickWizard.tsx:231-235 | the question goes back as `Back` says, nothing else changes |
| QuickWizard.Wizard.HandleReset | src/components/QuickWizard.tsx:320-324 | back to the first question with no answers and no result, open or closed as before |
| QuickWizard.Wizard.HandleClose | src/components/QuickWizard.tsx:326-331 | closed and reset |
| QuickWizard.Wizard.Recommendations | src/components/QuickWizard.tsx:112-209 | nothing until the result page shows; then the total counts the matching plans and the first five are matching plans |
| QuickWizard.Suits_Stages | src/components/QuickWizard.tsx:114-174 | a recommended plan is published and passes the people, budget, style, delivery and region stages |
| QuickWizard.Inactive_Keeps | src/components/QuickWizard.tsx:119-174 | a stage whose `switch` has no case for the answer keeps every plan |
| QuickWizard.RunStage | src/components/QuickWizard.tsx:119-174 | one stage filters by its condition when the answer has a case, and keeps the list otherwise |
| QuickWizard.BrandScore | src/components/QuickWizard.tsx:180-186 | the score is 0 to 2 and 0 exactly for hotels, which therefore sort first |
| QuickWizard.Summarize | src/components/QuickWizard.tsx:199-208 | the total is the number of matches, the top five are the first five of them, and both means are 0 without a match |
| QuickWizard.SumPrices_Bounds | src/components/QuickWizard.tsx:203 | prices within bounds sum to within the bounds times the count |
| QuickWizard.RoundDiv_Between | src/components/QuickWizard.tsx:203 | the rounded mean of such a sum lies within the bounds |
| QuickWizard.Summarize_AvgBounds | src/components/QuickWizard.tsx:202-204 | the mean price lies between the cheapest and the dearest match |
| QuickWizard.Matching_Mem | src/components/QuickWizard.tsx:114-174 | a plan matches exactly when it is one of the plans and suits every answer |
| QuickWizard.FilterStages | src/components/QuickWizard.tsx:114-174 | the five stages after the published filter give the matching plans |
| QuickWizard.Rank | src/components/QuickWizard.tsx:176-197 | the matches are permuted: by price per person for 'value', hotels and brands first for 'brand', most dishes first for 'variety', earliest deadline for 'fast', and left in order otherwise |
| QuickWizard.Recommend | src/components/QuickWizard.tsx:112-209 | the ranked list is a permutation of the matching plans, in the order the priority answer asks for |
| QuickWizard.SortFor | src/components/QuickWizard.tsx:302-314 | 'value' sorts by price per person, 'fast' by deadline, anything but 'brand' by price |
| QuickWizard.ApplyFilters | src/components/QuickWizard.tsx:237-318 | the filters always ask for published plans, and the sort is the one the priority answer chooses |
| QuickWizard.ApplyFilters_NoAnswers | src/components/QuickWizard.tsx:237-318 | without answers the filters restrict as the defaults do |
| QuickWizard.ApplyFilters_Answers | src/components/QuickWizard.tsx:246-300 | two people cap the servings at 2, a large family asks for at least 6, the small budget caps the price at 2000, 'any' delivery keeps every shipping type, and a vegetarian style asks for any of the vegetarian tags |
| CompareModal.ShippingLabel | src/components/CompareModal.tsx:21-32 | '-' exactly for a type other than delivery, pickup and both |
| CompareModal.StorageLabel | src/components/CompareModal.tsx:34-45 | '-' exactly for a type other than frozen, chilled and room temperature |
| CompareModal.Labels_Distinct | src/components/CompareModal.tsx:21-45 | every shipping type has its own label; only the unknown storage type shows '-', and the others have their own labels |
| CompareModal.BestsOf | src/components/CompareModal.tsx:48-58 | every best figure is finite as soon as one plan is compared |
| CompareModal.BadgeIndex | src/components/CompareModal.tsx:60-72 | each badge has its own place in the push order |
| CompareModal.Advantages | src/components/CompareModal.tsx:60-72 | at most seven badges |
| CompareModal.Advantages_Earned | src/components/CompareModal.tsx:60-72 | a badge is shown exactly when its condition holds |
| CompareModal.Advantages_NoDup | src/components/CompareModal.tsx:60-72 | no badge is shown twice |
| CompareModal.BadgeLabel_Injective | src/components/CompareModal.tsx:62-69 | the badge labels are distinct |
| CompareModal.AllBadges_Complete | src/components/CompareModal.tsx:62-69 | the push order lists every badge once |
| CompareModal.Lowest_Cheapest | src/components/CompareModal.tsx:48-62 | '最低價' marks exactly the cheapest compared plans |
| CompareModal.MostDishes_Max | src/components/CompareModal.tsx:57-67 | '菜色最多' marks exactly the plans with the most dishes, when that number is positive |
| CompareModal.Lowest_Exists | src/components/CompareModal.tsx:48-62 | some compared plan always carries '最低價' |
| CompareModal.BiggestDiscount_Max | src/components/CompareModal.tsx:54-70 | '折扣最多' marks exactly the plans with an original price whose discount is the positive maximum |
| CompareModal.Shown | src/components/CompareModal.tsx:233 | the first three badges, all of them when there are at most three |
| FilterSidebar.LowerThumb | src/components/FilterSidebar.tsx:144-147 | the lower price thumb never passes the upper one minus a step, and stays where it was dropped exactly when that keeps the gap |
| FilterSidebar.UpperThumb | src/components/FilterSidebar.tsx:149-152 | the upper thumb stays at least one step above the lower one, and where it was dropped exactly when that keeps the gap |
| FilterSidebar.Thumbs_StayApart | src/components/FilterSidebar.tsx:144-152 | whatever sequence of drags of either thumb, the two thumbs stay at least one step apart |
| FilterSidebar.HandlePriceRange | src/components/FilterSidebar.tsx:268-273 | a slider end maps to no bound and any other value to that bound; no other filter changes |
| FilterSidebar.HandleServingRange | src/components/FilterSidebar.tsx:275-281 | clicking the selected servings range clears both bounds, any other range is selected; no other filter changes |
| FilterSidebar.ServingRange_Twice | src/components/FilterSidebar.tsx:275-281 | a second click on the same range button restores filters that had no servings bound |
| FilterSidebar.HandleTagToggle | src/components/FilterSidebar.tsx:283-291 | the toggled tag is present afterwards exactly when it was absent, every other tag keeps its membership, nothing else changes |
| FilterSidebar.TagToggle_Involution | src/components/FilterSidebar.tsx:283-291 | toggling a tag twice gives back the same set of tags |
| FilterSidebar.ToggleShippingType | src/components/FilterSidebar.tsx:458-464 | a shipping type is selected afterwards exactly when it was not; nothing else changes |
| FilterSidebar.ToggleStorageType | src/components/FilterSidebar.tsx:500-506 | a storage type is selected afterwards exactly when it was not; nothing else changes |
| FilterSidebar.ToggleFreeShipping | src/components/FilterSidebar.tsx:476-478 | the free-shipping filter is on afterwards exactly when it was off; nothing else changes |
| FilterSidebar.FreeShipping_Twice | src/components/FilterSidebar.tsx:476-478 | two flips leave the switch on exactly when it was on |
| FilterSidebar.SelectRegion | src/components/FilterSidebar.tsx:523 | choosing a region sets it and resets the city to all, nothing else changes |
| FilterSidebar.SelectCity | src/components/FilterSidebar.tsx:553 | choosing a city sets it and resets the district to all, nothing else changes |
| FilterSidebar.AvailableCities | src/components/FilterSidebar.tsx:293-296 | no cities for an unset, all or nationwide region; every city offered belongs to the chosen region |
| FilterSidebar.AvailableCities_Complete | src/components/FilterSidebar.tsx:293-296 | every city of a chosen region is offered, each once |
| FilterSidebar.AvailableDistricts | src/components/FilterSidebar.tsx:298-300 | districts are offered only for a chosen city that has a district list, and then exactly that list |
| FilterSidebar.ActiveFlags | src/components/FilterSidebar.tsx:302-312 | nine conditions are counted |
| FilterSidebar.ActiveFilterCount | src/components/FilterSidebar.tsx:302-312 | the badge count is at most nine |
| FilterSidebar.ActiveFilterCount_Zero | src/components/FilterSidebar.tsx:302-312 | the count is zero exactly when no price, servings, shipping, storage, free-shipping, region, city, district or tag filter is set |
| FilterSidebar.ActiveFilterCount_Defaults | src/components/FilterSidebar.tsx:302-312 | the default filters show no badge |
| PriceRangeSlider.PriceRange | src/components/PriceRangeSlider.tsx:15-24 | both ends are multiples of 100 with the lower not above the upper, and 0 to 20000 when nothing is published |
| PriceRangeSlider.DownToHundred | src/components/PriceRangeSlider.tsx:21 | the largest multiple of 100 not above the price |
| PriceRangeSlider.UpToHundred | src/components/PriceRangeSlider.tsx:22 | the smallest multiple of 100 not below the price |
| PriceRangeSlider.PriceRange_Covers | src/components/PriceRangeSlider.tsx:15-24 | every published price lies inside the range and each end is within 100 of some published price |
| PriceRangeSlider.LocalStart | src/components/PriceRangeSlider.tsx:26-33 | a thumb starts at its bound when that is set and non-zero, otherwise at the range's end |
| PriceRangeSlider.HandleMinChange | src/components/PriceRangeSlider.tsx:35-38 | the lower thumb stays at least 500 below the upper one, and where it was dropped exactly when that keeps the gap |
| PriceRangeSlider.HandleMaxChange | src/components/PriceRangeSlider.tsx:40-43 | the upper thumb stays at least 500 above the lower one, and where it was dropped exactly when that keeps the gap |
| PriceRangeSlider.HandleApply | src/components/PriceRangeSlider.tsx:45-50 | a thumb at the range's end sets no bound, any other position sets that bound; no other filter changes |
| PriceRangeSlider.Apply_Untouched | src/components/PriceRangeSlider.tsx:26-50 | applying untouched thumbs keeps unset bounds unset and keeps set bounds that are neither zero nor a range end |
| PriceRangeSlider.HandleReset | src/components/PriceRangeSlider.tsx:52-56 | both price bounds cleared, nothing else changes, and the thumbs go to the range's ends |
| PriceRangeSlider.Reset_InSync | src/components/PriceRangeSlider.tsx:29-56 | after a reset the sync puts the thumbs where the reset put them |
| PriceRangeSlider.QuickRanges | src/components/PriceRangeSlider.tsx:61-66 | four quick ranges, the first starting at zero |
| PriceRangeSlider.QuickRange | src/components/PriceRangeSlider.tsx:92-96 | a quick range sets its upper bound and its lower bound unless that is zero; nothing else changes |
| PriceRangeSlider.QuickRange_Highlight | src/components/PriceRangeSlider.tsx:29-96 | after the sync a chosen quick range stays highlighted exactly when it starts above zero or the slider's range starts at zero |
| ServingsSlider.HandleMinChange | src/components/ServingsSlider.tsx:26-29 | the lower thumb stays below the upper one, and where it was dropped exactly when that is below the upper one |
| ServingsSlider.HandleMaxChange | src/components/ServingsSlider.tsx:31-34 | the upper thumb stays above the lower one, and where it was dropped exactly when that is above the lower one |
| ServingsSlider.HandleApply | src/components/ServingsSlider.tsx:36-41 | a thumb at 1 or at 12 sets no bound, any other position sets that bound; nothing else changes |
| ServingsSlider.HandleReset | src/components/ServingsSlider.tsx:43-47 | both servings bounds cleared, nothing else changes, thumbs at 1 and 12 |
| ServingsSlider.Reset_Apply | src/components/ServingsSlider.tsx:20-47 | applying the thumbs the sync places after a reset changes nothing: reset and apply agree |
| ServingsSlider.QuickOption | src/components/ServingsSlider.tsx:89-95 | a quick option sets its minimum and its maximum unless that reaches 12; nothing else changes |
| ServingsSlider.QuickOption_Highlight | src/components/ServingsSlider.tsx:52-95 | every quick option stays highlighted once the thumbs are synced to the filters it set |
| ServingsSlider.Label_Forms | src/components/ServingsSlider.tsx:59-63 | the label has a '+' exactly for an open top and a '-' exactly for a closed range of more than one count |
| QuickFilters.ChipToggle | src/components/QuickFilters.tsx:10-91 | each chip's toggle changes only the filters that chip owns |
| QuickFilters.ChipToggle_Flips | src/components/QuickFilters.tsx:10-91 | every chip's toggle flips that chip's highlight, and switching the under-5000 chip off clears the price ceiling |
| QuickFilters.ListChips_Involution | src/components/QuickFilters.tsx:64-91 | toggling the no-beef or vegetarian chip twice keeps every other keyword or tag, and gives back a list that lacked the chip's word |
| QuickFilters.Entries | src/components/QuickFilters.tsx:94-190 | no more entries than keys |
| QuickFilters.Pushed | src/components/QuickFilters.tsx:94-190 | each key pushes at most one entry |
| QuickFilters.Entries_Cons | src/components/QuickFilters.tsx:94-190 | the entries of a key list are the first key's push followed by the rest's |
| QuickFilters.Entries_Pushed | src/components/QuickFilters.tsx:94-190 | the pushes done so far followed by the remaining keys' entries are the entries of all keys |
| QuickFilters.Entries_Keys | src/components/QuickFilters.tsx:94-190 | the entries' keys are exactly the active keys, in the push order |
| QuickFilters.KeysOf_Append | src/components/QuickFilters.tsx:94-190 | the keys of joined entry lists are the joined key lists |
| QuickFilters.PushWhenActive | src/components/QuickFilters.tsx:97-188 | one guarded push appends the key's entry exactly when its filter is active |
| QuickFilters.GetActiveFilters | src/components/QuickFilters.tsx:94-190 | the ten guarded pushes build exactly the entries of all keys in the fixed order |
| QuickFilters.Entries_Listed | src/components/QuickFilters.tsx:94-190 | an entry is listed exactly for each active filter, no key twice, at most ten entries |
| QuickFilters.ClearEntry_Removes | src/components/QuickFilters.tsx:106-185 | an entry's clear button deactivates that entry and leaves every other entry's condition unchanged |
| QuickFilters.ClearAll | src/components/QuickFilters.tsx:195-214 | clearing all keeps the published-only, tag-logic, date, single shipping and storage type and district filters |
| QuickFilters.ClearAll_Empty | src/components/QuickFilters.tsx:193-214 | after clearing all no entry is listed and nothing counts as active |
| MobileFilterBar.FindQuickFilter | src/components/MobileFilterBar.tsx:212 | the quick filter found has the asked id, and none is found exactly when no quick filter has it |
| MobileFilterBar.HandleQuickFilter | src/components/MobileFilterBar.tsx:211-234 | an unknown id changes nothing; tapping the highlighted filter resets to the defaults and clears the highlight; any other replaces the filters by its patch, highlights it, and the best-value one sets the per-person price order |
| MobileFilterBar.QuickFilter_Twice | src/components/MobileFilterBar.tsx:211-234 | tapping the same quick filter twice leaves the default filters with nothing highlighted |
| MobileFilterBar.HandleClearAll | src/components/MobileFilterBar.tsx:236-240 | clearing restores the default filters, clears the highlight and keeps the order |
| MobileFilterBar.QuickFilter_Marks | src/components/MobileFilterBar.tsx:195-240 | after clearing nothing counts as a filter; every quick filter except the best-value order counts as one, and that one leaves the filters at their defaults |
| MobileFilterBar.TabVendors | src/components/MobileFilterBar.tsx:122-126 | the vendor tab's search is the vendor list's name search with every vendor type |
| MobileFilterBar.TabVendors_Mem | src/components/MobileFilterBar.tsx:122-126 | the tab shows exactly the tallied vendors whose name holds the query, or all of them for an empty query |
| MobileFilterBar.MultiSelect_Involution | src/components/MobileFilterBar.tsx:438-484 | two taps of a shipping or storage button give back the same selection |
| VendorList.Find | src/components/VendorList.tsx:62 | the entry found carries the vendor's name, and none is found exactly when no entry does |
| VendorList.Bump | src/components/VendorList.tsx:63-66 | one more plan for a listed vendor adds one to its count and widens its price span to cover the new price |
| VendorList.VendorStats | src/components/VendorList.tsx:51-79 | the vendor list is the tally of the published plans sorted by plan count, most first |
| VendorList.Tally_Covers | src/components/VendorList.tsx:61-76 | a vendor has an entry exactly when some tallied plan is by that vendor |
| VendorList.Tally_Sound | src/components/VendorList.tsx:61-76 | every entry names a vendor of the tallied plans |
| VendorList.Tally_Complete | src/components/VendorList.tsx:61-76 | every vendor of the tallied plans has an entry |
| VendorList.Tally_Distinct | src/components/VendorList.tsx:53-76 | the map keyed by vendor name never lists a vendor twice |
| VendorList.Tally_Describes | src/components/VendorList.tsx:61-76 | each entry counts exactly its vendor's plans and its span covers every one of their prices |
| VendorList.Tally_Sum | src/components/VendorList.tsx:61-76 | the counts add up to the number of plans tallied |
| VendorList.SumCounts_Sort | src/components/VendorList.tsx:78 | sorting the entries keeps the total count |
| VendorList.SortDesc_Distinct | src/components/VendorList.tsx:78 | sorting the entries lists no vendor twice |
| VendorList.VendorStats_Props | src/components/VendorList.tsx:51-79 | one entry per published vendor, none twice, each counting that vendor's published plans with a span over their prices, counts adding up to the published plans, most plans first |
| VendorList.TypeStats | src/components/VendorList.tsx:82-98 | every vendor type has a count, and it is the number of entries of that type |
| VendorList.TypeCount_Total | src/components/VendorList.tsx:82-98 | the seven type counts add up to the number of entries |
| VendorList.FilteredVendors | src/components/VendorList.tsx:101-114 | the filtered list is no longer than the vendor list |
| VendorList.FilteredVendors_Mem | src/components/VendorList.tsx:101-114 | an entry is shown exactly when it has the chosen type and its name holds the query, case-insensitively |
| VendorList.FilteredVendors_Case | src/components/VendorList.tsx:101-114 | the empty query with all types shows every entry, and a query finds the same entries as its lower-case form |
| VendorList.HandleVendorClick | src/components/VendorList.tsx:116-119 | a vendor click leaves the store with the default filters and that vendor's name as the search text |
| VendorList.HandleTypeClick | src/components/VendorList.tsx:122-125 | a type click sets that vendor type and published-only, and the store's filter run sees only the defaults |
| SmartRecommend.PresetFilters | src/components/SmartRecommend.tsx:139-140 | a preset is applied on fresh filters with published-only on |
| SmartRecommend.HandlePresetClick | src/components/SmartRecommend.tsx:131-143 | clicking the active preset restores the defaults and clears the highlight; any other click applies that preset on fresh filters and highlights it |
| SmartRecommend.PresetClick_Twice | src/components/SmartRecommend.tsx:131-143 | a second click on the same preset undoes the first, whatever was active before |
| SmartRecommend.Preset_StoreView | src/components/SmartRecommend.tsx:23-60 | the store's filter run sees the default filters exactly for the hotel preset, because it never reads the vendor type |
| SmartRecommend.HotelPreset_OnlyHotels | src/components/SmartRecommend.tsx:49 | with a vendor-type stage, the hotel preset keeps exactly the hotel plans and the other presets do not narrow by type |
| SmartRecommend.TopBy | src/components/SmartRecommend.tsx:90-110 | a sorted top list holds the first n elements, or all of them, in order |
| SmartRecommend.TopBy_Best | src/components/SmartRecommend.tsx:90-110 | every element left out of a top list ranks no higher than every element on it |
| SmartRecommend.TopBy_Sub | src/components/SmartRecommend.tsx:90-110 | a top list holds only elements of its input |
| SmartRecommend.TopBy_Stable | src/components/SmartRecommend.tsx:90-110 | for every key, the elements of a top list with that key are the first of the input's elements with that key, in input order |
| SmartRecommend.StatsOf | src/components/SmartRecommend.tsx:86-128 | the total counts the published plans, each top list holds at most five sorted plans, and the price span is unset exactly when nothing is published |
| SmartRecommend.Stats_Members | src/components/SmartRecommend.tsx:86-115 | every plan of a top list is a published plan meeting that list's condition |
| SmartRecommend.Stats_CheapestPerPerson | src/components/SmartRecommend.tsx:90-93 | a published plan left off the best-value list costs no less per person than any plan on it |
| SmartRecommend.Stats_CheapestHotels | src/components/SmartRecommend.tsx:96-99 | a published hotel plan left off the hotel list costs no less than any plan on it |
| SmartRecommend.Stats_CheapestSmallFamily | src/components/SmartRecommend.tsx:107-110 | a published small-family plan left off that list costs no less than any plan on it |
| SmartRecommend.Stats_PriceSpan | src/components/SmartRecommend.tsx:124-127 | the price span covers every published price |
| SmartRecommend.TopPickQuery | src/components/SmartRecommend.tsx:152 | the search text is a prefix of the titles joined by '\|', at most 50 characters long |
| SmartRecommend.TopPickFilters | src/components/SmartRecommend.tsx:145-155 | the top-pick button leaves the defaults with published-only on and that search text |
| SmartRecommend.TopPickQuery_MissesPicks | src/components/SmartRecommend.tsx:145-155 | as written, two picks titled "a" and "b" search for "a\|b", which neither pick matches |
| SmartRecommend.TopPickHit_ShowsPicks | src/components/SmartRecommend.tsx:145-155 | a search matching any listed title shows every listed plan |
| BatchImportModal.ParseUrls | src/components/BatchImportModal.tsx:94-107 | every kept line is non-empty and accepted as a URL |
| BatchImportModal.ParseUrls_Sound | src/components/BatchImportModal.tsx:94-107 | every kept URL is the trimmed text of some input line |
| BatchImportModal.ParseUrls_Complete | src/components/BatchImportModal.tsx:94-107 | every input line whose trimmed text is non-empty and a URL is kept |
| BatchImportModal.ErrorText | src/components/BatchImportModal.tsx:145 | the reply's error message or the fallback, so never empty when the fallback is not |
| BatchImportModal.AfterReply | src/components/BatchImportModal.tsx:140-166 | the item keeps its URL and becomes 'error' exactly on a failed reply, with a non-empty message and its old data, and 'success' otherwise |
| BatchImportModal.AfterReply_Mark | src/components/BatchImportModal.tsx:130-166 | the 'processing' mark put on an item is overwritten by its reply |
| BatchImportModal.Processed | src/components/BatchImportModal.tsx:110-170 | a run ends with one item per URL |
| BatchImportModal.Processed_Settled | src/components/BatchImportModal.tsx:110-170 | after a run each item belongs to its URL in input order and is 'success' or 'error', 'error' exactly when its reply failed |
| BatchImportModal.AfterRetry | src/components/BatchImportModal.tsx:336-372 | a retried item keeps its URL and ends 'success' or 'error', with a message when 'error' |
| BatchImportModal.AfterImport | src/components/BatchImportModal.tsx:289-303 | an item without parsed data is left alone; an item becomes 'imported' only with parsed data; URL and data are kept |
| BatchImportModal.ImportedAll | src/components/BatchImportModal.tsx:306-324 | bulk import keeps the number of items |
| BatchImportModal.RetriedAll | src/components/BatchImportModal.tsx:327-374 | a retry keeps the number of items |
| BatchImportModal.ImportRetry_Touch | src/components/BatchImportModal.tsx:306-374 | bulk import changes only importable items, which become 'imported' exactly when the callback succeeds; retry changes only failed items, which leave the error state exactly on success |
| BatchImportModal.ImportedParsed_Kept | src/components/BatchImportModal.tsx:110-374 | a run, a bulk import and a retry all keep every imported item holding parsed data |
| BatchImportModal.MarkUrl | src/components/BatchImportModal.tsx:313-319 | every item with the URL gets the outcome and every other item stays as it was |
| BatchImportModal.ImportAllByUrl | src/components/BatchImportModal.tsx:306-324 | the import as written keeps the number of items |
| BatchImportModal.ImportAllByUrl_ImportsFailed | src/components/BatchImportModal.tsx:306-324 | as written, a URL pasted twice, once extracted and once failed, marks the failed copy 'imported' without data |
| BatchImportModal.FirstWithUrl | src/components/BatchImportModal.tsx:334 | the position found holds the URL, or is -1 |
| BatchImportModal.RetryByUrl | src/components/BatchImportModal.tsx:327-374 | the retry as written keeps the number of items |
| BatchImportModal.RetryByUrl_TouchesSuccess | src/components/BatchImportModal.tsx:327-374 | as written, a URL pasted twice, extracted first and failed second, has the retry overwrite the extracted copy and leave the failed one failed |
| BatchImportModal.ManualParse | src/components/BatchImportModal.tsx:258-286 | a blank reply changes nothing; a reply that does not parse or lacks vendor or title only sets the parse message; otherwise the parsed plan, stamped with the item's URL, is stored and the item becomes 'success' |
| BatchImportModal.ManualParse_Fails | src/components/BatchImportModal.tsx:258-286 | a non-blank reply the parser cannot use sets exactly the parse message |
| BatchImportModal.StatsOf | src/components/BatchImportModal.tsx:377-383 | the total is the number of items |
| BatchImportModal.Stats_Partition | src/components/BatchImportModal.tsx:377-383 | the success, imported, error and pending counts add up to the total |
| BatchImportModal.BatchImport.constructor | src/components/BatchImportModal.tsx:29-47 | the dialog starts empty at the input step, not loading |
| BatchImportModal.BatchImport.ResetState | src/components/BatchImportModal.tsx:78-86 | back to the empty input step, with the loading flag untouched |
| BatchImportModal.BatchImport.SetManualResponse | src/components/BatchImportModal.tsx:639-642 | the typed reply is stored under the item's URL and nothing else changes |
| BatchImportModal.BatchImport.Process | src/components/BatchImportModal.tsx:110-232 | without a valid URL only the error message is set; otherwise the items become the settled run over the parsed URLs and the dialog moves to review, no longer loading |
| BatchImportModal.BatchImport.RunItems | src/components/BatchImportModal.tsx:122-168 | the loop leaves exactly the settled run over the URLs, with the index on the last item |
| BatchImportModal.BatchImport.ParseManualResponse | src/components/BatchImportModal.tsx:258-286 | only the chosen item changes, to its manual parse of the reply typed under its URL |
| BatchImportModal.BatchImport.ImportItem | src/components/BatchImportModal.tsx:289-303 | only the chosen item changes, to its import outcome |
| BatchImportModal.BatchImport.ImportAll | src/components/BatchImportModal.tsx:306-324 | the items become the bulk import by position and loading ends |
| BatchImportModal.BatchImport.RetryFailed | src/components/BatchImportModal.tsx:327-374 | the items become the retry by position; loading is untouched when nothing failed and ends otherwise |
| ShoppingListPanel.CalculateStats | src/components/ShoppingListPanel.tsx:53-72 | zeros without an open list; otherwise the price and serving totals over the lines whose plan is loaded, and the number of lines, counting those whose plan is missing |
| ShoppingListPanel.Totals_Append | src/components/ShoppingListPanel.tsx:53-72 | the totals of a joined list are the sums of the parts' totals |
| ShoppingListPanel.Totals_SkipMissing | src/components/ShoppingListPanel.tsx:58-65 | a line whose plan is not loaded changes no total, wherever it is |
| ShoppingListPanel.Totals_Single | src/components/ShoppingListPanel.tsx:58-65 | a one-line list totals that line's price and servings times its quantity |
| ShoppingListPanel.Totals_NonNegative | src/components/ShoppingListPanel.tsx:53-72 | with non-negative prices, servings and quantities the totals are non-negative, and zero when no line's plan is loaded |
| ShoppingListPanel.Decrement | src/components/ShoppingListPanel.tsx:281 | the minus button lowers the quantity by one but never below 1 |
| ShoppingListPanel.Increment | src/components/ShoppingListPanel.tsx:288 | the plus button raises the quantity by exactly one |
| ShoppingListPanel.Increment_Decrement | src/components/ShoppingListPanel.tsx:281-288 | minus undoes plus on every valid quantity, and plus undoes minus above 1 |

## Left out

- Network, subprocess and file I/O are not modelled; their results are parameters. This covers every `fetch`, the Python and AI command-line tools, the browser-based scrapers, PaddleOCR and the image downloads, the `fs` reads and writes of the scripts and routes, `localStorage` and geolocation.
- Clocks, `Date.now()` ids, `crypto` random values, `Math.random` and SHA-256 hashing are not modelled: times and fresh ids are parameters.
- The regular-expression engine is an abstract `Matcher` in the moderation code. Elsewhere the few patterns the code relies on are written out as scans. `JSON.parse` and the `URL` constructor are parameters.
- The distance from the shopper to a plan, the distance sort and its formatting are not modelled: they are floating-point Haversine geometry.
- The catalogue's view and edit modes, `editingPlanId`, the loading flag and the persistence of the store to local storage are not modelled. They only steer the screen and the storage layer.
- PlanStore.PlanStore.SetFilters: a key set to `undefined` is stored as absent (`None`). The source keeps the key with an undefined value, which every reader treats the same way.
- Types.PerPersonPrice reads a plan with zero servings as one serving, where JavaScript divides by zero. CompareModal.BestsOf and SmartRecommend.StatsOf inherit this. The store's filter and sort handle JavaScript's infinities and NaN explicitly instead.
- UiFilters: the map-bounds rectangle filter is not modelled; it needs coordinates.
- The local-storage layer of the cache and `cachedFetch` are not modelled; only the memory layer and `withCache` are.
- The performance monitor's `timeAsync` timing, its console report and the Web Vitals and memory observers are not modelled. They read the browser's clock and observers.
- The validation schemas other than the bounds written as predicates, and `validateRequestBody`, are not modelled: they are zod plumbing.
- Security headers, CSRF tokens, UUID and URL checks and password hashing are not modelled. They depend on the runtime.
- The middleware's trace ids, response headers and logger are not modelled; only admission and the layering order are.
- Scraper.TruncateContent: the 70% threshold is stated with exact integer arithmetic (`10 * cut > 7 * maxLength`), not as the double-precision product the source computes. The two differ only where `0.7 * maxLength` rounds across an integer.
- PlanStore.SortPlans, PlanStore.SortedCopy and PlanStore.PlanStore.GetFilteredPlans state that the result is ordered and a permutation of the input. They do not state that plans with equal keys keep their catalogue order, which JavaScript's stable `Array.sort` gives. The functional sort `Sorting.SortDesc` is proved stable.
- PlanStore.SortPlans orders vendor names by code point, where the source calls `localeCompare(…, 'zh-TW')` (`src/stores/planStore.ts:705`). Locale collation orders Chinese names by stroke or pronunciation and is not modelled. The deadline and fulfilment-date sorts also compare by code point.
- Types.PlanStatus has only the three statuses that `src/types/index.ts:3` declares. The scripts also write 'duplicate' into the plan file (`scripts/dedupe-plans.js:240`, `scripts/add-plans.js:258`), and the data layer loads the file without checking statuses (`src/lib/dataLayer.ts:116`). Such plans are not represented in the store and admin models. So AdminPage.CountsOf, AdminPage.Statuses_Partition, PlanStore.StatusCounts_Sum and PlanStore.PlanStore.StatusCounts state that the three counts add up to the number of plans. In the source the sum is at most that number and falls short by the number of 'duplicate' plans.
- PlanRecords.CalculateFamilySize reads a JSON `null` count as a missing one and gives 'large'. JavaScript compares `null` as 0, so the source gives 'couple' for `servingsMax: null` with no minimum. The plan record does not tell `null` from an absent field.
- NormalizeData.PriceLevelOfField reads a JSON `null` price as missing and gives 'luxury'. The source gives 'budget' there, because `null < 2000` is true in JavaScript.
- EnrichData.PriceLabel reads a JSON `null` price as missing and gives 'luxury', where the source gives 'budget'.
- EnrichData.FamilyLabel reads a JSON `null` count as missing and gives 'xl', where the source gives 'small'.
- EnrichData.EnrichFee_Rule and EnrichData.Enrich read a missing vendor name, title or tag list as empty. The source throws a `TypeError` there (`scripts/enrich-data.js:28`, `:39`) and the script stops before writing the file.
- DedupePlans.Similarity reads a missing title as "". The source throws at `a.title.toLowerCase()` (`scripts/dedupe-plans.js:28`) and the script stops.
- Integrate2026.Enriched reads a missing vendor name or title as "" when it detects the labels. The source throws at `vendorName.toLowerCase()` (`scripts/integrate-2026-data.js:28`).
- ImportNiantsai.ToPlan does not build `vendorId` and the other fields the plan record does not hold, so it never reads `item.vendorName.replace`. The source throws there on a missing vendor name (`scripts/import-niantsai.js:54`). The fields `vendorId`, `images`, `pickupPoints`, `address`, `fulfillEnd`, `canSelectDate` and `allergens` are not part of the plan record.
- Common.Lower folds only ASCII letters, where `toLowerCase` folds every cased Unicode letter. Lengths are counted in code points, where JavaScript counts UTF-16 units. This affects `content.length`, `substring`, the e-mail length bound, the schema maximum lengths and the repeated-character detector, for characters outside the Basic Multilingual Plane. `Common.IsSpace` is JavaScript's white-space set; Python's `strip` in `scripts/ocr.py` uses a slightly different one.
- CompareModal: the `minShippingFee` best value is computed by the source but never read, so it is not modelled.
- EditPanel: the form is a `Plan`, so the model does not separate the form's string inputs from the numbers they parse to.
- BatchScrape: the delays between requests, the request time-outs and the progress file's formatting are not modelled.
- MobileFilterBar.TabVendors reuses the vendor list's tally. The mobile tab's own copy of the tally code is the same computation and is not modelled twice.
- SmartRecommend: the banner's other buttons (`src/components/SmartRecommend.tsx:217-260`) are not modelled. They are fixed `setFilters` calls of the same shape as the presets.
- BatchImportModal: the copy-all-prompts clipboard text and the fetch of available command-line tools and services are not modelled. Replies to a run are keyed by item position.
- ShoppingListPanel: creating and selecting a list call the shopping-list store, which `ShoppingList` models.
- The prompt templates of the AI extraction and vision routes are not modelled beyond the parts the code assembles.
- Scraper: the scraper backends themselves are not modelled. These are the HTTP reader service, the headless browser and the Python subprocess. Only the dispatch between them is.
- OcrScript, OcrRoute, AiExtractRoute and AiVisionRoute: process execution, downloads and temporary-file contents are not modelled. The temporary files are tracked by name.
- ScrapeQueue: `listQueue`, `clearQueue` and the daemon's timer and `isProcessing` flag are not modelled. They are console listing, a reset and concurrency. The daemon's stuck-item recovery is modelled.
- The console output and statistics that every script prints are not modelled.
- Review and price-monitor client stores, the scrape and export routes, the database layers and the pure rendering components are not part of this model.
- AutoFill.RegionDistance and CompleteDistance.CompletedDistance use the corrected region key (`islands`). The source's `offshore` key is modelled in AutoFill.RegionDistanceAsWritten (see Findings). `scripts/complete-distance-data.js:9-16` has the same key.

## Findings

| source | as written | input that shows it | evidently intended | confidence | as-written member | corrected member |
|---|---|---|---|---|---|---|
| src/app/admin/page.tsx:278 | CSV cells are wrapped in quotes without doubling embedded quotes | a plan title containing `"` | quotes doubled as in section 2 of RFC 4180, as the store's own export does | high, not executed | AdminPage.WrapRow_Unreadable | AdminPage.ExportCsv_RoundTrip |
| src/app/admin/page.tsx:90-96 | select-all clears the selection whenever its size equals the number of shown plans | after filtering, one selected plan that is not shown and one shown plan | clear only when every shown plan is selected | high, not executed | AdminPage.ToggleSelectAllAsWritten_Clears | AdminPage.ToggleSelectAll_Twice |
| scripts/auto-fill-missing-fields.js:16-22 | `!plan.shippingFee` treats a free-delivery fee of 0 as missing and overwrites it | a nationwide delivery plan with `shippingFee: 0` | fill only a fee that is absent | high, not executed | AutoFill.FillFeeAsWritten_OverwritesFree | AutoFill.Fill_KeepsFee |
| scripts/auto-fill-missing-fields.js:62-81 | the distance table uses the key `offshore`, which no region has | a delivery plan in region `islands` | the island region gets its 300 km distance | high, not executed | AutoFill.RegionDistanceAsWritten_Islands | AutoFill.RegionDistance_Regions |
| src/components/BatchImportModal.tsx:306-324 | bulk import writes each outcome on every item with the same URL | the same URL pasted twice, one extracted and one failed | update only the imported item | medium, not executed | BatchImportModal.ImportAllByUrl_ImportsFailed | BatchImportModal.ImportedParsed_Kept |
| src/components/BatchImportModal.tsx:327-374 | retry finds the item to update by URL with `findIndex`, so it takes the first item with that URL | the same URL pasted twice, the first extracted and the second failed | update the failed item itself | medium, not executed | BatchImportModal.RetryByUrl_TouchesSuccess | BatchImportModal.ImportRetry_Touch |
| src/components/SmartRecommend.tsx:145-155 | the top-pick titles joined by `\|` become one search phrase, searched as a literal substring | two picks titled "a" and "b" | show the listed plans | high, not executed | SmartRecommend.TopPickQuery_MissesPicks | SmartRecommend.TopPickHit_ShowsPicks |
| src/stores/planStore.ts:541-721 | the filter run never reads `vendorType`, which the hotel preset, the vendor type click and the mobile hotel chip set | the hotel preset over a catalogue with non-hotel plans | keep only plans of the chosen vendor type | high, not executed | SmartRecommend.Preset_StoreView | SmartRecommend.HotelPreset_OnlyHotels |
