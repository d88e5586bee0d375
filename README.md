# LoomLakshmi dashboards and chat assistant, modelled in Dafny

LoomLakshmi is a Next.js marketplace that connects handloom weavers with
customers. This project models the parts of it that hold logic, not markup:

- **The customer catalogue.** There are two variants: the `/user-dashboard` page and the dashboard panel component.
  - Every weaver record gets a star rating and a price range.
  - The facet option lists are drawn from the dataset.
  - Records are filtered by a free-text search and by facet selections, then shown twelve to a page.
  - The page adds a row of numbered page buttons and the "Available Now" and "Verified" badges.
- **The weaver budget planner.** There are two variants, with four and three fields. The form holds text fields and estimates a cost as a weighted sum of the integers read from them with `Number.parseInt`.
- **The chat assistant.** It picks a canned answer by keyword from an English or a Hindi table. It keeps the conversation as a list of numbered messages that a send and the delayed bot reply extend.

Modules:

| file | module | models |
|---|---|---|
| `seqs.dfy` | `Seqs` | `Array.prototype.filter` and `map`; the insertion-ordered, duplicate-free contents of a `Set` |
| `text.dfy` | `Text` | `toLowerCase` (ASCII), `includes`, `trim`, and the default `sort()` order on strings |
| `weavers.dfy` | `Weavers` | the weaver record, the free-text search both catalogues share, and the flattened facet values |
| `pagination.dfy` | `Pagination` | `Math.ceil(n / 12)`, `slice`, and the numbered page-button window |
| `user_dashboard_page.dfy` | `UserDashboardPage` | `app/user-dashboard/page.tsx` |
| `user_dashboard_panel.dfy` | `UserDashboardPanel` | `components/pages/user-dashboard.tsx` |
| `js_number.dfy` | `JsNumber` | `Number.parseInt` (section 19.2.5 of ECMA-262), NaN arithmetic, and the `"₹"` estimate text |
| `weaver_dashboard_page.dfy` | `WeaverDashboardPage` | `app/weaver-dashboard/page.tsx` |
| `weaver_dashboard_panel.dfy` | `WeaverDashboardPanel` | `components/pages/weaver-dashboard.tsx` |
| `chatbot.dfy` | `Chatbot` | `components/chatbot.tsx` |

State that a component keeps with `useState` and overwrites in its handlers
is a `class` whose fields the handler methods assign:

- `CatalogueView` and `DirectoryView` for the two catalogues;
- `BudgetPlanner`, one in each weaver-dashboard module;
- `Chat` for the chat assistant.

Pure computations are functions, and their properties are lemmas.

Decimal quantities are kept exact:

- **Rating.** It is kept in tenths of a star, 43 to 49.
- **Price multiplier.** It is kept in tenths, 10, 13, 15 or 18. With a whole number of years of experience, `Math.floor(experience * 1000 * multiplier)` is then `experience * 100 * m` exactly.

## Model

| member | source | states |
|---|---|---|
| `UserDashboardPage.RatingTenths` | app/user-dashboard/page.tsx:17-24 | the rating is always one of 4.3, 4.5, 4.6, 4.7, 4.8, 4.9 |
| `UserDashboardPage.RatingCountsThresholds` | app/user-dashboard/page.tsx:17-24 | the rating is 4.3 plus 0.2 at five years and 0.1 at each of 10, 15, 20 and 25 years, so it never decreases as experience grows |
| `UserDashboardPage.MultiplierTenths` | app/user-dashboard/page.tsx:29-34 | the multiplier is 1, 1.3, 1.5 or 1.8; it is at least 1.5 exactly when some specialty mentions Zari, and it carries the 0.3 exactly when some specialty mentions Silk, Kanjivaram or Banarasi |
| `UserDashboardPage.CalculatePriceRange` | app/user-dashboard/page.tsx:27-38 | the minimum is the experience-scaled base price but never below 2000; the maximum is two and a half times the minimum |
| `UserDashboardPage.NewcomerPrice` | app/user-dashboard/page.tsx:27-38 | with no experience the range is 2000 to 5000 whatever the specialties |
| `UserDashboardPage.PriceGrowsWithExperience` | app/user-dashboard/page.tsx:27-38 | more experience never lowers either end of the range |
| `UserDashboardPage.PriceLabel` | app/user-dashboard/page.tsx:39 | the label starts with the rupee sign and contains both the formatted minimum and the formatted maximum |
| `UserDashboardPage.Patterns` | app/user-dashboard/page.tsx:62-65 | the pattern options are strictly sorted, so free of duplicates, and are exactly the patterns some record offers |
| `UserDashboardPage.Materials` | app/user-dashboard/page.tsx:67-70 | the material options are strictly sorted and are exactly the saree types some record offers |
| `UserDashboardPage.Regions` | app/user-dashboard/page.tsx:72-75 | the region options are strictly sorted and are exactly the regions of the records |
| `UserDashboardPage.Enhance` | app/user-dashboard/page.tsx:82-89 | an enriched record keeps its weaver, has a rating from 4.3 to 4.9 and a range starting at 2000 or more, is available exactly when contact is enabled, and is verified |
| `UserDashboardPage.EnhancedWeavers` | app/user-dashboard/page.tsx:81-91 | there is one enriched record per record, at the same position |
| `UserDashboardPage.FacetListsIgnoreRecordOrder` | app/user-dashboard/page.tsx:62-75 | reordering the dataset leaves every option list unchanged |
| `UserDashboardPage.Filters.With` | app/user-dashboard/page.tsx:226 | a facet handler sets the chosen facet and leaves the other four as they were |
| `UserDashboardPage.FilteredWeaversSpec` | app/user-dashboard/page.tsx:93-137 | the result keeps dataset order and holds exactly the enriched records that pass the search and every selected facet, each as many times as in the dataset; it equals enriching the passing raw records |
| `UserDashboardPage.Keep` | app/user-dashboard/page.tsx:95-135 | with no search and no selection every record passes, and a record that passes matches the search |
| `UserDashboardPage.FilteredWeavers` | app/user-dashboard/page.tsx:93-137 | the result is no longer than the dataset and every record in it passes the search and the facet tests |
| `UserDashboardPage.EmptyQueryKeepsAll` | app/user-dashboard/page.tsx:93-137 | with no search and no selection every enriched record is shown |
| `UserDashboardPage.ColorNeverFilters` | app/user-dashboard/page.tsx:93-137 | the colour selection never changes the result |
| `UserDashboardPage.PriceFilterOnlyTopBucket` | app/user-dashboard/page.tsx:122-133 | every price bucket except "₹50,000+" acts as no selection; "₹50,000+" keeps exactly the Zari, Kanjivaram or Banarasi weavers |
| `UserDashboardPage.SelectionNarrows` | app/user-dashboard/page.tsx:93-137 | selecting a facet value or typing a search only removes records, keeping the order |
| `UserDashboardPage.SummaryCounts` | app/user-dashboard/page.tsx:345-353 | "Available Now" counts the shown weavers that accept contact and is at most the total; "Verified" equals the total |
| `UserDashboardPage.CatalogueView.constructor` | app/user-dashboard/page.tsx:48-57 | the page starts with no selection, an empty search and page 1 |
| `UserDashboardPage.CatalogueView.Search` | app/user-dashboard/page.tsx:193-196 | typing sets the search, keeps the facets and returns to page 1 |
| `UserDashboardPage.CatalogueView.SelectFacet` | app/user-dashboard/page.tsx:225-228 | choosing a facet value sets that facet only and returns to page 1 |
| `UserDashboardPage.CatalogueView.ClearFilters` | app/user-dashboard/page.tsx:142-152 | clearing empties every facet and the search and returns to page 1 |
| `UserDashboardPage.CatalogueView.Previous` | app/user-dashboard/page.tsx:491 | the page goes down by one but not below 1; a page in range stays in range and shows at least one record |
| `UserDashboardPage.CatalogueView.Next` | app/user-dashboard/page.tsx:522 | the page goes up by one but not past the last page; a page in range stays in range and shows at least one record |
| `UserDashboardPage.CatalogueView.GoToPage` | app/user-dashboard/page.tsx:507 | a numbered button always leads to a real page, which shows at least one record |
| `Pagination.TotalPages` | app/user-dashboard/page.tsx:139 | the page count is the fewest pages of twelve that hold the list, and it is 0 only for an empty list |
| `Pagination.RelativeIndex` | app/user-dashboard/page.tsx:140 | a slice bound is clamped to the list and a non-negative bound is kept as is |
| `Pagination.Slice` | app/user-dashboard/page.tsx:140 | `slice` returns the items from the clamped start to the clamped end, in order, and nothing when the end does not exceed the start |
| `Pagination.PageSlice` | app/user-dashboard/page.tsx:140 | a page holds at most twelve records |
| `Pagination.PageSliceWindow` | app/user-dashboard/page.tsx:140 | from page 1 on, a page is the records from (page − 1)·12 up to page·12 |
| `Pagination.PagesCoverList` | app/user-dashboard/page.tsx:139-140 | the pages from 1 to the page count, laid end to end, give back the filtered list exactly |
| `Pagination.PageOccupancy` | app/user-dashboard/page.tsx:139-140 | every page up to the page count is non-empty and every later page is empty |
| `Pagination.TwentyFiveItems` | app/user-dashboard/page.tsx:139-140 | 25 records make three pages of 12, 12 and 1 |
| `Pagination.PageButtons` | app/user-dashboard/page.tsx:499-501 | there are at most min(5, pages) buttons and each is a page number from 1 to the page count |
| `Pagination.PageButtonsShape` | app/user-dashboard/page.tsx:499-501 | the buttons are consecutive real page numbers, at most min(5, pages) of them, starting at 1 up to page 3, and they include the current page |
| `Weavers.SearchMatches` | app/user-dashboard/page.tsx:96-103 | an empty search matches every record; otherwise a record matches exactly when the lower-cased query occurs in the lower-cased name, region, one of the specialties or the bio |
| `Weavers.SearchIgnoresQueryCase` | app/user-dashboard/page.tsx:96-103 | the search result does not depend on the case of the query |
| `Weavers.SearchFindsEachField` | app/user-dashboard/page.tsx:96-103 | a query found in the name, the region, a specialty or the bio selects the record |
| `Weavers.PatternValues` | app/user-dashboard/page.tsx:63 | the flattened list holds exactly the patterns of all records |
| `Weavers.MaterialValues` | app/user-dashboard/page.tsx:68 | the flattened list holds exactly the saree types of all records |
| `Weavers.RegionValues` | app/user-dashboard/page.tsx:73 | the list holds exactly the regions of all records |
| `Seqs.Filter` | app/user-dashboard/page.tsx:94 | the result is an order-preserving sub-sequence holding every element that passes and only those |
| `Seqs.FilterCount` | app/user-dashboard/page.tsx:94 | `filter` keeps every copy of a passing value and drops every copy of a failing one |
| `Seqs.Map` | app/user-dashboard/page.tsx:82-90 | the result has one image per record, position by position |
| `Seqs.FilterMap` | app/user-dashboard/page.tsx:81-137 | filtering enriched records by a test on the raw record equals enriching the filtered raw records |
| `Seqs.SetAdd` | components/pages/user-dashboard.tsx:29 | adding keeps the collection free of duplicates and adds exactly the new value |
| `Seqs.Dedup` | app/user-dashboard/page.tsx:64 | a `Set` of a list has no duplicates and the same members as the list |
| `Text.Sort` | app/user-dashboard/page.tsx:64 | `sort()` returns an ordered permutation of its input |
| `Text.SortedDistinct` | app/user-dashboard/page.tsx:64 | sorted distinct values are strictly ordered and have exactly the input's members |
| `Text.SortedDistinctDeterminedBySet` | app/user-dashboard/page.tsx:64 | two lists with the same members give the same sorted distinct list |
| `Text.LessTotal` | app/user-dashboard/page.tsx:64 | any two different strings are ordered one way or the other |
| `Text.LessTransitive` | app/user-dashboard/page.tsx:64 | the string order is transitive |
| `Text.Contains` | app/user-dashboard/page.tsx:99 | a string includes only words no longer than itself, and it always includes the empty string |
| `Text.ContainsIffOccurs` | app/user-dashboard/page.tsx:99 | `includes` holds exactly when the word occurs at some position |
| `Text.ToLower` | app/user-dashboard/page.tsx:97 | lower-casing keeps the length, leaves no upper-case letter, turns each upper-case letter into its lower-case form and keeps every other character |
| `Text.ToLowerIdempotent` | app/user-dashboard/page.tsx:97 | lower-casing twice is lower-casing once |
| `Text.TrimStart` | components/chatbot.tsx:37 | the text left after dropping leading white space is no longer than the input and does not start with white space |
| `Text.TrimStartDropsBlankPrefix` | components/chatbot.tsx:37 | what is dropped at the front is all white space, and the rest of the text is kept |
| `Text.Trim` | components/chatbot.tsx:37 | `trim()` gives the empty string exactly when the text is all white space, and otherwise a text that neither starts nor ends with white space |
| `UserDashboardPanel.AddEach` | components/pages/user-dashboard.tsx:29 | adding a record's values one by one to the set gives the set of the values so far |
| `UserDashboardPanel.UniquePatterns` | components/pages/user-dashboard.tsx:26-32 | the loops over the records build the sorted distinct patterns, the same list the page offers |
| `UserDashboardPanel.UniqueMaterials` | components/pages/user-dashboard.tsx:34-40 | the loops build the sorted distinct saree types, the same list the page offers |
| `UserDashboardPanel.UniqueRegions` | components/pages/user-dashboard.tsx:42-48 | the loop builds the sorted distinct regions, the same list the page offers |
| `UserDashboardPanel.Filters.With` | components/pages/user-dashboard.tsx:135 | a facet handler sets the chosen facet and leaves the other two as they were |
| `UserDashboardPanel.Matches` | components/pages/user-dashboard.tsx:52-65 | with all sentinels and an empty search every record matches, and a record that matches also passes the page's test for the same selection |
| `UserDashboardPanel.FilteredWeavers` | components/pages/user-dashboard.tsx:51-67 | the result is no longer than the dataset and every record in it passes the four tests |
| `UserDashboardPanel.FilteredWeaversSpec` | components/pages/user-dashboard.tsx:51-68 | the result keeps dataset order and holds exactly the records passing the search and the three facet tests, each as many times as in the dataset |
| `UserDashboardPanel.UnfilteredKeepsAll` | components/pages/user-dashboard.tsx:17-21 | with all three sentinels and an empty search every record is shown |
| `UserDashboardPanel.SentinelWidest` | components/pages/user-dashboard.tsx:60-64 | a sentinel value keeps at least the records that any other value of that facet keeps |
| `UserDashboardPanel.ExactRegionNarrowerThanPage` | components/pages/user-dashboard.tsx:64 | the panel's exact region match keeps a sub-sequence of what the page's substring match keeps for the same selection |
| `UserDashboardPanel.RegionTestsDiffer` | components/pages/user-dashboard.tsx:64 | choosing "Bengal" shows a West Bengal weaver on the page but not on the panel |
| `UserDashboardPanel.DirectoryView.constructor` | components/pages/user-dashboard.tsx:16-22 | the panel starts with all three sentinels, an empty search and page 1 |
| `UserDashboardPanel.DirectoryView.SetSearchTerm` | components/pages/user-dashboard.tsx:110-113 | typing sets the search, keeps the facets and returns to page 1 |
| `UserDashboardPanel.DirectoryView.SelectFacet` | components/pages/user-dashboard.tsx:134-137 | choosing a value sets that facet only and returns to page 1 |
| `UserDashboardPanel.DirectoryView.ClearFilters` | components/pages/user-dashboard.tsx:88-92 | clearing restores the sentinels, empties the search, returns to page 1 and shows the whole dataset |
| `UserDashboardPanel.DirectoryView.Previous` | components/pages/user-dashboard.tsx:368 | the page goes down by one but not below 1; a page in range stays in range and shows at least one record |
| `UserDashboardPanel.DirectoryView.Next` | components/pages/user-dashboard.tsx:381 | the page goes up by one but not past the last page; a page in range stays in range and shows at least one record |
| `JsNumber.DigitPrefix` | app/weaver-dashboard/page.tsx:49 | `parseInt` reads the longest run of digits: all of it is digits and the next character is not |
| `JsNumber.ParseDigits` | app/weaver-dashboard/page.tsx:49 | without a sign the value read is never negative |
| `JsNumber.DecimalString` | app/weaver-dashboard/page.tsx:49 | a numeral is a non-empty run of decimal digits whose value is the number, and it has no leading zero |
| `JsNumber.ParseInt` | app/weaver-dashboard/page.tsx:49-52 | `parseInt` gives a number only when a decimal digit follows the leading white space and the optional sign, and a negative number only after a minus sign |
| `JsNumber.ParseIntReadsNumeral` | app/weaver-dashboard/page.tsx:49-52 | `parseInt` reads back any integer's numeral and stops at the first character that cannot continue it |
| `JsNumber.ParseIntRoundTrip` | app/weaver-dashboard/page.tsx:49-52 | reading the numeral of an integer gives that integer |
| `JsNumber.ParseIntSkipsLeadingSpace` | app/weaver-dashboard/page.tsx:49-52 | leading white space does not change the value read |
| `JsNumber.ParseIntNoDigits` | app/weaver-dashboard/page.tsx:49-52 | blank text or a lone sign reads as NaN |
| `JsNumber.ParseIntStopsAtExponentOrPoint` | app/weaver-dashboard/page.tsx:49-52 | "1e3" reads as 1 and "2.5" as 2 |
| `JsNumber.ParseIntSignedWithSpace` | app/weaver-dashboard/page.tsx:49-52 | " -42" reads as −42 |
| `JsNumber.ParseIntLetters` | app/weaver-dashboard/page.tsx:49-52 | "abc" reads as NaN |
| `JsNumber.ParseIntHex` | app/weaver-dashboard/page.tsx:49-52 | "0x1F" reads as 31 |
| `JsNumber.Times` | app/weaver-dashboard/page.tsx:49-52 | a product is NaN exactly when its operand is |
| `JsNumber.Plus` | app/weaver-dashboard/page.tsx:48-52 | a sum is NaN exactly when an operand is, and otherwise the integer sum |
| `JsNumber.OrDefault` | app/weaver-dashboard/page.tsx:49 | an empty field is replaced by "0" and any other text is kept |
| `JsNumber.EstimateText` | app/weaver-dashboard/page.tsx:53 | the estimate is "₹" followed by the formatted total, or "₹NaN" |
| `WeaverDashboardPage.BudgetInputs.With` | app/weaver-dashboard/page.tsx:227 | editing one field changes that field only |
| `WeaverDashboardPage.Count` | app/weaver-dashboard/page.tsx:49-52 | an empty field counts as 0, and any other text is read with `parseInt` |
| `WeaverDashboardPage.BudgetTotal` | app/weaver-dashboard/page.tsx:47-52 | the total is an integer exactly when every field reads as one, and then it is 5000·machines + 200·materials + 300·labour + 100·overhead |
| `WeaverDashboardPage.EmptyCountsZero` | app/weaver-dashboard/page.tsx:49-52 | an empty field and "0" both count as 0 |
| `WeaverDashboardPage.EmptyFieldIsZero` | app/weaver-dashboard/page.tsx:49-52 | leaving a field empty is the same as typing "0", and an empty form estimates 0 |
| `WeaverDashboardPage.TotalOfNumerals` | app/weaver-dashboard/page.tsx:48-52 | integer numerals in the fields give exactly the weighted sum |
| `WeaverDashboardPage.UnreadableFieldGivesNaN` | app/weaver-dashboard/page.tsx:49-52 | one field with no leading integer makes the whole total NaN |
| `WeaverDashboardPage.TotalMonotone` | app/weaver-dashboard/page.tsx:48-52 | raising any one count never lowers the total |
| `WeaverDashboardPage.BudgetPlanner.constructor` | app/weaver-dashboard/page.tsx:32-38 | the form starts with four empty fields and no estimate |
| `WeaverDashboardPage.BudgetPlanner.Edit` | app/weaver-dashboard/page.tsx:227 | an edit changes the edited field only and leaves the estimate shown as it was (the same at lines 238, 249, 260) |
| `WeaverDashboardPage.BudgetPlanner.Calculate` | app/weaver-dashboard/page.tsx:47-54 | calculating sets the estimate to "₹" and the formatted total and leaves the fields alone |
| `WeaverDashboardPanel.BudgetInputs.With` | components/pages/weaver-dashboard.tsx:137 | editing one field changes that field only |
| `WeaverDashboardPanel.BudgetTotal` | components/pages/weaver-dashboard.tsx:22-26 | the total is an integer exactly when every field reads as one, and then it is 5000·machines + 200·materials + 300·labour |
| `WeaverDashboardPanel.SameAsPageWithoutOverhead` | components/pages/weaver-dashboard.tsx:23-26 | the three-field total equals the four-field total with the overhead left empty |
| `WeaverDashboardPanel.TotalOfNumerals` | components/pages/weaver-dashboard.tsx:23-26 | integer numerals give exactly the weighted sum, and an empty form estimates 0 |
| `WeaverDashboardPanel.EmptyFieldIsZero` | components/pages/weaver-dashboard.tsx:24-26 | leaving a field empty is the same as typing "0" |
| `WeaverDashboardPanel.TotalMonotone` | components/pages/weaver-dashboard.tsx:23-26 | raising any one count never lowers the total |
| `WeaverDashboardPanel.BudgetPlanner.constructor` | components/pages/weaver-dashboard.tsx:14-19 | the form starts with three empty fields and no estimate |
| `WeaverDashboardPanel.BudgetPlanner.Edit` | components/pages/weaver-dashboard.tsx:137 | an edit changes the edited field only and leaves the estimate as it was (the same at lines 148, 159) |
| `WeaverDashboardPanel.BudgetPlanner.Calculate` | components/pages/weaver-dashboard.tsx:22-28 | calculating sets the estimate to "₹" and the formatted total |
| `Chatbot.LangResponses` | components/chatbot.tsx:87 | "hi" selects the Hindi table and every other code the English one |
| `Chatbot.Keywords` | components/chatbot.tsx:90-100 | every topic but the default has keywords, and no keyword is empty |
| `Chatbot.Mentions` | components/chatbot.tsx:90-100 | only a non-empty message can mention a topic, and never the default one |
| `Chatbot.Classify` | components/chatbot.tsx:88-102 | the topic is the first one, in the order greeting, weaver, saree, price, help, whose keywords occur in the lower-cased message, or the default when none does |
| `Chatbot.FirstMatchUnique` | components/chatbot.tsx:88-102 | the first-match topic is unique, so the keyword chain is fully determined by it |
| `Chatbot.BotResponse` | components/chatbot.tsx:63-103 | the answer is one of the six entries of the selected table, the one for the message's topic |
| `Chatbot.UnknownLanguageIsEnglish` | components/chatbot.tsx:87 | any language code other than "hi" answers as "en" does |
| `Chatbot.ResponseIgnoresCase` | components/chatbot.tsx:88 | the answer does not depend on the case of the message |
| `Chatbot.HiShadowsLaterTopics` | components/chatbot.tsx:90 | any message containing "hi" gets the greeting, whatever else it mentions |
| `Chatbot.ThisWeaverIsGreeted` | components/chatbot.tsx:90-93 | "this weaver" gets the greeting, not the weaver answer |
| `Chatbot.Chat.constructor` | components/chatbot.tsx:13-22 | the chat opens with the bot's welcome numbered 1, an empty input and no typing indicator |
| `Chatbot.Chat.Edit` | components/chatbot.tsx:209 | typing changes the input only |
| `Chatbot.Chat.Send` | components/chatbot.tsx:36-61 | blank input changes nothing; otherwise the text is appended as user message number length + 1, the input is cleared, the typing indicator is set, and a reply numbered length + 2 is scheduled with the text and language |
| `Chatbot.Chat.DeliverReply` | components/chatbot.tsx:51-60 | the scheduled reply is appended as a bot message with its number and the answer to the captured text, and the typing indicator is cleared |
| `Chatbot.Chat.KeyPress` | components/chatbot.tsx:105-110 | Enter without Shift sends, which changes nothing when the input is blank; Shift+Enter and every other key change nothing |

## Left out

- The review count is left out. It is drawn from `Math.random` (app/user-dashboard/page.tsx:42-45), which has no deterministic meaning.
- The panel's own rating and price helpers (components/pages/user-dashboard.tsx:75-86) are left out. They are floating-point formulas, the price one rounded with `Math.round` and the rating one capped at 4.9 without rounding, and only their rendering uses them.
- `toLocaleString` grouping is the `format` parameter of `PriceLabel`, `EstimateText` and `Calculate`. Locale data lies outside the program.
- `toLowerCase` is modelled on ASCII letters only. Other characters, including Devanagari, are left unchanged, so full Unicode case mapping is not modelled.
- `sort()` compares UTF-16 code units. The model compares characters, which differs only for characters outside the Basic Multilingual Plane.
- `JsNumber.ParseInt`, `JsNumber.Times`, `JsNumber.Plus`, `WeaverDashboardPage.BudgetTotal`, `WeaverDashboardPanel.BudgetTotal`: numbers are unbounded integers. The model does not capture the loss of precision of numerals, products or weighted sums beyond 2^53, Infinity, or the sign of −0 (`"-0"` reads as 0).
- `responses[lang]` for a language code naming an `Object.prototype` member (such as "constructor") is not modelled. Every code but "hi" reads the English table.
- The chat widget's `setTimeout` delay, `Date` timestamps, scrolling and open/close toggle are left out. The delayed reply is the explicit `DeliverReply` step over a queue of scheduled replies.
- `Chatbot.Chat.Send`, `Chatbot.Chat.KeyPress`: the numbering invariant is promised only for a send made while no reply is pending. The input box and the send button are disabled while the bot is typing (components/chatbot.tsx:213, 217).
- `UserDashboardPage.CatalogueView.Previous`, `UserDashboardPage.CatalogueView.Next`, `UserDashboardPanel.DirectoryView.Previous`, `UserDashboardPanel.DirectoryView.Next` require at least two pages, because the pagination bar is rendered only then (app/user-dashboard/page.tsx:487, components/pages/user-dashboard.tsx:365).
- The fixed colour and price-bucket option lists (app/user-dashboard/page.tsx:77-78) are left out as constants: the filter never reads the colour, and of the price buckets only "₹50,000+" is tested (`TopBucket`).
- `useMemo` caching is left out. It changes when values are computed, not what they are.
- All JSX rendering, styling and animation is left out, and so are the other pages and components of the site: home, about, login, contact, navigation, sidebar and cultural images.
