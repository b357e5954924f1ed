# DAR-EL-TEB admin console: verified model of its screen logic

DAR-EL-TEB-WEB is a React console for a medical-lab business. Each management screen
fetches a collection from a REST API, shows it filtered and paged, and runs a chain of
form checks before it sends anything back. This project models the logic those screens
run in the browser, between the network calls, and proves what that logic promises:

- **lab tests** (`labtests.dfy`): categories with unique names and order ranks, the
  suggested free ranks, the category and test forms, and the filtered, paged test list;
- **clients** (`clients.dfy`): client defaults, the union filter, phone search with
  7 per page, the 10-digit phone gates, and the coins modal, which credits every client
  holding the phone and sends the first such client's new count;
- **unions** (`unions.dfy`): image-URL rewriting, `validateForm`, the add/update gates
  and payloads, and the local patch after an update or delete;
- **ads** (`ads.dfy`): the image-file gate, the reply shapes, the upload payload and
  the removal after a delete;
- **theme** (`theme.dfy`): the theme provider's state machine of system preference,
  manual toggle, stored choice and reset.

Shared pieces sit in `text.dfy` (JavaScript's `trim`, `toLowerCase`, `includes`,
`Number(text)`, `String(n)`), `listview.dfy` (filter, page slices, the GetAll envelope)
and `images.dfy` (the MIME gate and the data-URI prefix strip).

State changed by React setters is a `class` per screen. Its methods state the new state
in terms of pure functions, and the lemmas say what those functions keep: order,
membership, multiplicity, bounds and "only this record changes". The REST calls are cut
out. Where a handler waits for a reply, the reply is a parameter of the method that
handles it (`Load`, `AddSucceeded`, `DeleteFinished`, …).

## Model

| member | source | states |
|---|---|---|
| Text.TrimIsInfix | src/pages/DashboardLabTests.jsx:228 | `trim()` returns a contiguous piece of its input with no white space at either end, and only white space was cut off |
| Text.TrimEmptyIff | src/pages/Dashboardunion.jsx:151 | a name is blank after `trim()` exactly when it is all white space |
| Text.IncludesIff | src/pages/DashboardLabTests.jsx:370 | the scanning `includes` holds exactly when the needle occurs at some position of the text |
| Text.IntToStringInjective | src/pages/DashboardLabTests.jsx:369 | different category ids give different `String(id)` texts, so the filter compares ids exactly |
| Text.ParseIntToString | src/pages/DashboardLabTests.jsx:76 | `Number(String(i))` is `i` for every integer |
| Text.BlankParsesToZero | src/pages/Dashboardunion.jsx:156 | `Number` reads blank text as 0 |
| Text.ParseNumber | src/pages/Dashboardunion.jsx:156 | `Number` reads blank text as 0, and reads a negative number only from text that starts with a minus sign |
| Text.ParseNumberIgnoresSpace | src/pages/Dashboardunion.jsx:156 | white space around the text does not change what `Number` reads |
| Text.NumberOrZero | src/pages/Dashboard.jsx:176 | `Number(text) \|\| 0` is never NaN: a non-zero result is what `Number` reads, and 0 means `Number` read 0 or NaN |
| Text.NumberOrZeroReads | src/pages/DashboardLabTests.jsx:161-164 | `Number(text) \|\| 0` reads back the text of any integer, reads blank text as 0, and is 0 exactly when `Number` gives 0 or NaN |
| Text.KeepDigits | src/pages/Dashboard.jsx:614 | removing `\D` leaves exactly the characters of the input that are digits, and leaves a digit string unchanged |
| Text.KeepDigitsAppend | src/pages/Dashboard.jsx:614 | the digits of two texts joined are the digits of the first followed by those of the second, so the digits keep their order |
| Text.KeepDigitsOfChar | src/pages/Dashboard.jsx:614 | a single digit is kept and any other single character is removed |
| ListView.FilterIsSubsequence | src/pages/DashboardLabTests.jsx:368-372 | a filtered list is an in-order subsequence of its input |
| ListView.FilterMembers | src/pages/DashboardLabTests.jsx:368-372 | an element survives a filter exactly when it was in the input and passes the test |
| ListView.FilterCounts | src/pages/DashboardLabTests.jsx:216 | a filter keeps every passing element as many times as it occurred, and no failing one |
| ListView.TotalPages | src/pages/DashboardLabTests.jsx:374 | `Math.ceil(n / size)` is the least page count whose pages hold `n` items; 0 only for no items |
| ListView.PageSlice | src/pages/DashboardLabTests.jsx:375-376 | a page holds at most `size` items |
| ListView.PagesPartition | src/pages/DashboardLabTests.jsx:374-376 | pages 1 .. totalPages laid end to end give back the whole list |
| ListView.PagesUpToIsPrefix | src/pages/Dashboard.jsx:113-116 | pages 1 .. k laid end to end are the first `k * size` items |
| ListView.PageNonEmptyIff | src/pages/Dashboardunion.jsx:366-371 | a page is non-empty exactly when its number is at most totalPages |
| ListView.PageItem | src/pages/Addads.jsx:224-228 | item `i` of page `p` is item `(p - 1) * size + i` of the list |
| ListView.PrevPage | src/pages/DashboardLabTests.jsx:554-556 | "previous" moves back exactly one page when enabled, and does nothing on page 1 or while a request runs |
| ListView.NextPage | src/pages/DashboardLabTests.jsx:560-564 | "next" moves forward exactly one page when enabled, and does nothing on the last page or while a request runs |
| ListView.PagerStaysInRange | src/pages/DashboardLabTests.jsx:554-564 | from a page in 1 .. totalPages both buttons stay in that range, and "next" then "previous" (or the reverse) comes back to the start |
| ListView.EnvelopeRoundTrip | src/pages/Dashboardunion.jsx:49-54 | a bare array reply and a `{ success, resource }` reply around the same array both read back as that array; the resource counts as successful exactly when the reply reports success |
| ListView.EnvelopeReadersAgree | src/pages/Dashboard.jsx:60 | where a reply's resource counts as successful, both readers give that same list; a non-empty list comes only from an array |
| Images.StripDataUriPrefix | src/pages/Dashboardunion.jsx:165-170 | without a comma the text is kept; with one the result is the piece after the first comma up to the next comma or the end, and it holds no comma |
| Images.StripDataUri | src/pages/Addads.jsx:115-118 | stripping a `header,payload` data URI gives exactly the payload |
| LabTests.RankUsedBy | src/pages/DashboardLabTests.jsx:75-78 | true exactly when some category other than the excluded one has the rank |
| LabTests.IsOrderRankUnique | src/pages/DashboardLabTests.jsx:74-79 | a numeric rank is unique exactly when no category other than the excluded one has it; NaN is always unique |
| LabTests.MaxRank | src/pages/DashboardLabTests.jsx:83 | the largest rank: no category exceeds it and some category has it |
| LabTests.NextAvailableOrderRank | src/pages/DashboardLabTests.jsx:81-85 | 1 without categories, else one more than the largest rank, so larger than every rank |
| LabTests.NextRankIsUnique | src/pages/DashboardLabTests.jsx:81-85 | the next available rank, as text, passes `isOrderRankUnique` |
| LabTests.FreeRanksFacts | src/pages/DashboardLabTests.jsx:388-392 | the free ranks of a range are increasing, in range, unused, and include every unused rank of the range |
| LabTests.SuggestAvailableOrderRanks | src/pages/DashboardLabTests.jsx:383-396 | the loop, which stops at five, returns exactly the first five free ranks of 1 .. maxRank + 3 |
| LabTests.SuggestionsMeet | src/pages/DashboardLabTests.jsx:383-396 | the suggestions are at most 5, increasing, unused, in 1 .. maxRank + 3, skip no unused rank below the last one, and are at least 3 when no rank is negative |
| LabTests.SuggestionFacts | src/pages/DashboardLabTests.jsx:387-393 | the first five free ranks are increasing, in range and unused, and skip no unused rank below the last one |
| LabTests.SuggestionFloor | src/pages/DashboardLabTests.jsx:385-388 | with no negative rank, maxRank + 1, + 2 and + 3 are free, so at least three ranks are suggested |
| LabTests.InsertByRank | src/pages/DashboardLabTests.jsx:60 | inserting into a rank-sorted list keeps it sorted and adds exactly that category |
| LabTests.SortByRank | src/pages/DashboardLabTests.jsx:60 | the categories are stored sorted by rank and are a permutation of the reply |
| LabTests.NameUsedBy | src/pages/DashboardLabTests.jsx:238-240 | true exactly when a counted category's lower-cased name equals the key |
| LabTests.CheckCategoryIff | src/pages/DashboardLabTests.jsx:227-250 | the category gates pass exactly when the trimmed name is non-blank and unused ignoring case, and the rank is numeric and unused |
| LabTests.AddType | src/pages/DashboardLabTests.jsx:227-262 | `addType` sends exactly the acceptable categories, with the trimmed name, the default colour and the parsed rank; a blank name is the first refusal |
| LabTests.UpdateType | src/pages/DashboardLabTests.jsx:280-317 | `updateType` applies the same gates with the edited category left out, and keeps its colour or the default |
| LabTests.UpdateExcludesEditedCategory | src/pages/DashboardLabTests.jsx:291-304 | saving a category with its own name and rank passes update but fails add as a duplicate name |
| LabTests.FindCategoryByName | src/pages/DashboardLabTests.jsx:152 | `find` gives the first category with that exact name, and nothing only when none has it |
| LabTests.SaveTest | src/pages/DashboardLabTests.jsx:146-169 | a test is refused without name, price or category, then for an unknown category; otherwise the payload carries the parsed numbers, the id of the first category with that exact name, rank 0, the image only when chosen, and the id only when editing |
| LabTests.FilteredTests | src/pages/DashboardLabTests.jsx:368-372 | the filtered tests are tests of the list that pass the category and search tests, and never more than the list |
| LabTests.FilteredTestsExact | src/pages/DashboardLabTests.jsx:368-372 | a test is shown exactly when no category is chosen or `String(categoryId)` is the chosen text, and its lower-cased name contains the lower-cased search; the shown tests keep their order and multiplicity |
| LabTests.SelectedCategoryExact | src/pages/DashboardLabTests.jsx:369 | with a category chosen from the list, a test is shown exactly when its category id is that category's and its name matches the search |
| LabTests.NoFilterShowsAll | src/pages/DashboardLabTests.jsx:368-372 | with no category and an empty search every test is shown |
| LabTests.RemoveTestExact | src/pages/DashboardLabTests.jsx:216 | after a delete exactly the tests with other ids remain, in order, as often as before |
| LabTests.LabTestsScreen.Shown | src/pages/DashboardLabTests.jsx:374-376 | the page shown holds at most 5 tests |
| LabTests.LabTestsScreen.Load | src/pages/DashboardLabTests.jsx:53-72 | a successful categories reply replaces the categories, sorted by rank; a failed request, a `null` reply or a successful reply without an array throws, and then the labs request is never made; otherwise a successful labs reply replaces the tests |
| LabTests.LabTestsScreen.DeleteSucceeded | src/pages/DashboardLabTests.jsx:214-216 | a confirmed delete removes the test locally |
| LabTests.LabTestsScreen.StartSave | src/pages/DashboardLabTests.jsx:146-171 | the save gates run, and only a test that passes them is sent and raises `savingTest` |
| LabTests.LabTestsScreen.FinishSave | src/pages/DashboardLabTests.jsx:187-200 | the end of a save lowers `savingTest`; a successful one fetches both lists again, as `Load` does |
| LabTests.LabTestsScreen.SetFilterType | src/pages/DashboardLabTests.jsx:456-462 | choosing a category also returns to page 1 |
| LabTests.LabTestsScreen.SetSearchTerm | src/pages/DashboardLabTests.jsx:449-454 | typing a search changes only the term; the page is kept |
| LabTests.LabTestsScreen.GoToPreviousPage | src/pages/DashboardLabTests.jsx:551-556 | the pager is drawn only while some test passes the filter; "previous" is disabled on page 1 and while a test is being saved |
| LabTests.LabTestsScreen.GoToNextPage | src/pages/DashboardLabTests.jsx:551-564 | the pager is drawn only while some test passes the filter; "next" is disabled on the last page and while a test is being saved |
| Clients.MapClientFillsOnlyGaps | src/pages/Dashboard.jsx:61-68 | every mapped client has a gender and a union; a value the server sent is kept, and only a missing gender or address is replaced by its default |
| Clients.FetchedClientsHaveDefaults | src/pages/Dashboard.jsx:61-68 | every fetched client has a gender and a union to show |
| Clients.FetchClients | src/pages/Dashboard.jsx:55-78 | a reply without success or resource empties the list; otherwise the list is at most the resource's clients, and all of them when no union is chosen |
| Clients.FetchClientsByUnion | src/pages/Dashboard.jsx:70-73 | a union name keeps exactly that union's clients, in order and with their multiplicity; no name keeps all |
| Clients.SearchClientsExact | src/pages/Dashboard.jsx:109-111 | the search keeps, in order, exactly the clients whose lower-cased phone contains the lower-cased search |
| Clients.PhoneInput | src/pages/Dashboard.jsx:513-517 | the phone field takes a value exactly when it is all digits and at most 10 long |
| Clients.CoinsPhoneInput | src/pages/Dashboard.jsx:613-617 | the coins phone field keeps the digits of the value when there are at most 10 of them |
| Clients.PhoneInputsKeepShape | src/pages/Dashboard.jsx:513-517 | both phone fields stay digit strings of at most ten characters |
| Clients.PhoneTaken | src/pages/Dashboard.jsx:159-162 | true exactly when a client other than the edited one has the phone |
| Clients.CheckSaveUser | src/pages/Dashboard.jsx:149-178 | refusals in order: name or phone missing, phone not ten digits, phone held by another client; otherwise the payload with default gender, the union as address, `Number(coins) \|\| 0`, and the id only when it is non-zero |
| Clients.EditKeepingOwnPhone | src/pages/Dashboard.jsx:159-162 | editing a client with their own phone is never refused as a duplicate when no other client holds it |
| Clients.FindLab | src/pages/Dashboard.jsx:253 | `find` gives the first lab with that name, and nothing only when none has it |
| Clients.TotalCoins | src/pages/Dashboard.jsx:251-257 | the loop adds up `price * discount / 100` over the selected labs that are found |
| Clients.CoinsTotalBounds | src/pages/Dashboard.jsx:251-257 | with non-negative prices and discounts in 0 .. 100 the credit lies between 0 and the full price of the found labs |
| Clients.CoinsTotalAppend | src/pages/Dashboard.jsx:252 | the credit of two runs of selections is the sum of their credits |
| Clients.ToggleLabExact | src/pages/Dashboard.jsx:671-687 | ticking appends one entry and adds no coins; unticking keeps, in order, exactly the entries of other names; both keep discounts in range |
| Clients.EditDiscount | src/pages/Dashboard.jsx:699-707 | a discount in 0 .. 100 is set on every entry of that lab; any other value changes nothing; discounts stay in range |
| Clients.FindClientByPhone | src/pages/Dashboard.jsx:245 | `find` gives the first client with that phone, and nothing only when none has it |
| Clients.AccrueCoins | src/pages/Dashboard.jsx:259-261 | exactly the clients with that phone gain the total; all others are unchanged |
| Clients.AccrueCoinsCredit | src/pages/Dashboard.jsx:259-261 | the patched list holds exactly `total` more coins for each client with the phone, summed over the list |
| Clients.AccrueCoinsSum | src/pages/Dashboard.jsx:259-261 | the coins on screen grow by the total once per client with that phone |
| Clients.ClientsScreen.Shown | src/pages/Dashboard.jsx:113-116 | the page shown holds at most 7 clients |
| Clients.ClientsScreen.Reload | src/pages/Dashboard.jsx:55-84 | a failed request, a `null` reply (`result.success` throws) or a successful reply whose resource is a truthy non-array (`.map` throws) keeps the list; any other reply replaces it with the fetched clients of the current union |
| Clients.ClientsScreen.LoadLabs | src/pages/Dashboard.jsx:88-101 | the labs' `resource` array, when present, becomes the lab list |
| Clients.ClientsScreen.SetSearch | src/pages/Dashboard.jsx:329-332 | a new search goes back to page 1 |
| Clients.ClientsScreen.SetUnionFilter | src/pages/Dashboard.jsx:342-347 | a new union goes back to page 1 and fetches that union's clients, with the same failure cases as `Reload` |
| Clients.ClientsScreen.SetFormPhone | src/pages/Dashboard.jsx:513-517 | the form's phone follows the phone-input rule |
| Clients.ClientsScreen.SaveUser | src/pages/Dashboard.jsx:144-169 | a save while one is in flight does nothing; otherwise the gates run and only a request that passes raises `saving` |
| Clients.ClientsScreen.FinishSave | src/pages/Dashboard.jsx:200-216 | the end of a save lowers `saving`; a successful one fetches the list again, as `Reload` does |
| Clients.ClientsScreen.OpenCoinsModal | src/pages/Dashboard.jsx:239-242 | the coins modal opens with an empty phone and no labs |
| Clients.ClientsScreen.SetCoinsPhone | src/pages/Dashboard.jsx:613-617 | the coins phone follows the digits-only rule |
| Clients.ClientsScreen.ToggleSelectedLab | src/pages/Dashboard.jsx:671-687 | ticking or unticking a lab updates the selection and keeps discounts in range |
| Clients.ClientsScreen.SetLabDiscount | src/pages/Dashboard.jsx:699-707 | a discount edit follows the 0 .. 100 rule |
| Clients.ClientsScreen.AddCoinsToUser | src/pages/Dashboard.jsx:244-267 | an unknown phone changes nothing; otherwise the clients with that phone are credited the loop's total and the first one's new count is sent |
| Clients.ClientsScreen.GoToPreviousPage | src/pages/Dashboard.jsx:416-423 | the pager is drawn only while the search shows some client; "previous" is disabled on page 1 |
| Clients.ClientsScreen.GoToNextPage | src/pages/Dashboard.jsx:416-430 | the pager is drawn only while the search shows some client; "next" is disabled on the last page |
| Unions.NormalizeImageUrl | src/pages/Dashboardunion.jsx:56-63 | no URL stays empty, a URL starting with `http` is kept as it is, and every rewritten URL ends with the original |
| Unions.NormalizeImageUrlFacts | src/pages/Dashboardunion.jsx:56-63 | a rewritten URL is empty or starts with `http`, a server path is put behind the API origin, and rewriting again changes nothing |
| Unions.FetchUnions | src/pages/Dashboardunion.jsx:49-65 | the fetched list has one union per union of the reply, in order, and only their image URLs may differ |
| Unions.FetchUnionsExact | src/pages/Dashboardunion.jsx:49-63 | the fetched unions are the reply's unions, each with an empty or absolute image URL |
| Unions.ValidateForm | src/pages/Dashboardunion.jsx:150-163 | the form passes exactly when the trimmed name is non-empty and the discount reads as a number in 0 .. 100 |
| Unions.DiscountsAccepted | src/pages/Dashboardunion.jsx:156-157 | an integer percentage 0 .. 100 passes, and so does a blank discount |
| Unions.UnionNameUsed | src/pages/Dashboardunion.jsx:193-195 | true exactly when some union's trimmed, lower-cased name is the key |
| Unions.AddUnion | src/pages/Dashboardunion.jsx:185-207 | refusals in order: validation, no image, a name taken ignoring case and white space; otherwise the trimmed name, stripped image, discount and rank 0 |
| Unions.AddRefusesNameVariant | src/pages/Dashboardunion.jsx:193-200 | a name that differs from an existing one only in case or surrounding spaces is refused |
| Unions.UpdateUnion | src/pages/Dashboardunion.jsx:261-276 | an update needs a union being edited and a valid form; the payload keeps the rank and carries the stripped image only when one was chosen |
| Unions.PatchUnions | src/pages/Dashboardunion.jsx:310-321 | only the union with the edited id changes: name, discount and, with a new image, the image URL |
| Unions.UpdateChangesOnlyEditedUnion | src/pages/Dashboardunion.jsx:310-320 | the patch of an accepted update changes only the union with the edited id: it gets the trimmed name and the parsed discount and keeps its id and rank |
| Unions.PatchWithoutImageKeepsUrls | src/pages/Dashboardunion.jsx:314-317 | without a new image every image URL is kept |
| Unions.PatchIdempotentWithoutImage | src/pages/Dashboardunion.jsx:310-321 | applying the same image-less update twice changes nothing more |
| Unions.RemoveUnionExact | src/pages/Dashboardunion.jsx:353 | after a delete exactly the unions with other ids remain, in order |
| Unions.UnionsScreen.Shown | src/pages/Dashboardunion.jsx:366-369 | the page shown holds at most 5 unions |
| Unions.UnionsScreen.Load | src/pages/Dashboardunion.jsx:36-71 | a reply replaces the list; a failed request keeps it |
| Unions.UnionsScreen.OpenModal | src/pages/Dashboardunion.jsx:127-148 | editing seeds the form with the union's name, image URL and a discount text that `Number` reads back as the union's discount; adding empties it; the modal opens |
| Unions.SeededFormValidates | src/pages/Dashboardunion.jsx:130-136 | the seeded edit form of a union with a non-blank name and a discount in 0 .. 100 passes `validateForm`, and an update from it keeps the discount |
| Unions.UnionsScreen.ChooseImage | src/pages/Dashboardunion.jsx:83-108 | only an image file fills the image fields |
| Unions.UnionsScreen.RemoveImage | src/pages/Dashboardunion.jsx:112-122 | the image fields are cleared and name and discount kept |
| Unions.UnionsScreen.StartAdd | src/pages/Dashboardunion.jsx:185-210 | the add gates run and only a passing request raises `processing` |
| Unions.UnionsScreen.AddSucceeded | src/pages/Dashboardunion.jsx:240-257 | a successful add closes the modal, clears the form and reloads |
| Unions.UnionsScreen.StartUpdate | src/pages/Dashboardunion.jsx:261-265 | the update gates run; only a passing request raises `processing`, and its payload is kept for the reply |
| Unions.UnionsScreen.UpdateSucceeded | src/pages/Dashboardunion.jsx:306-321 | a successful update patches the list with the payload that was sent and closes the modal |
| Unions.UnionsScreen.DeleteFinished | src/pages/Dashboardunion.jsx:351-362 | a finished delete drops the union when it succeeded and lowers `processing` |
| Unions.UnionsScreen.RequestFailed | src/pages/Dashboardunion.jsx:323-328 | a failed request only lowers `processing` and drops the payload in flight |
| Unions.UnionsScreen.GoToPreviousPage | src/pages/Dashboardunion.jsx:493-498 | the pager is drawn only with more than one page; "previous" is disabled on page 1 and while a request runs |
| Unions.UnionsScreen.GoToNextPage | src/pages/Dashboardunion.jsx:493-508 | the pager is drawn only with more than one page; "next" is disabled on the last page and while a request runs |
| Ads.CheckFile | src/pages/Addads.jsx:36-44 | a file is refused when its type is not `image/…`, then when it exceeds 5 MB |
| Ads.ReadAds | src/pages/Addads.jsx:83-96 | the ads are the reply's array or its `resource` array; the error is shown exactly when neither exists or the request failed |
| Ads.ReadAdsErrorMeansEmpty | src/pages/Addads.jsx:89-96 | an error is reported only with an empty list |
| Ads.RemoveAdExact | src/pages/Addads.jsx:186 | after a delete exactly the ads with other ids remain, in order |
| Ads.AdsScreen.Shown | src/pages/Addads.jsx:224-228 | the page shown holds at most 5 ads |
| Ads.AdsScreen.Load | src/pages/Addads.jsx:65-99 | the list and the error flag come from the reply |
| Ads.AdsScreen.ChooseFile | src/pages/Addads.jsx:31-50 | a refused file leaves preview and payload as they were |
| Ads.AdsScreen.RemoveImage | src/pages/Addads.jsx:57-63 | the preview becomes null and the payload empty |
| Ads.AdsScreen.StartAdd | src/pages/Addads.jsx:106-123 | nothing is sent without an image; otherwise the stripped payload is sent and `uploading` raised |
| Ads.AdsScreen.AddFinished | src/pages/Addads.jsx:149-162 | a successful upload clears the image, closes the modal and reloads; `uploading` is lowered either way |
| Ads.AdsScreen.DeleteSucceeded | src/pages/Addads.jsx:184-187 | a confirmed delete removes the ad locally |
| Ads.AdsScreen.GoToPreviousPage | src/pages/Addads.jsx:307-314 | the pager is drawn only with some ad and more than one page; "previous" is disabled on page 1 and while uploading |
| Ads.AdsScreen.GoToNextPage | src/pages/Addads.jsx:307-321 | the pager is drawn only with some ad and more than one page; "next" is disabled on the last page and while uploading |
| Theme.InitialTheme | src/Context/ThemeContext.jsx:8-16 | the start-up theme is dark exactly when there is a window and the system prefers dark |
| Theme.ApplyTheme | src/Context/ThemeContext.jsx:22-42 | the theme becomes `t` on the page and in the state; storage and flag change only for a manual toggle; other root classes stay |
| Theme.LoadEffect | src/Context/ThemeContext.jsx:45-57 | a saved theme is applied and counts as manual; otherwise the start-up theme is applied with the flag cleared |
| Theme.ResetToSystem | src/Context/ThemeContext.jsx:80-88 | reset removes the stored choice, clears the flag and applies the system theme |
| Theme.OnSystemChange | src/Context/ThemeContext.jsx:61-66 | while a manual choice is in force a system change leaves everything as it was; otherwise the system theme is shown, storage and flag are untouched, and only `light`/`dark` classes are swapped |
| Theme.OnSystemChangeAsWritten | src/Context/ThemeContext.jsx:60-71 | the registered handler tests the flag of the first render, not the current one |
| Theme.TransitionsKeepInvariants | src/Context/ThemeContext.jsx:22-88 | load, toggle, reset and the guarded system change keep "a manual choice is the stored one" and "the page shows the state's theme" |
| Theme.ToggleTwice | src/Context/ThemeContext.jsx:74-77 | toggling twice restores light or dark, stored and manual; toggling always changes the theme |
| Theme.ManualChoiceSurvivesSystemChange | src/Context/ThemeContext.jsx:62-66 | after a manual toggle a system change leaves everything as it was |
| Theme.ReloadRestoresToggledTheme | src/Context/ThemeContext.jsx:35-57 | a toggled theme is what the next page load shows, again as a manual choice |
| Theme.ResetHandsBackToSystem | src/Context/ThemeContext.jsx:80-88 | after a reset the system theme is shown, later system changes are followed, and the next load starts from the system |
| Theme.StaleHandlerOverridesChoice | src/Context/ThemeContext.jsx:60-71 | on a light system, toggle to dark, then a system change: the handler as written shows light while flag and storage still say dark |
| Theme.ThemeProvider.constructor | src/Context/ThemeContext.jsx:8-19 | the provider starts from the start-up theme with the flag false |
| Theme.ThemeProvider.Apply | src/Context/ThemeContext.jsx:22-42 | the step-by-step `applyTheme` reaches the state `ApplyTheme` describes |
| Theme.ThemeProvider.Mount | src/Context/ThemeContext.jsx:45-57 | the mount effect reaches the state `LoadEffect` describes and the page is in sync |
| Theme.ThemeProvider.ToggleTheme | src/Context/ThemeContext.jsx:74-77 | `toggleTheme` reaches the state `Toggle` describes |
| Theme.ThemeProvider.ResetToSystemPreference | src/Context/ThemeContext.jsx:80-88 | `resetToSystem` reaches the state `ResetToSystem` describes |
| Theme.ThemeProvider.SystemChanged | src/Context/ThemeContext.jsx:61-66 | the listener with the current flag reaches the state `OnSystemChange` describes |

## Left out

- Network I/O: every `fetch`, HTTP status handling, JSON parsing and the 600000 ms abort
  timer. A reply is a `Body` value given to the method that handles it, and a failed
  request is `None` or a `success` flag.
- `FileReader`, `URL.createObjectURL` and `revokeObjectURL`: the preview URL and the data
  URI are parameters of `ChooseImage` and `ChooseFile`.
- Toasts, `window.confirm`, `console.log`, loading spinners and all rendering. A cancelled
  confirm sends nothing, so it is not modelled.
- JavaScript numbers: prices, discounts and coins are exact `real`s, so floating-point
  rounding in `price * discount / 100` is not modelled, nor is the `toFixed` size text.
- `Text.ParseNumber` covers decimal literals with an optional sign and surrounding
  white space. Hexadecimal, exponents and `Infinity` read as NaN (`None`) here, though
  JavaScript accepts them.
- `Text.Lower` lower-cases ASCII letters only. Arabic names have no case, but other
  scripts' case folding is not modelled.
- `LabTests.SortByRank`: an insertion sort. It is stated to be sorted and a permutation;
  which of two equal-rank categories comes first is not stated.
- Collections are finite and records plain. A `null` reply makes `.success` throw, and a
  truthy `resource` that is not an array makes `.map` or `.sort` throw; the `catch` then
  keeps the list. The clients' reload, the labs list of the coins modal and the lab-tests
  categories step model both. The unions and ads readers test `data &&` and
  `Array.isArray` first and never throw.
- `LabTests.LabTestsScreen.Load`: a successful labs reply whose `resource` is not an array
  is stored as it is by the code, and the next render then fails; the model keeps the old
  tests instead.
- React effect and render timing. The toggle, reset and listener methods require the
  mount effect to have run, which it does right after the first render.
- The add/update/delete buttons are disabled while a request is running. The handlers
  themselves have no such guard, so the `Start…` methods require `!processing`.
  `saveUser` does have its own guard, and `Clients.ClientsScreen.SaveUser` models it.
- Openers that only seed a form from a record, such as `openTestModal`,
  `openEditTypeModal` and the clients' `openModal`, are not modelled.
- The lab-test type, image and delete-category handlers are outside this model.
- The clients' `deleteUser` only asks the server and then fetches the list again; `Clients.ClientsScreen.Reload` is that second step.
- `Clients.ClientsScreen.AddCoinsToUser` stops at the request. A successful coins reply only
  closes the modal and fetches the list again (`src/pages/Dashboard.jsx:284-288`), and
  `Clients.ClientsScreen.Reload` is that step.
- `Unions.UnionsScreen.OpenModal` takes the printed discount as a parameter instead of
  modelling `Number.prototype.toString`; it requires only that `Number` reads the text
  back as the discount. A discount large or small enough for `toString` to print an
  exponent cannot be written that way here, because exponents are not parsed.
- `Unions.PatchedImageUrl`: when the update reply has no `imageUrl`, the code falls back to the union's current URL, which was already made absolute on fetch, so the result carries the origin twice. The model reproduces this as written and claims nothing about it, since whether a reply ever lacks `imageUrl` is up to the server.
- Text absent from a server record (null, undefined) is the empty string. Both are falsy
  to the `||` defaults, so the defaults behave the same.
- The lab-tests search box changes only the term and keeps the page
  (`src/pages/DashboardLabTests.jsx:453`); only the category filter goes back to page 1
  (lines 459-461). The model follows the code.
- `Images.StripDataUriPrefix` returns `split(',')[1]`: the text between the first and
  second comma. That is "everything after the first comma" only for a payload with no
  comma, which is always the case for base64.

## Findings

| source | as written | input that shows it | evidently intended | confidence | as-written member | corrected member |
|---|---|---|---|---|---|---|
| src/Context/ThemeContext.jsx:60-71 | the media-query handler is created once by the mount effect (empty dependency list), so it always sees the first render's `isManuallyToggled`, which is false | system prefers light; the user toggles to dark; the system then reports a change to light | while a manual choice is in force the handler leaves the theme alone (the guard at line 63) | high (not executed) | Theme.OnSystemChangeAsWritten, with Theme.StaleHandlerOverridesChoice | Theme.OnSystemChange, with Theme.ManualChoiceSurvivesSystemChange and Theme.TransitionsKeepInvariants |
