# kitchenHelper (SmartPantry) in Dafny

SmartPantry is a kitchen-inventory application. Its FastAPI back end keeps a pantry list and a
monthly budget in memory. It looks products up in Open Food Facts and asks an AI model for meal
plans and tips. Its React front end scans barcodes and food packages, fills in forms that post
items, tracks portions and expiry dates, shows the budget and cost per meal, and finds grocery
stores near the user.

This project models the parts of that system that decide something:

- the back end's pantry and budget store: adding, listing, removing up to *n* items of a UPC,
  clearing, and the budget, with the request-body constraints answered as 422;
- the store map's location resolution: the ZIP and city tables, the geolocation fallback chain,
  manual entry, and the choice between listed stores and the mock list;
- the state machines of the two photo scanners, the barcode scanner, the scan-result dialog, the
  manual add form, the application shell and the portion dialog: their steps and flags, the
  validation that gates each callback or request, the payloads with their defaults, and the
  resets;
- the classification rules: barcode acceptance, expiry status, budget progress and status, and
  the cost-per-meal colour.

Every HTTP answer, camera, canvas, geolocation reading, prompt answer and clock reading is a
parameter of the operation that uses it. What a component hands to its parent (callbacks) or
sends to the server (request bodies) is appended to a sequence field of its class, so "sends
nothing" is stated as "that sequence is unchanged".

JavaScript values are modelled explicitly (`js_values.dfy`):

- numbers are `NaN | Finite(real)`, and every comparison with NaN is false;
- form fields that start as the number 1 are `Preset(1)` until edited;
- `parseFloat`, `parseInt`, `Number()`, `trim()`, `toLowerCase()` and the `||` defaults follow the
  language's rules on strings.

What the browser does before a form's handler runs is modelled from the HTML standard
(`html_forms.dfy`). A number input reports "" for text that is not a number and is then in its
"bad input" state. A form whose inputs break `required`, `min`, `max` or `step`, or hold bad
input, fires no `submit` event. Each component's `Submittable` predicate states that gate for its
own form, and each submit handler changes nothing when the gate is closed.

This is how the model captures edge cases the code has:

- the browser holds back a form whose number inputs break their `required`, `min`, `max` or
  `step` attributes or hold text that is not a number, so no NaN price reaches a handler, and a
  price such as "1.005" never submits;
- a barcode without a confidence is not filtered out by confidence;
- an unreadable expiry date shows as "good";
- a budget answer without `spent_this_month` shows "On Track" whatever was spent. The back end's
  `GET /budget` answers only `monthly_budget`.

Files: `wrappers.dfy` (Option), `js_values.dfy`, `html_forms.dfy`, `items.dfy` (the item payload shared by the
scanners and forms), and one file per source file: `backend.dfy`, `food_map.dfy`,
`full_screen_food_scanner.dfy`, `scan_result_modal.dfy`, `portion_tracker.dfy`,
`barcode_scanner.dfy`, `food_scanner.dfy`, `enhanced_add_item.dfy`, `app.dfy`,
`spending_analysis.dfy`, `cost_per_meal.dfy`.

## Model

| member | source | states |
|---|---|---|
| JsValues.OrDefault | frontend/src/App.js:24-25 | the or-default gives the value when it is there and not empty, else the fallback; a non-empty fallback never gives "" |
| JsValues.NonEmpty | frontend/src/components/EnhancedAddItem.js:23 | the or-undefined default drops exactly the empty string and keeps any other text as it is |
| JsValues.TrimStartFacts | frontend/src/components/ScanResultModal.js:99 | the leading-whitespace strip removes a whitespace-only prefix and stops at the first non-whitespace character |
| JsValues.TrimEndFacts | frontend/src/components/ScanResultModal.js:123 | the trailing-whitespace strip removes a whitespace-only suffix and stops at the last non-whitespace character |
| JsValues.TrimFacts | frontend/src/components/ScanResultModal.js:123 | `trim()` returns a middle slice of the string with only whitespace around it, and that slice neither starts nor ends with whitespace |
| JsValues.TrimIdempotent | frontend/src/components/FoodMap.js:225-230 | trimming an already trimmed value changes nothing |
| JsValues.TrimEmptyIff | frontend/src/components/ScanResultModal.js:99-101 | a string trims to "" exactly when every character is whitespace |
| JsValues.AllWhitespaceTrimsAway | frontend/src/components/FoodMap.js:207 | a string of whitespace only loses all of it to the strip |
| JsValues.LowerChar | frontend/src/components/FoodMap.js:284 | lower-casing maps each ASCII capital to its small letter, 32 code points further, and keeps every other character |
| JsValues.ToLower | frontend/src/components/FoodMap.js:284 | `toLowerCase()` keeps the length, replaces each ASCII capital by its small letter in place, and keeps every other character |
| JsValues.ToLowerIdempotent | frontend/src/components/FoodMap.js:284-286 | lower-casing twice is lower-casing once |
| JsValues.DigitRun | frontend/src/components/ScanResultModal.js:124 | the digit run that `parseInt` reads is all digits and is maximal |
| JsValues.NatToString | frontend/src/components/FullScreenFoodScanner.js:150 | the decimal rendering of `Date.now()` is non-empty and all digits, with no leading zero unless it is "0" |
| JsValues.NatToStringRoundTrip | frontend/src/components/FullScreenFoodScanner.js:150 | reading the rendered digits back gives the number |
| JsValues.DecimalPrefix | frontend/src/components/ScanResultModal.js:95 | the decimal prefix that `parseFloat` reads lies within the text, and it is NaN exactly when it is empty |
| JsValues.DecimalPrefixOfDigits | frontend/src/components/ScanResultModal.js:122 | text of digits only is read whole, as its value |
| JsValues.TrimOfDigits | frontend/src/components/ScanResultModal.js:103 | text of digits only has nothing to trim |
| JsValues.ParseIntOfNatToString | frontend/src/components/ScanResultModal.js:124 | `parseInt` of a typed whole number gives that number |
| JsValues.ParseFloatOfNatToString | frontend/src/components/ScanResultModal.js:122 | `parseFloat` of a typed whole number gives that number |
| JsValues.ToNumberOfNatToString | frontend/src/components/ScanResultModal.js:103 | the coercion a comparison applies to a typed whole number gives that number |
| JsValues.ParseFloatWithoutDigits | frontend/src/components/ScanResultModal.js:95 | text without a digit parses to NaN |
| JsValues.DecimalPrefixOfFraction | frontend/src/components/ScanResultModal.js:95 | an optional "-", digits, a point and at least one fraction digit ("3.99", "-0.5", ".25") are read whole, as the signed value of the whole digits plus the fraction digits over their power of ten |
| JsValues.DecimalPrefixOfWhole | frontend/src/components/ScanResultModal.js:122 | an optional "-" and digits are read whole, as their signed value |
| JsValues.DigitsValueBelowPow10 | frontend/src/components/ScanResultModal.js:122 | the fraction digits are worth at least 0 and less than 1, and more than 0 unless they are all zeros |
| JsValues.UnsignedDecimalWholePart | frontend/src/components/ScanResultModal.js:122-124 | the number `parseFloat` reads is its whole digits plus less than one |
| JsValues.ParseIntOfWholeDecimal | frontend/src/components/ScanResultModal.js:124 | `parseInt` of a decimal text whose value is a whole number other than 0 ("3", "3.00", "-2.0") gives the number `parseFloat` gives |
| JsValues.DecimalPrefixLastChar | frontend/src/components/ScanResultModal.js:95 | the text `parseFloat` reads ends in a digit or a point |
| JsValues.DecimalTextCoerces | frontend/src/components/ScanResultModal.js:103 | a text that is all decimal and ends in a digit has nothing to trim, and the coercion of a comparison reads it as `parseFloat` does |
| JsValues.NumericTextParses | frontend/src/components/ScanResultModal.js:95 | a text that starts with a decimal has no leading whitespace, and `parseFloat` reads that decimal |
| HtmlForms.ReportedNumberFacts | frontend/src/components/ScanResultModal.js:294-297 | a number input reports the typed text or "", and "" exactly when nothing or bad input was typed; a reported text is a finite number that `parseFloat` reads whole |
| HtmlForms.DigitFreeTextReportsEmpty | frontend/src/components/ScanResultModal.js:294-297 | text without a digit ("abc", "-", ".") is reported as "" and, when not empty, leaves the input in bad input |
| HtmlForms.WholeNumberReported | frontend/src/components/ScanResultModal.js:294-297 | a typed whole number is reported as typed |
| HtmlForms.DecimalNumberReported | frontend/src/components/ScanResultModal.js:294-297 | a typed decimal with fraction digits, signed or not, is reported as typed |
| HtmlForms.ValueOfWholeText | frontend/src/components/ScanResultModal.js:294-297 | a typed whole number holds that number |
| HtmlForms.NegativeTextBelowZero | frontend/src/components/EnhancedAddItem.js:65-73 | "-" and digits that are not all zeros are a number text holding a number below 0 |
| HtmlForms.FractionText | frontend/src/components/ScanResultModal.js:294-302 | digits, a point and fraction digits are a number text holding the whole digits plus the fraction |
| HtmlForms.FractionalTextNotWhole | frontend/src/components/EnhancedAddItem.js:84-90 | digits, a point and fraction digits that are not all zeros hold a number that is not whole |
| HtmlForms.ThousandthsOffCentGrid | frontend/src/components/ScanResultModal.js:294-302 | a number with a third decimal other than 0 ("1.005") is off the 0.01 grid, whether it starts at 0 or at 0.01 |
| HtmlForms.HundredthsOffTenthGrid | frontend/src/components/PortionTracker.js:268-276 | a number with a second decimal other than 0 ("0.25") is off the 0.1 grid from 0 |
| HtmlForms.OnWholeSteps | frontend/src/components/ScanResultModal.js:347-351 | with step 1 from a whole `min`, a value is on a step exactly when it is whole |
| HtmlForms.WholeInputParsesAsInt | frontend/src/components/ScanResultModal.js:347-351 | a filled-in valid value of a number input with a whole `min` above 0 and step 1 is a whole number from `min` up, and `parseInt` reads it as that number |
| HtmlForms.NumberTextCoerces | frontend/src/components/ScanResultModal.js:103 | the coercion of a comparison reads a number text as the number the input holds |
| HtmlForms.ValidNumberParses | frontend/src/components/ScanResultModal.js:294-302 | a filled-in valid value is a finite number from `min` up to `max` that `parseFloat` reads as the number the input holds |
| Items.GeneratedUpcReadsBack | frontend/src/components/FoodScanner.js:112 | the generated identifier starts with "food_", and `parseInt` of the rest gives back the clock reading |
| Backend.CheckBudget | backend/main.py:48-49 | a budget body is accepted exactly when it is above 0 and is kept as sent; otherwise the answer is 422 |
| Backend.CheckMealPlanRequest | backend/main.py:52-54 | a meal-plan body is accepted exactly when days is in 1..14 and members is at least 1; otherwise the answer is 422 |
| Backend.StoredName | backend/main.py:77 | the stored name is never empty. It is the product's `product_name` when that key is there and truthy, the client's name when the key is absent and that name is truthy, and "Unknown product" otherwise |
| Backend.StoredItem | backend/main.py:77-79 | the stored item keeps the client's UPC, price, store and quantity, and gets a non-empty name, the product's nutriments as they came (or `{}`), and an expiry 180 days after `now` |
| Backend.Matching | backend/main.py:100 | every item it keeps has the given UPC |
| Backend.Others | backend/main.py:103 | every item it keeps has another UPC |
| Backend.MatchingOthersPartition | backend/main.py:99-103 | the items of the UPC and the items of the other UPCs together are the list, each item exactly once |
| Backend.ScanRemovedCount | backend/main.py:97-103 | the removal loop skips exactly min(quantity, number of items with that UPC) items |
| Backend.ScanKeepsOthers | backend/main.py:98-103 | every item with another UPC is kept, in its original relative order |
| Backend.ScanKeepsLaterMatches | backend/main.py:99-103 | the skipped items are the earliest matches; the matches that stay are exactly the later ones, in order |
| Backend.ScanIsSubList | backend/main.py:97-103 | each item is either kept or counted as removed, and nothing is kept that was not in the list |
| Backend.ScanCons | backend/main.py:99-103 | seen from the front, the loop removes the first item when it matches and the quota is not used up, and keeps it in front otherwise |
| Backend.ScanIsDropFirstMatches | backend/main.py:97-103 | the loop's new list equals the reference "drop the first n matches" definition |
| Backend.PantryStore.constructor | backend/main.py:34-35 | the store starts with an empty pantry and a budget of 0.0 |
| Backend.PantryStore.SetBudget | backend/main.py:58-61 | a budget above 0 is stored and echoed; any other value is answered 422 and changes nothing; the pantry is untouched |
| Backend.PantryStore.GetBudget | backend/main.py:64-66 | answers the stored budget, which is never negative |
| Backend.PantryStore.AddInventory | backend/main.py:70-81 | a quantity below 1 or a non-numeric nutrition value in the body is answered 422; a failed Open Food Facts request is answered 500; an empty product is answered 404; in each of these cases nothing changes. Otherwise exactly one stored item is appended at the end; it is returned when all its nutriments are numbers, and answered 500 while still stored when one is not |
| Backend.PantryStore.ListInventory | backend/main.py:84-86 | answers the pantry as it is, every item with quantity at least 1, exactly when every stored nutriment is a number; otherwise 500 |
| Backend.PantryStore.RemoveInventory | backend/main.py:89-109 | quantity below 1 is answered 422. With no matching item the answer is 404 and nothing changes. Otherwise it answers min(quantity, matches), drops exactly the first that many matches, and keeps the other UPCs and the later matches in order |
| Backend.PantryStore.ClearInventory | backend/main.py:112-118 | the pantry is empty afterwards and the budget is untouched |
| FoodMap.CoordinatesFromZipCode | frontend/src/components/FoodMap.js:246-265 | an exact-key lookup in the ZIP table, Toronto for a key the table does not hold; the result is always a place of the table |
| FoodMap.CoordinatesFromCity | frontend/src/components/FoodMap.js:267-291 | a lookup of the lower-cased name in the city table, Toronto for a name the table does not hold; the result is always a place of the table |
| FoodMap.CityLookupIgnoresCase | frontend/src/components/FoodMap.js:284-286 | a city name and its lower-cased form give the same coordinates |
| FoodMap.ZipLookupIsExact | frontend/src/components/FoodMap.js:259-264 | every known ZIP code with a trailing space is missed and gives Toronto, which differs from that code's own place for every code but "M5V 3A8" (Toronto's own) |
| FoodMap.FallbackIsKnownPlace | frontend/src/components/FoodMap.js:40-48 | when geolocation fails, the user is always placed on a place of one of the two tables |
| FoodMap.FallbackZipWins | frontend/src/components/FoodMap.js:41-42 | a saved ZIP code decides alone; the saved city is ignored, and an unknown ZIP code gives Toronto even with a known city |
| FoodMap.FallbackKnownCity | frontend/src/components/FoodMap.js:43-44 | without a saved ZIP code, a known city is found whatever its case |
| FoodMap.StoresToShow | frontend/src/components/FoodMap.js:98-179 | a non-empty store list from the back end is used as it is; otherwise exactly five mock stores with ids 1..5 |
| FoodMap.ManualEntryBlankIff | frontend/src/components/FoodMap.js:207-218 | the manual entry is refused exactly when both fields are whitespace only; otherwise the trimmed values are sent |
| FoodMap.ExamplesAreAccepted | frontend/src/components/FoodMap.js:207-219 | every example location passes the blank check and is posted as it stands, with nothing to trim |
| FoodMap.ExamplesAreKnownPlaces | frontend/src/components/FoodMap.js:405-470 | every example location is found in the ZIP or city table, whichever field it fills, rather than falling back to Toronto |
| FoodMap.ExampleCitiesLowerCase | frontend/src/components/FoodMap.js:284 | the example cities "Los Angeles" and "Miami" lower-case to their table keys |
| FoodMap.MapView.constructor | frontend/src/components/FoodMap.js:6-13 | no user location and no stores; loading, no error, the manual form closed and empty |
| FoodMap.MapView.FetchNearbyStores | frontend/src/components/FoodMap.js:92-186 | an answer shows the selected stores; a failed request keeps the old stores and sets the store-loading error |
| FoodMap.MapView.LoadMap | frontend/src/components/FoodMap.js:19-62 | a failed location request sets the map error; a saved location with neither ZIP nor city stops with its own error before geolocation. Otherwise the user is placed at the geolocated position or else the fallback, and the stores around it are fetched; loading ends false |
| FoodMap.MapView.HandleManualLocationSubmit | frontend/src/components/FoodMap.js:205-244 | both fields blank sets an error and posts nothing. Otherwise the trimmed entry is posted; a failed post sets an error. A successful post places the user (a non-empty ZIP code wins over the city), closes the form and fetches stores |
| FoodMap.MapView.ShowManualLocation | frontend/src/components/FoodMap.js:233-236 | after a saved manual entry: that place becomes the user location, the form closes, the error clears and the stores are fetched |
| FoodMap.MapView.SetManualZipCode | frontend/src/components/FoodMap.js:381 | the ZIP code field takes the typed text; nothing else changes |
| FoodMap.MapView.SetManualCity | frontend/src/components/FoodMap.js:388 | the city field takes the typed text; nothing else changes |
| FoodMap.MapView.SetShowManualLocation | frontend/src/components/FoodMap.js:365-398 | opening or cancelling the manual form changes only its visibility; what was typed stays |
| FoodMap.MapView.PickExample | frontend/src/components/FoodMap.js:408-470 | an example button puts its ZIP code and city into the form and submits nothing |
| FoodMap.MapView.Directions | frontend/src/components/FoodMap.js:188-193 | a route is opened exactly when there is both a store and a user location, from the user to the store |
| FoodMap.MapView.MapMarker | frontend/src/components/FoodMap.js:195-203 | there is no map URL exactly when there is no user location; the marker is the user location |
| FullScreenFoodScanner.WithField | frontend/src/components/FullScreenFoodScanner.js:130-135 | an input change sets exactly that field and leaves the other three as they were |
| FullScreenFoodScanner.SavedItemFields | frontend/src/components/FullScreenFoodScanner.js:143-153 | the saved item always has a non-empty name, category and identifier. Field by field, a missing or empty analysed name, category or UPC gives "Unknown Food Item", "Other" or a clock-based UPC, and a present non-empty one is kept; an analysed nutrition map is kept even when empty, and a missing one gives `{}`. It passes the parsed price and quantity, the store, the notes and the image |
| FullScreenFoodScanner.SavedPriceIsNumber | frontend/src/components/FullScreenFoodScanner.js:137-153 | the price input reports a number or nothing and `saveItem` needs it filled in, so a saved price is always the finite number the input holds, never NaN |
| FullScreenFoodScanner.Scanner.constructor | frontend/src/components/FullScreenFoodScanner.js:5-18 | step camera, no image, no analysis, the empty form, the camera off |
| FullScreenFoodScanner.Scanner.StartCamera | frontend/src/components/FullScreenFoodScanner.js:30-48 | the stream is kept only when it is granted and the video element exists; nothing else changes |
| FullScreenFoodScanner.Scanner.StopCamera | frontend/src/components/FullScreenFoodScanner.js:50-55 | the stream is stopped; nothing else changes |
| FullScreenFoodScanner.Scanner.CaptureImage | frontend/src/components/FullScreenFoodScanner.js:57-75 | only with both video and canvas: stores the frame, moves to analyzing, stops the camera and starts the analysis; otherwise nothing changes |
| FullScreenFoodScanner.Scanner.FinishAnalysis | frontend/src/components/FullScreenFoodScanner.js:99-115 | the analysis ends in details either way; the result is kept on success and the old data on failure |
| FullScreenFoodScanner.Scanner.RetakePhoto | frontend/src/components/FullScreenFoodScanner.js:118-128 | clears image and analysis, resets the form to price "", store "", quantity 1, notes "", and returns to the camera step |
| FullScreenFoodScanner.Scanner.HandleInputChange | frontend/src/components/FullScreenFoodScanner.js:130-135 | exactly one form field changes, and a number input (price, quantity) passes on what it reports: the typed number or "" |
| FullScreenFoodScanner.Scanner.SaveItem | frontend/src/components/FullScreenFoodScanner.js:137-157 | with price or store empty, no callback and no step change; otherwise exactly one item goes to `onFoodDetected`, then the success step |
| FullScreenFoodScanner.Scanner.HandleClose | frontend/src/components/FullScreenFoodScanner.js:159-171 | stops the camera, performs the retake reset, then calls `onClose` |
| ScanResultModal.WholePriceInvalidIff | frontend/src/components/ScanResultModal.js:95-97 | a whole number typed as the price is rejected exactly when it is 0 |
| ScanResultModal.DigitFreePriceRejected | frontend/src/components/ScanResultModal.js:95-97 | a price typed without any digit ("abc") reaches the dialog as "", which `validateForm` rejects, and leaves the input in bad input |
| ScanResultModal.StoreInvalidIff | frontend/src/components/ScanResultModal.js:99-101 | the store is rejected exactly when it is whitespace only |
| ScanResultModal.WholeQuantityInvalidIff | frontend/src/components/ScanResultModal.js:103-105 | a typed whole quantity is rejected exactly when it is 0 |
| ScanResultModal.ValidationAfterGate | frontend/src/components/ScanResultModal.js:92-108 | once the browser lets the form submit (price required, from 0.01 in steps of 0.01; store required; quantity from 1 in whole steps; no bad input), `validateForm` never rejects the price, rejects the store exactly when it is whitespace only, and the quantity exactly when it was cleared |
| ScanResultModal.SavedItemInRange | frontend/src/components/ScanResultModal.js:111-126 | an item handed to `onSave` after the browser's checks has a price of at least 0.01 on the 0.01 grid and a whole quantity of at least 1 |
| ScanResultModal.OutOfRangeValuesBlock | frontend/src/components/ScanResultModal.js:270-351 | a price of 0 or with a third decimal other than 0 ("1.005"), and a quantity of 0 or a fractional one, each keep the form from submitting |
| ScanResultModal.CollectErrors | frontend/src/components/ScanResultModal.js:92-108 | the error object has an entry for a field exactly when its check failed, and it is empty exactly when none failed |
| ScanResultModal.MissingProductInfo | frontend/src/components/ScanResultModal.js:64-86 | not found, time-out and failure give a placeholder named "Product (UPC: upc)" with category "food"; the time-out and not-found messages are each given for their own case only |
| ScanResultModal.SubmittedItem | frontend/src/components/ScanResultModal.js:119-126 | the UPC passes through, the store is trimmed, a blank name or category is left out and a non-blank one is sent trimmed; price and quantity are parsed |
| ScanResultModal.Dialog.constructor | frontend/src/components/ScanResultModal.js:5-13 | every field at its start value, no bad input, not loading, nothing handed on |
| ScanResultModal.Dialog.Open | frontend/src/components/ScanResultModal.js:23-34 | opening resets every field, including quantity to 1 and `foundInstantly` to false; the dialog renders nothing while closed (line 141), so it opens with fresh inputs and no bad input |
| ScanResultModal.Dialog.Edit | frontend/src/components/ScanResultModal.js:278-374 | the edited input takes what it reports: a text input the typed text, the price and quantity inputs the typed number or "" (the quantity becomes text); bad input is recorded for exactly the number input edited; every other field and the shown errors stay |
| ScanResultModal.Dialog.FetchProductInfo | frontend/src/components/ScanResultModal.js:36-90 | without a UPC nothing happens. A found product fills name and category and sets `foundInstantly`; otherwise the placeholder is shown. The form fields are untouched and loading ends false |
| ScanResultModal.Dialog.ValidateForm | frontend/src/components/ScanResultModal.js:92-109 | one error per failed check; the form is valid exactly when there is none |
| ScanResultModal.Dialog.HandleSubmit | frontend/src/components/ScanResultModal.js:111-135 | a form the browser holds back changes nothing and hands nothing on. Otherwise `validateForm` sets one error per failed check, and `onSave` receives the item exactly when there is none |
| ScanResultModal.Dialog.HandleCancel | frontend/src/components/ScanResultModal.js:137-139 | calls `onCancel` and changes nothing else |
| PortionTracker.CeilDiv | frontend/src/components/PortionTracker.js:90 | `Math.ceil(a / d)` is the least whole q with a <= q * d |
| PortionTracker.CeilDivAtMost | frontend/src/components/PortionTracker.js:90 | the rounded-up day count is at most k exactly when the time left is at most k days |
| PortionTracker.StatusForDays | frontend/src/components/PortionTracker.js:91-94 | expired below 0 days, expiring soon for 0..3, expiring this week for 4..7, good beyond; these partition the integers |
| PortionTracker.ExpiryStatusByTimeLeft | frontend/src/components/PortionTracker.js:88-95 | no date gives no-expiry, and only that; an unreadable date gives good. In milliseconds left: expired only a full day past the expiry instant, then the bands up to 3 and 7 days, then good |
| PortionTracker.ExpiryStatusMonotone | frontend/src/components/PortionTracker.js:88-95 | an item that expires later is never more urgent |
| PortionTracker.FormatQuantitySplits | frontend/src/components/PortionTracker.js:97-99 | the shown text splits at its first space back into the quantity and the unit, for a quantity without a space |
| PortionTracker.UsagePercentage | frontend/src/components/PortionTracker.js:101-103 | NaN exactly when the total is 0; between 0 and 100 when the remainder lies within the total; 0 when nothing is used and 100 when everything is |
| PortionTracker.WithPortionField | frontend/src/components/PortionTracker.js:274-305 | an input change sets exactly that field and leaves the other three |
| PortionTracker.UsageRequestOfWholeNumbers | frontend/src/components/PortionTracker.js:69-75 | the request carries the selected item's id; a typed whole quantity and typed or untouched whole servings arrive as those numbers; the meal name and notes go as typed |
| PortionTracker.SubmittedUsageInRange | frontend/src/components/PortionTracker.js:61-75 | once the browser lets the form submit (quantity required, from 0 to the remaining quantity in steps of 0.1; meal name required; servings from 1 in whole steps; no bad input), `submitPortionUsage`'s own check passes and the request uses between 0 and the remaining quantity on the 0.1 grid, and makes a whole number of servings of at least 1 unless they were cleared |
| PortionTracker.OutOfRangeValuesBlock | frontend/src/components/PortionTracker.js:265-297 | a quantity above the remaining quantity or with a second decimal other than 0 ("0.25"), and 0 or fractional servings, each keep the form from submitting |
| PortionTracker.DigitFreeQuantityBlocks | frontend/src/components/PortionTracker.js:268-276 | a quantity typed without a digit reaches the form as "" and leaves the input in bad input, so the form does not submit and no NaN quantity is sent |
| PortionTracker.Tracker.constructor | frontend/src/components/PortionTracker.js:9-16 | no selection, the initial form, no bad input, the dialog closed |
| PortionTracker.Tracker.HandleUsePortion | frontend/src/components/PortionTracker.js:50-59 | selects the item, resets the form to its initial values and opens the dialog with fresh inputs |
| PortionTracker.Tracker.EditForm | frontend/src/components/PortionTracker.js:274-297 | exactly one form field changes; a number input passes on the typed number or "", and bad input is recorded for exactly the number input edited |
| PortionTracker.Tracker.CloseModal | frontend/src/components/PortionTracker.js:259 | the dialog closes and its inputs go; selection and form stay |
| PortionTracker.Tracker.SubmitPortionUsage | frontend/src/components/PortionTracker.js:61-86 | without the dialog on screen, or with a form the browser holds back, nothing is sent and nothing changes. Otherwise the request is sent; a successful post closes the dialog and clears the selection, a failed one leaves both |
| BarcodeScanner.AcceptsKnownConfidence | frontend/src/components/FullScreenBarcodeScanner.js:71-81 | with a known confidence, a code is taken exactly when the confidence is at least 0.5 and the code is 12 or 13 digits |
| BarcodeScanner.AcceptsWithoutConfidence | frontend/src/components/FullScreenBarcodeScanner.js:72 | a code without a confidence is filtered on its format alone |
| BarcodeScanner.ShortOrNonDigitCodesRejected | frontend/src/components/FullScreenBarcodeScanner.js:78-81 | a code of another length or with a non-digit is never taken |
| BarcodeScanner.Scanner.constructor | frontend/src/components/FullScreenBarcodeScanner.js:6-8 | scanning, no error, no success, nothing handed on |
| BarcodeScanner.Scanner.Setup | frontend/src/components/FullScreenBarcodeScanner.js:10-60 | the previous run is cleaned up. When not open or not scanning nothing else happens; otherwise error and success are cleared, and the camera listens, or the init error is shown |
| BarcodeScanner.Scanner.OnDetected | frontend/src/components/FullScreenBarcodeScanner.js:62-97 | an accepted code sets success, ends scanning and the listening, and hands on exactly that code; any other detection changes nothing |
| BarcodeScanner.Scanner.TryAgain | frontend/src/components/FullScreenBarcodeScanner.js:143-146 | clears the error and scans again |
| BarcodeScanner.Scanner.ScanAgain | frontend/src/components/FullScreenBarcodeScanner.js:173 | scanning is on again |
| BarcodeScanner.Scanner.Close | frontend/src/components/FullScreenBarcodeScanner.js:130 | calls `onClose` and changes nothing else |
| FoodScanner.FoodItemFields | frontend/src/components/FoodScanner.js:105-113 | the item always has an identifier: the analysis's non-empty UPC, or else a clock-based one. Name, category and nutrition pass as found, the parsed price and quantity and the store as given |
| FoodScanner.GeneratedUpcsDiffer | frontend/src/components/FoodScanner.js:112 | two packages without a UPC saved at different instants get different identifiers |
| FoodScanner.SavedPriceIsNumber | frontend/src/components/FoodScanner.js:99-113 | the price input reports a number or nothing and `saveFoodItem` needs it filled in, so a saved price is always the finite number the input holds, never NaN |
| FoodScanner.Scanner.constructor | frontend/src/components/FoodScanner.js:5-14 | not scanning, no image, no analysis, empty price and store, quantity 1, camera off |
| FoodScanner.Scanner.StartCamera | frontend/src/components/FoodScanner.js:17-36 | a granted stream sets scanning and is kept when the video element exists; a refusal changes nothing |
| FoodScanner.Scanner.StopCamera | frontend/src/components/FoodScanner.js:39-45 | stops the stream and ends scanning; nothing else changes |
| FoodScanner.Scanner.CaptureImage | frontend/src/components/FoodScanner.js:48-62 | only with video and canvas: stores the frame and leaves scanning off through `stopCamera`; otherwise nothing changes |
| FoodScanner.Scanner.AnalyzeFood | frontend/src/components/FoodScanner.js:65-96 | without a photo nothing happens; otherwise the result is kept on success, the old data on failure, and analysing ends |
| FoodScanner.Scanner.SetPrice | frontend/src/components/FoodScanner.js:241 | the price takes what the number input reports, the typed number or ""; nothing else changes |
| FoodScanner.Scanner.SetStore | frontend/src/components/FoodScanner.js:251 | the store takes the typed text; nothing else changes |
| FoodScanner.Scanner.SetQuantity | frontend/src/components/FoodScanner.js:262 | the quantity takes what the number input reports, the typed number or ""; nothing else changes |
| FoodScanner.Scanner.SaveFoodItem | frontend/src/components/FoodScanner.js:99-123 | without an analysis, a price or a store nothing happens. Otherwise exactly one item goes to `onFoodDetected`, and image, analysis, price and store are cleared and quantity reset to 1 |
| FoodScanner.Scanner.Retake | frontend/src/components/FoodScanner.js:193 | only the photo is dropped; the analysis is kept |
| EnhancedAddItem.WithField | frontend/src/components/EnhancedAddItem.js:53-94 | an input change sets exactly that field and leaves the other five |
| EnhancedAddItem.Request | frontend/src/components/EnhancedAddItem.js:21-28 | UPC and store pass through; an empty name or category is left out and a non-empty one passes as typed; price and quantity are parsed |
| EnhancedAddItem.RequestOfWholeNumbers | frontend/src/components/EnhancedAddItem.js:24-26 | whole numbers typed as price and quantity arrive as those numbers, and an untouched quantity arrives as 1 |
| EnhancedAddItem.SubmittedRequest | frontend/src/components/EnhancedAddItem.js:12-28 | once the browser lets the form submit (UPC and store required; price required, from 0 in steps of 0.01; quantity from 1 in whole steps; no bad input), `handleSubmit`'s own check passes and the body has a price of at least 0 on the 0.01 grid and a whole quantity of at least 1, or NaN when the quantity was cleared |
| EnhancedAddItem.OffGridPriceBlocks | frontend/src/components/EnhancedAddItem.js:65-73 | a price with a third decimal other than 0 ("1.005") keeps the form from submitting |
| EnhancedAddItem.NegativePriceBlocks | frontend/src/components/EnhancedAddItem.js:65-73 | a negative price ("-1") keeps the form from submitting |
| EnhancedAddItem.BadQuantityBlocks | frontend/src/components/EnhancedAddItem.js:83-90 | a quantity of 0 or a fractional one ("2.5") keeps the form from submitting |
| EnhancedAddItem.DigitFreeNumberBlocks | frontend/src/components/EnhancedAddItem.js:65-90 | text without a digit typed into the price or quantity input reaches the component as "" and leaves the input in bad input, so the form does not submit |
| EnhancedAddItem.AddItemForm.constructor | frontend/src/components/EnhancedAddItem.js:5-10 | every input empty, quantity 1, no bad input, nothing sent |
| EnhancedAddItem.AddItemForm.Edit | frontend/src/components/EnhancedAddItem.js:53-94 | exactly one input changes; a number input passes on the typed number or "", and bad input is recorded for exactly the number input edited |
| EnhancedAddItem.AddItemForm.HandleSubmit | frontend/src/components/EnhancedAddItem.js:12-49 | a form the browser holds back, or one with UPC, price or store missing, sends nothing and changes nothing. Otherwise the request is sent; on success every input resets and `onItemAdded` is called once, on failure what was typed is kept |
| App.DetectedRequestFields | frontend/src/App.js:23-34 | an item is posted exactly when the prompted price is above 0. It has the scanned UPC, that price and quantity 1. The store is the answer or "Unknown Store". A name is sent only when one was typed |
| App.NoPriceNoItem | frontend/src/App.js:24-27 | a cancelled or empty price prompt never posts an item |
| App.WholePriceItem | frontend/src/App.js:24-27 | a whole-number price posts the item exactly when it is not 0, at that price |
| App.Shell.constructor | frontend/src/App.js:17-18 | refresh key false, scanner hidden |
| App.Shell.TriggerRefresh | frontend/src/App.js:46 | the refresh key is negated, so two calls restore it |
| App.Shell.ToggleScanner | frontend/src/App.js:82 | the scanner visibility is negated |
| App.Shell.HandleDetected | frontend/src/App.js:20-44 | a rejected price posts nothing and changes nothing. Otherwise the item is posted; a successful post toggles the refresh key and hides the scanner, a failed one leaves both |
| SpendingAnalysis.ProgressPercentage | frontend/src/components/SpendingAnalysis.js:35-38 | 0 without a budget. NaN exactly when there is a budget but no spent amount. Never above 100; for a positive budget it is 100 exactly when the budget is reached, and never negative for a non-negative amount |
| SpendingAnalysis.BudgetStatusBands | frontend/src/components/SpendingAnalysis.js:40-45 | for a positive budget, in money terms: over 90 % is "Over Budget!", over 75 % up to 90 % is "Close to Limit", up to 75 % is "On Track" |
| SpendingAnalysis.ShareAbove | frontend/src/components/SpendingAnalysis.js:37-43 | the capped progress is above a percentage below 100 exactly when the amount spent is above that share of the budget |
| SpendingAnalysis.MissingAmountsOnTrack | frontend/src/components/SpendingAnalysis.js:36-44 | with no spent amount in the answer the status is "On Track", and the progress is NaN when there is a budget |
| SpendingAnalysis.Card.constructor | frontend/src/components/SpendingAnalysis.js:5-7 | no data, no analysis, not loading |
| SpendingAnalysis.Card.FetchBudgetData | frontend/src/components/SpendingAnalysis.js:13-20 | the answer replaces the data; a failed request keeps the old data |
| SpendingAnalysis.Card.FetchAnalysis | frontend/src/components/SpendingAnalysis.js:22-33 | the answer is shown, or the fixed failure text; loading always ends false |
| CostPerMeal.CostColor | frontend/src/components/CostPerMeal.js:24-28 | green exactly below 3, yellow exactly from 3 to below 6, red exactly from 6 up and for NaN |
| CostPerMeal.CostColorMonotone | frontend/src/components/CostPerMeal.js:24-28 | a dearer meal never gets a cheaper colour |
| CostPerMeal.Card.constructor | frontend/src/components/CostPerMeal.js:5-6 | no data, not loading |
| CostPerMeal.Card.FetchMealData | frontend/src/components/CostPerMeal.js:12-22 | the answer replaces the data and a failure keeps it; loading always ends false |
| CostPerMeal.Card.HeadlineColor | frontend/src/components/CostPerMeal.js:57 | there is a headline colour exactly when there is data, and it is one of the three band colours |

## Left out

- The AI endpoints `meal_plan`, `what_can_i_eat` and `waste_tips`, with `call_openai` (backend/main.py:122 onward), are left out. They are calls into a remote model with no stateable behaviour. backend/ai_utils.py is not part of this model. Only the body constraints of `MealPlanRequest` are modelled.
- The Open Food Facts request in `add_inventory` is a parameter (`Lookup`: the `product` object or a failure), as is the clock (`utcnow`, `Date.now()`, `new Date()`).
- The start-up check for `OPENAI_API_KEY` (backend/main.py:13-17), CORS set-up, backend/models.py and backend/config.py are left out.
- Every `api.get`/`api.post`/`fetch` is a parameter giving its answer or its failure. Endpoints the front end calls that the back end does not define (`/location`, `/nearby-stores`, `/product/{upc}`, `/analyze-food`, `/use-portion`, `/spending-analysis`, `/cost-per-meal`) are parameters too.
- Browser and device APIs are left out: `getUserMedia`, canvas capture, geolocation, `navigator.vibrate`, `window.open`, `prompt`/`alert` and Quagga. Each outcome is a boolean or value parameter. frontend/src/components/codeScanner.js is not part of this model.
- Async timing is left out: the 5 s `Promise.race` time-out (its outcome is the `TimedOut` case), the 500 ms delay before `onDetected`, and the ordering of concurrent requests. Each handler runs to completion.
- FoodMap `requestLocationPermission` and `handleLocationPermissionRequest` (frontend/src/components/FoodMap.js:293-339) are not modelled; they are a re-run of `loadMap` and a geolocation error-message switch. Selecting a store is not modelled either.
- FoodMap.MapView.LoadMap: the fields of `GET /location` arrive as strings. A missing or null field is "", and a field that is not a string is not modelled.
- FoodMap.MapView.MapMarker: the bounding box and the URL text of the embedded map are not modelled (floating-point offsets); only the marker and the null case are.
- FoodMap.MockStores: the mock stores' coordinate offsets are exact reals, not floating point.
- JavaScript numbers are exact reals. No floating-point rounding, no `Infinity` from dividing by 0, and no `toFixed` rendering.
- JsValues.DecimalPrefix: `parseFloat` does not read exponents, `Infinity` or hexadecimal. `parseInt` does not read a `0x` prefix as hexadecimal, and `Number()` reads neither exponents nor hex.
- JsValues.ToLower: only ASCII letters are lower-cased.
- HtmlForms.IsNumberText: exponent forms ("1e2"), which the HTML standard counts as valid numbers, are treated as bad input.
- HtmlForms.NumberInputValid: `min`, `max` and `step` are compared on exact reals, not on doubles, and the step base is always `min` (every number input of these forms has one).
- HtmlForms: the order and text of the browser's validation messages, and the focus it moves to the first invalid input, are not modelled; only that the form does not submit.
- PortionTracker.QuantityUsedRules: a `remaining_quantity` that is absent or not a number (no `max` at all) is not modelled; the remaining quantity is always a number.
- FoodMap.CoordinatesFromZipCode: keys inherited from `Object.prototype` ("constructor", "toString", "__proto__" and the like) are not modelled. For those the source returns a function or object with no `lat`/`lng`, not Toronto.
- FoodMap.CoordinatesFromCity: keys inherited from `Object.prototype` are not modelled. A city that lower-cases to one ("Constructor", say) gets a value with no `lat`/`lng` in the source, not Toronto.
- Backend.PantryStore.AddInventory: a `nutriments` value that is JSON null or not an object is not modelled, and neither is the coercion of numeric strings to `float`. Every nutriment is a number or a value `float` validation refuses.
- PortionTracker.UsagePercentage: models the value before `toFixed(1)`, and gives NaN for a total of 0 where JavaScript gives NaN only when nothing was used, and ±Infinity otherwise.
- PortionTracker.FormatQuantity: takes the quantity already rendered as text; how JavaScript renders a number is not modelled.
- PortionTracker: the inventory, meal-suggestion and meal-history reloads (`loadInventory`, `loadMealHistory`) are requests whose answers are only displayed, so they are left out.
- BarcodeScanner.Scanner.Setup: the Quagga reader list and the frequency option are not modelled; a decoded code of any reader reaches `OnDetected`.
- Items.NewItem: `None` stands for a key left `undefined`, which is dropped from the JSON body.
- JSX rendering, CSS and the static components (LandingPage, Layout, Inventory, LocationSetter, BudgetTracker, PriceComparison, MealPlan, WhatCanIEat, WasteTips) are left out.
