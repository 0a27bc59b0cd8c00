# MyComposeApp core logic in Dafny

This project models the sequential logic of an Android Compose demo app.
The app has a Canada Post address search, a phone-number field and a card carousel.

- **Phone mask** (`PhoneNumberFormatter`). The digit filter, the progressive mask `(ddd)-ddd-dddd` and the 10-digit validity check.
  - `Format` keeps the source's builder loop.
  - `Mask` is the case table that specifies it.
- **Address entity** (`Data`). The short and full renderings and the default country.
- **Provider record parser** (`CanadaPostApi`). The parser splits the description on commas and trims each part. Exactly three parts give a structured address; any other count gives the fallback. It also keeps Kotlin's `substringAfter` quirk: with no space, the whole string comes back.
- **Repository** (`CanadaPostRepository`). Provider items are mapped in order, and a failure becomes the empty list.
- **Search state holder** (`Search.SearchViewModel`). A class with three cells (suggestions, loading flag, selection) and the three-character query gate.
  - A launched fetch becomes two events. `SearchAddress` starts it; `CompleteFetch` delivers the result of any running fetch.
  - A ghost field tracks the running fetches.
- **Field handlers** (`MainActivity`). The phone field's accept/reject rule, its cursor and its error flag, and the handlers of the two address fields. Each field's remembered state is a class.
- **Carousel** (`CardCarousel`). The most-visible-card rule (the `maxByOrNull` arg-max), the arrow rules, the selected dot and the caption.
- **String helpers** (`Text`). The Kotlin library operations the app relies on: `isDigit`, `isWhitespace`, `split`, `trim`, `substringBefore`/`substringAfter` and `Int.toString`.

`AddressItem.toAddress` passes a named argument `fullAddress = text` that the `Address` class as written does not declare. The model gives `Address` its five declared fields plus an explicit sixth field `fullAddress`.

The address search has no guard against stale responses. Whichever fetch completes last decides the suggestions, and the first completion clears the loading flag even while other fetches run. `Search.OutOfOrderCompletion` proves this. The short rendering is `street + ", " + city`.

Kotlin's `String.length` counts UTF-16 code units, so the three-character query gate is stated over `Text.Utf16Length`, where a character outside the Basic Multilingual Plane counts twice.

## Model

| member | source | states |
|---|---|---|
| Text.Split | app/src/main/java/com/example/mycomposeapp/api/CanadaPostApi.kt:30 | splitting gives one part more than there are separators, never zero parts, and no part contains the separator |
| Text.JoinSplit | app/src/main/java/com/example/mycomposeapp/api/CanadaPostApi.kt:30 | joining the parts of a split with the separator gives back the input, so splitting loses no character |
| Text.SplitJoin | app/src/main/java/com/example/mycomposeapp/api/CanadaPostApi.kt:30 | splitting a join of separator-free parts gives back exactly those parts |
| Text.Trim | app/src/main/java/com/example/mycomposeapp/api/CanadaPostApi.kt:30 | the trimmed part is a contiguous slice of the input with only whitespace cut off before and after it, and it neither begins nor ends with whitespace |
| Text.TrimIdempotent | app/src/main/java/com/example/mycomposeapp/api/CanadaPostApi.kt:37 | trimming twice is trimming once |
| Text.SubstringBefore | app/src/main/java/com/example/mycomposeapp/api/CanadaPostApi.kt:36 | the part before the first delimiter contains no delimiter; with no delimiter the whole input comes back |
| Text.SubstringAfter | app/src/main/java/com/example/mycomposeapp/api/CanadaPostApi.kt:37 | with no delimiter the whole input comes back (the default missing-delimiter value) |
| Text.AroundFirstDelimiter | app/src/main/java/com/example/mycomposeapp/api/CanadaPostApi.kt:36-37 | the part before, the delimiter and the part after put together give the input |
| Text.NatToString | app/src/main/java/com/example/mycomposeapp/components/CardCarouselScreen.kt:168 | decimal rendering is a non-empty digit string with a leading zero only for zero |
| Text.DecimalValueOfNatToString | app/src/main/java/com/example/mycomposeapp/components/CardCarouselScreen.kt:168 | the rendered digits denote the number rendered |
| Text.Utf16Length | app/src/main/java/com/example/mycomposeapp/SearchViewModel.kt:26 | the UTF-16 length lies between the number of characters and twice that |
| Text.Utf16LengthOfBmp | app/src/main/java/com/example/mycomposeapp/SearchViewModel.kt:26 | on text inside the Basic Multilingual Plane the UTF-16 length is the number of characters |
| Text.Utf16LengthExceedsWithAstral | app/src/main/java/com/example/mycomposeapp/SearchViewModel.kt:26 | one character outside the Basic Multilingual Plane makes the UTF-16 length exceed the number of characters |
| PhoneNumberFormatter.Deformat | app/src/main/java/com/example/mycomposeapp/utils/PhoneNumberFormatter.kt:38-40 | the filtered string holds only digits and is no longer than the input; DeformatOneChar and DeformatAppend together fix it on every string |
| PhoneNumberFormatter.DeformatAppend | app/src/main/java/com/example/mycomposeapp/utils/PhoneNumberFormatter.kt:38-40 | filtering a concatenation is the concatenation of the filtered halves |
| PhoneNumberFormatter.DeformatOneChar | app/src/main/java/com/example/mycomposeapp/utils/PhoneNumberFormatter.kt:38-40 | a digit is kept and a non-digit is dropped |
| PhoneNumberFormatter.DeformatAroundChar | app/src/main/java/com/example/mycomposeapp/utils/PhoneNumberFormatter.kt:38-40 | a non-digit anywhere in the input is removed without trace, and a digit stays between the digits before and after it |
| PhoneNumberFormatter.DeformatUnchangedIff | app/src/main/java/com/example/mycomposeapp/utils/PhoneNumberFormatter.kt:38-40 | the filter leaves a string unchanged exactly when the string is all digits |
| PhoneNumberFormatter.DeformatIdempotent | app/src/main/java/com/example/mycomposeapp/utils/PhoneNumberFormatter.kt:4-40 | deformat is idempotent, so format(s) equals format(deformat(s)) |
| PhoneNumberFormatter.Mask | app/src/main/java/com/example/mycomposeapp/utils/PhoneNumberFormatter.kt:9-35 | the formatted text is at most 14 characters long: ten digits and four punctuation marks |
| PhoneNumberFormatter.Format | app/src/main/java/com/example/mycomposeapp/utils/PhoneNumberFormatter.kt:4-36 | the builder's conditional appends and the loop over the first three digits produce the case-table mask of the input's digits |
| PhoneNumberFormatter.MaskByAppends | app/src/main/java/com/example/mycomposeapp/utils/PhoneNumberFormatter.kt:12-33 | the case table (none, 1-3, 4-6, 7 or more digits) equals the sequence of conditional appends |
| PhoneNumberFormatter.DeformatAppends | app/src/main/java/com/example/mycomposeapp/utils/PhoneNumberFormatter.kt:12-33 | the punctuation the builder adds is dropped by deformat, leaving the three digit groups in order |
| PhoneNumberFormatter.DeformatMask | app/src/main/java/com/example/mycomposeapp/utils/PhoneNumberFormatter.kt:4-40 | deformat(format(d)) is the first ten digits of d, for every digit string d |
| PhoneNumberFormatter.DeformatFormatRoundTrip | app/src/main/java/com/example/mycomposeapp/utils/PhoneNumberFormatter.kt:4-40 | for at most ten digits, deformat(format(d)) == d and the formatted text is a fixed point of format after deformat |
| PhoneNumberFormatter.MaskValidIff | app/src/main/java/com/example/mycomposeapp/utils/PhoneNumberFormatter.kt:42-44 | the formatted text of a digit string is valid exactly when the string has at least ten digits |
| PhoneNumberFormatter.MaskEmptyIff | app/src/main/java/com/example/mycomposeapp/utils/PhoneNumberFormatter.kt:12-14 | the formatted text is empty exactly when there are no digits |
| PhoneNumberFormatter.MaskAppendDigit | app/src/main/java/com/example/mycomposeapp/utils/PhoneNumberFormatter.kt:17-33 | below ten digits one more digit strictly extends the text; from ten on, extra digits change nothing |
| PhoneNumberFormatter.FormatExampleComplete | app/src/main/java/com/example/mycomposeapp/utils/PhoneNumberFormatter.kt:4-44 | "4165551234" formats to "(416)-555-1234", which is valid |
| PhoneNumberFormatter.FormatExampleAreaCode | app/src/main/java/com/example/mycomposeapp/utils/PhoneNumberFormatter.kt:12-17 | "416" formats to "(416", which is not valid |
| Data.FullStringShape | app/src/main/java/com/example/mycomposeapp/data/Address.kt:14-21 | the full rendering starts with the street, then holds ", " + city, ", " + province and " " + postal code in that order, each exactly when that field is non-empty, and nothing else |
| Data.FullStringIgnoresCountry | app/src/main/java/com/example/mycomposeapp/data/Address.kt:14-21 | changing the country never changes the full rendering |
| Data.FullStringOfStreetOnly | app/src/main/java/com/example/mycomposeapp/data/Address.kt:14-21 | with no city, province or postal code the full rendering is the street |
| Data.ShortEqualsFullIff | app/src/main/java/com/example/mycomposeapp/data/Address.kt:10-21 | the two renderings coincide exactly when the city is present and the province and postal code are absent |
| Data.ShortStringSplits | app/src/main/java/com/example/mycomposeapp/data/Address.kt:10-12 | the short rendering splits at its comma back into the street and the blank-prefixed city when neither holds a comma |
| Data.CountryDefaultsToCanada | app/src/main/java/com/example/mycomposeapp/data/Address.kt:3-9 | an address built without a country has country "Canada" |
| CanadaPostApi.AddressItem.Parts | app/src/main/java/com/example/mycomposeapp/api/CanadaPostApi.kt:30 | the description yields one part more than it has commas, and no part contains a comma |
| CanadaPostApi.AddressItem.ToAddress | app/src/main/java/com/example/mycomposeapp/api/CanadaPostApi.kt:28-47 | every record gives an address, whose fullAddress is the record's text and whose country is the default |
| CanadaPostApi.ToAddressOfThreeFields | app/src/main/java/com/example/mycomposeapp/api/CanadaPostApi.kt:30-38 | for a description "a,b,c", street and city are a and b trimmed, and the trimmed c is cut at its first space into province and trimmed postal code |
| CanadaPostApi.TwoCommasGiveThreeFields | app/src/main/java/com/example/mycomposeapp/api/CanadaPostApi.kt:30-31 | a description with exactly two commas has three parts and is their comma join |
| CanadaPostApi.ToAddressFallback | app/src/main/java/com/example/mycomposeapp/api/CanadaPostApi.kt:39-45 | any other comma count gives the text as street and empty city, province and postal code |
| CanadaPostApi.ProvinceAndPostalCode | app/src/main/java/com/example/mycomposeapp/api/CanadaPostApi.kt:36-37 | the province is the third part up to its first space; with no space, province and postal code are both the whole third part |
| CanadaPostApi.StructuredFieldsNonEmpty | app/src/main/java/com/example/mycomposeapp/api/CanadaPostApi.kt:32-37 | with three non-empty parts, street, city and province are all non-empty |
| CanadaPostApi.CutsTypicalThirdField | app/src/main/java/com/example/mycomposeapp/api/CanadaPostApi.kt:36-37 | "ON M5V 2T6" cuts into province "ON" and postal code "M5V 2T6" |
| CanadaPostApi.ParsesDescriptionWithoutCommas | app/src/main/java/com/example/mycomposeapp/api/CanadaPostApi.kt:39-45 | "Unit 5 Somewhere" parses to the fallback address |
| CanadaPostRepository.MapToAddress | app/src/main/java/com/example/mycomposeapp/api/CanadaPostRepository.kt:11 | one address per item, in item order, each the item's parse |
| CanadaPostRepository.SearchAddress | app/src/main/java/com/example/mycomposeapp/api/CanadaPostRepository.kt:9-15 | a failure gives the empty list; a response gives its items' parses, same length and order |
| CanadaPostRepository.SuggestionsKeepProviderLabels | app/src/main/java/com/example/mycomposeapp/api/CanadaPostRepository.kt:11 | every suggestion carries its record's text and the default country |
| Search.SearchViewModel.constructor | app/src/main/java/com/example/mycomposeapp/SearchViewModel.kt:16-23 | empty suggestions, not loading, no selection, no fetch running |
| Search.SearchViewModel.SearchAddress | app/src/main/java/com/example/mycomposeapp/SearchViewModel.kt:25-32 | a query shorter than three UTF-16 units empties the suggestions and starts nothing; a longer one starts a fetch and sets loading; the selection never changes |
| Search.SearchViewModel.CompleteFetch | app/src/main/java/com/example/mycomposeapp/SearchViewModel.kt:31-38 | a completing fetch replaces the suggestions by the repository result and clears loading, whatever is still running |
| Search.SearchViewModel.SelectAddress | app/src/main/java/com/example/mycomposeapp/SearchViewModel.kt:41-44 | the selection becomes the address, the suggestions are emptied, loading is unchanged |
| Search.SearchViewModel.ClearSelectedAddress | app/src/main/java/com/example/mycomposeapp/SearchViewModel.kt:46-48 | the selection becomes none and nothing else changes |
| Search.SearchViewModel.ClearAddressSuggestions | app/src/main/java/com/example/mycomposeapp/SearchViewModel.kt:50-52 | the suggestions are emptied and nothing else changes |
| Search.AstralQueryPassesGate | app/src/main/java/com/example/mycomposeapp/SearchViewModel.kt:26 | a letter and an emoji are two characters but three UTF-16 units, as many as the gate asks for |
| Search.OutOfOrderCompletion | app/src/main/java/com/example/mycomposeapp/SearchViewModel.kt:25-39 | when the newer fetch completes first, loading is already off while the older one runs, and the older result is left on screen |
| Search.ShortQueryThenCompletion | app/src/main/java/com/example/mycomposeapp/SearchViewModel.kt:25-39 | a short query empties the suggestions, but a fetch still running fills them again |
| MainActivity.AcceptedEditIsSettled | app/src/main/java/com/example/mycomposeapp/MainActivity.kt:96-103 | an accepted edit shows at most ten digits, in a text that is a fixed point of format after deformat, with the cursor at the end |
| MainActivity.PhoneErrorIffIncomplete | app/src/main/java/com/example/mycomposeapp/MainActivity.kt:110-114 | on a displayed value, the error shows exactly when one to nine digits have been entered |
| MainActivity.PhoneNumberInput.constructor | app/src/main/java/com/example/mycomposeapp/MainActivity.kt:84-91 | the field starts empty with the cursor at 0 |
| MainActivity.PhoneNumberInput.OnValueChange | app/src/main/java/com/example/mycomposeapp/MainActivity.kt:95-105 | at most ten digits: the formatted digits with the cursor at the end; more: the old value is kept; the displayed value stays settled |
| MainActivity.AddressTextField.constructor | app/src/main/java/com/example/mycomposeapp/MainActivity.kt:121-122 | empty search text and no local selection |
| MainActivity.AddressTextField.OnQueryChange | app/src/main/java/com/example/mycomposeapp/MainActivity.kt:131-135 | the text is taken, the local selection cleared and the query gated into the view model |
| MainActivity.AddressTextField.OnSuggestionClick | app/src/main/java/com/example/mycomposeapp/MainActivity.kt:172-176 | the text is cleared, the address becomes the local selection, the view model's suggestions are emptied |
| MainActivity.AddressSearchWithBottomSheet.constructor | app/src/main/java/com/example/mycomposeapp/MainActivity.kt:196-197 | the sheet is closed and its text empty |
| MainActivity.AddressSearchWithBottomSheet.OnTriggerClick | app/src/main/java/com/example/mycomposeapp/MainActivity.kt:212 | clicking the trigger opens the sheet |
| MainActivity.AddressSearchWithBottomSheet.OnSearchTextChange | app/src/main/java/com/example/mycomposeapp/MainActivity.kt:231-234 | the text is taken and the query gated into the view model; the selection is kept |
| MainActivity.AddressSearchWithBottomSheet.OnSuggestionSelected | app/src/main/java/com/example/mycomposeapp/MainActivity.kt:248-252 | the view model selects the address and empties its suggestions, the sheet closes, its text is cleared and it lists nothing |
| MainActivity.AddressSearchWithBottomSheet.OnDismiss | app/src/main/java/com/example/mycomposeapp/MainActivity.kt:253-256 | dismissing closes the sheet and clears its text |
| MainActivity.SheetDuringFetch | app/src/main/java/com/example/mycomposeapp/MainActivity.kt:231-235 | while a fetch runs the open sheet lists nothing although the view model still holds the earlier suggestions; after completion it lists the new result |
| CardCarousel.VisibleArea | app/src/main/java/com/example/mycomposeapp/components/CardCarouselScreen.kt:70-72 | the visible area is never negative, at most the item and the viewport, and positive exactly when they overlap |
| CardCarousel.MostVisible | app/src/main/java/com/example/mycomposeapp/components/CardCarouselScreen.kt:69-73 | the chosen item has maximal visible area and every earlier item has strictly less |
| CardCarousel.CurrentCardIndex | app/src/main/java/com/example/mycomposeapp/components/CardCarouselScreen.kt:60-76 | 0 with nothing visible, otherwise the index of the first visible item of maximal area |
| CardCarousel.CurrentCardIndexInRange | app/src/main/java/com/example/mycomposeapp/components/CardCarouselScreen.kt:60-76 | when every visible item is a card, the current index names a card |
| CardCarousel.PreviousTarget | app/src/main/java/com/example/mycomposeapp/components/CardCarouselScreen.kt:116-124 | enabled exactly when the index is positive, targeting the card before, never negative |
| CardCarousel.NextTarget | app/src/main/java/com/example/mycomposeapp/components/CardCarouselScreen.kt:146-154 | enabled exactly when a card follows, targeting it, always below the total |
| CardCarousel.ArrowsAreInverse | app/src/main/java/com/example/mycomposeapp/components/CardCarouselScreen.kt:116-154 | from any card the arrows lead to cards and each undoes the other |
| CardCarousel.SelectedDots | app/src/main/java/com/example/mycomposeapp/components/CardCarouselScreen.kt:241-242 | at most one dot is selected: the current card's when it is in range, none otherwise |
| CardCarousel.CardLabel | app/src/main/java/com/example/mycomposeapp/components/CardCarouselScreen.kt:168 | the caption is "Card ", the one-based current index in decimal, " of " and the total in decimal |

## Left out

- The HTTP client, query assembly in `findAddress` and the JSON mapping (network I/O and foreign libraries). A provider answer is a value, `Success(response)` or `Failure`.
- Coroutines. A launched fetch is a start event and a later completion event in any order. Cancellation and thread interleaving inside a handler are not modelled.
- Compose rendering: layout, styling, the read-only "Complete Address" fields, the whole bottom-sheet component, and the dots' accessibility descriptions (UI only).
- Scroll animation. `animateScrollToItem` and the dot click only move the list; the model computes the arrows' targets but not the scrolling.
- Activity wiring, the view-model factory and the build configuration (lifecycle and build, no behaviour).
- Text.IsDigit and Text.IsWhitespace: restricted to ASCII digits and six whitespace characters, because Kotlin's Unicode categories are not available here.
- Search.SearchViewModel.CompleteFetch: one completion delivers one provider outcome. In the app, `MutableStateFlow.update` retries its block when the list changed while the provider call was pending, so one fetch may call the provider several times and only the last attempt's result is written. The model takes that last result as the outcome and does not count the calls.
- A staleness guard against out-of-order responses is not modelled, because the code has none.
- Definitional members with no row, because their contracts would only repeat their bodies. `Data.Address.ToFullString` is described by FullStringShape, FullStringIgnoresCountry, FullStringOfStreetOnly and ShortEqualsFullIff. `Data.Address.ToShortString` is described by ShortStringSplits and ShortEqualsFullIff. `Data.Address.ToString` is `ToFullString` (Address.kt:23). `PhoneNumberFormatter.IsValid` is described by MaskValidIff. `MainActivity.CursorAtEnd` is described by AcceptedEditIsSettled. `MainActivity.ShowsPhoneError` is described by PhoneErrorIffIncomplete. `MainActivity.SheetSuggestions` and `MainActivity.AddressSearchWithBottomSheet.ShownSuggestions` are described by OnSuggestionSelected and SheetDuringFetch. `CardCarousel.DotSelected` is described by SelectedDots.
- The fixed list of six cards is not modelled: the number of cards is a parameter of the carousel functions.
