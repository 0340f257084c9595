# PlateShare core, modelled in Dafny

PlateShare lets restaurants list surplus food and lets people or organisations
claim it. This project models the logic behind the screens:

- the in-memory **listings store**: seed listings, newest-first additions,
  and a publish/subscribe registry of listeners;
- the **browse page**: the case-insensitive search and food-type filter,
  and the list of food-type categories offered by the filter;
- the **create-listing form**: its validation schema, the start-before-end
  rule for the pickup window, the "use this time" 30-minute window,
  the guards in front of the two suggestion requests, and the submission
  to the store;
- the **claim form**: its validation schema, including the phone-number
  pattern, and the claim record it builds;
- the **listing card**'s food-icon classifier.

Files:

- `wrappers.dfy`: `Option` and `Result`.
- `text.dfy`: the JavaScript string operations the code relies on:
  - `toLowerCase`, `includes` and `startsWith`;
  - `split` on one character, `trim`, and `replace` with a character class;
  - string `<`, and `Number` on a digit run.
- `seqs.dfy`: subsequences, distinctness, and de-duplication in order of
  first appearance (`new Set` spread back into an array).
- `types.dfy`: `Listing` and `DonationSize`.
- `listings_store.dfy`: the store, as a class `Store`:
  - the listings are a `seq` field and the listeners a `set` of handles;
  - a ghost map counts how often each listener has been called.
- `clock.dfy`: `HH:MM` times, minutes of the day (modulo 1440) and
  zero-padded formatting.
- `browse.dfy`, `create_listing_form.dfy`, `claim_form.dfy` and
  `listing_card.dfy`: one module per screen.

The store's id is commented as a "Simple unique ID"
(src/lib/listings-store.ts:92), but it is built from
`Date.now() + Math.random()`, which does not guarantee uniqueness. The model
takes the id as a parameter of `AddListing` and claims nothing about uniqueness.

`ListingsStore.SubscribeTwiceScenario` and `ListingsStore.NotificationScenario`
are client methods made only of assertions. They spell out the
subscription semantics on concrete call sequences:

- subscribing twice registers once;
- unsubscribing twice is a no-op;
- a listener is called once per addition while subscribed and never after.

## Model

| member | source | states |
|---|---|---|
| ListingsStore.Store.constructor | src/lib/listings-store.ts:21-80 | The store starts with exactly the five seed listings and no listeners. |
| ListingsStore.SeedIds | src/lib/listings-store.ts:21-77 | The seed holds five listings with ids "1" to "5" in that order. |
| ListingsStore.SeedPickupTimes | src/lib/listings-store.ts:21-77 | Four seed pickup times have the `start - end` shape; the third has a trailing note and does not. |
| ListingsStore.Store.GetListings | src/lib/listings-store.ts:86-88 | Returns the current listings and changes nothing. |
| ListingsStore.Store.NotifyListeners | src/lib/listings-store.ts:82-84 | Every registered listener is called exactly once; no other listener is called. |
| ListingsStore.Store.AddListing | src/lib/listings-store.ts:90-105 | Copies the payload fields verbatim and sets pickupTime to `start + " - " + end`. The new listing is the new head in front of the unchanged old listings. Listeners stay the same and each is called once. |
| ListingsStore.PickupTimeRoundTrip | src/lib/listings-store.ts:97 | Two five-character times are read back unchanged from the stored pickup time, and only such pickup times parse. |
| ListingsStore.Store.Subscribe | src/lib/listings-store.ts:107-109 | Adds the listener to the set, so a second subscription is a no-op, and returns its unsubscribe function. |
| ListingsStore.Store.RunUnsubscribe | src/lib/listings-store.ts:109-111 | Removes that listener and no other; running it again changes nothing. |
| Browse.MatchesSearchIff | src/app/browse/page.tsx:34-36 | A listing passes the search iff the lower-cased term occurs in the lower-cased name, food type or description. |
| Browse.FoodTypeFilterSimplifies | src/app/browse/page.tsx:37-38 | The food-type filter is equivalent to `filter == "all"` or a lower-cased substring match; the `startsWith` branch adds nothing. |
| Browse.FilteredIsSubseq | src/app/browse/page.tsx:33-39 | The shown listings are a subsequence of all listings, in their original order. |
| Browse.FilteredMembers | src/app/browse/page.tsx:33-39 | A listing is shown iff it is one of the listings and passes both tests. |
| Browse.FilteredAppend | src/app/browse/page.tsx:33-39 | Filtering distributes over concatenation. |
| Browse.EmptySearchShowsAll | src/app/browse/page.tsx:33-38 | An empty search with the filter at "all" shows every listing. |
| Browse.FirstWordSpec | src/app/browse/page.tsx:42 | The first word is the longest space-free prefix of the food type. |
| Browse.CategoryOfShape | src/app/browse/page.tsx:42-43 | A category is empty only for an empty food type. Otherwise it is the whole food type, or a trimmed non-empty string of first-word characters without `(`, `)`, `,` or spaces. |
| Browse.CategoryOfLeadingWord | src/app/browse/page.tsx:42-43 | A food type starting with a plain word and a space has that word as its category. |
| Browse.SeedCategoryExample | src/app/browse/page.tsx:42-43 | "Salads and Sandwiches" is in category "Salads". |
| Browse.FallbackCategoryExample | src/app/browse/page.tsx:43 | A first word made only of punctuation falls back to the whole food type. |
| Browse.RawCategories | src/app/browse/page.tsx:41-43 | One category per listing, pointwise and in listing order. |
| Browse.NonEmpty | src/app/browse/page.tsx:44 | `filter(Boolean)` keeps exactly the non-empty strings. |
| Browse.NonEmptyFirstIndex | src/app/browse/page.tsx:44 | Dropping empty strings keeps the relative order of first appearances. |
| Browse.CategoriesMembers | src/app/browse/page.tsx:41-44 | The de-duplicated categories are exactly the non-empty categories of the listings. |
| Browse.CategoriesOrder | src/app/browse/page.tsx:41-44 | The de-duplicated categories come in order of their first listing. |
| Browse.FoodTypesSpec | src/app/browse/page.tsx:41-44 | The list starts with "all". The rest are pairwise distinct; they are exactly the non-empty categories of the listings, in order of first appearance. |
| Seqs.FirstIndex | src/app/browse/page.tsx:41 | The index of the first occurrence of an element. |
| Seqs.DedupSpec | src/app/browse/page.tsx:41 | `new Set` spread into an array keeps each element once and nothing else, as a subsequence, in order of first appearance. |
| Seqs.DedupFromMembers | src/app/browse/page.tsx:41 | De-duplication against a seen set keeps exactly the unseen elements. |
| Seqs.DedupFromDistinct | src/app/browse/page.tsx:41 | The de-duplicated sequence has no repetitions. |
| Seqs.DedupFromSubseq | src/app/browse/page.tsx:41 | The de-duplicated sequence is a subsequence of the input. |
| Seqs.DedupFromOrder | src/app/browse/page.tsx:41 | De-duplication orders elements by their first index in the input. |
| Text.Lower | src/app/browse/page.tsx:34 | `toLowerCase` keeps the length and lower-cases each character. |
| Text.LowerIdempotent | src/components/listings/listing-card.tsx:13 | Lower-casing twice is lower-casing once. |
| Text.ContainsIff | src/app/browse/page.tsx:34-37 | `includes` holds iff the string occurs at some position. |
| Text.StartsWithContains | src/app/browse/page.tsx:38 | A prefix is also contained. |
| Text.ContainsEmpty | src/app/browse/page.tsx:34 | Every string includes the empty string. |
| Text.Split | src/app/browse/page.tsx:42 | `split` yields at least one piece. |
| Text.JoinSplit | src/app/browse/page.tsx:42 | Joining the pieces of `split` with the separator restores the string. |
| Text.SplitPiecesFree | src/app/browse/page.tsx:42 | No piece of `split` contains the separator. |
| Text.SplitNoSeparator | src/app/browse/page.tsx:42 | A string without the separator splits into itself. |
| Text.SplitAtFirst | src/app/browse/page.tsx:42 | Splitting at the first separator gives the part before it, then the split of the rest. |
| Text.SplitFirstPiece | src/app/browse/page.tsx:42 | The first piece is the longest separator-free prefix. |
| Text.TrimStart | src/app/browse/page.tsx:42 | Removes exactly the leading whitespace: the result is a suffix not starting with whitespace. |
| Text.TrimEnd | src/app/browse/page.tsx:42 | Removes exactly the trailing whitespace: the result is a prefix not ending with whitespace. |
| Text.TrimChars | src/app/browse/page.tsx:42 | `trim` keeps only characters of its input and leaves no whitespace at either end. |
| Text.TrimNothing | src/app/browse/page.tsx:42 | `trim` leaves a string without end whitespace unchanged. |
| Text.Strip | src/app/browse/page.tsx:42 | `replace(/[(),]/g, '')` keeps exactly the characters not in the class; with StripChar and StripAppend it is the input with those characters deleted, in order. |
| Text.StripChar | src/app/browse/page.tsx:42 | One character survives stripping exactly when it is not in the class. |
| Text.StripAppend | src/app/browse/page.tsx:42 | Stripping distributes over concatenation, so order and multiplicity of the kept characters are preserved. |
| Text.StripNothing | src/app/browse/page.tsx:42 | Stripping a class the string does not use changes nothing. |
| Text.StrLessIrreflexive | src/components/listings/create-listing-form.tsx:56 | No string is less than itself. |
| CreateListingForm.EmptyWindowRejected | src/components/listings/create-listing-form.tsx:54-60 | A filled-in window whose start equals its end is rejected by the refinement. |
| Text.DigitChar | src/components/listings/create-listing-form.tsx:395 | A digit below ten becomes the character with that value. |
| Text.DecimalTwoDigits | src/components/listings/create-listing-form.tsx:388 | `Number` on two digits is ten times the first plus the second. |
| Types.ParseDonationSize | src/types/index.ts:14 | A recognised donation size is read from its own literal. |
| Types.DonationSizeRoundTrip | src/types/index.ts:14 | Each donation size is read back from its literal. |
| Clock.Minutes | src/components/listings/create-listing-form.tsx:50-52 | A well-formed `HH:MM` time is a minute of the day below 1440. |
| Clock.FormatTimeIsTime | src/components/listings/create-listing-form.tsx:395 | Zero-padded formatting of a minute of the day matches the time pattern and reads back as that minute. |
| Clock.MinutesFormatTime | src/components/listings/create-listing-form.tsx:395 | Formatting the minute of a well-formed time gives back the time. |
| Clock.TimeOrder | src/components/listings/create-listing-form.tsx:54-57 | For two well-formed times, string `<` coincides with chronological order. |
| Clock.MinutesInjective | src/components/listings/create-listing-form.tsx:50-52 | Distinct well-formed times are distinct minutes. |
| CreateListingForm.Validate | src/components/listings/create-listing-form.tsx:44-60 | The form is accepted iff it breaks no schema rule; a rejection carries every broken rule. |
| CreateListingForm.ValidateAcceptsIff | src/components/listings/create-listing-form.tsx:30-60 | Accepted iff name ≥ 2, food type one of the 11 options, description 10 to 300, quantity ≥ 1, donation size small, medium or large, three well-formed times, address ≥ 5, and start < end. |
| CreateListingForm.AcceptedWindowIsChronological | src/components/listings/create-listing-form.tsx:54-60 | An accepted window starts at an earlier minute than it ends. |
| CreateListingForm.RejectsUnorderedWindow | src/components/listings/create-listing-form.tsx:54-60 | Two well-formed times out of chronological order are rejected. |
| CreateListingForm.AcceptedPickupTimeReadsBack | src/components/listings/create-listing-form.tsx:54-60 | The pickup time stored for an accepted form reads back as the submitted start and end. |
| CreateListingForm.InitialValuesRejected | src/components/listings/create-listing-form.tsx:82-92 | A fresh form is rejected, and no suggestion can be requested from it. |
| CreateListingForm.PickupTimeRequestGuard | src/components/listings/create-listing-form.tsx:115-133 | A pickup-time suggestion is requested iff closing time, donation size and food type are filled in, with those values; the button is enabled in the same case. |
| CreateListingForm.DescriptionRequestGuard | src/components/listings/create-listing-form.tsx:152-161 | A description suggestion is requested iff food type and quantity are filled in; the button is enabled in the same case. |
| CreateListingForm.SuggestedWindow | src/components/listings/create-listing-form.tsx:386-398 | Both ends of the window are well-formed times, and the end is 30 minutes after the start modulo a day. |
| CreateListingForm.ApplySuggestedTime | src/components/listings/create-listing-form.tsx:397-398 | Applying a suggestion sets the start and end to the suggested window's two ends and changes no other field. |
| CreateListingForm.SuggestedWindowOfTime | src/components/listings/create-listing-form.tsx:386-398 | A well-formed suggestion S gives the window from S to S plus 30 minutes modulo 24 hours, zero-padded. |
| CreateListingForm.SplitTime | src/components/listings/create-listing-form.tsx:388 | An `HH:MM` time splits at its colon into hour and minute digits that read as its minute of the day. |
| CreateListingForm.SuggestedWindowOrdered | src/components/listings/create-listing-form.tsx:393-398 | The suggested window passes the start-before-end rule iff S is before 23:30. |
| CreateListingForm.ApplySuggestedTimeValidity | src/components/listings/create-listing-form.tsx:386-398 | Applying a suggestion to a valid form keeps it valid iff S is before 23:30. |
| CreateListingForm.LateSuggestionWraps | src/components/listings/create-listing-form.tsx:393-398 | 23:45 gives the window 23:45 to 00:15, which is rejected. |
| CreateListingForm.Submit | src/components/listings/create-listing-form.tsx:102-103 | An accepted form is added to the store as its new head, with the form's values and pickup time, leaving the listeners the same and calling each once. A rejected form leaves the store unchanged. |
| ClaimForm.ParseClaimantType | src/components/claims/claim-form.tsx:28 | A recognised claimant type is read from its own literal. |
| ClaimForm.ClaimantTypeRoundTrip | src/components/claims/claim-form.tsx:28 | Each claimant type is read back from its literal. |
| ClaimForm.PhoneNumberIff | src/components/claims/claim-form.tsx:27 | The phone check accepts exactly the strings matching `^(\+\d{1,3}[- ]?)?\d{10}$`. |
| ClaimForm.PhoneNumberLength | src/components/claims/claim-form.tsx:27 | An accepted phone number has 10 to 15 characters. |
| ClaimForm.PhoneNumberExamples | src/components/claims/claim-form.tsx:27 | The placeholder "555-123-4567" (line 112) is rejected; "5551234567", "+1 5551234567" and "+15551234567" are accepted; a four-digit prefix is rejected. |
| ClaimForm.SubmitClaim | src/components/claims/claim-form.tsx:24-57 | A claim is built iff the values break no schema rule; a rejection carries the broken rules. |
| ClaimForm.SubmitClaimAcceptsIff | src/components/claims/claim-form.tsx:24-29 | Accepted iff name ≥ 2, location ≥ 5, the phone matches the pattern, and the claimant type is "individual" or "organisation". |
| ClaimForm.SubmitClaimMerges | src/components/claims/claim-form.tsx:53-57 | The claim record is the form values unchanged plus the listing id and restaurant name. |
| ListingCard.FoodIconIff | src/components/listings/listing-card.tsx:12-19 | Each icon is chosen iff one of its keywords occurs in the lower-cased food type and no earlier group's keyword does; "pizza" wins regardless of other keywords. |
| ListingCard.FoodIconCaseInsensitive | src/components/listings/listing-card.tsx:13 | The icon depends only on the lower-cased food type. |
| Browse.FilteredListings | src/app/browse/page.tsx:33-39 | The listings passing both the search and the food-type test, in order; characterised by FilteredIsSubseq, FilteredMembers and FilteredAppend. |
| Browse.CategoryOf | src/app/browse/page.tsx:42-43 | A listing's category: the stripped, trimmed first word, or the whole food type when that is empty; characterised by CategoryOfShape. |
| Browse.FoodTypes | src/app/browse/page.tsx:41-44 | "all" followed by the de-duplicated non-empty categories; characterised by FoodTypesSpec. |
| ListingCard.FoodIcon | src/components/listings/listing-card.tsx:12-19 | The ordered keyword chain over the lower-cased food type; characterised by FoodIconIff. |
| ClaimForm.IsPhoneNumber | src/components/claims/claim-form.tsx:27 | The phone pattern checked on the last ten characters and the prefix before them; equal to the pattern by PhoneNumberIff. |
| ClaimForm.ClaimIssues | src/components/claims/claim-form.tsx:24-29 | The claim rules broken, in schema order; acceptance characterised by SubmitClaimAcceptsIff. |
| Clock.IsTime | src/components/listings/create-listing-form.tsx:50-52 | The time pattern: hour 00 to 23, a colon, minute 00 to 59, nothing else; read as a minute of the day by Minutes, inverted by FormatTime. |
| Clock.FormatTime | src/components/listings/create-listing-form.tsx:395 | Zero-padded `HH:MM` of a minute of the day; inverse of Minutes by FormatTimeIsTime and MinutesFormatTime. |
| CreateListingForm.Issues | src/components/listings/create-listing-form.tsx:44-60 | The schema rules broken, in schema order; acceptance characterised by ValidateAcceptsIff. |
| CreateListingForm.PickupWindowOrdered | src/components/listings/create-listing-form.tsx:54-57 | The refinement: true when an end is empty, else start `<` end; chronological by TimeOrder. |
| CreateListingForm.PickupTimeRequest | src/components/listings/create-listing-form.tsx:116-124 | The pickup-time request, or none when a needed field is empty; characterised by PickupTimeRequestGuard. |
| CreateListingForm.DescriptionRequest | src/components/listings/create-listing-form.tsx:153-161 | The description request, or none when a needed field is empty; characterised by DescriptionRequestGuard. |
| CreateListingForm.SuggestPickupTimeDisabled | src/components/listings/create-listing-form.tsx:361 | The button's disabled condition; agrees with the request guard by PickupTimeRequestGuard. |
| CreateListingForm.SuggestDescriptionDisabled | src/components/listings/create-listing-form.tsx:259 | The button's disabled condition; agrees with the request guard by DescriptionRequestGuard. |
| ListingsStore.PickupTime | src/lib/listings-store.ts:97 | Start and end joined by `" - "`; read back by PickupTimeRoundTrip. |
| ListingsStore.SeedListings | src/lib/listings-store.ts:21-77 | The five seed records verbatim; SeedIds and SeedPickupTimes state their ids and pickup times. |
| Text.Contains | src/app/browse/page.tsx:34-37 | `includes`; equal to substring occurrence by ContainsIff. |
| Text.StrLess | src/components/listings/create-listing-form.tsx:56 | String `<` by character code; chronological on times by TimeOrder. |
| Text.Trim | src/app/browse/page.tsx:42 | `trim`: TrimStart then TrimEnd; characterised by TrimChars and TrimNothing. |
| Browse.MatchesSearch | src/app/browse/page.tsx:34-36 | The three-field lower-cased `includes` search; characterised by MatchesSearchIff. |
| Browse.MatchesFoodType | src/app/browse/page.tsx:37-38 | The food-type filter as written, `startsWith` branch included; simplified by FoodTypeFilterSimplifies. |
| Browse.Shown | src/app/browse/page.tsx:33-38 | The filter's predicate: search and food-type test together; used by FilteredMembers. |
| Browse.FirstWord | src/app/browse/page.tsx:42 | `split(' ')[0]`; characterised by FirstWordSpec. |
| Seqs.Dedup | src/app/browse/page.tsx:41 | `[...new Set(s)]`; characterised by DedupSpec. |
| Seqs.DedupFrom | src/app/browse/page.tsx:41 | De-duplication against a seen set: every kept element is in the input and unseen; DedupFromMembers, DedupFromDistinct, DedupFromSubseq and DedupFromOrder give the rest. |
| Text.StartsWith | src/app/browse/page.tsx:38 | `startsWith`; implies `includes` by StartsWithContains. |
| Text.LowerChar | src/app/browse/page.tsx:34 | ASCII lower-casing of one character; lifted pointwise by Lower. |
| Text.IsWhitespace | src/app/browse/page.tsx:42 | The ASCII characters `trim` removes; used by TrimStart, TrimEnd and TrimChars. |
| Text.Decimal | src/components/listings/create-listing-form.tsx:388 | `Number` on a digit run; on two digits characterised by DecimalTwoDigits. |
| Clock.Pad2 | src/components/listings/create-listing-form.tsx:395 | `padStart(2, '0')` on a number below 100; its output is characterised through FormatTimeIsTime. |

## Left out

- Rendering, React state and effects, toasts, `console.log` and `form.reset` are not modelled, because they have no logic to prove.
- The home page and the navigation bar are not modelled: they are static markup and routing.
- The two suggestion flows call an external language model. They are not modelled; their outputs are arbitrary strings passed in as parameters.
- IDs, images and distances are randomly generated. `AddListing` takes them as parameters, and id uniqueness is not claimed.
- ListingsStore.Store.GetListings: returns the sequence value. Dafny sequences are immutable, so the defensive copy and any aliasing are trivially absent.
- ListingsStore.Store.NotifyListeners: listeners are handles, and calling one only increments its ghost count. A listener that changes the listener set while notification runs is not modelled, because the source iterates a live `Set` and the outcome is unspecified.
- Text.Lower and Text.Trim handle ASCII only. Full Unicode lower-casing, Unicode whitespace and UTF-16 code-unit lengths are not modelled. String `<` compares characters by code, which agrees with UTF-16 order outside the surrogate range.
- CreateListingForm.Validate and ClaimForm.SubmitClaim model only the verdict and the broken rules in schema order. zod's exact issue list is not modelled, and zod may skip the refinement after a field fails. The library's message texts are also left out.
- CreateListingForm.SuggestedWindow handles only suggestions whose first two `:`-separated fields are plain ASCII digit runs, and it returns `None` for anything else. So it does not follow `Number` on fields `Number` also accepts: whitespace-padded fields such as `"30 "`, signs, or decimals. It does not model values beyond `Number`'s exact integer range (2^53) or beyond the range of `Date`, where the source shows `NaN:NaN`. It also does not model the NaN path for fields `Number` rejects. `Date` is not modelled: time zones, daylight saving and normalisation past a day all become arithmetic modulo 1440.
- Unset form fields (`undefined` in the source) are modelled as the empty string. Both fail the same truthiness guards and the same schema checks.
- `ClaimantType` and `ClaimFormData` are imported from `src/types/index.ts` but are not declared there. `ClaimForm.ClaimantType` and `ClaimForm.ClaimData` are defined from the way the claim form uses them.
