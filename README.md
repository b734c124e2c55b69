# Nfticket frontend rules, in Dafny

Nfticket is a web frontend for NFT event tickets. Events, tickets and payments live in
smart contracts, and images and metadata are pinned to IPFS through the Pinata service.
The frontend holds a set of small rules of its own, and this project models them and
proves their properties. The rules are:

- the event-time derivation of `lib/dateUtils.ts`: an event must be at least two hours
  ahead, registration opens three minutes from now and closes one hour before the event;
- the contract-address and network checks of `contracts/config.ts`;
- address and id shortening in `lib/utils.ts`;
- the three-step create-event wizard (`create-event/page.tsx`);
- the clamped number field (`components/NumberInput.tsx`);
- the events list with its search, category filter and sort (`events/page.tsx`);
- the event card's status, availability bar and category chip
  (`components/EventCard.tsx`);
- the dashboard's ticket badges, QR button, aggregates and sale rate
  (`dashboard/page.tsx`);
- the ticket-transfer dialog (`components/TicketTransferModal.tsx`);
- the event-creation progress dialog (`components/EventCreationModal.tsx`);
- the upload hook (`hooks/usePinata.ts`).

There is one module per source file, plus `Types` for the shared records and JavaScript
values, and `JsString` for the string primitives the code relies on. The records are
`Event`, `EventFormData` and `EventCategory`. The JavaScript values covered are
NaN, Invalid Date, thrown values and `Math.round`. The string primitives are
`startsWith`, `includes`, `slice`, case mapping and number-to-text.

The environment is passed in as parameters:

- The clock `Date.now()` is a parameter `now` in milliseconds. Every reading within one
  call is the same `now`.
- Date parsing `new Date(s).getTime()` is a parameter `parse: string -> Option<int>`. None
  stands for an Invalid Date, which compares as NaN, so it is never in the future.
- `parseFloat` and `Number(text)` are passed in as their results. These are
  `Option<real>` and `JsNumber`, where None or `NaN` stands for NaN.
- Network calls are replaced by their outcome. This covers the contract transfer and the
  Pinata requests.
- Numbers are mathematical reals and integers.

Where JavaScript treats `""` as false (`a || b`, `if (s)`), the model does the same.

Components whose handlers update state in place are classes: the create-event page, the
number field, the transfer dialog and the upload hook. Their methods update the fields
and state the new state against a specification function. The rest are functions, with
lemmas that relate them.

## Model

| member | source | states |
|---|---|---|
| DateUtils.DateToEpoch | frontend/app/lib/dateUtils.ts:8-10 | the epoch is the whole seconds rounded down: `epoch*1000 <= ms < epoch*1000 + 1000` |
| DateUtils.EpochToDate | frontend/app/lib/dateUtils.ts:15-18 | the time value is a whole second, and converting it back gives the same epoch |
| DateUtils.EpochTruncates | frontend/app/lib/dateUtils.ts:8-18 | going through epoch seconds drops less than one second |
| DateUtils.ValidateAndGenerateEventTimes | frontend/app/lib/dateUtils.ts:32-61 | an unparseable date fails with the invalid-date message first; a date not after now fails with "must be in the future"; a date less than two hours ahead fails with the two-hour message; it succeeds exactly when the date is at least now + 2h, and then the registration start is before the registration end |
| DateUtils.RegistrationWindow | frontend/app/lib/dateUtils.ts:51-59 | on success, regStart is floor((now+3min)/1000) and regEnd is floor((event−1h)/1000); both dates are their epochs times 1000; the start date lies within a second of now+3min, and the end date within a second of event−1h; start < end < event |
| DateUtils.TwoHourBoundary | frontend/app/lib/dateUtils.ts:45-48 | an event exactly two hours ahead is accepted; one millisecond sooner is refused with the two-hour message |
| Config.IsValidContractAddress | frontend/app/contracts/config.ts:37-41 | an address is valid when it is not the zero address, starts with "0x" and has 42 characters; `ValidAddressShape` gives it an independent form |
| Config.ZeroAddressInvalid | frontend/app/contracts/config.ts:38 | the all-zero address is never valid |
| Config.ValidAddressShape | frontend/app/contracts/config.ts:37-41 | valid iff the length is 42, the prefix is "0x", and some character after the prefix is not '0' |
| Config.AnyFortyCharactersAccepted | frontend/app/contracts/config.ts:37-41 | no hex check: "0x" followed by any 40 characters other than forty zeros is valid |
| Config.AreContractsConfigured | frontend/app/contracts/config.ts:44-46 | the result is the check applied to the factory address, and that address passes |
| Config.IsOnCorrectNetwork | frontend/app/contracts/config.ts:52-54 | true exactly for chain id 50312; an absent id gives false |
| Utils.Shorten | frontend/app/lib/utils.ts:28 | for any length: the first min(head, \|s\|) characters of s, then "...", then its last min(tail, \|s\|) characters; a long enough string is head + 3 + tail characters long |
| Utils.ShortenAddress | frontend/app/lib/utils.ts:27-29 | `slice(0, 6)`, "..." and `slice(-4)` of the address; one of 10 or more characters becomes 13 characters: its first 6, "...", its last 4 |
| Utils.FormatEventId | frontend/app/lib/utils.ts:31-33 | "#" and a prefix of the id of length min(8, \|id\|); ids of at most 8 characters are kept whole |
| CreateEvent.StepOf | frontend/app/create-event/page.tsx:148-320 | every input belongs to one of the steps 1..3 |
| CreateEvent.UpdateField | frontend/app/create-event/page.tsx:33-39 | the named field takes the typed text, or `Number(text)` for ticketPrice and totalTickets; every other field is unchanged |
| CreateEvent.IsStepValid | frontend/app/create-event/page.tsx:78-89 | step 1 valid iff title, description and category are non-empty; step 2 iff date, location and imageUrl are non-empty; step 3 iff price >= 0 and tickets > 0, with NaN failing both; any other step is invalid |
| CreateEvent.UpdateKeepsOtherSteps | frontend/app/create-event/page.tsx:33-89 | editing a field never changes the validity of a step that does not show that field |
| CreateEvent.InitialFormInvalid | frontend/app/create-event/page.tsx:78-89 | no step is valid on the initial or reset form |
| CreateEvent.NextEnabled | frontend/app/create-event/page.tsx:382 | Next is enabled exactly when the current step is valid, which needs a step in 1..3 |
| CreateEvent.SubmitEnabled | frontend/app/create-event/page.tsx:390 | submit is enabled iff the step is valid and nothing is submitting; on step 3 that needs at least one ticket |
| CreateEvent.CreateEventPage.constructor | frontend/app/create-event/page.tsx:9-21 | the page starts on step 1 with the initial form, not submitting |
| CreateEvent.CreateEventPage.NextStep | frontend/app/create-event/page.tsx:70-72 | the step goes up by one below 3 and stays at 3; it stays within 1..3 |
| CreateEvent.CreateEventPage.PrevStep | frontend/app/create-event/page.tsx:74-76 | the step goes down by one above 1 and stays at 1; it stays within 1..3 |
| CreateEvent.CreateEventPage.HandleInputChange | frontend/app/create-event/page.tsx:33-39 | the form becomes the one-field update of the old form |
| CreateEvent.CreateEventPage.BeginSubmit | frontend/app/create-event/page.tsx:43 | a submit in progress shows as `isSubmitting` |
| CreateEvent.CreateEventPage.FinishSubmit | frontend/app/create-event/page.tsx:51-67 | a success resets the form and the step to 1; a failure keeps both; `isSubmitting` is false after either |
| NumberInput.Constrain | frontend/app/components/NumberInput.tsx:52-58 | the result is at most max; it is at least min when the bounds are consistent; a value in range is unchanged; with max < min the result is max |
| NumberInput.ConstrainIsNearest | frontend/app/components/NumberInput.tsx:52-58 | below min gives min, above max gives max, and constraining twice changes nothing more |
| NumberInput.ReportedValue | frontend/app/components/NumberInput.tsx:44-63 | a number is reported constrained; empty text reports 0 without any constraint; other text that is not a number reports nothing |
| NumberInput.Incremented | frontend/app/components/NumberInput.tsx:77-81 | value + step, lowered to max when there is one |
| NumberInput.Decremented | frontend/app/components/NumberInput.tsx:83-87 | value − step, raised to min |
| NumberInput.IncrementDisabled | frontend/app/components/NumberInput.tsx:116 | the increment button is disabled by the `disabled` prop or at or above a given max; `EnabledButtonsMove` relates it to the step |
| NumberInput.DecrementDisabled | frontend/app/components/NumberInput.tsx:126 | the decrement button is disabled by the `disabled` prop or at or below min; `EnabledButtonsMove` relates it to the step |
| NumberInput.StepsStayInRange | frontend/app/components/NumberInput.tsx:77-87 | from a value inside [min, max], both buttons report a value inside [min, max] |
| NumberInput.EnabledButtonsMove | frontend/app/components/NumberInput.tsx:116-126 | with a positive step, an enabled increment button raises the value and an enabled decrement button lowers it |
| NumberInput.NumberInputField.constructor | frontend/app/components/NumberInput.tsx:25-35 | min defaults to 0 and step to 1; the input starts showing the value, unfocused |
| NumberInput.NumberInputField.HandleInputChange | frontend/app/components/NumberInput.tsx:44-63 | the input shows the typed text and the reported value is `ReportedValue` |
| NumberInput.NumberInputField.HandleFocus | frontend/app/components/NumberInput.tsx:65-69 | the field is focused |
| NumberInput.NumberInputField.HandleBlur | frontend/app/components/NumberInput.tsx:71-75 | the field is unfocused and shows the value's text again |
| NumberInput.NumberInputField.ValueChanged | frontend/app/components/NumberInput.tsx:37-42 | a new value replaces the shown text only while the field is not focused |
| NumberInput.NumberInputField.Increment | frontend/app/components/NumberInput.tsx:77-81 | the reported value is `Incremented` of the current value |
| NumberInput.NumberInputField.Decrement | frontend/app/components/NumberInput.tsx:83-87 | the reported value is `Decremented` of the current value |
| JsString.Take | frontend/app/lib/utils.ts:28-32 | `slice(0, n)` is a prefix of length min(n, \|s\|) |
| JsString.TakeLast | frontend/app/lib/utils.ts:28 | `slice(-n)` is a suffix of length min(n, \|s\|) |
| JsString.IncludesIffOccurs | frontend/app/events/page.tsx:135-137 | `includes` holds exactly when the needle occurs at some position of the text |
| JsString.EmptyIsIncluded | frontend/app/events/page.tsx:135-137 | every text includes the empty string |
| JsString.ToLower | frontend/app/events/page.tsx:135-137 | `toLowerCase` keeps the length and lower-cases each character |
| JsString.ToLowerIdempotent | frontend/app/events/page.tsx:135-137 | lower-casing twice is lower-casing once |
| JsString.Capitalize | frontend/app/components/EventCard.tsx:78 | the first character is upper-cased and the rest is unchanged |
| JsString.CapitalizeChangesOnlyCase | frontend/app/dashboard/page.tsx:337 | the status badge (and the category chip) differs from its text only in case: both lower-case to the same string |
| JsString.DecimalRoundTrip | frontend/app/hooks/usePinata.ts:82 | the decimal text of a number reads back as that number |
| Events.MatchesSearch | frontend/app/events/page.tsx:135-137 | the lower-cased query is included in the lower-cased title, description or location |
| Events.MatchesCategory | frontend/app/events/page.tsx:138 | the selected category is "all" or the event's own category |
| Events.Matches | frontend/app/events/page.tsx:134-139 | an event is kept when it matches both the search and the category |
| Events.EmptyQueryAllCategoriesMatch | frontend/app/events/page.tsx:135-138 | the empty query with "all" matches every event, so the initial filters list every event |
| Events.Keep | frontend/app/events/page.tsx:134-140 | each element occurs in the result as often as in the input if it passes, and not at all otherwise |
| Events.KeepAppend | frontend/app/events/page.tsx:134-140 | filtering a concatenation is the concatenation of the filtered parts: the filter keeps the input order |
| Events.FilterEvents | frontend/app/events/page.tsx:134-140 | each event occurs in the result as often as in the input if it matches, and not at all otherwise |
| Events.FilterEventsSingle | frontend/app/events/page.tsx:134-140 | a one-event list keeps its event exactly when it matches |
| Events.FilterEventsAppend | frontend/app/events/page.tsx:134-140 | filtering a concatenation is the concatenation of the filtered parts, so the input order is kept |
| Events.Compare | frontend/app/events/page.tsx:141-152 | the comparator by price, by tickets sold and by tickets left (both descending), and by date otherwise, with NaN when a date does not parse; `CompareIsKeyDifference` relates it to the sort key |
| Events.CompareIsKeyDifference | frontend/app/events/page.tsx:141-152 | where the comparator gives a number, it is the difference of the sort keys; price, popularity and availability always give a number |
| Events.Insert | frontend/app/events/page.tsx:141-152 | inserting into a sorted list keeps it sorted, adds exactly the one event, and puts it first or keeps the old first |
| Events.Sort | frontend/app/events/page.tsx:141-152 | the result is sorted by the key and is a permutation of the input |
| Events.SortEvents | frontend/app/events/page.tsx:141-152 | the result is sorted in the page's order and is a permutation of the input |
| Events.FilteredEvents | frontend/app/events/page.tsx:133-152 | the list shown is sorted, each matching event appears as often as in the input, and an event is listed exactly when it is in the input and matches |
| Events.PriceSortAscending | frontend/app/events/page.tsx:144 | sorting by price gives non-decreasing prices |
| Events.PopularitySortDescending | frontend/app/events/page.tsx:146 | sorting by popularity gives non-increasing tickets sold |
| Events.AvailabilitySortDescending | frontend/app/events/page.tsx:148 | sorting by availability gives non-increasing tickets left |
| Events.DateSortAscending | frontend/app/events/page.tsx:149-150 | any other order gives non-decreasing event times, among dates that parse |
| Events.ClearFilters | frontend/app/events/page.tsx:259-263 | clear filters sets the query to "" and the category to "all", and keeps the sort order |
| Events.ClearFiltersShowsAll | frontend/app/events/page.tsx:259-263 | after clearing, every event is listed, as often as in the input |
| Events.CountLabel | frontend/app/events/page.tsx:224 | "1 event found" for one event, "<n> events found" otherwise |
| EventCard.GetEventStatus | frontend/app/components/EventCard.tsx:26-63 | Ended iff inactive; Upcoming iff active and the date is after now; Live iff active and the date is not after now |
| EventCard.ActivePastEventShowsLive | frontend/app/components/EventCard.tsx:29-33 | an active event whose date has passed, or does not parse, shows Live, because Live is tested first |
| EventCard.AvailabilityColor | frontend/app/components/EventCard.tsx:134-138 | green iff more than half the tickets are left (above 50%); yellow iff more than a fifth and at most half are left; red iff at most a fifth are left |
| EventCard.PercentageThresholds | frontend/app/components/EventCard.tsx:134-136 | the 50% and 20% thresholds on the percentage are the same as the ticket-count conditions |
| EventCard.GetCategoryColor | frontend/app/components/EventCard.tsx:13-24 | a known category gets its own classes; anything else gets the "other" classes |
| EventCard.CategoryColorsCoverCategories | frontend/app/components/EventCard.tsx:14-22 | the colour table's keys are exactly the seven category names, and each category has different classes |
| EventCard.CategoryLabels | frontend/app/components/EventCard.tsx:78 | for every category, the chip lower-cases back to the stored name, and two categories share a chip only if they are the same |
| Dashboard.TicketStatusOf | frontend/app/dashboard/page.tsx:394-401 | Used iff used; Valid iff unused and the event is after now; Expired iff unused and the event is not after now |
| Dashboard.TicketStatusText | frontend/app/dashboard/page.tsx:401 | the badge reads "Used" exactly for Used, "Valid" exactly for Valid and "Expired" exactly for Expired |
| Dashboard.ShowQrCode | frontend/app/dashboard/page.tsx:421 | the QR button shows for an unused ticket whose event is after now; `ShowQrCodeIffValid` ties it to the badge |
| Dashboard.ShowQrCodeIffValid | frontend/app/dashboard/page.tsx:421 | the QR button is shown exactly on tickets whose badge is Valid |
| Dashboard.TicketsSold | frontend/app/dashboard/page.tsx:214 | the page's `reduce`, folded from the left; `TicketsSoldIsSum` proves it equal to the front-to-back sum |
| Dashboard.SoldFromAppend | frontend/app/dashboard/page.tsx:214 | the sum of tickets sold splits over concatenated lists |
| Dashboard.TicketsSoldIsSum | frontend/app/dashboard/page.tsx:214 | the left fold of the page equals the sum of `ticketsSold` over the events |
| Dashboard.TicketsSoldAppend | frontend/app/dashboard/page.tsx:214 | Tickets Sold of two lists together is the sum of the two |
| Dashboard.TicketsSoldBounded | frontend/app/dashboard/page.tsx:214 | when each event sold between none and all of its tickets, the total is between 0 and the total capacity |
| Dashboard.ActiveEventCount | frontend/app/dashboard/page.tsx:230 | at most the number of events; equal to it iff every event is active; 0 iff none is |
| Dashboard.ActiveEventCountSingle | frontend/app/dashboard/page.tsx:230 | one event counts 1 exactly when its status is "active" |
| Dashboard.ActiveEventCountAppend | frontend/app/dashboard/page.tsx:230 | the count of a concatenation is the sum of the counts, so with the single case the count is the number of active events |
| Dashboard.UpcomingTicketCount | frontend/app/dashboard/page.tsx:246 | at most the number of tickets |
| Dashboard.StatusCount | frontend/app/dashboard/page.tsx:394-401 | the number of tickets whose badge is a given status |
| Dashboard.UpcomingCountsValid | frontend/app/dashboard/page.tsx:246 | Upcoming Events counts exactly the tickets whose badge is Valid |
| Dashboard.StatusCountsPartition | frontend/app/dashboard/page.tsx:394-401 | the Used, Valid and Expired counts add up to the number of tickets |
| Types.Round | frontend/app/dashboard/page.tsx:362 | `Math.round` is within one half of its argument, with halves rounded up |
| Dashboard.SaleRate | frontend/app/dashboard/page.tsx:362 | the rate is within one half of 100·sold/total; it lies in 0..100 when 0 <= sold <= total; it is 100 when everything sold |
| Types.MessageOf | frontend/app/components/TicketTransferModal.tsx:50 | an Error gives its message; any other thrown value gives the fallback |
| TicketTransfer.RecipientError | frontend/app/components/TicketTransferModal.tsx:33-41 | an empty recipient gets the recipient message before anything else; a non-empty one passes iff it starts with "0x" and has length 42, and otherwise gets the invalid-address message |
| TicketTransfer.RecipientShape | frontend/app/components/TicketTransferModal.tsx:38 | a recipient passes exactly when it is "0x" followed by 40 more characters |
| TicketTransfer.RecipientCheckIsLooser | frontend/app/components/TicketTransferModal.tsx:38 | every valid contract address passes the recipient check, and so does the zero address, which the address check rejects |
| TicketTransfer.RendersNothing | frontend/app/components/TicketTransferModal.tsx:55 | the dialog renders nothing when it is closed or has no ticket |
| TicketTransfer.RenderedDialogUsesTicketId | frontend/app/components/TicketTransferModal.tsx:45-55 | a dialog that renders is open and has its ticket, so the transfer uses the ticket's own token id |
| TicketTransfer.TokenIdOf | frontend/app/components/TicketTransferModal.tsx:45 | the ticket's token id, 0 without a ticket |
| TicketTransfer.TransferCalls | frontend/app/components/TicketTransferModal.tsx:33-52 | no call when the check fails; otherwise `transferTicket(recipient, tokenId)` first, then `onTransferComplete`, then `onClose`, each reached only if the one before did not throw: a throwing transfer makes that one call, a throwing `onTransferComplete` skips `onClose` |
| TicketTransfer.CloseFollowsCompletion | frontend/app/components/TicketTransferModal.tsx:43-47 | `onClose` is called only after the transfer and `onTransferComplete`, in that order, and `onTransferComplete` only right after the transfer |
| TicketTransfer.ErrorAfterTransfer | frontend/app/components/TicketTransferModal.tsx:33-52 | the check's message when it fails; otherwise no error exactly when every step completed, and the thrown message, or the fallback, when any of the three steps threw |
| TicketTransfer.EnabledButtonSkipsEmptyCheck | frontend/app/components/TicketTransferModal.tsx:137 | a press of the enabled Transfer button never gets the empty-recipient message |
| TicketTransfer.TransferButtonDisabled | frontend/app/components/TicketTransferModal.tsx:137 | the Transfer button is disabled while a transfer runs or while the recipient is empty |
| TicketTransfer.TicketTransferModal.constructor | frontend/app/components/TicketTransferModal.tsx:25-26 | the dialog starts with an empty recipient, no error and no calls |
| TicketTransfer.TicketTransferModal.HandleTransfer | frontend/app/components/TicketTransferModal.tsx:32-53 | the error becomes `ErrorAfterTransfer`, and the calls made are `TransferCalls`, appended in order; a throw at any step skips the steps after it |
| TicketTransfer.TicketTransferModal.EditRecipient | frontend/app/components/TicketTransferModal.tsx:87-90 | the recipient takes the typed text and any error is cleared, except an empty message, which is falsy and stays |
| EventCreationModal.GetStepInfo | frontend/app/components/EventCreationModal.tsx:31-82 | every step has a non-empty title and description; success and error have their own titles |
| EventCreationModal.StepTitlesDistinct | frontend/app/components/EventCreationModal.tsx:31-82 | two steps have the same title (or description) only if they are the same step |
| EventCreationModal.CanClose | frontend/app/components/EventCreationModal.tsx:108-112 | the dialog may close, and a close request reaches `onClose`, only on the success and error steps |
| EventCreationModal.IconSpins | frontend/app/components/EventCreationModal.tsx:140-141 | the icon spins on every step but success and error |
| EventCreationModal.CloseButtonShown | frontend/app/components/EventCreationModal.tsx:258 | the Close button belongs to the error step |
| EventCreationModal.ViewEventsShown | frontend/app/components/EventCreationModal.tsx:231-241 | the View Events link belongs to the success step |
| EventCreationModal.SpinningMeansWaiting | frontend/app/components/EventCreationModal.tsx:140 | the icon spins exactly while the dialog cannot close; the Close button shows only on a closable step, never together with View Events |
| EventCreationModal.DescriptionShown | frontend/app/components/EventCreationModal.tsx:159 | a non-empty error replaces the description; an absent or empty error shows the step's description |
| EventCreationModal.ProgressOrZero | frontend/app/components/EventCreationModal.tsx:104-105 | a missing progress value is 0 |
| EventCreationModal.ImageBar | frontend/app/components/EventCreationModal.tsx:163-176 | the image bar is shown exactly on the image step, with the rounded progress |
| EventCreationModal.MetadataBar | frontend/app/components/EventCreationModal.tsx:178-191 | the metadata bar is shown exactly on the metadata step, with the rounded progress |
| EventCreationModal.AtMostOneBar | frontend/app/components/EventCreationModal.tsx:163-191 | the two bars are never shown together, and a missing progress shows 0% |
| EventCreationModal.ShortHash | frontend/app/components/EventCreationModal.tsx:213 | a hash of 18 or more characters is shown as its first 10, "...", its last 8 |
| EventCreationModal.ExplorerUrl | frontend/app/components/EventCreationModal.tsx:26-29 | the URL is the explorer's transaction prefix followed by the hash |
| EventCreationModal.ExplorerUrlInjective | frontend/app/components/EventCreationModal.tsx:26-29 | two hashes give the same link only if they are equal |
| EventCreationModal.TransactionDetails | frontend/app/components/EventCreationModal.tsx:209-227 | the transaction block shows exactly for a non-empty hash, with the shortened hash and the explorer link of that hash |
| EventCreationModal.EventDetails | frontend/app/components/EventCreationModal.tsx:194-206 | the event block shows exactly on success with a non-empty name; its contract line shows exactly for a non-empty address, shortened |
| EventCreationModal.DetailsBlocks | frontend/app/components/EventCreationModal.tsx:194-227 | the event block appears only where View Events shows and the dialog may close; the link leads to the page of the hash given |
| Pinata.ConfiguredKey | frontend/app/hooks/usePinata.ts:18-19 | the environment variable when it is set and non-empty, the placeholder otherwise |
| Pinata.KeysFromEnv | frontend/app/hooks/usePinata.ts:18-19 | each key is read from its own variable with its own placeholder |
| Pinata.UnsetVariableMeansUnconfigured | frontend/app/hooks/usePinata.ts:18-19 | an unset or empty variable leaves the placeholder, so the keys count as not configured |
| Pinata.FileCheck | frontend/app/hooks/usePinata.ts:31-50 | the keys are checked first, then the file is present, then its size is at most 100 MiB, then its type is allowed; the request is sent exactly when all four pass |
| Pinata.SizeLimitInclusive | frontend/app/hooks/usePinata.ts:41-44 | exactly 104857600 bytes are accepted; one byte more is refused |
| Pinata.JsonCheck | frontend/app/hooks/usePinata.ts:106-108 | the JSON upload fails only when the keys are not configured |
| Pinata.JsonCheckIsKeysOnly | frontend/app/hooks/usePinata.ts:106-108 | the JSON check passes whenever the file checks do, and whenever the keys are configured |
| Pinata.GatewayUrl | frontend/app/hooks/usePinata.ts:88 | the URL is the gateway prefix followed by the hash |
| Pinata.NotOkMessage | frontend/app/hooks/usePinata.ts:80-83 | the body's non-empty `error` field, else "Upload failed with status: " followed by the status in decimal |
| Pinata.StatusReadBack | frontend/app/hooks/usePinata.ts:82 | without an error field, the status can be read back from the message |
| Pinata.ResponseResult | frontend/app/hooks/usePinata.ts:80-94 | success exactly on an OK response, returning the gateway URL; otherwise the not-OK message, or the thrown message or fallback |
| Pinata.UploadFileResult | frontend/app/hooks/usePinata.ts:25-98 | a failed check ends the upload with its message and no request; otherwise the response decides; fallback "Upload failed" |
| Pinata.UploadJsonResult | frontend/app/hooks/usePinata.ts:100-147 | the key check, then the response; fallback "JSON upload failed" |
| Pinata.SuccessIsGatewayUrl | frontend/app/hooks/usePinata.ts:88 | a successful upload returns a gateway URL from which the pinned hash reads back |
| Pinata.ErrorAfter | frontend/app/hooks/usePinata.ts:91-93 | no error after a success; the failure's message otherwise |
| Pinata.Uploader.constructor | frontend/app/hooks/usePinata.ts:22-23 | not uploading and no error at first |
| Pinata.Uploader.BeginUpload | frontend/app/hooks/usePinata.ts:26-27 | at the start of either upload: uploading, no error |
| Pinata.Uploader.FinishUpload | frontend/app/hooks/usePinata.ts:91-97 | a failure stores its message; `isUploading` is false after either outcome |
| Pinata.Uploader.UploadToPinata | frontend/app/hooks/usePinata.ts:25-98 | the result is `UploadFileResult`; afterwards not uploading, and the error is the failure's message or none |
| Pinata.Uploader.UploadJson | frontend/app/hooks/usePinata.ts:100-147 | the result is `UploadJsonResult`; afterwards not uploading, and the error is the failure's message or none |
| Pinata.Uploader.ClearError | frontend/app/hooks/usePinata.ts:149 | the error is cleared |

## Left out

- The HTTP requests to Pinata are not modelled, and neither are the FormData and JSON
  bodies or response parsing. The response is an abstract outcome: OK with a hash, not
  OK with a status and an optional error field, or a thrown value.
- `hooks/useContracts.ts` is not part of this model. It holds the wagmi and viem contract
  hooks. The transfer call's outcome is a parameter of the dialog.
- Locale formatting is not modelled: `formatDate`, `formatPrice`, `formatEpochTime`,
  `getMinDateTimeLocal` and `toLocaleDateString`. Neither is `getCurrentEpoch`, which
  only reads the clock.
- Floating-point display arithmetic is left out. This covers the dashboard revenue total
  (`parseFloat`, `toFixed(2)`) and the wizard's potential revenue (`toFixed(4)`). All
  numbers are exact reals and integers. IEEE-754 rounding, Infinity, and the range limit
  of `Date` are not modelled.
- The `cn` class-name helper, timers (`setTimeout`), alerts, console logging and icons
  are left out. So are the presentation-only components and `test-config.js`.
- The `registerError` that the transfer dialog shows next to its own error is not
  modelled. It comes from the contract hooks.
- Lengths, `slice` and `startsWith` count Unicode characters (code points), while
  JavaScript counts UTF-16 code units. The two differ only for characters outside the
  Basic Multilingual Plane: such a character counts 2 towards JavaScript's 42-character
  address length but 1 here, and JavaScript's slices can split it, which the model's
  cannot.
- TicketTransfer.TokenIdOf: the token id is an integer, so `BigInt(...)` never throws. In
  JavaScript the id is a `number`, and a non-integer one makes `BigInt` throw before
  `transferTicket` is called.
- Case mapping covers ASCII letters only. JavaScript's full Unicode case mapping is not
  modelled.
- Pinata.Uploader.UploadToPinata: for a thrown value that is not an Error, the hook
  rethrows the raw value while `uploadError` gets "Upload failed". The model returns the
  stored message only; what is rethrown is not modelled.
- Turning a number into text (`value.toString()` in the number field) is passed in with
  the value.
- EventCard.GetCategoryColor: the table is an ordinary object, so a key inherited from
  `Object.prototype` (such as "toString") would return a function rather than the
  "other" classes. The model treats the table as a plain map.
- EventCreationModal.GetStepInfo: the `default` branch ("Processing") cannot be reached
  with the five typed steps, so it is not modelled.
- Events.SortEvents: the comparator is modelled by a sort key, and the sort is a stable
  insertion sort. The model does not prove stability. When a date does not parse, the
  comparator gives NaN and the engine's order is unspecified. The model gives such a date
  key 0, and `DateSortAscending` speaks only of dates that parse.
- Dashboard.SaleRate: a total of 0 divides by zero (NaN or Infinity in JavaScript). The
  model requires a positive total.
- EventCard.AvailabilityColor: a total of 0 divides by zero in the same way. The model
  requires a positive total.
- The dashboard's active tab, the events page's category and sort selectors, and the
  mock data arrays are left out. The event and ticket lists are parameters instead.
