# Estately front end: a verified model of its listing filter, listing forms and auth flows

Estately is a real-estate web front end. Its backend is a set of webhooks. The little logic it keeps on the client is modelled here in Dafny:

- **Listings browse view** (`ListingsPage`). Seven filter criteria are updated by the filter controls: location, price bracket, type, area, status, currency and area unit. A match predicate combines substring tests and equality tests on a loosely typed listing record. The filtered view maps "not loaded" to "not loaded" and otherwise filters in input order.
- **Listing edit form** (`EditListingForm`). It splits a stored `"<value> <currency>"` price and a `"<value> <unit>"` area back into two fields each. It detects the suffix from a fixed list, strips it and trims. It then recomposes them on save, builds the request body and builds the updated record.
- **Add-seller form** (`AddSellerForm`). It offers a bracket list per currency, empties the bracket when the currency changes, and enforces a 5 MiB image limit. It has a preview, confirm and submit sequence.
- **Add-buyer form** (`AddBuyerForm`). It has the same preview, confirm and submit sequence, and it sends the form values unchanged.
- **Forgot-password page** (`ForgotPassword`). A three-step flow: enter the email, then the code, then a new password. **Sign-up page** (`Signup`). A two-step flow: register, then verify. In both, a step advances only when its request succeeds, and the email from the first step is carried forward.
- **Add-buyer page** (`AddBuyerPage`). A session-expiry gate runs on mount. The page then renders one of three views.

Shared pieces live in `Strings` and `ListingData`. `Strings` holds ASCII lower-casing, `includes`, `endsWith` and ECMAScript `trim`. `ListingData` holds the listing record, the option lists, the ten-field listing form and the form-to-body mapping.

Inputs from the outside world are parameters of the methods. These are the outcome of each webhook request (`ok`), the email validator's verdict (`emailOk`), `JSON.parse` (`parse`), the clock (`now`) and the result of reading an image file (`ImageFile.dataUrl`). A listing record is a `map<string, string>`; a missing key stands for an `undefined` field. Each stateful component is a class. Where a submit awaits a request, the confirm handler is split in two. `StartFinalSubmit` runs up to the request. `CompleteFinalSubmit` is the `finally` block. This split keeps the state during the request visible.

Two behaviours of the code are easy to misread:
- A currency change does not reset the criteria. It empties only the price bracket (`src/app/listings/page.tsx:52-54`).
- An absent field is not "no constraint". A record that lacks the field is rejected when that criterion is non-empty (`src/app/listings/page.tsx:107-115`). `ListingsPage.MissingFieldRejects` states this.

## Model

| member | source | states |
|---|---|---|
| Strings.Lower | src/app/listings/page.tsx:107 | lower-casing keeps the length and folds each ASCII capital to its small letter, leaving every other character |
| Strings.ContainsAt | src/app/listings/page.tsx:107 | `includes` holds whenever the needle occurs at some index |
| Strings.ContainsWitness | src/app/listings/page.tsx:107 | `includes` holds only if the needle occurs at some index |
| Strings.ContainsFirstChar | src/app/listings/page.tsx:107 | a text containing a non-empty needle contains its first character |
| Strings.TrimIsTrimmed | src/components/edit-listing-form.tsx:74 | the result of `trim` starts and ends with a non-space character (or is empty) |
| ListingData.FieldOr | src/components/edit-listing-form.tsx:81-90 | the JavaScript `or` of a field and a fallback: the field when present and non-empty, the fallback when absent or empty |
| ListingData.FormPriceBrackets | src/components/add-seller-form.tsx:81-82 | the seller and edit forms (the latter at `src/components/edit-listing-form.tsx:95-96`) offer the USD brackets iff the currency is `USD`, and the PKR brackets otherwise |
| ListingData.ListingSchemaValid | src/components/add-seller-form.tsx:37-47 | the listing schema (also `src/components/edit-listing-form.tsx:39-49`): the five text fields non-empty, a valid email, and currency, type, unit and status taken from their lists; it guards `Submit` in both forms and is the premise of `EditListingForm.ReloadAfterEdit` |
| ListingData.Compose | src/components/add-seller-form.tsx:119-120 | `${value} ${unit}` starts with the value and ends with a space and the unit |
| ListingData.ListingFormBody | src/components/add-seller-form.tsx:116-121 | the body has exactly the eight keys name…constructionStatus, with no currency or unit, and priceRange and area composed with their unit |
| ListingsPage.SelectionValue | src/app/listings/page.tsx:49 | a select's value is stored unchanged, except that `'all'` (like `''`) becomes the empty, unconstrained criterion |
| ListingsPage.Criteria.With | src/app/listings/page.tsx:49 | `{ ...prev, [name]: v }` sets field `name` to `v` and leaves the other six alone |
| ListingsPage.PriceBrackets | src/app/listings/page.tsx:158 | the browse view offers the PKR brackets iff the currency is `PKR`, and the USD brackets otherwise, including when no currency is chosen |
| ListingsPage.ListingFilters.constructor | src/app/listings/page.tsx:46 | criteria start with all seven fields empty |
| ListingsPage.ListingFilters.HandleFilterChange | src/app/listings/page.tsx:48-54 | sets only the named field, to `''` for `'all'` and to the value otherwise. A change of the currency value also empties the bracket. Nothing else changes |
| ListingsPage.ListingFilters.ClearFilters | src/app/listings/page.tsx:56-58 | all seven criteria become empty |
| ListingsPage.LocationMatches | src/app/listings/page.tsx:107 | the location test: no query, or a present `Location_` whose lower-cased text includes the lower-cased query; characterised by `LocationOnly`, `MissingFieldRejects` and `CaseInsensitiveText` |
| ListingsPage.PriceMatches | src/app/listings/page.tsx:108-110 | the price test on `Price_Range or ''`: the bracket occurs with case, and the currency occurs without case; characterised by `BracketOnly`, `MissingFieldRejects` and `CaseInsensitiveText` |
| ListingsPage.EqualsField | src/app/listings/page.tsx:111-115 | the type and status tests: no choice, or a present field strictly equal to it; characterised by `TypeOnly` and `StatusOnly` |
| ListingsPage.AreaMatches | src/app/listings/page.tsx:112-114 | the area test on `Area or ''`: value and unit each occur without case; characterised by `MissingFieldRejects` and `CaseInsensitiveText` |
| ListingsPage.Matches | src/app/listings/page.tsx:106-116 | a record is kept iff all five tests hold; characterised by `MatchesNoCriteria`, `MissingFieldRejects`, the single-criterion lemmas and the Multan/Lahore examples |
| ListingsPage.Filter | src/app/listings/page.tsx:106-117 | the filtered list is never longer than its input |
| ListingsPage.FilteredListings | src/app/listings/page.tsx:104-118 | the result is absent exactly when the listings are not loaded; otherwise it is the input filtered by the criteria |
| ListingsPage.MatchesNoCriteria | src/app/listings/page.tsx:107-116 | every record matches when all criteria are empty |
| ListingsPage.MissingFieldRejects | src/app/listings/page.tsx:107-115 | a non-empty criterion on a field the record lacks rejects the record: location, type, status, price or currency, area value or unit |
| ListingsPage.LocationOnly | src/app/listings/page.tsx:107 | with a location query alone, a record is kept iff `Location_` is present and its lower-cased text contains the lower-cased query |
| ListingsPage.BracketOnly | src/app/listings/page.tsx:108-109 | with a bracket alone, a record is kept iff the bracket occurs literally, with case, in `Price_Range` (absent read as `''`) |
| ListingsPage.TypeOnly | src/app/listings/page.tsx:111 | with a type alone, a record is kept iff its `Property_Type` is present and equals the choice exactly |
| ListingsPage.StatusOnly | src/app/listings/page.tsx:115 | with a status alone, a record is kept iff its `Construction_Status` is present and equals the choice exactly |
| ListingsPage.CaseInsensitiveText | src/app/listings/page.tsx:107-114 | location, currency, area value and area unit criteria that agree up to ASCII case select the same records |
| ListingsPage.FilterMembership | src/app/listings/page.tsx:106-117 | a record is in the result iff it is in the input and matches |
| ListingsPage.FilterCounts | src/app/listings/page.tsx:106-117 | a matching record is kept as many times as it occurs; a non-matching one does not occur |
| ListingsPage.ShiftSelects | src/app/listings/page.tsx:106-117 | an in-order selection of positions survives putting a record in front |
| ListingsPage.FilterKeepsOrder | src/app/listings/page.tsx:106-117 | the result is the input at exactly the matching positions, in increasing order |
| ListingsPage.FilterNoCriteria | src/app/listings/page.tsx:107-116 | with all criteria empty the result is the input |
| ListingsPage.FilterAllMatch | src/app/listings/page.tsx:106-117 | when every record matches, the result is the input |
| ListingsPage.FilterIdempotent | src/app/listings/page.tsx:104-118 | filtering the result again with the same criteria changes nothing |
| ListingsPage.ProjectionOfAbsentAndEmpty | src/app/listings/page.tsx:105-106 | not loaded gives not loaded, empty gives empty, and the two differ |
| ListingsPage.ClearedViewIsIdentity | src/app/listings/page.tsx:56-58 | after clearing, the view shows every loaded record |
| ListingsPage.ProjectionIdempotent | src/app/listings/page.tsx:104-118 | projecting the projection again changes nothing |
| ListingsPage.MultanMatchesMulInPkr | src/app/listings/page.tsx:107-110 | a Multan record priced in PKR matches location `mul` with currency `PKR` |
| ListingsPage.LahoreRejectsMul | src/app/listings/page.tsx:107 | a Lahore record does not match location `mul` |
| ListingsPage.ExampleLocationAndCurrency | src/app/listings/page.tsx:104-118 | of the Multan and Lahore records, `mul` in PKR keeps Multan only |
| ListingsPage.ExampleType | src/app/listings/page.tsx:111 | of the same two records, type `Flat` keeps Lahore only |
| EditListingForm.FirstSuffixIndex | src/components/edit-listing-form.tsx:73 | the index found is that of an option the text ends with, and no earlier option is a suffix; if there is none it is the list length |
| EditListingForm.StripUnit | src/components/edit-listing-form.tsx:74 | replacing `/ ${unit}$/` drops one trailing space-and-unit when present, and otherwise keeps the text |
| EditListingForm.DetectSuffix | src/components/edit-listing-form.tsx:73-77 | `find(endsWith) or fallback`: the result is the fallback or an option the text ends with, and whenever some option is a suffix the result is one |
| EditListingForm.ParseQuantity | src/components/edit-listing-form.tsx:72-78 | the detected unit is listed or the fallback, and the value is trimmed |
| EditListingForm.ParsePriceRange | src/components/edit-listing-form.tsx:72-74 | the currency read from a price is always `USD` or `PKR`, and the bracket is trimmed; `CurrencyDetection` gives which |
| EditListingForm.ParseArea | src/components/edit-listing-form.tsx:76-78 | the unit read from an area is always `sq ft`, `marla` or `kanal`, and the value is trimmed; `AreaUnitDetection` gives which |
| EditListingForm.LoadForm | src/components/edit-listing-form.tsx:70-91 | a loaded form always holds a listed currency and unit and a non-empty type and status; `LoadFields` gives each field |
| EditListingForm.LoadFields | src/components/edit-listing-form.tsx:72-90 | name, email, phone and location are the record's field, or `''` when absent; type and status are the record's non-empty field, else `House` and `Ready to move`; price and area are the parses of `Price_Range or ''` and `Area or ''` |
| EditListingForm.ApplyEdit | src/components/edit-listing-form.tsx:133-143 | `{ ...listing, … }` with the eight edited fields; characterised by `ApplyEditFrame` and `ReloadAfterEdit` |
| EditListingForm.EditBody | src/components/edit-listing-form.tsx:118-124 | the form body with the listing's `id`; characterised by `EditBodyShape` |
| EditListingForm.DetectedUnitListed | src/components/edit-listing-form.tsx:73-77 | the detected suffix is one of the options or the fallback |
| EditListingForm.DetectSuffixStep | src/components/edit-listing-form.tsx:73 | detection tries the options in list order |
| EditListingForm.CurrencyDetection | src/components/edit-listing-form.tsx:72-73 | the currency is `USD` if the price ends with it, else `PKR` if it ends with that, else `USD`. A missing field is read as `''` |
| EditListingForm.AreaUnitDetection | src/components/edit-listing-form.tsx:76-77 | the unit is the first of `sq ft`, `marla`, `kanal` that the area ends with, else `sq ft` |
| EditListingForm.UnitWithoutSpaceKept | src/components/edit-listing-form.tsx:74-78 | when the detected unit is not preceded by a space, the value is the whole text, trimmed |
| EditListingForm.GluedCurrencyExample | src/components/edit-listing-form.tsx:72-74 | `"100USD"` reads as bracket `"100USD"` in `USD` |
| EditListingForm.SameLengthSuffixes | src/components/edit-listing-form.tsx:73 | two equally long suffixes of one text are equal, so options of one length never shadow each other |
| EditListingForm.ParseCompose | src/components/edit-listing-form.tsx:72-78 | parsing a composed `value unit` gives back the value and unit, when the value is trimmed and all options have the unit's length |
| EditListingForm.PriceRangeRoundTrip | src/components/edit-listing-form.tsx:72-74 | for a listed currency `c` and a trimmed `p`, `p + " " + c` reads back as `(p, c)` |
| EditListingForm.AreaRoundTrip | src/components/edit-listing-form.tsx:76-78 | for a listed unit `u` and a trimmed `a`, `a + " " + u` reads back as `(a, u)` |
| EditListingForm.PriceRangeParseStable | src/components/edit-listing-form.tsx:72-74 | saving what was read and reading it again gives the same bracket and currency |
| EditListingForm.AreaParseStable | src/components/edit-listing-form.tsx:76-78 | saving what was read and reading it again gives the same area and unit |
| EditListingForm.LoadDefaults | src/components/edit-listing-form.tsx:80-91 | a record without the eight fields loads as empty text, `USD`, `House`, `sq ft` and `Ready to move` |
| EditListingForm.ApplyEditFrame | src/components/edit-listing-form.tsx:133-143 | the updated record has the listing's keys plus the eight edited ones. Every other field keeps its value. Name, email, phone, location, type and status hold the form's values, and price and area are composed |
| EditListingForm.EditBodyShape | src/components/edit-listing-form.tsx:118-124 | the body has no currency or unit, has the composed price and area, and carries `id` exactly when the listing has one |
| EditListingForm.ReloadAfterEdit | src/components/edit-listing-form.tsx:72-91 | loading the updated record gives back exactly the submitted values, when they are schema-valid and the bracket and area are trimmed |
| EditListingForm.EditForm.constructor | src/components/edit-listing-form.tsx:61-63 | the form opens with the loaded values, not loading, no preview, no stored data |
| EditListingForm.EditForm.ChangeCurrency | src/components/edit-listing-form.tsx:100-103 | choosing a currency sets it and empties the bracket; nothing else changes |
| EditListingForm.EditForm.Input | src/components/edit-listing-form.tsx:174 | editing the other fields leaves the currency and the flags alone |
| EditListingForm.EditForm.Submit | src/components/edit-listing-form.tsx:108-111 | valid values are stored and the preview opens; invalid ones change nothing |
| EditListingForm.EditForm.Cancel | src/components/edit-listing-form.tsx:399 | cancel drops the stored values and closes the preview |
| EditListingForm.EditForm.StartFinalSubmit | src/components/edit-listing-form.tsx:113-126 | with no stored values, nothing happens. Otherwise loading starts, the preview closes and the body with `id` is sent |
| EditListingForm.EditForm.CompleteFinalSubmit | src/components/edit-listing-form.tsx:126-155 | on success the updated record is handed back. Either way loading stops and the stored values are dropped |
| AddSellerForm.CheckImage | src/components/add-seller-form.tsx:93-105 | a first file over 5·1024·1024 bytes is rejected, and only such a file; a file within the limit yields its data URL when readable and stops the handler when not; no file yields no image |
| AddSellerForm.SellerBody | src/components/add-seller-form.tsx:114-122 | the listing form body plus the image data URL when there is one; characterised by `SellerBodyShape` |
| AddSellerForm.ImageLimitBoundary | src/components/add-seller-form.tsx:95 | exactly 5 MiB is accepted; one byte more is rejected |
| AddSellerForm.SellerBodyShape | src/components/add-seller-form.tsx:116-121 | the body drops currency and unit and composes price and area. Every key of the listing form body keeps its value there (name, email, phone, location, type and status pass through unchanged), and the image is added when present |
| AddSellerForm.SellerForm.constructor | src/components/add-seller-form.tsx:60-78 | the defaults: empty text, `USD`, `House`, `sq ft`, `Ready to move`; all flags off |
| AddSellerForm.SellerForm.ChangeCurrency | src/components/add-seller-form.tsx:84-88 | a change of currency empties a non-empty bracket; an empty one, or an unchanged currency, leaves it as it was |
| AddSellerForm.SellerForm.Input | src/components/add-seller-form.tsx:158 | editing the other fields leaves the currency and the flags alone |
| AddSellerForm.SellerForm.Submit | src/components/add-seller-form.tsx:91-109 | an oversized image sets the image error and opens no preview. Otherwise the values and the data URL (or none) are stored and the preview opens |
| AddSellerForm.SellerForm.Cancel | src/components/add-seller-form.tsx:408 | cancel drops the stored values and closes the preview |
| AddSellerForm.SellerForm.StartFinalSubmit | src/components/add-seller-form.tsx:111-123 | with no stored values, nothing happens. Otherwise loading starts and the preview closes before the body is sent |
| AddSellerForm.SellerForm.CompleteFinalSubmit | src/components/add-seller-form.tsx:123-139 | success resets the form and goes back. Either way loading stops and the stored values are dropped |
| AddBuyerForm.BuyerSchemaValid | src/components/add-buyer-form.tsx:20-29 | the buyer schema: the five text fields non-empty, a valid email, type and status from their lists; it guards `Submit` |
| AddBuyerForm.BuyerBody | src/components/add-buyer-form.tsx:67 | the body has exactly the eight form keys, and each key holds the form field of that name, unchanged |
| AddBuyerForm.BuyerBodyFaithful | src/components/add-buyer-form.tsx:67 | the body determines the form: equal bodies come from equal forms |
| AddBuyerForm.BuyerFormView.constructor | src/components/add-buyer-form.tsx:38-54 | the defaults, with all flags off |
| AddBuyerForm.BuyerFormView.Input | src/components/add-buyer-form.tsx:102-240 | editing sets the values and leaves the flags alone |
| AddBuyerForm.BuyerFormView.Submit | src/components/add-buyer-form.tsx:57-60 | valid values are stored and the preview opens; invalid ones change nothing |
| AddBuyerForm.BuyerFormView.Cancel | src/components/add-buyer-form.tsx:269 | cancel drops the stored values and closes the preview |
| AddBuyerForm.BuyerFormView.StartFinalSubmit | src/components/add-buyer-form.tsx:62-67 | with no stored values, nothing happens. Otherwise loading starts and the preview closes before the stored values are sent |
| AddBuyerForm.BuyerFormView.CompleteFinalSubmit | src/components/add-buyer-form.tsx:67-83 | only success resets the form and goes back. Either way loading stops and the stored values are dropped |
| ForgotPassword.PasswordErrors | src/app/forgot-password/page.tsx:30-37 | the password form is valid iff the password has at least 8 characters and equals the confirmation; a mismatch is reported on the confirmation |
| ForgotPassword.FourCharacterCode | src/app/forgot-password/page.tsx:25-27 | a four-character code is accepted and a three-character one is not |
| ForgotPassword.Request | src/app/forgot-password/page.tsx:69-114 | a request is sent iff the submit is handled; it is exactly `{email}` with the submitted email, `{email, code}` or `{email, password}` with the stored email |
| ForgotPassword.Handle | src/app/forgot-password/page.tsx:66-127 | the step never goes back, and it moves one step exactly on a handled, successful submit: email success goes to the code step storing the email, code success to the reset step, password success pushes `/login`. A failure keeps step, email and route. The email is fixed past the first step. Loading ends off |
| ForgotPassword.HappyPath | src/app/forgot-password/page.tsx:66-127 | an accepted email, an accepted code and a valid new password end on `/login` with the submitted email stored |
| ForgotPassword.RunMonotone | src/app/forgot-password/page.tsx:74-96 | over any sequence of submits the step never goes back |
| ForgotPassword.RunKeepsEmail | src/app/forgot-password/page.tsx:73 | once past the email step, the stored email never changes |
| ForgotPassword.RunNeverLoading | src/app/forgot-password/page.tsx:81-126 | loading is off after every handler |
| ForgotPassword.EmailOrigin | src/app/forgot-password/page.tsx:73-74 | past the email step, the stored email is one that was submitted valid and accepted |
| ForgotPassword.ResetNeedsCode | src/app/forgot-password/page.tsx:96 | the password step is reached only after a valid code whose request succeeded |
| ForgotPassword.CodeValid | src/app/forgot-password/page.tsx:25-27 | the code schema: at least four characters; characterised by `FourCharacterCode` |
| ForgotPassword.Title | src/app/forgot-password/page.tsx:129-139 | one title per step; characterised by `TitleDeterminesStep` |
| ForgotPassword.Description | src/app/forgot-password/page.tsx:141-151 | one description per step, the code step's naming the email; characterised by `DescriptionNamesEmail` |
| ForgotPassword.TitleDeterminesStep | src/app/forgot-password/page.tsx:129-139 | each step has its own title |
| ForgotPassword.DescriptionNamesEmail | src/app/forgot-password/page.tsx:143-144 | the code step's description contains the stored email |
| ForgotPassword.ForgotPasswordPage.constructor | src/app/forgot-password/page.tsx:41-43 | the page starts at the email step with an empty email, not loading |
| ForgotPassword.ForgotPasswordPage.SubmitEmail | src/app/forgot-password/page.tsx:66-84 | the email handler moves the page as `Handle` says and sends the submitted email |
| ForgotPassword.ForgotPasswordPage.SubmitCode | src/app/forgot-password/page.tsx:86-106 | the code handler moves the page as `Handle` says and sends the stored email with the code |
| ForgotPassword.ForgotPasswordPage.SubmitPassword | src/app/forgot-password/page.tsx:108-127 | the password handler navigates on success and sends the stored email with the password |
| Signup.SignupErrors | src/app/signup/page.tsx:20-29 | the form is valid iff the name is non-empty, the email is valid, the password has at least 8 characters and equals the confirmation; a mismatch is reported on the confirmation |
| Signup.ShortestCode | src/app/signup/page.tsx:33-35 | a one-character code is accepted and an empty one is not |
| Signup.SignupBody | src/app/signup/page.tsx:66-67 | the body is name, email and password, without `confirmPassword` |
| Signup.Request | src/app/signup/page.tsx:66-90 | a request is sent iff the submit is handled; registration sends `SignupBody` of the form, verification exactly the stored email with the code |
| Signup.Handle | src/app/signup/page.tsx:63-103 | the step moves exactly on a handled, successful registration, to verify, storing its email; verify success, and only that, pushes `/login`. A failure keeps step, email and route. Verify is final and keeps the email. Loading ends off |
| Signup.HappyPath | src/app/signup/page.tsx:63-103 | a valid registration and a code, both accepted, end on `/login` at verify with the registered email |
| Signup.VerifyIsFinal | src/app/signup/page.tsx:71-72 | once at verify, the page stays there with the same email |
| Signup.VerifiedEmailOrigin | src/app/signup/page.tsx:71-90 | at verify, the stored email is that of a valid registration whose request succeeded |
| Signup.RunNeverLoading | src/app/signup/page.tsx:79-102 | loading is off after every handler |
| Signup.CodeValid | src/app/signup/page.tsx:33-35 | the verification schema: a non-empty code; characterised by `ShortestCode` |
| Signup.Title | src/app/signup/page.tsx:105-107 | one title per step; characterised by `TitleDeterminesStep` |
| Signup.Description | src/app/signup/page.tsx:109-113 | the verify description names the email; characterised by `TitleDeterminesStep` and `DescriptionNamesEmail` |
| Signup.TitleDeterminesStep | src/app/signup/page.tsx:105-113 | the title tells the steps apart; the registration description is independent of the email |
| Signup.DescriptionNamesEmail | src/app/signup/page.tsx:109-113 | the verify description contains the stored email |
| Signup.SignupPage.constructor | src/app/signup/page.tsx:40-44 | the page starts at registration with an empty email, not loading |
| Signup.SignupPage.SubmitSignup | src/app/signup/page.tsx:63-82 | the registration handler moves the page as `Handle` says and sends the body without the confirmation |
| Signup.SignupPage.SubmitCode | src/app/signup/page.tsx:84-103 | the verify handler navigates on success and sends the stored email with the code |
| AddBuyerPage.Unexpired | src/app/add-buyer/page.tsx:26 | `authData.expiry && authData.expiry > Date.now()`: a present, non-zero expiry strictly after now; characterised by `ExpiryIsStrict` |
| AddBuyerPage.SessionLive | src/app/add-buyer/page.tsx:22-26 | a stored, parsed, unexpired session; characterised by `AdmittedUser` and `LiveSessionWithoutUser` |
| AddBuyerPage.Render | src/app/add-buyer/page.tsx:42-83 | skeleton iff loading; the buyer form iff not loading and there is a user; otherwise the login prompt |
| AddBuyerPage.AdmittedUser | src/app/add-buyer/page.tsx:22-27 | a user is admitted only for a present, parsed, non-null session with a truthy expiry strictly after now, and then it is that session's user |
| AddBuyerPage.LiveSessionWithoutUser | src/app/add-buyer/page.tsx:27-78 | a live session without a `user` field still shows the login prompt |
| AddBuyerPage.ExpiryIsStrict | src/app/add-buyer/page.tsx:26 | an expiry equal to now is expired |
| AddBuyerPage.Page.constructor | src/app/add-buyer/page.tsx:17-18 | the page starts loading with no user |
| AddBuyerPage.Page.Mount | src/app/add-buyer/page.tsx:21-40 | a live session sets the user. An expired or expiry-less one is removed and redirects. A parse failure or missing item redirects and keeps storage. Loading ends off |
| AddBuyerPage.MountFresh | src/app/add-buyer/page.tsx:21-83 | after mounting, the page never shows the skeleton, and shows the form iff a user was admitted |

## Left out

- Network: every webhook call is a parameter `ok` (success or failure). This covers the listings fetch and the normalisation of its items, the toasts and the error messages. The listings view's `loading` flag is not part of this model.
- The race between overlapping listing fetches is left out. It is a concurrency issue, and the model has one event at a time.
- Also left out: the AI agent-matching flow and its UI, the mock dashboard add-buyer page, the details dialog, header and marketing pages, animations, theming and routing beyond the pushed route. They hold no local logic.
- Strings.Lower: folds ASCII letters only. JavaScript's `toLowerCase` also folds other scripts.
- ListingData.ListingSchemaValid, Signup.SignupErrors: the email validator is an input (`emailOk`), not a definition of valid email addresses.
- ForgotPassword.PasswordErrors: lengths count Unicode code points. The schema library counts UTF-16 code units, so the two differ outside the Basic Multilingual Plane. The same holds for ForgotPassword.CodeValid, Signup.SignupErrors and Signup.CodeValid.
- Listing records hold strings only. A `null` field behaves in the source exactly like a missing one (optional chaining, `|| ''` and strict equality), so a missing key stands for both. A number in `Location_`, or in `Price_Range` or `Area` under a non-empty criterion, makes `.toLowerCase` or `.includes` throw; that case is not modelled, and neither is a numeric `id`.
- AddBuyerPage.Page.Mount: `expiry` is an integer or absent. A non-numeric expiry (a comparison with `NaN`) is not modelled.
- AddSellerForm.SellerForm.Submit, AddSellerForm.SellerForm.CompleteFinalSubmit: the form library can clear the manual image error on a later validation, and `form.reset()` after a successful confirmation clears it too. The model never clears it.
- Image encoding: reading a file as a data URL is an input (`ImageFile.dataUrl`).
- ListingsPage.ListingFilters.HandleFilterChange: the currency effect runs in the same step as the change. The single render in which a stale bracket is still applied is not modelled.
- Dialogs: closing a preview with Escape or a click outside is not modelled. Such a close hides the preview but keeps the stored values.
- EditListingForm.EditForm: the listing is fixed when the form opens. The load effect does not re-run when the parent passes a different listing.
- Suffix detection assumes the units hold no regular-expression metacharacters, which is true of `USD`, `PKR`, `sq ft`, `marla` and `kanal`.
- Button disabling: in the three forms, Submit, Cancel and Confirm are disabled while `isLoading` holds, so their methods require it off. Loading is on from `StartFinalSubmit` until `CompleteFinalSubmit`. The field inputs are not disabled. In the auth pages a request's whole interval lies inside one handler step, so loading is off between submits.
