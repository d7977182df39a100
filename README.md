# Real-estate client: search filter codec, pagination and listing draft

A Dafny model of the two pieces of state logic in the real-estate web client's React pages.

- **Search page** (`client/src/pages/Search.jsx`):
  - the sidebar filter, with seven fields (`searchTerm`, `type`, `parking`, `furnished`, `offer`, `sort`, `order`);
  - decoding that filter from the URL: only the recognised keys are read, then defaults are filled in;
  - encoding it back when the form is submitted;
  - the field-update reducer, including the split of the `sort_order` select value on `_`;
  - the result list, where the first page replaces it and "Show more" appends the next page at an offset equal to the number of listings already loaded.
- **Listing editor** (`client/src/pages/ListingForm.jsx`):
  - the draft's ordered list of image URLs;
  - the upload guard (a non-empty batch that keeps the listing below seven images);
  - the all-or-nothing merge of a batch's upload results;
  - removing one image, and the field-update handler;
  - the two checks made, in order, before the create/update request.

Modules:

- `wrappers.dfy` (`Wrappers`): `Option`.
- `url_params.dfy` (`UrlParams`): the browser's `URLSearchParams`, and a plain object with string values, both as an ordered list of (key, value) pairs. `Lookup` is `get` (first match). `Set` is `set`: it replaces the first match, drops the rest, or appends when the key is missing.
- `search_filter.dfy` (`SearchFilter`): the filter, decoding (`SelectParams`, `GetParams`, `Normalize`), encoding (`Encode`, `EncodeFilter`), the `sort_order` split and the `handleChange` updater.
- `search_page.dfy` (`SearchPage`): the page's state as a class.
  - Each fetch is split at its `await`: one method issues the request, and another takes the fetch's outcome as a parameter.
- `listing_draft.dfy` (`ListingDraft`): the form data, the pure updaters and validation, and the editor's state as a class.

Behaviour of the code worth knowing:

- The price check rejects `regularPrice < discountPrice` whether or not `offer` is set.
- The merge of uploaded URLs does not re-check the six-image bound; only the guard at the button does. The "Upload Images" button stays enabled while uploading, so two batches admitted against the same list both merge. `OverlappingBatches` runs the editor through this and ends with twelve images. The bound holds for a batch merged onto the list it was checked against (`AdmittedMergeWithinCap`).
- The two "more results" thresholds (`> 8` after the first page, `>= 9` after "Show more") look inconsistent. On counts they are the same rule (`ThresholdsAgree`).
- The "Show more" button is not disabled while its fetch is in flight. Two clicks send the same `startIndex`, and both pages are appended.
- No epoch guard discards a stale response. A response is applied whenever it settles, and the model does the same.

## Model

| member | source | states |
|---|---|---|
| UrlParams.Lookup | client/src/pages/Search.jsx:26-30 | `get` is None exactly when no pair has the key; otherwise it gives a value stored under that key |
| UrlParams.LookupIsFirst | client/src/pages/Search.jsx:29 | the value `get` returns belongs to the first pair with that key |
| UrlParams.Set | client/src/pages/Search.jsx:115-116 | after `set`, the key reads the new value and every other key reads as before; a missing key is appended at the end |
| SearchFilter.SelectParams | client/src/pages/Search.jsx:24-35 | the decoded object holds a key iff it is in the requested list and in the URL, with the URL's value; every other key, `startIndex` included, is absent |
| SearchFilter.GetParams | client/src/pages/Search.jsx:28-31 | the `forEach` loop that builds the object computes exactly `SelectParams` |
| SearchFilter.DecodeIgnoresUnrecognised | client/src/pages/Search.jsx:38-46 | no pair of the decoded object carries a key outside the seven recognised ones |
| SearchFilter.Normalize | client/src/pages/Search.jsx:48-56 | a complete filter: text fields take the URL value when present and non-empty, else "", "all", "createdAt", "desc"; each boolean is true iff its value is exactly "true"; type, sort and order are never empty |
| SearchFilter.NormalizeWithoutParams | client/src/pages/Search.jsx:10-18 | a URL holding none of the recognised keys yields the page's initial filter |
| SearchFilter.Encode | client/src/pages/Search.jsx:103-110 | the submitted query has exactly one pair per filter field, with distinct keys; each key reads its field's value, booleans as "true"/"false" |
| SearchFilter.EncodeFilter | client/src/pages/Search.jsx:105-108 | the loop that sets each field on a fresh `URLSearchParams` produces exactly `Encode` |
| SearchFilter.SelectEncode | client/src/pages/Search.jsx:58-63 | after a submit, the first-page request built from the new URL is that URL unchanged |
| SearchFilter.DecodeEncode | client/src/pages/Search.jsx:48-56 | decoding and normalising an encoded filter gives the same filter back whenever type, sort and order are non-empty |
| SearchFilter.Split | client/src/pages/Search.jsx:92 | `split("_")` yields at least one piece and no piece contains the separator |
| SearchFilter.JoinSplit | client/src/pages/Search.jsx:92 | joining the pieces with the separator gives back the split string |
| SearchFilter.SplitSortOrder | client/src/pages/Search.jsx:91-98 | sort and order are never empty; a value without "_" gives sort = the value (or "createdAt" when empty) and order = "desc" |
| SearchFilter.SortOrderDefaults | client/src/pages/Search.jsx:92-96 | for `a_b` with separator-free parts, sort is `a` or "createdAt" when `a` is empty, and order is `b` or "desc" when `b` is empty |
| SearchFilter.SortOrderDropsExtraPieces | client/src/pages/Search.jsx:92 | pieces after the second do not affect sort and order |
| SearchFilter.SortOrderRoundTrip | client/src/pages/Search.jsx:219 | the select value `${sort}_${order}` splits back into sort and order when both are non-empty and contain no "_" |
| SearchFilter.ApplyChange | client/src/pages/Search.jsx:84-100 | a radio sets the field its name selects to its id; a checkbox sets its field to its checked state; the sort select sets sort and order from the split value; any other input sets its field to its value; every other field is unchanged |
| SearchPage.ThresholdsAgree | client/src/pages/Search.jsx:121 | the "show more" rule after a further page (count >= 9) is the same as after the first page (count > 8) |
| SearchPage.Decimal | client/src/pages/Search.jsx:114-116 | the rendered `startIndex` is a non-empty string of decimal digits |
| SearchPage.DecimalRoundTrip | client/src/pages/Search.jsx:113-116 | the rendered offset reads back as the count it was made from |
| SearchPage.SearchPage.constructor | client/src/pages/Search.jsx:10-22 | initial filter with its defaults, no listings, not loading, no "show more" |
| SearchPage.SearchPage.BeginSearch | client/src/pages/Search.jsx:37-62 | on a URL change the filter becomes the normalised decoded URL, `loading` is set, `showMore` is cleared before the fetch, the list is kept, and the request holds only the decoded recognised keys |
| SearchPage.SearchPage.FinishSearch | client/src/pages/Search.jsx:63-75 | a page replaces the list wholesale and sets `showMore` to count > 8; an empty page gives an info notice, not an error; a failure keeps list and flag and gives an error notice; `loading` ends false on every path |
| SearchPage.SearchPage.ShowMoreRequest | client/src/pages/Search.jsx:112-119 | the request is the current URL with `startIndex` equal to the number of loaded listings; every other key is as the URL has it; no state changes |
| SearchPage.SearchPage.FinishShowMore | client/src/pages/Search.jsx:120-126 | a page is appended after the old list in order and `showMore` becomes count >= 9; a failure changes neither; `loading` is untouched |
| SearchPage.SearchPage.HandleChange | client/src/pages/Search.jsx:81-101 | the draft filter takes one edit as `ApplyChange` says; listings and flags are unchanged |
| SearchPage.SearchPage.Submit | client/src/pages/Search.jsx:103-110 | the navigation target is `Encode` of the current filter |
| ListingDraft.CollectUrls | client/src/pages/ListingForm.jsx:63-70 | the batch yields URLs iff every upload succeeded, one per file in file order; otherwise nothing |
| ListingDraft.AdmittedMergeWithinCap | client/src/pages/ListingForm.jsx:60-69 | a batch the guard admits, merged onto the list it was checked against, grows the list and leaves at most six images |
| ListingDraft.OverlappingBatches | client/src/pages/ListingForm.jsx:59-70 | a new editor given six files, with upload pressed twice before either batch settles, passes the guard both times and ends with twelve images |
| ListingDraft.RemoveAt | client/src/pages/ListingForm.jsx:109-114 | an index in bounds removes exactly that position: the length drops by one and the others keep their relative order; any other index leaves the list unchanged |
| ListingDraft.RemoveAtTakesOne | client/src/pages/ListingForm.jsx:112 | the removed list plus the removed URL is, as a multiset, the original list |
| ListingDraft.ApplyFormChange | client/src/pages/ListingForm.jsx:116-129 | a checked radio sets only `type`; a checkbox sets only its field to its checked state; any other input sets only the key its id names, an unchecked radio included; all other fields are preserved |
| ListingDraft.ValidateForSubmit | client/src/pages/ListingForm.jsx:131-140 | no images is refused first; otherwise regularPrice < discountPrice is refused; otherwise the draft passes |
| ListingDraft.DiscountCheckIgnoresOffer | client/src/pages/ListingForm.jsx:137 | the outcome of validation does not depend on `offer` |
| ListingDraft.ListingEditor.constructor | client/src/pages/ListingForm.jsx:19-37 | the initial draft (no images, type "rent", one bedroom and bathroom, regular price 50, discount 0, no flags) and cleared flags |
| ListingDraft.ListingEditor.SelectFiles | client/src/pages/ListingForm.jsx:357 | the file input replaces the selected batch and nothing else |
| ListingDraft.ListingEditor.BeginImageUpload | client/src/pages/ListingForm.jsx:59-84 | an admitted batch starts uploading with the upload error cleared; any other batch sets the six-image error, leaves `uploading` false and starts nothing; only an admitted batch becomes pending; the image list is untouched |
| ListingDraft.ListingEditor.FinishImageUpload | client/src/pages/ListingForm.jsx:65-78 | for a batch an earlier click admitted and has not yet settled, with one result per file of it, which then stops being pending: all uploads succeeded: the URLs are appended in file order to the current list; any failed: the draft is unchanged and the upload error is set; `uploading` ends false |
| ListingDraft.ListingEditor.RemoveImage | client/src/pages/ListingForm.jsx:109-114 | only the image list changes, as `RemoveAt` says |
| ListingDraft.ListingEditor.HandleChange | client/src/pages/ListingForm.jsx:116-129 | only the form data changes, as `ApplyFormChange` says |
| ListingDraft.ListingEditor.HandleSubmit | client/src/pages/ListingForm.jsx:131-154 | a refused draft sets the check's message and sends no request; a passing draft clears the error, sets `loading` and posts the whole draft with the user's id to the mode's endpoint |
| ListingDraft.ListingEditor.FinishSubmit | client/src/pages/ListingForm.jsx:155-168 | `loading` ends false; a saved listing leads to its page; a refusal or a thrown error sets `error` to its message |

## Left out

- Rendering, React hook scheduling and the order in which React applies queued state updates. Each handler is one atomic step in the model.
- Fetches and JSON decoding are left out: `Response`, `UploadResult` and `SubmitResponse` are parameters standing for how each one settled.
  - The editor's fetch of an existing listing in update mode (ListingForm.jsx:39-57) is not modelled.
- Firebase storage (`storeImage`): its progress percentage is floating-point logging and its file name comes from the clock. Only each file's outcome is modelled.
- Concurrency of `Promise.all`: only its all-or-nothing, order-preserving result is modelled. Interleavings of several in-flight fetches or batches are not explored.
  - `OverlappingBatches` shows the one consequence that matters for the image bound.
- Toasts and console logging are not modelled, except that the search page's settle steps return which toast they show. `navigate` is modelled only as the URL or path a step returns.
- Percent-encoding of the query string: the pairs stand for the decoded query.
- SearchFilter.ApplyChange: events are typed by field, so an input whose id or name names no filter field is not representable. Neither is a value of the wrong kind. The page renders neither, and JavaScript would add a stray key or store a string in a boolean field.
- ListingDraft.ApplyFormChange: a radio's id is a key naming no form field (the page's radios are "rent" and "sale"), and so is every key in `extras`. An unchecked radio whose id named a field would overwrite that field in JavaScript; no such radio exists.
- ListingDraft.ApplyFormChange: a number input's value is a string, which the handler stores as is (ListingForm.jsx:126); the model holds an integer instead. Fractional prices and NaN are not modelled.
- ListingDraft.ValidateForSubmit: the price check's unary `+` (ListingForm.jsx:137) becomes integer comparison, for the same reason.
