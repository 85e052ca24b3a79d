# Random media picker: a Dafny model

The Home page of the random-media web app lets the user tick one or more of five media types.
A button then asks the Internet Archive's advanced search for a random page of items of one
ticked type and embeds one random item of that page. This project models the page's logic in Dafny
and proves properties of it:

- the option table (`MediaTypes`);
- the checkbox toggle on the ordered list of selected ids (`Selection`);
- the random index draws, `Math.floor(Math.random() * n)` (`RandomChoice`);
- the search request and its query parameters (`ArchiveApi`);
- the fetch lifecycle on the three state fields, the choice of what the media area shows, and the
  `Home` component as a class whose methods update those fields (`MediaPicker`).

Each `Math.random()` result is an input draw `u` with `0 <= u < 1`, which is the range Math.random
promises. The index is `(u * n).Floor` on exact reals, and being in bounds is proved, not assumed.
The request's outcome is also an input: `Ok(docs)` for a parsed response, `Failure` for any exception
the handler catches. `fetchAndDisplayMedia` is modelled as two methods that meet at the awaited
request, lines 44-45: `BeginFetch` (the alert check, the three setters, the parameters) and
`CompleteFetch` (the branches and `finally`). Nothing changes state between `await fetch(url)` and
`await response.json()`, and a rejection at either one is `Failure`. `FetchAndDisplayMedia` runs both as one atomic step. The pure functions `Finish` and
`BuildRequest` specify them.

Three consequences of pages/index.tsx that the model makes explicit:
- The selection is an ordered list: a newly toggled id is appended at the end, and the random draw
  indexes into that order. Toggling a present id twice keeps the same members but moves that id to
  the end (`ToggleTwiceMovesToEnd`).
- Lines 25-27 clear the content before the request, so the placeholder shows while loading
  (`RenderByStatus`).
- After one fetch, content and error are never both set (`Finish`, `Home.FetchAndDisplayMedia`).
  With two overlapping requests, a late failure leaves an earlier result and the error both set
  (`OverlappingFetchesBreakConsistency`); the page then shows the error message, because the error
  wins in `RenderMediaContent`.

## Model

| member | source | states |
|---|---|---|
| MediaTypes.OptionIds | pages/index.tsx:5-11 | the five ids of the option table, in table order and pairwise distinct |
| Selection.Without | pages/index.tsx:64 | the `filter`: an id is in the result iff it is in the list and is not the removed id; the list is unchanged when the id is absent |
| Selection.WithoutAt | pages/index.tsx:64 | on a duplicate-free list, removing the id at index k gives the list with exactly that entry cut out, order kept |
| Selection.WithoutKeepsNoDuplicates | pages/index.tsx:64 | filtering a duplicate-free list gives a duplicate-free list |
| Selection.Toggle | pages/index.tsx:62-66 | the toggled id's membership flips, every other id's membership is unchanged, and an absent id is appended at the end |
| Selection.ToggleRemovesEntry | pages/index.tsx:64 | on a duplicate-free list, toggling a present id removes exactly its one entry, so the length drops by one |
| Selection.ToggleKeepsSelectionValid | pages/index.tsx:62-66 | toggling an option id keeps the list duplicate-free and within the five option ids |
| Selection.ToggleTwice | pages/index.tsx:64 | toggling the same id twice restores membership, and restores the exact list when the id was absent |
| Selection.ToggleTwiceMovesToEnd | pages/index.tsx:64 | toggling a present id twice moves it to the end of the list |
| Selection.ToggleAllParity | pages/index.tsx:62-66 | after any sequence of clicks, an id is selected iff (it was selected at the start) XOR (it was clicked an odd number of times) |
| Selection.ToggleAllOrderIndependent | pages/index.tsx:62-66 | two click sequences with the same clicks in any order leave the same ids selected |
| Selection.ToggleAllKeepsSelectionValid | pages/index.tsx:99-105 | clicks on the table's checkboxes keep the selection duplicate-free and within the option ids |
| RandomChoice.RandomIndex | pages/index.tsx:29-30 | `Math.floor(Math.random() * n)` for a draw in [0, 1) and n > 0 is an index below n |
| RandomChoice.RandomIndexSlice | pages/index.tsx:29 | index i is chosen exactly for the draws in [i/n, (i+1)/n), a slice of equal width for every index |
| RandomChoice.RandomIndexReaches | pages/index.tsx:48 | every index below n is chosen by the draw i/n |
| ArchiveApi.MediaTypeQuery | pages/index.tsx:31 | the query is the `mediatype:` prefix followed by the type id |
| ArchiveApi.QueriedMediaType | pages/index.tsx:31 | reading a type back from a query gives a type whose query is that string |
| ArchiveApi.QueriedMediaTypeInverts | pages/index.tsx:31 | reading the type back from a built query gives the original type |
| ArchiveApi.BuildRequest | pages/index.tsx:29-39 | for a non-empty selection, the query is `mediatype:` plus one of the selected ids; the fields list, `rows` = 50, `output` = json are fixed; the page is in [1, 100] |
| ArchiveApi.EveryTypeCanBeQueried | pages/index.tsx:29-31 | every selected type is the queried one for some draw |
| ArchiveApi.EveryPageCanBeRequested | pages/index.tsx:37 | every page in [1, 100] is requested for some draw |
| ArchiveApi.NatToDecimal | pages/index.tsx:36-37 | a number parameter is rendered as a non-empty string of decimal digits without a leading zero |
| ArchiveApi.DecimalRoundTrip | pages/index.tsx:36-37 | reading the rendered digits back gives the number |
| ArchiveApi.QueryParams | pages/index.tsx:33-39 | five parameters in the order q, fl[], rows, page, output; rows is the string "50" |
| ArchiveApi.ParamsRoundTrip | pages/index.tsx:33-39 | the request is recovered exactly from its parameter list |
| MediaPicker.Finish | pages/index.tsx:43-59 | loading is cleared on every outcome; non-empty docs store one of the returned docs and leave the error flag alone; empty docs or a failure set the error flag and leave the content alone; from the pending state, content is set iff docs were returned, error iff not, never both |
| MediaPicker.OverlappingFetchesBreakConsistency | pages/index.tsx:47-58 | with two requests in flight, a result followed by a late failure leaves content and error both set |
| MediaPicker.FlagsOf | pages/index.tsx:15-17 | each of the four statuses is a consistent combination of the three flags |
| MediaPicker.StatusOf | pages/index.tsx:15-17 | every consistent flag combination is exactly one status, and mapping that status back gives the same flags |
| MediaPicker.StatusRoundTrip | pages/index.tsx:15-17 | mapping a status to flags and back gives the status |
| MediaPicker.DetailsUrl | pages/index.tsx:83 | the frame address starts with the archive's details prefix, followed by the identifier |
| MediaPicker.DetailsIdentifier | pages/index.tsx:83 | an identifier read back from an address gives that address again |
| MediaPicker.DetailsUrlRoundTrip | pages/index.tsx:83 | reading the identifier back from a detail-page address gives the identifier |
| MediaPicker.View.Text | pages/index.tsx:72-78 | the placeholder shows the tool's explanatory text and the error view shows the fixed "No media found for the selected type. Please try again." message |
| MediaPicker.RenderMediaContent | pages/index.tsx:68-89 | the placeholder iff neither content nor error is set; the error message iff the error is set (it wins over content); otherwise a frame whose address names the content's identifier |
| MediaPicker.RenderByStatus | pages/index.tsx:68-89 | idle and loading show the placeholder with its explanatory text, the error status shows the no-media message, and a result shows the frame on its detail page |
| MediaPicker.Home.constructor | pages/index.tsx:14-17 | the page starts with nothing selected, no content, not loading, no error |
| MediaPicker.Home.ToggleMediaType | pages/index.tsx:62-66 | the selection becomes its toggle and nothing else changes; the page invariant is kept for an option id |
| MediaPicker.Home.BeginFetch | pages/index.tsx:19-41 | an empty selection alerts and changes no state and sends no request; otherwise the request is the one built from the selection, and the state is loading with content cleared and no error |
| MediaPicker.Home.CompleteFetch | pages/index.tsx:43-59 | the new state is `Finish` of the old state with the outcome |
| MediaPicker.Home.FetchAndDisplayMedia | pages/index.tsx:19-60 | an empty selection changes nothing and sends nothing; otherwise one request built from the selection is sent, and the state is `Finish` from the pending state; the page invariant is kept |
| MediaPicker.ImagesScenario | pages/index.tsx:13-89 | with images selected and a response holding only `cat123`, the page shows the frame on `https://archive.org/details/cat123` |

## Left out

- The JSX markup, `Head`, CSS modules, the checkbox and button elements, the button's two labels and its `disabled={loading}` attribute: these are presentation only. The placeholder and error texts are kept as constants.
- `fetch`, `response.json()` and the advanced-search endpoint URL: the network and JSON decoding become the `Outcome` input. A response without `response.docs` throws inside the `try`, so it is one of the `Failure` cases. Document entries are modelled with string fields, so an entry without an `identifier` is not modelled.
- `Math.random()` and its floating-point multiply and floor: these are modelled on exact reals, so binary rounding is not modelled.
- The percent-encoding of keys and values done by `URLSearchParams`, and the URL string built from it (line 41): this is foreign library code. The parameters are an ordered list of key/value string pairs.
- `alert` and `console.error`: these are I/O. The alert is the `NoSelectionAlert` result; the logged error is dropped.
- Asynchrony: `FetchAndDisplayMedia` is one atomic step. Only `OverlappingFetchesBreakConsistency` looks at two overlapping requests; the general race in which a late response overwrites newer state is not modelled.
