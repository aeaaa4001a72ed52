# Log console view state and chat stream, in Dafny

This project models the client-side state logic of the log-viewing console. The rendering is not modelled.

- **The search view** (`App.SearchView`) holds the filter chips, the search term, paging, the result list and the live-tail switch. Its handlers add and remove filters, change the page size and the page, and toggle live mode. It builds the query for the search endpoint and applies a search response, a suggestions response and a pushed live-tail record.
- **The chat session** (`ChatPanel.ChatSession`) holds the messages, the input, the connection and streaming flags, the socket reference, the token accumulator and the pending timers. Its handlers process an incoming token, a send, socket open/close/error, the 3-second silence timer and the 30-second fallback timer. A send produces the outbound payload, and the active filters are flattened into an object where the last value for a key wins.
- **The suggestion buttons** (`SuggestedFilters`) turn aggregation buckets into `(key, value)` filters.
- **The log card's metadata section** (`LogEntryCard`) decides which metadata fields can be promoted to a filter, and with what key and value.

Support modules:
- `JsText` models ECMAScript's `trimStart`/`trimEnd`/`trim` and its whitespace set.
- `Decimal` models `Number#toString` on whole numbers and `parseInt` on digit strings.
- `LogModel` holds the shared records and `String(value)`.
- `Wrappers` holds `Option`.

Each handler runs atomically on a single event loop. Network replies, socket messages and timer expiries are method calls made by the environment.

The code lacks some behaviour one might expect of such a console; the model follows the code:
- A search response is applied whenever it arrives. There is no check for stale responses and no check of the current mode (`App.SearchView.OnSearchResponse`).
- A token that arrives after the stream has ended still extends the accumulator and the last assistant message (`ChatPanel.ChatSession.OnToken`).
- A promoted metadata field passes its bare name, such as `user_id`, not `metadata.user_id` (`LogEntryCard.PromotedKeyIsBare`). The suggestion buttons do use `metadata.user_id`.
- The shown code has no row selection set and no context-set add or deduplication logic.
- The 30-second fallback timer is never cancelled.

## Model

| member | source | states |
|---|---|---|
| `App.SearchView.constructor` | src/App.tsx:39-48 | Initial view state: no logs, empty term, not live, no filters, empty suggestions, page 1, 1 page, page size "50". |
| `App.SearchView.SetSearchTerm` | src/App.tsx:174 | Typing sets the search term and nothing else. |
| `App.WithFilter` | src/App.tsx:100-104 | After adding `f`, the list contains `f` and keeps the old list as a prefix, with at most one new element. A duplicate leaves the list unchanged. A list without duplicates stays without duplicates. |
| `App.SearchView.AddFilter` | src/App.tsx:100-106 | The value is stringified and the pair is added as `WithFilter` says. The search term is cleared even when the filter was a duplicate. The no-duplicates invariant is kept. |
| `App.WithoutIndex` | src/App.tsx:109 | Filtering out position `i` equals `s[..i] + s[i+1..]` for an index in range and `s` otherwise. |
| `App.WithoutIndexAt` | src/App.tsx:109 | After removing position `i`, the elements before `i` keep their positions and the later ones move up by one. |
| `App.WithoutIndexKeepsNoDuplicates` | src/App.tsx:108-110 | Removing a chip never creates a duplicate. |
| `App.RemoveUndoesAdd` | src/App.tsx:100-110 | Removing the chip just appended restores the list it was appended to. |
| `App.SearchView.RemoveFilter` | src/App.tsx:108-110 | Removes exactly the element at the index and keeps the rest in order. An out-of-range index changes nothing. |
| `App.SearchView.ChangePageSize` | src/App.tsx:112-117 | A cleared selection is ignored. A choice sets the page size and resets the page to 1. No other field changes. |
| `App.SearchView.SetPage` | src/App.tsx:229 | The pager sets the active page and nothing else. |
| `App.SearchView.SetLive` | src/App.tsx:155 | Toggling live mode changes only `isLive`. Page, page size, filters and logs are untouched. |
| `App.PageSizeOptionsArePositiveNumerals` | src/App.tsx:216 | Every page size the selector offers parses to a positive number, so the page count is always defined. |
| `App.CeilDiv` | src/App.tsx:70 | The page count is the least number of pages of the page size that hold `total` records. |
| `App.IsSearchQuery` | src/App.tsx:57-66 | The query shape: `q` first exactly when the term is non-empty, then one parameter per filter in order, then `page`, `page_size` and `sort`. `App.SearchQueryIsUnique` shows that it fixes the list. |
| `App.SearchQueryIsUnique` | src/App.tsx:57-66 | The query shape determines the parameter list completely. |
| `App.BuildQueryParams` | src/App.tsx:57-66 | `q` comes first exactly when the term is non-empty. Then comes one parameter per filter in list order, then `page` (decimal), `page_size` and `sort=timestamp:desc`. |
| `App.SearchView.PerformSearch` | src/App.tsx:52-66 | No request is issued while live. Otherwise the request carries the query for the debounced term and the current state, and captures the filters and page size. |
| `App.SearchView.OnSearchResponse` | src/App.tsx:68-85 | A failure changes nothing. A success replaces the logs and sets `totalPages = ceil(total / parseInt(pageSize))` from the request's page size. It asks for suggestions when the request had no filters and clears them otherwise. |
| `App.SearchView.OnSuggestionsResponse` | src/App.tsx:74-79 | A successful suggestions fetch replaces the suggestions. A failure keeps the old ones. |
| `App.PushTail` | src/App.tsx:95 | The new buffer has length `min(old + 1, 500)` and the pushed record at its head. Its tail is a prefix of the old buffer. There is no deduplication. |
| `App.PushAllIsNewestFirst` | src/App.tsx:93-96 | After any non-empty run of pushes, the buffer is the pushes newest first followed by the old buffer, cut to 500. |
| `App.SearchView.OnTailMessage` | src/App.tsx:93-96 | A pushed record is prepended and the buffer is truncated to 500 entries. |
| `LogModel.JsString` | src/App.tsx:101 | `String(value)` returns a string as itself and a whole number as its exact decimal numeral (magnitudes of 10^21 and above are under "Left out"). |
| `Decimal.NatToDecimal` | src/App.tsx:64 | `toString` of a whole number is a digit string without a leading zero. It has one digit exactly below 10. |
| `Decimal.ParseNatToDecimal` | src/App.tsx:70 | `parseInt` reads back the number `toString` wrote. |
| `Decimal.NatToDecimalInjective` | src/components/ChatPanel.tsx:116-127 | Distinct clock readings give distinct message ids, so the user and assistant ids of one send differ. |
| `Decimal.IntToString` | src/App.tsx:101 | `String` of an integer has a minus sign exactly when the integer is negative. The rest is the numeral of its magnitude: the numeral itself for a non-negative integer, and the numeral of `-i` after the sign for a negative one. |
| `Decimal.IntToStringInjective` | src/App.tsx:100-102 | Distinct integers print differently, so comparing stringified filter values compares the values. |
| `Decimal.ParseDecimal` | src/App.tsx:70 | `parseInt(pageSize, 10)` on a non-empty digit string: a numeral of `k` digits denotes less than `10^k`, and at least `10^(k-1)` when it has no leading zero. |
| `JsText.LeadingWhitespace` | src/components/ChatPanel.tsx:81 | `trimStart` cuts exactly the longest all-whitespace prefix. |
| `JsText.TrailingWhitespace` | src/components/ChatPanel.tsx:113 | `trim` cuts exactly the longest all-whitespace suffix after the prefix. |
| `JsText.IsWhitespace` | src/components/ChatPanel.tsx:68 | The characters `trim` and `trimStart` remove: TAB, LF, VT, FF, CR, space, NBSP, U+1680, U+2000 to U+200A, LS, PS, U+202F, U+205F, U+3000 and the byte-order mark. |
| `JsText.TrimStart` | src/components/ChatPanel.tsx:81 | `s.trimStart()` drops the longest all-whitespace prefix; its properties are stated by `JsText.TrimStartIsSuffix`. |
| `JsText.TrimEnd` | src/components/ChatPanel.tsx:113 | `s.trimEnd()` drops the longest all-whitespace suffix; its properties are stated by `JsText.TrimEndIsPrefix`. |
| `JsText.Trim` | src/components/ChatPanel.tsx:68 | `s.trim()` is `trimEnd` after `trimStart`; its properties are stated by `JsText.TrimHasNoOuterWhitespace` and `JsText.TrimEmptyIffAllWhitespace`. |
| `JsText.TrimStartIsSuffix` | src/components/ChatPanel.tsx:81 | `s` is all-whitespace text followed by `s.trimStart()`, and the result does not start with whitespace. |
| `JsText.TrimEndIsPrefix` | src/components/ChatPanel.tsx:113 | `s` is `s.trimEnd()` followed by all-whitespace text, and the result does not end with whitespace. |
| `JsText.TrimHasNoOuterWhitespace` | src/components/ChatPanel.tsx:113 | A non-empty `s.trim()` neither starts nor ends with whitespace. |
| `JsText.TrimEmptyIffAllWhitespace` | src/components/ChatPanel.tsx:68 | `s.trim() === ''` holds exactly when every character of `s` is whitespace. |
| `JsText.LeadingWhitespaceAppend` | src/components/ChatPanel.tsx:73-81 | The leading whitespace of `a + b` extends into `b` only when `a` is all whitespace. |
| `JsText.TrimStartAppend` | src/components/ChatPanel.tsx:73-81 | Once the accumulator has a non-blank character, each token shows up verbatim at the end of the displayed content, trailing whitespace included. |
| `ChatPanel.IsEndOfStream` | src/components/ChatPanel.tsx:68 | The end-of-stream test: the token is `''`, or `'\n\n'`, or trims to `''`. `ChatPanel.EndOfStreamIffBlank` states what it amounts to. |
| `ChatPanel.EndOfStreamIffBlank` | src/components/ChatPanel.tsx:68-71 | The three-way end-of-stream test holds exactly for whitespace-only tokens. This includes `''` and `'\n\n'`. |
| `ChatPanel.WithLastAssistantContent` | src/components/ChatPanel.tsx:76-85 | Only the last message changes, and only when it is the assistant's. Senders are kept. Otherwise the list is unchanged. |
| `ChatPanel.FiltersObject` | src/components/ChatPanel.tsx:141-144 | The object the `reduce` builds: each filter in list order sets its key to its value. `ChatPanel.FiltersObjectKeys` and `ChatPanel.FiltersObjectLastWins` state its keys and values. |
| `ChatPanel.FiltersObjectKeys` | src/components/ChatPanel.tsx:141-144 | The flattened object has exactly the keys of the filters. |
| `ChatPanel.FiltersObjectLastWins` | src/components/ChatPanel.tsx:141-144 | A key maps to the value of the last filter in the list that has that key. |
| `ChatPanel.FlattenFilters` | src/components/ChatPanel.tsx:141-144 | The `reduce` over the filter list builds exactly the last-value-wins object. |
| `ChatPanel.AppendPairAlternates` | src/components/ChatPanel.tsx:122-133 | Appending a user message and then an assistant message keeps the user/assistant pairing of the list. |
| `ChatPanel.SameSendersAlternate` | src/components/ChatPanel.tsx:76-85 | Changing message contents without changing senders keeps the pairing. |
| `ChatPanel.ChatSession.constructor` | src/components/ChatPanel.tsx:24-31 | Initial session: no messages, empty input and accumulator, not connected, not streaming, no socket, no timers. |
| `ChatPanel.ChatSession.Connect` | src/components/ChatPanel.tsx:33-36 | Opening the panel creates a socket only when none is held. A new socket is still connecting; a held socket keeps its state. |
| `ChatPanel.ChatSession.OnOpen` | src/components/ChatPanel.tsx:59-62 | The held socket's open event sets `isConnected` and marks that socket open, so `send` on it no longer throws. |
| `ChatPanel.ChatSession.Teardown` | src/components/ChatPanel.tsx:37-45 | Cleanup releases the socket and clears the silence timer. `isConnected` and the fallback timers are left as they were. |
| `ChatPanel.ChatSession.OnDisconnect` | src/components/ChatPanel.tsx:94-104 | Socket close or error clears both `isConnected` and `isStreaming`. |
| `ChatPanel.ChatSession.SetInput` | src/components/ChatPanel.tsx:315 | Typing sets the input and nothing else. |
| `ChatPanel.ChatSession.OnToken` | src/components/ChatPanel.tsx:64-92 | A blank token only clears `isStreaming`. Any other token is appended verbatim to the accumulator, and the last assistant message shows the accumulator's `trimStart`. Nothing else changes, the silence timer is re-armed and `isStreaming` is not consulted. A non-empty displayed content grows by exactly the token. |
| `ChatPanel.ChatSession.IdleTimeoutFired` | src/components/ChatPanel.tsx:87-91 | The silence timer only clears `isStreaming`. |
| `ChatPanel.ChatSession.FallbackTimeoutFired` | src/components/ChatPanel.tsx:156-159 | A fallback timer only clears `isStreaming`. |
| `ChatPanel.ChatSession.ReadyToSend` | src/components/ChatPanel.tsx:113 | The send guard: the trimmed input is non-empty, a socket is held, the session is connected and no answer is streaming. `ChatPanel.ChatSession.SendMessage` starts a send exactly when it holds, and the payload goes out exactly when, in addition, the held socket is open. |
| `ChatPanel.ChatSession.SendMessage` | src/components/ChatPanel.tsx:112-160 | When the guard fails nothing changes. When it holds, a user message with the trimmed input and then an empty assistant message are appended, the accumulator is reset and streaming starts. The payload goes out exactly when, in addition, the held socket is open; then a fallback timer is armed and the input cleared. On a socket still connecting `send` throws: nothing goes out and the input and fallback timers are unchanged. The payload holds the trimmed question, the context records unchanged and the last-value-wins filter object. The pairing and "last message shows the accumulator" invariants are kept. |
| `ChatPanel.AskOnFreshPanel` | src/components/ChatPanel.tsx:33-160 | On a fresh panel that opens and connects, sending a non-blank question sends the trimmed question with no context and no filters. It starts streaming into an empty assistant bubble with an empty accumulator. |
| `ChatPanel.ReceiveAnswer` | src/components/ChatPanel.tsx:64-92 | Three tokens that do not end the stream, then the silence timer: the bubble shows the tokens joined, without leading whitespace, and streaming is over. |
| `ChatPanel.SendWhileReconnecting` | src/components/ChatPanel.tsx:33-160 | Close and reopen the panel before the old socket's close event, then send: the guard passes because `isConnected` is still set, but the new socket is still connecting. The question and answer bubbles are shown and streaming starts, yet nothing goes out, the input is kept and no fallback timer is armed. |
| `ChatPanel.StreamedAnswer` | src/components/ChatPanel.tsx:33-160 | End to end: the question `' What failed?\n'` goes out as `'What failed?'`. The tokens `'Hel'`, `'lo wor'` and `'ld'` then show `'Hello world'` in the bubble, and after the silence timer the session is no longer streaming. |
| `SuggestedFilters.BucketsOf` | src/SuggestedFilters.tsx:20-21 | A missing aggregation yields no buckets. |
| `SuggestedFilters.FiltersFor` | src/SuggestedFilters.tsx:25-48 | Each bucket yields one filter on the given field with the bucket's value, in bucket order. |
| `SuggestedFilters.OfferedFilters` | src/SuggestedFilters.tsx:20-48 | The offered filters are all `('level', key)` filters in bucket order, then all `('metadata.user_id', key)` filters in bucket order. |
| `SuggestedFilters.FiltersForIgnoresCounts` | src/SuggestedFilters.tsx:25-48 | Bucket lists with the same values yield the same filters, whatever their counts. |
| `SuggestedFilters.DocCountIsIgnored` | src/SuggestedFilters.tsx:19-48 | `doc_count` has no influence on the offered filters. |
| `SuggestedFilters.OfferedFilterKeys` | src/SuggestedFilters.tsx:32-44 | Every offered filter is on `level` or `metadata.user_id`, and only an aggregation that is present contributes. |
| `LogEntryCard.MetadataClick` | src/LogEntryCard.tsx:53-59 | A field can be promoted exactly when it is `user_id`, `trace_id` or `source_ip`. Promotion hands over the bare key and the raw value. Other fields produce no action. |
| `LogEntryCard.MetadataRows` | src/LogEntryCard.tsx:51-63 | One row per metadata entry, in entry order, each carrying that entry's click action. |
| `LogEntryCard.MetadataSection` | src/LogEntryCard.tsx:43-68 | The metadata section exists exactly when the record has at least one metadata entry. |
| `LogEntryCard.PromotedKeyIsBare` | src/LogEntryCard.tsx:54 | A promoted field becomes the filter `(key, String(value))` on the bare field name, with no `metadata.` prefix. |

## Left out

- Rendering, layout, colours and theme are not modelled. This covers `getLogLevelColor`, auto-scroll, the view-only panels, `src/main.tsx`, `Footer`, `Logo` and `FilterBar`'s markup.
- HTTP and WebSocket transport are left out. Replies, pushes, tokens and socket lifecycle events are method calls. `JSON.parse`/`JSON.stringify` are opaque: a pushed record arrives already parsed, and the payload is returned as a value.
- URL percent-encoding by `URLSearchParams` is not modelled. The query is an ordered list of `(name, value)` pairs.
- The 300 ms debounce of the search term is library code. The debounced term is a parameter of `App.SearchView.PerformSearch`.
- Timers are events. Their durations are recorded as the constants `ChatPanel.IdleTimeoutMs` (3 s) and `ChatPanel.FallbackTimeoutMs` (30 s), but no clock runs between events, so the model does not capture which timer fires first.
- The clock is an input. `ChatPanel.ChatSession.SendMessage` reads `Date.now()` once, as `now`, for both ids and both timestamps, while the source reads the clock separately for each.
- `ChatPanel.ChatSession.SendMessage`: a message id is kept as the number whose decimal text (`Decimal.NatToDecimal`) is the id string, so the model does not build the string itself.
- React effect scheduling and callback interleaving are not modelled. Each handler runs atomically.
- `ChatPanel.ChatSession`: the last message's content is mutated in place in the source, on an object shared with the previous message array. The model replaces the last element of a value sequence, so that aliasing is not captured.
- `ChatPanel.ChatSession`: the model does not tell one socket generation from another. A close event from a socket released by `Teardown` acts like one from the current socket, and an open event is taken to come from the held socket.
- `ChatPanel.ChatSession.SendMessage`: the exception that `send` throws on a socket still connecting is modelled by its effect only: the handler stops after starting the stream. Where the exception goes next (React's event handling, the console) is not modelled.
- `ChatPanel.ChatSession.Connect`: the failure of `new WebSocket` inside `connectWebSocket` (a caught exception that leaves the socket reference empty) is not modelled. `Connect` always holds a socket afterwards when the panel is open.
- `LogModel.JsString`: metadata values are strings, whole numbers, booleans or null. Floating-point numbers, objects and arrays, and their `String` forms, are not modelled. A whole number is exact and unbounded and always prints as plain digits. In JavaScript a number of magnitude 10^21 or more prints in exponent form (`String(1e21)` is `"1e+21"`), and above 2^53 not every whole number can be represented.
- `LogEntryCard.MetadataRows`: metadata is a list of entries in enumeration order. JavaScript's reordering of integer-like keys ahead of other keys is not modelled.
- `App.CeilDiv`: the page count uses exact whole-number division. Floating-point rounding of `total / pageSize` for very large totals is not modelled.
- `App.SearchView.ChangePageSize`: its caller only passes the selector's options or a cleared selection, so `parseInt` is modelled on non-empty digit strings only (`Decimal.ParseDecimal`). `parseInt('')`, which is `NaN`, never arises.
