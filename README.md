# Related-posts preview layout and user bootstrap, in Dafny

This project models two small pieces of decision logic from the WordPress.com
Calypso client and proves properties about them.

**Related Posts block editor preview** (`RelatedPosts`, `related_posts.dfy`).
- The "Number of posts" control stores the chosen value capped at
  `MAX_POSTS_TO_SHOW = 6`.
- `render` fills exactly `postsToShow` preview slots, one loop iteration per
  slot. Slot `i` holds backend post `i` when it exists; otherwise it holds a
  placeholder.
- `RelatedPostsPreviewRows` splits the slots into an upper row and an
  optional lower row. The cut points depend on the slot count.
- The wrapper's `is-grid` and `columns-<n>` classes and the toolbar's active
  button follow the stored layout.
- A post entry and a placeholder entry show their image, date and context
  sections under the three display switches.

React elements are modelled as values. A slot is `Item(index, post, options)`
or `Placeholder(index, options)`. Here `options` holds the three display
switches that `render` passes to every entry. An entry's rendering is an
`EntryView` record.

**Server-side user bootstrap** (`UserBootstrap`, `user_bootstrap.dfy`).
- The exported function checks the two credentials: an auth cookie and a
  support session must not both be given, and at least one must be given.
  Both are optional strings, and an empty string counts as absent.
- On the cookie path it percent-decodes the cookie, then checks that the
  configured API key is a string. It then sets four headers on the request
  object, one `set` call each. The `Request` class holds the header map.
- On the support-session path it sets the single `x-support-session` header.
- The transport's callback maps `(err, res)` to a settlement:
  - an error with no response rejects with that same error object;
  - an error with a response rejects with a fresh `Error`, whose `statusCode`
    is set first and whose fields are then copied from the body in a loop
    (the `ErrorObject` class), so a body key `statusCode` wins;
  - no error resolves with `filterUserObject(body)`.

Each imperative piece is a method proved against a specification function:
- `FillSlots` against `PreviewSlots`;
- `Prepare` against `Decide`;
- `HandleReply` against `Settle`;
- `BootstrapUser` against `Bootstrap`.

The lemmas beside those functions state the properties.

Foreign code enters as function-typed parameters: `decodeURIComponent`,
the HMAC-MD5 hex digest, `filterUserObject`, the network transport, and the
`qs.stringify` query string (`query`).

A few behaviours of the code are modelled as written:
- `decodeURIComponent` throws `URIError` on a malformed cookie. The throw
  happens inside the promise executor and before the API-key check, so the
  promise rejects with it (`MalformedCookie`).
- The `Cookie` header carries the decoded cookie value, not a re-encoding of
  the original.
- A transport failure with no response rejects with the transport's own
  error object, not with a wrapper around it.
- `for…in` over an array or string body visits its decimal indices. So such
  a body contributes one error field per element or character.
  Characters are Unicode scalar values here; see "## Left out".
- The "Number of posts" handler applies only the upper bound. The control's
  minimum of 1 is not enforced by the handler.

## Model

| member | source | states |
|---|---|---|
| `RelatedPosts.ClampPostsToShow` | client/gutenberg/extensions/related-posts/edit.jsx:199-207 | the stored count is at most 6, never above the chosen value, and equals either the chosen value or 6 |
| `RelatedPosts.ClampIdempotent` | client/gutenberg/extensions/related-posts/edit.jsx:202-206 | storing an already-stored count again leaves it unchanged |
| `RelatedPosts.SlotCount` | client/gutenberg/extensions/related-posts/edit.jsx:157 | the loop runs `postsToShow` times, and not at all for a negative count |
| `RelatedPosts.PreviewSlots` | client/gutenberg/extensions/related-posts/edit.jsx:156-178 | after `n` iterations the list has exactly `n` entries, and entry `i` is the one built for index `i` |
| `RelatedPosts.FillSlots` | client/gutenberg/extensions/related-posts/edit.jsx:156-178 | the preview has exactly `postsToShow` entries whatever the number of backend posts; entry `i` carries index `i` and the given display switches; it is a post item exactly when `posts[i]` is present, holding that post, and a placeholder otherwise |
| `RelatedPosts.ExtraPostsNotShown` | client/gutenberg/extensions/related-posts/edit.jsx:157-167 | a backend post at an index at or beyond the slot count never appears in the preview |
| `RelatedPosts.Slice` | client/gutenberg/extensions/related-posts/edit.jsx:119 | `slice(start, end)` caps both bounds at the length and returns the elements in between, in order |
| `RelatedPosts.SliceFrom` | client/gutenberg/extensions/related-posts/edit.jsx:121 | `slice(start)` returns the elements from `start` on, and nothing past the end |
| `RelatedPosts.TopRowEnd` | client/gutenberg/extensions/related-posts/edit.jsx:97-106 | the upper row ends at 2 exactly for 2, 4 or 5 entries, and at 3 for every other count |
| `RelatedPosts.BottomRowStart` | client/gutenberg/extensions/related-posts/edit.jsx:107-115 | the lower row starts at 2 exactly for 4 or 5 entries, and at 3 for every other count |
| `RelatedPosts.DisplayLowerRow` | client/gutenberg/extensions/related-posts/edit.jsx:95 | the lower row is rendered iff there are more than 3 entries, and whenever it is, the two cut points coincide |
| `RelatedPosts.PreviewRows` | client/gutenberg/extensions/related-posts/edit.jsx:90-125 | the upper row holds at most 3 entries; the lower row is rendered iff there are more than 3; upper followed by lower is exactly the entry list, with nothing dropped or duplicated |
| `RelatedPosts.RowSizes` | client/gutenberg/extensions/related-posts/edit.jsx:97-122 | with 3 or fewer entries, all go in the upper row; with 4 or 5, two go above and the rest below; with 6 or more, three go above and the rest below |
| `RelatedPosts.ClampedPreviewFits` | client/gutenberg/extensions/related-posts/edit.jsx:202-206 | with a count stored by the control, the preview has at most 6 entries and neither row holds more than 3 |
| `RelatedPosts.LayoutControls` | client/gutenberg/extensions/related-posts/edit.jsx:132-145 | there are two buttons, grid and then list, and each is active exactly when the stored layout equals its value |
| `RelatedPosts.LayoutControlsExclusive` | client/gutenberg/extensions/related-posts/edit.jsx:132-145 | at most one layout button is active, and after clicking a button that button is the active one |
| `RelatedPosts.WrapperClasses` | client/gutenberg/extensions/related-posts/edit.jsx:215-219 | `is-grid` and `columns-<postsToShow>` are present iff the layout is `grid`, no other column count ever appears, and the block's class name is kept exactly when it is non-empty |
| `RelatedPosts.Options` | client/gutenberg/extensions/related-posts/edit.jsx:130 | the switches each entry receives are the block's `displayThumbnails`, `displayDate` and `displayContext` attributes |
| `RelatedPosts.ItemView` | client/gutenberg/extensions/related-posts/edit.jsx:63-88 | a post entry shows its image only when thumbnails are on and the post has an image with a non-empty source; it always shows the title; it shows the date and context exactly when those switches are on, with the post's own values |
| `RelatedPosts.PlaceholderView` | client/gutenberg/extensions/related-posts/edit.jsx:28-61 | a placeholder shows the image placeholder exactly when thumbnails are on, and the sample date and context exactly when those switches are on |
| `RelatedPosts.EntriesAgreeOnSections` | client/gutenberg/extensions/related-posts/edit.jsx:156-178 | every preview entry shows a date and a context exactly when switched on; an image area appears only with thumbnails on; the image placeholder appears exactly in the slots without a backend post |
| `RelatedPosts.Render` | client/gutenberg/extensions/related-posts/edit.jsx:128-227 | the toolbar and wrapper classes follow the stored layout; the rows are exactly `RelatedPostsPreviewRows` of the filled preview slots; reading them in order gives every slot; the lower row is rendered iff `postsToShow` exceeds 3; every entry carries the block's display switches |
| `UserBootstrap.RequestUrl` | server/user-bootstrap/index.js:23-28 | the request URL is the `/me` endpoint, then `?`, then exactly the query string |
| `UserBootstrap.Request.constructor` | server/user-bootstrap/index.js:51 | a new request has the given URL and no headers |
| `UserBootstrap.Request.Set` | server/user-bootstrap/index.js:66-73 | setting a header stores that value under that name and leaves the other headers unchanged |
| `UserBootstrap.Decide` | server/user-bootstrap/index.js:41-78 | a request is sent only to the `/me` URL and only with exactly one credential; every early rejection is one of the four validation failures |
| `UserBootstrap.Prepare` | server/user-bootstrap/index.js:39-79 | the validation and header-setting steps produce exactly the decision table `Decide`: the same rejection, or the same URL and header map |
| `UserBootstrap.CredentialRules` | server/user-bootstrap/index.js:41-77 | both credentials present iff rejection with conflicting credentials; neither present iff rejection with missing credentials; a request is sent only with exactly one credential |
| `UserBootstrap.CookiePathRejections` | server/user-bootstrap/index.js:53-60 | on the cookie path, a cookie that does not decode rejects; otherwise a non-string API key rejects; a request is sent iff the cookie decodes and the key is a string |
| `UserBootstrap.CookiePathHeaders` | server/user-bootstrap/index.js:53-69 | the cookie path sends exactly four headers: the country unchanged, `X-WPCALYPSO ` plus the HMAC-MD5 hex digest of the decoded cookie under the API key, `wordpress_logged_in=` plus the decoded cookie, and the fixed user agent; no support-session header |
| `UserBootstrap.SupportSessionPathHeaders` | server/user-bootstrap/index.js:70-74 | the support-session path sends only `x-support-session` with the raw session, with no authorization or cookie header, whatever the country and API key are |
| `UserBootstrap.DecimalString` | server/user-bootstrap/index.js:96-98 | an index key is the canonical decimal form of the index: non-empty, digits only, denoting the index, with no leading zero |
| `UserBootstrap.DecimalStringInjective` | server/user-bootstrap/index.js:96-98 | distinct indices give distinct keys |
| `UserBootstrap.IndexEntries` | server/user-bootstrap/index.js:96-98 | the keys visited over an array or string are exactly the decimal forms of its indices |
| `UserBootstrap.Characters` | server/user-bootstrap/index.js:96-98 | a string body is visited one character per index, each as a one-character string |
| `UserBootstrap.ForInEntries` | server/user-bootstrap/index.js:96-98 | `for…in` visits an object's own members, the decimal indices of an array or string, and nothing for `null`, booleans or numbers |
| `UserBootstrap.ErrorFields` | server/user-bootstrap/index.js:93-98 | the error's fields are the visited body keys plus `statusCode`; every body value is copied; `statusCode` keeps the HTTP status only when the body has no such key |
| `UserBootstrap.IndexEntriesAt` | server/user-bootstrap/index.js:96-98 | each index key maps to the element at that index |
| `UserBootstrap.ErrorObject.constructor` | server/user-bootstrap/index.js:94 | a new error has no own fields |
| `UserBootstrap.ErrorObject.Assign` | server/user-bootstrap/index.js:95-97 | assigning a field stores that value under that key and leaves the other fields unchanged |
| `UserBootstrap.Settle` | server/user-bootstrap/index.js:81-106 | the promise resolves exactly when there is a response and no error; a rejection is a transport error or a remote error carrying `statusCode`, never a validation failure |
| `UserBootstrap.HandleReply` | server/user-bootstrap/index.js:81-106 | the callback settles the promise exactly as `Settle` prescribes; the field-copy loop builds `statusCode` overridden by every body entry |
| `UserBootstrap.SettleWithoutRemoteError` | server/user-bootstrap/index.js:84-105 | an error without a response rejects with that same error; a response without an error resolves with the filtered body |
| `UserBootstrap.RemoteErrorFields` | server/user-bootstrap/index.js:93-101 | an error with a response rejects with fields that are exactly the body's keys plus `statusCode`; every body value is copied; `statusCode` is the body's value if it has one and the HTTP status otherwise |
| `UserBootstrap.ForbiddenReply` | server/user-bootstrap/index.js:93-101 | a 403 answer with body `error: forbidden, message: no` rejects with `statusCode` 403 and both body fields |
| `UserBootstrap.ArrayBodyFields` | server/user-bootstrap/index.js:96-98 | an array body contributes each element under its decimal index |
| `UserBootstrap.StringBodyFields` | server/user-bootstrap/index.js:96-98 | a string body contributes each character under its decimal index |
| `UserBootstrap.Bootstrap` | server/user-bootstrap/index.js:39-108 | the promise resolves, or rejects with a transport or remote error, only if the validation step sent a request, which needs exactly one credential |
| `UserBootstrap.BootstrapUser` | server/user-bootstrap/index.js:39-108 | validation followed by the callback settles the promise exactly as `Bootstrap` prescribes |
| `UserBootstrap.ValidationFailuresSendNothing` | server/user-bootstrap/index.js:40-78 | conflicting, missing, undecodable or unkeyed credentials reject with a validation error that does not depend on what the transport would answer, so no request is sent |

## Left out

- JSX rendering, the UI components, the `classNames` library's string joining and `__` translation are not modelled. Elements and class names are datatype values.
- The `withSelect` store read that supplies `posts` (client/gutenberg/extensions/related-posts/edit.jsx:230-237) is not modelled. `posts` is an input.
- The route table in client/gutenberg/editor/index.js is not part of this model. It only registers routes with a router library whose matching is not visible.
- `postsToShow` and the control's value are integers. Non-integer or `NaN` values from the control are not modelled.
- A backend post entry is present or absent (`Option<Post>`). Other falsy entries, such as `0` or `""`, count as absent.
- The network call, its asynchrony and promise settlement are not modelled. The request is returned as its URL and headers, and the transport's answer is an input (`Reply`). A callback with neither an error nor a response is not representable, because the transport never produces one.
- The HMAC-MD5 digest, `decodeURIComponent`, `filterUserObject`, `getActiveTestNames`, `qs.stringify` and `config(...)` are foreign code. They are parameters, and their results are not constrained.
- superagent's case-insensitive header handling is not modelled. Headers are keyed by the exact names the code passes to `set`.
- Characters: a string is split into Unicode characters, not UTF-16 code units as JavaScript's `for…in` does over a string. A character outside the Basic Multilingual Plane, such as an emoji, is one entry here where JavaScript gives two surrogate halves, because Dafny strings are sequences of Unicode scalar values.
- ForInEntries: inherits the `Characters` difference for a string body: one key per Unicode character rather than per UTF-16 code unit.
- StringBodyFields: inherits the `Characters` difference: a string body outside the Basic Multilingual Plane gives fewer error fields here than in JavaScript.
- JSON numbers are integers. Assigning a body key such as `__proto__` onto an `Error` (which changes the prototype instead of adding a field) is not modelled. The `message` and `stack` that `new Error()` carries are not modelled either. Only the fields the code assigns are.
- The `debug` trace and the two `console.log` lines on the support-session path are logging and are left out.
