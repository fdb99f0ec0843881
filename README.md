# Retail returns: request filter and return form, modelled in Dafny

This project models the two pieces of logic in a small retail-returns web
application:

- **The request filter** (`middleware.ts`). For every request it picks an
  origin allowlist from `NODE_ENV`, adds CORS headers to the pass-through
  response when the `Origin` header is allowed, and answers `OPTIONS`
  preflight requests itself (200 with six fixed headers, or a bare 403).
  Any other request goes on to the identity provider's session refresh.
  Each `setAll` cookie callback of that refresh replaces the response with a
  fresh pass-through response. The decision follows the CORS protocol of the
  WHATWG Fetch Standard, section 3.2.
- **The return-request dialog** (`components/modals/create-return-modal.tsx`).
  It holds eight text fields edited by setters. Submit either rejects the draft
  with a destructive "Missing Information" notification, or announces
  "Return Request Created" and calls `onClose`. Cancel and the X button only
  call `onClose`.

Files:

- `wrappers.dfy`: `Option` and `Last`.
- `origins.dfy`: the two development origin regexes, each written twice. One
  form is a matcher that reads the string at fixed offsets. The other is the
  language the regex denotes, with concatenation as split points. Lemmas prove
  that the two forms agree on every string.
- `cors.dfy`: the `NODE_ENV` test, the allowlist, `allowedOrigins.some(...)`,
  and the two header sets.
- `cookies.dfy`: `setAll` batches and the request and response cookie jars
  (the last write wins).
- `middleware.dfy`: `Request` and `Response` classes, the filter as the method
  `Handle` (with `Annotate`, `RefreshSession` and `SetAll` for its parts), the
  pure function `Respond` that `Handle` is proved against, and lemmas about
  `Respond`.
- `return_modal.dfy`: the draft, the submit guard, the output log, the
  `ReturnForm` class, and replay lemmas over sessions of user actions.

Points of the code worth knowing:

- The preflight answer carries six headers (middleware.ts:37-44), `Vary: Origin` among them.
- The description field's label carries the required-field asterisk
  (components/modals/create-return-modal.tsx:125), but the submit guard at
  line 29 does not check it.
- A non-preflight request from an allowed origin keeps its CORS headers only
  if `setAll` is never called. Every `setAll` call, even one with an empty
  batch, replaces the response with a fresh one that has none of those headers
  (middleware.ts:61).

The identity provider is a parameter: the sequence of `setAll` batches its
`getUser` call makes. `NODE_ENV` is a parameter too (`None` when unset). The
notification hook and the host's `onClose` callback are recorded, in order, in
an output log.

## Model

| member | source | states |
|---|---|---|
| `Origins.LocalMatchIff` | middleware.ts:10 | The local matcher accepts a string iff it splits into `http://` or `https://`, then `localhost` or `127.0.0.1`, then nothing or `:` and one or more ASCII digits, and nothing else |
| `Origins.PreviewMatchIff` | middleware.ts:11 | The preview matcher accepts a string iff it splits into `http://` or `https://`, any run of characters without line terminators, then `.replit.dev` or `.replit.app` at the very end |
| `Origins.LocalAnyDigits` | middleware.ts:10 | Any non-empty run of digits is accepted as a port; its numeric range is never checked |
| `Origins.LocalRejects` | middleware.ts:10 | `http://localhost:`, a trailing path, a longer host name, an upper-case or other scheme are rejected; `http://localhost:3000` and `https://127.0.0.1` are accepted |
| `Origins.PreviewAnySubdomain` | middleware.ts:11 | Every scheme + host without line terminators + `.replit.dev`/`.replit.app` is accepted |
| `Origins.PreviewRejectsBareDomain` | middleware.ts:11 | `https://replit.dev` (no dot before `replit`) is rejected |
| `Origins.PreviewRejectsInnerSuffix` | middleware.ts:11 | A suffix that is not at the end (`https://preview.replit.dev.evil.com`) is rejected |
| `Cors.Any` | middleware.ts:23 | `.some` holds iff some pattern in the list accepts the origin |
| `Cors.ProductionAllowsNoOrigin` | middleware.ts:7-15 | With `NODE_ENV` = `production` the allowlist is empty, so no origin (absent, empty or any string) is allowed |
| `Cors.DevelopmentUnlessProduction` | middleware.ts:7-15 | The allowlist is empty when `NODE_ENV` is `production`, and exactly the local and preview patterns, in that order, for any other value or none |
| `Cors.DevelopmentAllowedIff` | middleware.ts:9-23 | In development an origin is allowed iff it is in the language of one of the two regexes |
| `Cors.PreflightExtendsCors` | middleware.ts:25-44 | The preflight header set agrees with the three annotation headers and adds exactly methods, allowed headers and max-age: six distinct names |
| `Cookies.WriteValuesLastWins` | middleware.ts:60 | After writing a batch into the request jar, a name is present iff it was before or the batch names it; its value is the one from the batch's last entry with that name, or else the old one |
| `Cookies.WriteCookiesLastWins` | middleware.ts:64 | The same for a response jar: a named cookie keeps the value and options of the batch's last entry with that name |
| `Cookies.WriteBatchesFlatten` | middleware.ts:59-60 | Several `setAll` calls leave the request jar as if all their entries had been written in one batch, in order |
| `Middleware.Request.SetCookie` | middleware.ts:60 | `request.cookies.set` replaces the entry for that name |
| `Middleware.Response.Next` | middleware.ts:17-19 | `NextResponse.next({ request })` is status 200, no body, no headers or cookies of its own, and forwards the request's current cookie jar |
| `Middleware.Response.Direct` | middleware.ts:35-47 | `new Response(body, { status, headers })` has exactly that status, body and headers and forwards nothing |
| `Middleware.Response.SetHeader` | middleware.ts:25-27 | `headers.set` replaces the value for that name |
| `Middleware.Response.SetCookie` | middleware.ts:64 | `cookies.set(name, value, options)` replaces the cookie of that name |
| `Middleware.SetAll` | middleware.ts:59-65 | The callback writes the batch into the request jar, then returns a fresh pass-through response that holds exactly this batch's cookies and forwards the updated jar |
| `Middleware.Annotate` | middleware.ts:21-29 | The three CORS headers are added iff the origin is present, non-empty and allowed; otherwise the headers are untouched |
| `Middleware.RefreshSession` | middleware.ts:51-71 | The request jar receives every batch; with no `setAll` call the response is the one passed in, otherwise a fresh response made by the last call |
| `Middleware.Handle` | middleware.ts:4-74 | The filter's response equals `Respond(...)` of its inputs, and the request jar ends as `RequestCookiesAfter(...)` |
| `Middleware.PreflightSkipsSession` | middleware.ts:32-49 | An `OPTIONS` answer does not depend on the `setAll` calls, forwards nothing, sets no cookie and leaves the request jar unchanged |
| `Middleware.PreflightAllowed` | middleware.ts:33-45 | An allowed `OPTIONS` gets status 200, no body and exactly the six fixed headers, with the origin echoed |
| `Middleware.PreflightRefused` | middleware.ts:32-48 | An `OPTIONS` with a missing, empty or disallowed origin gets status 403, no body, no headers |
| `Middleware.AllowedIsNotWildcard` | middleware.ts:25 | An origin some pattern accepts is never `*` |
| `Middleware.AnnotatedUntilRefresh` | middleware.ts:17-29 | Before any `setAll`, a non-preflight response has `Access-Control-Allow-Origin` iff the origin is allowed; then it is the origin itself (not `*`), with credentials `true` and `Vary: Origin`; otherwise no headers at all |
| `Middleware.RefreshDropsCors` | middleware.ts:59-73 | After any `setAll`, the returned response has no CORS headers and holds exactly the last batch's cookies, and the forwarded request jar holds every batch's cookies, with the last write winning |
| `Middleware.ProductionNeverCors` | middleware.ts:7-49 | In production no response carries `Access-Control-Allow-Origin` and every preflight gets 403 |
| `ReturnModal.Put` | components/modals/create-return-modal.tsx:64-137 | A setter changes its own field to the new value and no other field |
| `ReturnModal.CanSubmitIff` | components/modals/create-return-modal.tsx:29 | The submit guard passes iff every field except the description is non-empty |
| `ReturnModal.DescriptionNotChecked` | components/modals/create-return-modal.tsx:29 | Changing the description never changes the outcome of the guard, although the description's label marks it required |
| `ReturnModal.OnlyEmptinessChecked` | components/modals/create-return-modal.tsx:29 | Every draft whose checked fields are each `"0"` or a non-empty run of blanks, tabs or line breaks passes the guard |
| `ReturnModal.SubmitOutcome` | components/modals/create-return-modal.tsx:28-43 | A submit emits exactly one notification. On rejection it is the destructive "Missing Information" one and `onClose` is not called. On success "Return Request Created" names the customer and `onClose` follows, exactly once |
| `ReturnModal.CancelOutcome` | components/modals/create-return-modal.tsx:161-164 | Cancel calls `onClose` once, emits no notification and changes no field |
| `ReturnModal.ToastPerSubmit` | components/modals/create-return-modal.tsx:28-43 | Over any sequence of edits, submits and cancels, the number of notifications equals the number of submit attempts |
| `ReturnModal.OnlyEditsChangeDraft` | components/modals/create-return-modal.tsx:28-43 | A sequence of submits and cancels without edits leaves all eight fields as they were |
| `ReturnModal.ReturnForm.constructor` | components/modals/create-return-modal.tsx:18-25 | On mount all eight fields are empty and nothing has been emitted |
| `ReturnModal.ReturnForm.Edit` | components/modals/create-return-modal.tsx:64-137 | An input's change handler sets that field and emits nothing |
| `ReturnModal.ReturnForm.Notify` | components/modals/create-return-modal.tsx:30-41 | A `toast` call appends that notification to the log |
| `ReturnModal.ReturnForm.OnClose` | components/modals/create-return-modal.tsx:53 | The X button, the Cancel button and a successful submit each append one `onClose` call to the log |
| `ReturnModal.Run` | components/modals/create-return-modal.tsx:28-165 | Sending a sequence of user actions to the dialog's handlers leaves the fields and the output log exactly as `Replay` gives them, so the session lemmas hold of the component itself |
| `ReturnModal.ReturnForm.HandleSubmit` | components/modals/create-return-modal.tsx:28-43 | `handleSubmit` changes no field and appends exactly the outputs `SubmitOutputs` gives for the current draft |

## Left out

- The route `config.matcher` (middleware.ts:76-86) is not modelled. The framework's route matcher interprets it before the filter runs, so static assets and images never reach the filter.
- `createServerClient` and `supabase.auth.getUser()` are not modelled. The model keeps only their effect, a sequence of `setAll` batches. Their `getAll` reads, the network call and any exception from the refresh are left out; in the code an exception propagates uncaught.
- The identity provider's URL and key from `process.env` are opaque and not modelled.
- Next.js internals are not modelled. This covers the framework's own headers on a pass-through response, case-insensitive header names (all names here are distinct in any case) and the meaning of cookie options. A cookie jar is a map from name to entry.
- HTTP method names are compared as given. The platform's normalisation of method names to upper case is not modelled.
- Characters are Unicode scalar values, while JavaScript strings are UTF-16 code units. The two patterns only look at ASCII characters and the four line terminators, so they read both the same way.
- `async`/`await` is not modelled: the filter runs as one sequential method.
- JSX rendering, the UI components and the toast implementation are not modelled. Notifications and `onClose` calls are recorded in an output log instead.
- The `Select` option lists for reason and refund method are not modelled. The model lets a setter write any string into those fields, and the submit guard checks only non-emptiness in any case.
- The `min="1"` attribute of the quantity input is not modelled: it is a hint to the browser's input widget, and the submit guard does not enforce it.
- The image-upload placeholder (components/modals/create-return-modal.tsx:150-159) has no behaviour and is not modelled.
- What the host does when `onClose` is called is not modelled (it is outside the component). The model records the call only.
