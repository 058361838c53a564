# GlowGuide, modelled in Dafny

GlowGuide is a wellness web app. A visitor uploads a face photo. The
`analyze-photo` edge function sends it to Google Vision and a language model
and returns an analysis with a temporary id and a one-hour expiry. The browser
keeps that analysis in session storage, the "claim ticket", and shows a free
preview with a countdown. After paying and signing up, the browser hands the
ticket to `save-analysis-post-payment`, which stores the image and a database
row owned by the user. `get-full-report` then serves that row to subscribers
only, and only until it expires.

This project models the logic the app owns:

- the screen state machine, countdown and handlers of the main component
  (`app_view.dfy` for the pure helpers, `app.dfy` for the component as a
  class);
- the session-storage operations of the `useAnalysis` hook
  (`use_analysis.dfy`, a class over a `map<string, string>`);
- the guard chains of the three edge functions (`get_full_report.dfy`,
  `save_analysis.dfy`, `analyze_photo.dfy`) with the request helpers they
  share (`edge_request.dfy`);
- the photo picker's validation and drag flag (`photo_upload.dfy`);
- the product catalogue lookups (`stripe_config.dfy`).

Every external call is a parameter: the auth service (a map from access token
to user id), the subscription status, the `analyses` table, the storage
upload, the database insert, the Vision and language-model replies,
`JSON.parse` of the model's text, `crypto.randomUUID()`, the clock and
`fetch` outcomes. Timestamps are integers in milliseconds. `strings.dfy`
models the JavaScript string operations the code relies on:
- `replace`, which replaces the first occurrence only;
- `split(sep)[1]`;
- the last element of `split('/')`, modelled as the text after the last '/';
- `toString`;
- `padStart`.

`JSON.stringify`/`JSON.parse` of the stored ticket is replaced by a
length-prefixed text encoding (`session_codec.dfy`). Its round trip is proved,
so "reading back what was written gives the same analysis" is a theorem of
the model.

The catalogue is a `const`, so the lookups cannot change it.

Where the code differs from what its own names suggest, the model follows the
code. In analyze-photo, a reply without a JSON span raises 'No valid JSON found
in GPT response'. The enclosing catch re-throws that error as 'Failed to parse
analysis results', so the client sees the second message. `GenerateInsights`
returns it.

## Model

| member | source | states |
|---|---|---|
| EdgeRequest.BearerToken | supabase/functions/get-full-report/index.ts:38 | a header without `Bearer ` is used whole as the token; otherwise exactly the first occurrence of the prefix is cut out |
| EdgeRequest.BearerTokenOfHeader | supabase/functions/get-full-report/index.ts:38 | the header the browser builds, `Bearer <token>`, gives back exactly the token |
| EdgeRequest.BearerRemovedInside | supabase/functions/get-full-report/index.ts:38 | the prefix is removed even from the middle of a header (`x Bearer y` gives `x y`) |
| EdgeRequest.Caller | supabase/functions/get-full-report/index.ts:38-46 | a user is found exactly when the stripped token is known to the auth service, and it is that token's user |
| EdgeRequest.LastSegment | supabase/functions/get-full-report/index.ts:69-71 | the id is a suffix of the path that holds no '/', and whatever precedes it ends in '/' |
| EdgeRequest.LastSegmentEmpty | supabase/functions/get-full-report/index.ts:69-78 | the id is empty exactly for an empty path or one ending in '/' |
| EdgeRequest.LastSegmentOfJoin | supabase/functions/get-full-report/index.ts:69-71 | a path `<prefix>/<id>` yields `id` when `id` holds no '/' |
| GetFullReport.Matching | supabase/functions/get-full-report/index.ts:81-85 | every row with that id and user id appears as many times as in the table, and no other row appears |
| GetFullReport.Single | supabase/functions/get-full-report/index.ts:86-94 | `.single()` yields a row exactly when one row matched |
| GetFullReport.Handle | supabase/functions/get-full-report/index.ts:15-117 | OPTIONS gets the preflight, other non-GET methods 405, no header 401; a report is served only to an authenticated caller, when the subscription view's status is 'active' or 'trialing', and only from a row of that caller with the path's id that is not past its expiry |
| GetFullReport.UnknownTokenRefused | supabase/functions/get-full-report/index.ts:38-46 | an unknown token is answered 401 'Invalid authentication token' |
| GetFullReport.SubscriptionBeforePath | supabase/functions/get-full-report/index.ts:58-78 | without an 'active' or 'trialing' subscription the answer is 403, even when the path has no id |
| GetFullReport.OtherUsersAnalysisNotFound | supabase/functions/get-full-report/index.ts:81-94 | when the caller owns no row with that id the answer is 404, so another user's analysis is never served |
| GetFullReport.ExpiredIffPastExpiry | supabase/functions/get-full-report/index.ts:97-105 | for any table whose lookup yields exactly one row, the answer is 410 exactly when now is past that row's expiry; at the expiry instant it is still served |
| GetFullReport.ExpiryMs | supabase/functions/get-full-report/index.ts:97-98 | a row's expiry as a time; a null expiry is the epoch |
| GetFullReport.NullExpiryAlwaysExpired | supabase/functions/get-full-report/index.ts:97-105 | a row saved without an expiry is answered 410 at any time after the epoch |
| GetFullReport.MissingIdRefused | supabase/functions/get-full-report/index.ts:69-78 | a subscribed caller whose path is empty or ends in '/' gets 400 'Analysis ID is required' |
| GetFullReport.DuplicateRowNotFound | supabase/functions/get-full-report/index.ts:81-94 | a matching row present twice is not found (404), since `.single()` needs exactly one |
| GetFullReport.ReportCopiesRow | supabase/functions/get-full-report/index.ts:108-116 | the response copies id, image URL, analysis data, creation and expiry time from the row |
| SaveAnalysisPostPayment.FileName | supabase/functions/save-analysis-post-payment/index.ts:59 | the storage path starts with `<user id>/` and holds no further '/' |
| SaveAnalysisPostPayment.Handle | supabase/functions/save-analysis-post-payment/index.ts:15-117 | OPTIONS gets the preflight with no effects, non-POST 405, no header 401; an upload happens only for an authenticated caller with all required fields, under that caller's file name; an insert only after a successful upload, with the caller as owner and analysis and expiry passed through; success returns the new id and the public URL |
| SaveAnalysisPostPayment.AuthBeforeBody | supabase/functions/save-analysis-post-payment/index.ts:30-49 | an unknown token is refused with 401 before the body is read, even an unparseable one |
| SaveAnalysisPostPayment.MissingFieldRefused | supabase/functions/save-analysis-post-payment/index.ts:49-56 | a missing or empty temp id or image, or a missing analysis, gives 400 with nothing uploaded or inserted |
| SaveAnalysisPostPayment.ExpiresAtNotRequired | supabase/functions/save-analysis-post-payment/index.ts:49-90 | a body without `expiresAt` is saved, and the row carries no expiry |
| SaveAnalysisPostPayment.NoCommaIsInternalError | supabase/functions/save-analysis-post-payment/index.ts:60 | image data without a comma makes `atob(undefined)` throw: 500 'Internal server error', nothing uploaded |
| SaveAnalysisPostPayment.UploadInCallersFolder | supabase/functions/save-analysis-post-payment/index.ts:59 | the file lies in the caller's folder, and its last segment is `<timestamp>.jpg` |
| SaveAnalysisPostPayment.UploadFailureInsertsNothing | supabase/functions/save-analysis-post-payment/index.ts:69-75 | a failed upload inserts no row and answers 500 'Failed to upload image' |
| SaveAnalysisPostPayment.InsertOutcome | supabase/functions/save-analysis-post-payment/index.ts:83-108 | after an upload, a failed insert answers 500 'Failed to save analysis' and a successful one returns the row id and `<public prefix><file name>` |
| AnalyzePhoto.GenerateTempId | supabase/functions/analyze-photo/index.ts:10-12 | every temp id starts with `temp_` and continues with the UUID |
| AnalyzePhoto.Likelihood | supabase/functions/analyze-photo/index.ts:29-35 | a missing or empty likelihood prints as `UNKNOWN`, any other as itself |
| AnalyzePhoto.FaceReport | supabase/functions/analyze-photo/index.ts:27-35 | a face's report starts with the fixed header line |
| AnalyzePhoto.FaceData | supabase/functions/analyze-photo/index.ts:23-36 | no annotations or an empty list give the fallback sentence; otherwise the report on the first face |
| AnalyzePhoto.NoFaceIffFallback | supabase/functions/analyze-photo/index.ts:23-36 | the text is the fallback sentence exactly when there is no face |
| AnalyzePhoto.OnlyFirstFaceUsed | supabase/functions/analyze-photo/index.ts:25-26 | faces after the first do not change the text |
| AnalyzePhoto.ExtractJsonSpan | supabase/functions/analyze-photo/index.ts:185-190 | there is a match exactly when some '{' precedes some '}', and it runs from the first '{' to the last '}' |
| AnalyzePhoto.ExtractsEmbeddedObject | supabase/functions/analyze-photo/index.ts:185-187 | an object between brace-free prose is cut out exactly |
| AnalyzePhoto.GreedyOverTwoObjects | supabase/functions/analyze-photo/index.ts:185 | with two objects the match spans both and the text between them |
| AnalyzePhoto.GenerateInsights | supabase/functions/analyze-photo/index.ts:15-201 | without the OpenAI key it fails with 'OpenAI API key not configured'; an analysis comes only from an OK reply with content whose JSON span parses to it |
| AnalyzePhoto.NoBracesIsParseFailure | supabase/functions/analyze-photo/index.ts:181-195 | a reply without '}' fails with 'Failed to parse analysis results' |
| AnalyzePhoto.ExpiresAt | supabase/functions/analyze-photo/index.ts:337-339 | the expiry is one hour after the request |
| AnalyzePhoto.Handle | supabase/functions/analyze-photo/index.ts:204-366 | a missing key gives 500 before anything else, then OPTIONS gets the preflight and non-POST 405; an unparseable body gives 500 with its message, a missing or empty image 400 'Image data is required'; a success has a `temp_` id, expires an hour later, copies age and insights from the analysis and returns the image data unchanged |
| AnalyzePhoto.KeysCheckedBeforePreflight | supabase/functions/analyze-photo/index.ts:209-237 | without both keys even a preflight gets 500 |
| AnalyzePhoto.MalformedImageRefused | supabase/functions/analyze-photo/index.ts:264-272 | image data with no comma, or an empty field after the first comma, gives 400 'Invalid image data format' |
| AnalyzePhoto.VisionErrorMapping | supabase/functions/analyze-photo/index.ts:305-326 | a Vision error maps to 401 exactly for 401 or 403; others give 500 with `Google Vision API returned <status>: <text>` |
| AnalyzePhoto.SuccessShape | supabase/functions/analyze-photo/index.ts:337-354 | a successful request returns `temp_<uuid>`, the analysis's age and insights, now + 3600000 ms, the analysis and the original image data |
| AnalyzePhoto.InsightErrorsAreInternal | supabase/functions/analyze-photo/index.ts:356-365 | any error while generating insights reaches the client as 500 with its message |
| SessionCodec.DecodeEncode | src/hooks/useAnalysis.ts:107-125 | what is stored for an analysis reads back as the same analysis |
| SessionCodec.EncodeNonEmpty | src/hooks/useAnalysis.ts:125 | the stored text is never empty, so reading it takes the parsing branch rather than the empty-entry branch |
| SessionCodec.NotFieldsDoesNotDecode | src/hooks/useAnalysis.ts:122-129 | text that does not start with a field length (a digit) reads back as nothing |
| UseAnalysis.FailureMessage | src/hooks/useAnalysis.ts:102-116 | the recorded message is the server's `error` field when non-empty, otherwise the fallback; a thrown error keeps its own message |
| UseAnalysis.Cleared | src/hooks/useAnalysis.ts:224-227 | both keys are gone and every other key is kept with its value |
| UseAnalysis.ClearedIdempotent | src/hooks/useAnalysis.ts:224-227 | clearing twice is clearing once |
| UseAnalysis.AnalysisHook.constructor | src/hooks/useAnalysis.ts:85-87 | the hook starts idle, with no error, over session storage as the tab left it |
| UseAnalysis.AnalysisHook.GetTempAnalysis | src/hooks/useAnalysis.ts:122-129 | an absent or empty entry reads as nothing; otherwise the entry's parse |
| UseAnalysis.AnalysisHook.TargetAnalysisId | src/hooks/useAnalysis.ts:193-198 | a non-empty explicit id wins, else the stored real id when non-empty, else none; the chosen id is never empty |
| UseAnalysis.AnalysisHook.AnalyzePhoto | src/hooks/useAnalysis.ts:89-120 | success stores the result under the temp key and it reads back; failure stores nothing, returns nothing and records the message; not loading afterwards |
| UseAnalysis.AnalysisHook.SaveAnalysisToDatabase | src/hooks/useAnalysis.ts:131-180 | no session: 'Authentication required'; then no ticket: 'No temporary analysis data found', both with storage unchanged; otherwise the request carries `Bearer <token>` and the ticket's fields unchanged; success stores the id under the real-id key and keeps the ticket |
| UseAnalysis.AnalysisHook.GetFullReport | src/hooks/useAnalysis.ts:182-222 | session first, then 'No analysis ID found'; the request path is the report path plus the chosen id; storage is never changed |
| UseAnalysis.AnalysisHook.ClearTempData | src/hooks/useAnalysis.ts:224-227 | storage loses exactly the two keys, after which there is no ticket and no stored id |
| UseAnalysis.HeaderIdentifiesSessionUser | src/hooks/useAnalysis.ts:151 | the header the hook sends authenticates the session's own user at the edge functions |
| UseAnalysis.SentBodyHasRequiredFields | src/hooks/useAnalysis.ts:154-159 | a body copied from a ticket with a non-empty id and image passes the save function's required-field check |
| UseAnalysis.RequestedPathCarriesId | src/hooks/useAnalysis.ts:200 | the report function reads back the id the hook put in the path |
| PhotoUpload.ValidateFile | src/components/PhotoUpload.tsx:14-23 | a file is accepted exactly when its type starts with `image/` and it is at most 5 MiB; a non-image is reported as such whatever its size |
| PhotoUpload.FileSelection | src/components/PhotoUpload.tsx:14-31 | the data URL is handed on exactly for an accepted file |
| PhotoUpload.SizeLimitBoundary | src/components/PhotoUpload.tsx:20-23 | 5242880 bytes pass, 5242881 do not |
| PhotoUpload.TypeCheckedBeforeSize | src/components/PhotoUpload.tsx:15-23 | an oversized non-image is rejected as not an image |
| PhotoUpload.RenderModeOf | src/components/PhotoUpload.tsx:68-115 | loading shows the spinner; the preview shows exactly for a non-empty image while idle; otherwise the drop zone |
| PhotoUpload.Uploader.constructor | src/components/PhotoUpload.tsx:12 | the drop zone starts unlit |
| PhotoUpload.Uploader.HandleDrag | src/components/PhotoUpload.tsx:40-48 | dragenter and dragover light it, dragleave darkens it, other events leave it |
| PhotoUpload.Uploader.HandleDrop | src/components/PhotoUpload.tsx:50-59 | a drop always darkens it and selects the first file when that file is valid |
| PhotoUpload.Uploader.HandleFileInput | src/components/PhotoUpload.tsx:33-38 | the chosen file is selected exactly when present and valid |
| PhotoUpload.Uploader.ClearImage | src/components/PhotoUpload.tsx:61-66 | hands over the empty string, which the app treats as a reset |
| StripeConfig.FindIndex | src/stripe-config.ts:22 | the index found is the first entry with the key; None only when no entry has it |
| StripeConfig.Find | src/stripe-config.ts:22 | a product is found exactly when some entry has the key; it has that key and is the first such entry |
| StripeConfig.GetProductById | src/stripe-config.ts:21-23 | found exactly when some catalogue entry has the id; the result has that id and is the first such entry |
| StripeConfig.GetProductByPriceId | src/stripe-config.ts:25-27 | the same with respect to the price id |
| StripeConfig.FirstMatchWins | src/stripe-config.ts:22 | with repeated keys the earlier entry is returned |
| StripeConfig.CatalogueLookups | src/stripe-config.ts:10-27 | the one product is found under its id and its price id, and not under its price id as an id |
| AppView.RemainingSeconds | src/App.tsx:47 | whole seconds left, never negative, rounded down; zero exactly when less than a second is left |
| AppView.RemainingMonotone | src/App.tsx:109 | a later clock never shows more time left |
| AppView.RemainingAfterOneSecond | src/App.tsx:47 | a second later one second less is left, and zero stays zero |
| AppView.FormatCountdownTime | src/App.tsx:84-88 | the text holds the ':' separator |
| AppView.TwoDigits | src/App.tsx:87 | a number below 100 pads to two digits that read back as it |
| AppView.CountdownTextReadsBack | src/App.tsx:84-88 | below 6000 seconds the text is `MM:SS`: five characters, SS < 60, and 60·MM + SS is the count |
| AppView.LongCountdownIsWider | src/App.tsx:84-88 | from 6000 seconds on the text is longer than five characters |
| AppView.Toggled | src/App.tsx:153-158 | the toggled key's expansion flips and every other key is unchanged |
| AppView.ToggleTwice | src/App.tsx:153-158 | toggling twice shows every section as before |
| AppView.StarFills | src/App.tsx:217-218 | star i is filled exactly when i < rating |
| AppView.FilledStars | src/App.tsx:217-218 | the number of filled stars is the rating clamped to 0..5 |
| AppView.IconForCategory | src/App.tsx:161-170 | compared lower-cased: age, skin, stress, energy and sleep each get their own icon, exactly those; every other category gets the star |
| AppView.IconIgnoresCase | src/App.tsx:162 | `Skin` and `SLEEP` get the skin and sleep icons |
| AppView.DeficiencyKeys | src/App.tsx:549 | every deficiency key but `nutrient_flags` gets a card |
| AppView.DeficiencyKeysAppend | src/App.tsx:549 | the filter keeps the keys' order: filtering a concatenation concatenates the filtered parts |
| AppView.DeficiencyLabel | src/App.tsx:552 | a key without '_' is its own label, and a label is as long as its key |
| AppView.LabelReplacesFirstUnderscoreOnly | src/App.tsx:552 | only the first underscore becomes a space |
| GlowApp.MountScreenAsWritten | src/App.tsx:29-54 | as written, the preview opens exactly when a stored analysis has time left; the sign-up step opens only on a payment return without one |
| GlowApp.MountScreen | src/App.tsx:29-54 | a payment return always opens the sign-up step; otherwise as written |
| GlowApp.PaymentReturnLostAsWritten | src/App.tsx:29-54 | with a payment return and a ticket with time left, the code as written opens the preview, not the sign-up step |
| GlowApp.Target | src/App.tsx:306-1004 | the plan is reached by a button only from progress and progress only from the plan; no button leads to payment or sign-up |
| GlowApp.EveryScreenHasAnExit | src/App.tsx:306-1004 | every screen but the sign-up step has a button that leads to a different screen |
| GlowApp.App.constructor | src/App.tsx:21-27 | the landing screen, nothing loaded, a 3600-second counter, no section expanded |
| GlowApp.App.HandlePaymentRedirect | src/App.tsx:30-37 | the payment return opens the sign-up step and changes nothing else |
| GlowApp.App.RestoreTempAnalysis | src/App.tsx:40-54 | a stored analysis is restored with its remaining time and opens the preview only when time is left |
| GlowApp.App.Mount | src/App.tsx:29-54 | mounting ends on the corrected mount screen with the ticket restored and the counter at its remaining seconds (unchanged without a ticket); image, report and sections are untouched |
| GlowApp.App.Tick | src/App.tsx:57-81 | only on the preview with time left: above one second it counts down; at one second it clears the ticket, the analysis and the image and opens the upload screen with 3600 seconds |
| GlowApp.App.HandleImageSelect | src/App.tsx:90-114 | the empty string resets image, analysis and ticket and keeps the screen and the hook's error; a successful analysis stores the ticket (no other key changes), clears the error and opens the preview with its remaining time; a failed one records the failure message and keeps the screen and storage |
| GlowApp.App.HandleSignOut | src/App.tsx:116-122 | ends on landing with the ticket, analysis and report cleared; the hook's error is kept |
| GlowApp.App.HandleAuthSuccess | src/App.tsx:124-141 | the plan opens only from the sign-up step and only when the save returns an id and the report arrives; with a session and a ticket it then does; a failure stays on the sign-up step; from any other screen it goes to landing and the hook is untouched; on the sign-up step the hook's storage and error are those of the save (the real id stored, the ticket kept) and then of the report request |
| GlowApp.App.HandleStartAnalysis | src/App.tsx:143-146 | opens the upload screen |
| GlowApp.App.HandleGetPlan | src/App.tsx:148-151 | opens the payment screen |
| GlowApp.App.Press | src/App.tsx:306-1004 | a button moves to its target when the current screen shows it and does nothing otherwise |
| GlowApp.App.ToggleSection | src/App.tsx:153-158 | one section flips and the others keep their state |

Every method of `GlowApp.App` keeps its `Valid()` invariant:
- the counter is never negative;
- the plan and progress screens are only shown with a report loaded;
- the hook is idle between steps.

## Left out

- Floating point: the confidence `toFixed(1)` in analyze-photo (carried as text) and `Math.round(confidence * 100)` in the plan screen.
- StarFills: the rating is an integer; a fractional rating is not modelled.
- Dates: the ISO-8601 strings and `new Date(...)` parsing, including an unparseable date, are not modelled. Timestamps are milliseconds.
- AnalyzePhoto.ExpiresAt: `setHours(getHours() + 1)` works in local time. Across a daylight-saving change it can move the expiry by other than one hour, and that is not modelled.
- JSON: `JSON.stringify`/`JSON.parse` of the ticket is replaced by the length-prefixed codec. Of the model's JSON, only the age and the preview insights are separate fields; the rest is one text.
- `atob` decoding and the bytes uploaded: `atob` is a predicate saying whether it accepts its argument.
- Network replies: non-JSON error bodies and a missing `choices` array are folded into thrown errors with a message.
- The analysis in the save body is absent or present. A JSON `null` analysis is treated as absent, which is how the source's truthiness check treats it.
- The subscription query's row selection is not modelled. The query has no user filter and runs with the service-role key, so the status it returns is not tied to the caller; get-full-report takes that status as an input and the model does not relate it to the caller either.
- GetFullReport.Handle: `.single()` errors (no row, several rows, database failure) all give 404. A thrown error's 500 is not modelled, since no step of the model throws.
- CORS headers, console logging, the Vision request body and the language-model prompt text.
- React scheduling: stale closures, effect ordering beyond the two mount effects, and the real-time behaviour of `setInterval`. `Tick` is one discrete step.
- PhotoUpload: the FileReader (its data URL is a parameter), the `alert` dialogs, the file-input reset in `clearImage`, and the JSX.
- IconForCategory: `toLowerCase` is modelled on ASCII letters only.
- The sign-in/sign-up form, the checkout redirect, the success page and the subscription badge are not part of this model. The sign-out call is modelled only through what `handleSignOut` does after it.
- GlowApp.App.Mount: runs the two mount effects in the corrected order (see Findings). `MountScreenAsWritten` models the order as written.

## Findings

| source | as written | input that shows it | evidently intended | confidence | as-written member | corrected member |
|---|---|---|---|---|---|---|
| src/App.tsx:29-54 | the payment-return effect sets 'post-payment-auth', then the restore effect sets 'preview' whenever the stored analysis has time left, and the later update wins | load `/?payment_success=true` (the checkout success URL) with a ticket stored ten minutes earlier, i.e. expiresAt − now = 3000000 ms | a return from checkout opens the sign-up step, which saves the analysis and opens the plan | medium; not executed | GlowApp.MountScreenAsWritten | GlowApp.MountScreen |
