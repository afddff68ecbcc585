# QuickLinks core, modelled in Dafny

QuickLinks saves links from a browser. A Chrome extension offers a context-menu item, and on touch screens a long press on a link shows a floating "Save" button. The link goes to a Go API that stores it and scrapes its Open Graph metadata. A Next.js site lists the saved links and signs the extension in.

This project models the decision logic of that system and proves what it promises:

- **ConfigStore**: the extension's synchronised settings store. Its falsy-coalescing defaults and the removal of exactly the three auth keys.
- **Auth**: the session evaluator `getAuthState` and its two projections, plus `parseJwt`'s framing and base64url mapping.
  - The token framing is the JWS Compact Serialization of section 7.1 of RFC 7515.
  - The claims are `sub` and `exp` (sections 4.1.2 and 4.1.4 of RFC 7519).
  - The alphabet is base64url (section 5 of RFC 4648).
- **ApiClient**: the save request, the bearer header (section 2.1 of RFC 6750) and the classification of every fetch outcome into a result or an error message.
- **Background**: the built background script's message router, its save-auth and save-link handlers, and the context-menu handler.
- **WebAuthBridge**: the guard chain of the page-to-extension auth bridge.
- **Toast**: the content script's single-slot toast.
- **ContentScript**: the long-press and save-button state machine, including the viewport clamping.
- **LinksPage**: the web links page: tag parsing, reading the filters from the URL, and building the next URL.
- **ExtensionAuthRoute**: the `redirect_uri` validation of the extension sign-in routes.
- **LinksHandler**: the API's `POST /api/links` input guards and the `GET /api/links` query normalisation.
- **Metadata**: the metadata scraper's helpers and its decision to fall back to a reader proxy.

The shared modules are **Wrappers** (`Option`, `Result`), **Strings** (ASCII trimming, case, splitting, decimal digits) and **Seqs** (first-occurrence deduplication).

## How the model is built

- Code that updates state in place becomes a class whose methods state the whole new state:
  - the settings store is `ConfigStore.SyncStore`;
  - the toast slot is `Toast.ToastSlot`;
  - the content script's module variables are `ContentScript.PageAgent`;
  - the links page's form state is `LinksPage.FiltersPage`.
- Loops become methods with invariants, proved against a specification function: `LinksPage.BuildQuery` and `LinksHandler.NormalizeTags`. The Go tag loop is proved equal to the deduplication the web page uses.
- Everything the code only asks of the outside world is a parameter:
  - the clock is a single `now` reading per handler;
  - JSON and base64 decoding of a token payload is a partial function returning optional `sub` and `exp`. It has no result where decoding throws, and also where the payload is a falsy JSON value (`null`, `false`, `0`, `""`), because every caller tests `!payload`;
  - `new URL`, `url.Parse`, `time.LoadLocation` and `time.ParseInLocation` are partial functions;
  - the outcome of a fetch or a repository call is a value;
  - what the HTML parser and the two image regular expressions find in a page is a value.
- Event handlers that fire later (timers, animation frames, message replies) are separate methods, so that interleavings can be stated.

### The two save-auth message names

The web-auth bridge forwards `CLIPGEST_SAVE_AUTH` (extension/src/web-auth-bridge.ts:30). The built background router handles only `QUICKLINKS_SAVE_AUTH` (extension/dist/background.js:310). `WebAuthBridge.ForwardedKindIsNotRouted` proves that every message the bridge forwards falls outside the router's set, so the router leaves it unanswered. The model keeps both names as they are written.

The router modelled is the built `extension/dist/background.js`. Its TypeScript counterpart `extension/src/background.ts` has `LOGIN` and `LOGOUT` branches instead of the save-auth branch, and those call functions that `auth.ts` does not export.

## Model

| member | source | states |
|---|---|---|
| ConfigStore.ConfigOf | extension/dist/background.js:9-20 | each field is the stored value when that is truthy and the field's default otherwise; the API base URL is never empty |
| ConfigStore.EmptyStoreIsDefault | extension/dist/background.js:2-8 | an empty store reads as `DEFAULT_CONFIG` |
| ConfigStore.ClearedConfig | extension/dist/background.js:24-30 | after the auth keys are removed, the three auth fields read as their defaults and the two URL fields are unchanged |
| ConfigStore.SyncStore.SaveConfig | extension/dist/background.js:21-23 | one merged write; keys outside the update keep their values |
| ConfigStore.SyncStore.ClearAuthData | extension/dist/background.js:24-30 | removes exactly `clerkToken`, `clerkUserId` and `clerkTokenExpiresAt`; every other key and value is unchanged |
| Auth.Base64UrlToBase64 | extension/src/auth.ts:78 | maps only `-` to `+` and `_` to `/`, keeps the length, and leaves no `-` or `_` |
| Auth.Base64UrlAlphabetMapping | extension/src/auth.ts:78 | on base64url input the mapping yields base64 characters and is injective |
| Auth.Segments | extension/src/auth.ts:22 | `split(".")` yields one more segment than there are dots |
| Auth.ParseJwt | extension/src/auth.ts:73-90 | no second segment, or an empty one, gives null; a non-empty second segment gives exactly the decoder's result on that segment with `-` and `_` mapped back to `+` and `/` |
| Auth.Evaluate | extension/src/auth.ts:10-61 | authenticated exactly when both credentials are set, there are three segments, the token is not expired (strictly) and the payload has a `sub`; then the stored user id and token are returned and a zero expiry becomes null; the auth data is cleared exactly when credentials were present and the result is unauthenticated |
| Auth.ExpiryIsStrict | extension/src/auth.ts:33 | an expiry of 0, or one equal to the clock, is not expired |
| Auth.SubjectMayDiffer | extension/src/auth.ts:43-60 | a token whose `sub` differs from the stored user id is still accepted, and the stored user id is reported |
| Auth.ClearedStoreIsQuiet | extension/src/auth.ts:13-20 | after clearing, the evaluator reports unauthenticated and clears nothing further |
| Auth.EvaluateIsStable | extension/src/auth.ts:10-61 | evaluating again on the store the first evaluation leaves gives the same state and clears nothing |
| Auth.GetAuthState | extension/src/auth.ts:10-61 | returns the evaluator's state and clears the three auth keys exactly when the evaluator says so |
| Auth.IsAuthenticated | extension/src/auth.ts:63-66 | is the `isAuthenticated` field of `getAuthState`, with the same store effect |
| Auth.GetToken | extension/src/auth.ts:68-71 | is the `token` field of `getAuthState`, with the same store effect |
| ApiClient.Classify | extension/src/api.ts:50-108 | a transport failure gives the network message; 401 gives the session-expired message before any body is read; another non-ok status gives the body's truthy `error` or `HTTP <status> <statusText>`; an ok status succeeds exactly when the body is JSON, and otherwise gives the invalid-JSON message |
| ApiClient.UnauthorizedWinsOverBody | extension/src/api.ts:68-74 | a 401 gives the session-expired message whatever the body holds |
| ApiClient.HttpStatusMessageNamesStatus | extension/src/api.ts:95-98 | the fallback message starts with `HTTP ` followed by the decimal status |
| ApiClient.GetAuthHeaders | extension/src/api.ts:21-32 | fails without a token; otherwise returns the JSON content type and `Bearer <token>` |
| ApiClient.SaveLink | extension/src/api.ts:34-109 | fails with the not-authenticated message and no fetch when the session is invalid; otherwise posts to `apiBaseUrl + "/api/links"` and returns the classified outcome |
| Background.NormalizeBaseUrl | extension/dist/background.js:365-371 | a base URL is adopted exactly when its trim starts with `http://` or `https://`; the adopted form is the trim without its trailing `/` characters |
| Background.NormalizeKeepsScheme | extension/dist/background.js:365-371 | a base URL with something after the scheme keeps its scheme |
| Background.SaveAuthUpdates | extension/dist/background.js:339-371 | no truthy token gives "Missing token"; an undecodable payload or no user id gives "Invalid token"; it succeeds exactly when the token is truthy, the payload decodes and a user id resolves, and then the update holds the token, `userId` or else the payload's `sub`, `exp * 1000` or else `now` plus one hour, and the normalised base URL when one is adopted |
| Background.HandleSaveAuthMessage | extension/dist/background.js:339-381 | writes the planned update in one merged write, or nothing on an error; a failed write becomes a failure reply |
| Background.SaveAuthThenEvaluate | extension/dist/background.js:339-381 | a three-segment token with `sub` and `exp` that the handler stores is reported authenticated until its expiry |
| Background.SaveAuthDoesNotValidateFraming | extension/dist/background.js:345-349 | the handler stores a token without three segments, which the evaluator then rejects and clears |
| Background.SaveLinkReply | extension/dist/background.js:317-338 | unauthenticated gives the not-authenticated failure; otherwise success carries the response's id and a failure carries the classified error message |
| Background.HandleSaveLinkMessage | extension/dist/background.js:317-338 | checks the session first, then saves the message's url, title, page and note; the reply is `SaveLinkReply` |
| Background.ResolveUserId | extension/dist/background.js:346 | a resolved user id is never empty; a truthy `userId` in the message wins; otherwise there is one exactly when the payload has a truthy `sub`, and it is that `sub` |
| Background.ExpiryMillis | extension/dist/background.js:350-352 | a truthy `exp` gives a whole number of milliseconds that is `exp` seconds; otherwise the expiry is one hour after `now` |
| Background.OnMessage | extension/dist/background.js:295-316 | answers exactly the four routed types, each with its handler's result; `GET_CONFIG` and unrouted types leave the store alone; `CHECK_AUTH` and `SAVE_LINK` remove the three auth keys exactly when the session evaluation says so; `SAVE_AUTH` merges the planned update when it succeeds and the write does not fail, and otherwise leaves the store alone |
| Background.ToastTo | extension/src/background.ts:30-36 | a toast is sent exactly when the tab has a truthy id, and it goes to that tab with the given message and type |
| Background.PageOf | extension/src/background.ts:40 | `tab.url`, else `info.pageUrl`, else the empty string |
| Background.TitleOf | extension/src/background.ts:43 | the selection text when truthy, else the link's hostname or the URL parser's error |
| Background.OnContextMenuClicked | extension/src/background.ts:18-68 | ignores other menu items and clicks without a link; when unauthenticated it sends only the login toast and saves nothing; otherwise a link whose URL does not parse gives an error toast, and any other link is saved once, with the same POST request `saveLink` sends, and answered with a success or error toast; toasts go only to a tab with an id; past the early exits the store loses the three auth keys exactly when the session evaluation clears them |
| WebAuthBridge.Forward | extension/src/web-auth-bridge.ts:1-36 | forwards exactly when the event comes from the window itself, carries an object of the auth type, has the page's origin and a non-empty token; the forwarded message carries the fields unchanged |
| WebAuthBridge.ForwardedKindIsNotRouted | extension/src/web-auth-bridge.ts:28-35 | every forwarded message has a type the built router does not answer |
| Toast.ToastSlot.InjectStyles | extension/dist/content-script.js:40-46 | styles are added at most once |
| Toast.ToastSlot.ShowToast | extension/dist/content-script.js:47-56 | removes any current toast, then attaches exactly one toast with class `quicklinks-toast <type>`; the type defaults to `success` and the duration to 3000 |
| Toast.ToastSlot.AnimationFrame | extension/dist/content-script.js:57-59 | the captured toast becomes visible if it is still attached |
| Toast.ToastSlot.FadeOut | extension/dist/content-script.js:60-61 | the captured toast loses `visible` |
| Toast.ToastSlot.Cleanup | extension/dist/content-script.js:62-69 | detaches the captured toast and clears the slot only if it still holds that toast |
| Toast.ToastSlot.OnRuntimeMessage | extension/dist/content-script.js:251-256 | a `QUICKLINKS_TOAST` message shows its text with the type defaulting to `info`; any other message changes nothing |
| ContentScript.FindLinkElement | extension/src/content-script.ts:61-73 | a link is found exactly when the target is an element inside an anchor whose href is non-empty, does not start with `javascript:` and is not `#` |
| ContentScript.ButtonPosition | extension/src/content-script.ts:84-98 | left and top are at least 10; they are at most `innerWidth - 110` and `innerHeight - 50` when the viewport allows it; a position that fits is not moved; one past the far edge lands on that edge, or on 10 when the viewport is too small; one before the near edge lands on 10 |
| ContentScript.TitleOf | extension/src/content-script.ts:144 | the trimmed link text when non-empty, else the href |
| ContentScript.SaveRequest | extension/src/content-script.ts:141-146 | a `SAVE_LINK` message that the background handler reads back as the link's href, title and page with no note |
| ContentScript.OutcomeOf | extension/src/content-script.ts:141-148 | a success reply is read as success and a failure reply keeps its error |
| ContentScript.ToastFor | extension/src/content-script.ts:148-155 | success shows the saved message; a failure shows the reply's truthy error, else the generic failure message, as an error |
| ContentScript.HandlerErrorIsShown | extension/src/content-script.ts:151 | a failure the background reports with a message is shown with that message |
| ContentScript.PageAgent.CancelLongPress | extension/src/content-script.ts:169-174 | no press timer is pending afterwards; nothing else changes |
| ContentScript.PageAgent.StartLongPress | extension/src/content-script.ts:161-167 | any earlier timer is cancelled, and exactly one timer is pending, for this press |
| ContentScript.PageAgent.OnMouseDown | extension/src/content-script.ts:194-201 | only the primary button on a qualifying link arms a timer |
| ContentScript.PageAgent.OnTouchStart | extension/src/content-script.ts:176-184 | the first touch on a qualifying link arms a timer; no touch or no link changes nothing |
| ContentScript.PageAgent.RemoveSaveButton | extension/src/content-script.ts:120-126 | afterwards there is no button, no target link and no button in the page |
| ContentScript.PageAgent.ShowSaveButton | extension/src/content-script.ts:75-118 | removes any button, then attaches exactly one at the clamped position and records it with its link; styles are injected once |
| ContentScript.PageAgent.OnPressTimer | extension/src/content-script.ts:164-166 | a pending timer shows the button for its press; a cleared timer does nothing |
| ContentScript.PageAgent.OnDismissTimeout | extension/src/content-script.ts:113-117 | removes the button only if it is still the current one |
| ContentScript.PageAgent.OnDocumentClick | extension/src/content-script.ts:211-216 | a click anywhere but on the save button removes it |
| ContentScript.PageAgent.OnSaveClick | extension/src/content-script.ts:128-146 | does nothing without a target link and a button; otherwise marks the button as saving and sends the save request for the target link |
| ContentScript.PageAgent.OnSaveSettled | extension/src/content-script.ts:147-158 | shows the toast for the outcome and removes the button whatever the outcome |
| LinksPage.Fields | web/src/app/links/LinksPageClient.tsx:12-15 | the pieces between runs of white space and commas, none empty and none containing a separator |
| LinksPage.FieldsOfWord | web/src/app/links/LinksPageClient.tsx:12-15 | a non-empty string without a separator is its own single field |
| LinksPage.FieldsSplit | web/src/app/links/LinksPageClient.tsx:12-15 | a separator splits the input: the fields of `a + c + b` are the fields of `a` followed by those of `b` |
| LinksPage.ParseTagsInput | web/src/app/links/LinksPageClient.tsx:9-18 | the tags are the fields of the input deduplicated in first-occurrence order: no empty tag, no duplicate, no tag with white space or a comma, every tag trimmed |
| LinksPage.ParseJoinedTags | web/src/app/links/LinksPageClient.tsx:53 | parsing the `", "`-joined tags the form shows gives the tags back |
| LinksPage.JoinTags | web/src/app/links/LinksPageClient.tsx:53 | `tags.join(", ")`; `FieldsOfJoin` is its partner |
| LinksPage.FieldsOfJoin | web/src/app/links/LinksPageClient.tsx:53 | the fields of the joined tags are the tags |
| LinksPage.Get | web/src/app/links/LinksPageClient.tsx:25-27 | `searchParams.get` returns a value of a parameter of that name, and nothing only when there is none |
| LinksPage.GetAll | web/src/app/links/LinksPageClient.tsx:28-29 | `searchParams.getAll` returns values of parameters of that name |
| LinksPage.GetAppend | web/src/app/links/LinksPageClient.tsx:25-29 | `get` prefers the earlier part of a query, and `getAll` concatenates both parts |
| LinksPage.NumberOf | web/src/app/links/LinksPageClient.tsx:34 | a blank string is 0 and a string of digits is its decimal value |
| LinksPage.FiftyIsFifty | web/src/app/links/LinksPageClient.tsx:33 | the default `"50"` reads as 50 |
| LinksPage.ActiveLimit | web/src/app/links/LinksPageClient.tsx:33-37 | the limit is within 1 to 100; a finite number is clamped into it; a non-finite one and a missing one give 50 |
| LinksPage.ActiveOf | web/src/app/links/LinksPageClient.tsx:24-46 | from, to and domain are the parameters or empty; the tags are trimmed and non-empty; the limit is in range, and 50 without a `limit` parameter |
| LinksPage.ActiveReadsQuery | web/src/app/links/LinksPageClient.tsx:28-37 | the active tags are exactly the trimmed non-blank `tag` values in order, and the active limit is `ActiveLimit` of the `limit` parameter |
| LinksPage.ActiveKeepsTags | web/src/app/links/LinksPageClient.tsx:28-31 | every `tag` parameter with a non-blank value appears, trimmed, among the active tags |
| LinksPage.ActiveKeepsDuplicates | web/src/app/links/LinksPageClient.tsx:28-31 | tags read from the URL are not deduplicated: `dev` and ` dev` give two `dev` |
| LinksPage.GetTagParams | web/src/app/links/LinksPageClient.tsx:91 | the appended parameters give back exactly the tags, in order, and no other name |
| LinksPage.LimitReadBack | web/src/app/links/LinksPageClient.tsx:84 | a limit in range other than 50, written with `String`, reads back as itself |
| LinksPage.GetSetIfPresent | web/src/app/links/LinksPageClient.tsx:86-88 | a filter is set exactly when its input is non-empty |
| LinksPage.ReadBackFrom | web/src/app/links/LinksPageClient.tsx:86 | the built query carries `from` exactly when the input is non-empty |
| LinksPage.ReadBackTo | web/src/app/links/LinksPageClient.tsx:87 | the built query carries `to` exactly when the input is non-empty |
| LinksPage.ReadBackDomain | web/src/app/links/LinksPageClient.tsx:88 | the built query carries `domain` exactly when the input is non-empty |
| LinksPage.ReadBackTags | web/src/app/links/LinksPageClient.tsx:90-91 | the built query's `tag` values are the tags in order |
| LinksPage.ReadBackLimit | web/src/app/links/LinksPageClient.tsx:84 | the built query reads back the limit, whether or not it was written |
| LinksPage.ReadBackFilters | web/src/app/links/LinksPageClient.tsx:80-95 | reading back a built query gives exactly the filters it was built from |
| LinksPage.ApplyUnchangedForm | web/src/app/links/LinksPageClient.tsx:50-95 | applying the form as the page first fills it reproduces the active filters |
| LinksPage.BuildQuery | web/src/app/links/LinksPageClient.tsx:81-91 | the loop builds the filter query: limit only when not 50, non-empty from, to and domain, then one `tag` per tag in order |
| LinksPage.FiltersPage.constructor | web/src/app/links/LinksPageClient.tsx:50-53 | the inputs start as the active filters, with the tags joined by `", "` |
| LinksPage.FiltersPage.ApplyFilters | web/src/app/links/LinksPageClient.tsx:80-95 | the next query is built from the kept limit, the inputs and the parsed tags; the inputs are unchanged |
| LinksPage.FiltersPage.ClearFilters | web/src/app/links/LinksPageClient.tsx:97-103 | empties all four inputs and leaves an empty query |
| ExtensionAuthRoute.CheckRedirect | web/src/app/extension-auth/start/route.ts:7-21 | a missing `redirect_uri` is 400 "Missing redirect_uri"; one without `https://` at the start, without `chromiumapp.org` anywhere, or that does not parse is 400 "Invalid redirect_uri"; otherwise the parsed URL |
| ExtensionAuthRoute.Start | web/src/app/extension-auth/start/route.ts:3-34 | a valid URI redirects to `<origin>/sign-in` whose `redirect_url` is `<origin>/extension-auth/after-sign-in` carrying the URI; an invalid one gives the check's error |
| ExtensionAuthRoute.AfterSignInRoute | web/src/app/extension-auth/after-sign-in/route.ts:4-38 | the same check; no user redirects to sign-in; no token is 500 "Failed to obtain token"; otherwise it redirects to the URI with the token as `jwt` |
| ExtensionAuthRoute.StartThenAfterSignIn | web/src/app/extension-auth/after-sign-in/route.ts:35-37 | chaining the routes: when the start route's serialised URL passes the check and parses to itself, after-sign-in sends a user with a token to exactly that URL |
| ExtensionAuthRoute.SubstringIsNotHost | web/src/app/extension-auth/start/route.ts:12 | a URI on any host passes the check once `chromiumapp.org` appears in its path |
| LinksHandler.IsLinkInput | api/internal/handler/links.go:55-92 | an input it accepts has a description of at most 2000 characters that starts the trimmed request description, and an image that is empty or an absolute http or https URL with a host |
| LinksHandler.NormalizeLinkInput | api/internal/handler/links.go:55-92 | the domain is the host without one leading `www.`; the description is the trim when it has at most 2000 characters, and otherwise its first 2000 characters; the image is kept only as an absolute http or https URL with a host; missing tags become an empty list |
| LinksHandler.CreateLink | api/internal/handler/links.go:36-100 | 401 without a user; 400 for a bad body or a URL with no host; otherwise the repository gets the normalised input, and its result becomes the id or a 500 |
| LinksHandler.Atoi | api/internal/handler/links.go:112 | succeeds exactly on an optional `+` or `-` followed by at least one digit; the value is the digits' decimal value, negated after `-` |
| LinksHandler.Limit | api/internal/handler/links.go:110-115 | the limit is the parameter when it is an integer within 1 to 100, and 50 otherwise |
| LinksHandler.NormalizeTags | api/internal/handler/links.go:174-190 | the loop's result is the trimmed, non-empty tags deduplicated in first-occurrence order |
| LinksHandler.NormalizeStep | api/internal/handler/links.go:178-188 | one loop step skips a blank or already-seen tag and appends a new one |
| LinksHandler.NormalizedTags | api/internal/handler/links.go:174-190 | the normalised tags are distinct, trimmed and non-empty, include every non-blank input, and keep first-occurrence order |
| LinksHandler.NormalizeTagsIdempotent | api/internal/handler/links.go:174-190 | normalising normalised tags changes nothing |
| LinksHandler.QueryTags | api/internal/handler/links.go:174-190 | the `tag` values, trimmed, without blanks and deduplicated in first-occurrence order |
| LinksHandler.DateRange | api/internal/handler/links.go:138-169 | a `from` that does not parse is 400 `invalid from`, then a `to` that does not parse is 400 `invalid to`, then `from` after `to` is 400 `invalid range`; otherwise `from` is the parsed day and `to` the day after the parsed one, each present exactly when given |
| LinksHandler.GetLinks | api/internal/handler/links.go:102-209 | checks in order, each with its exact reply: 401 without a user; 400 `invalid tz` for a zone that does not load; 400 `invalid from` and `invalid to` for a date that does not parse; 400 `invalid range` when `from` is after `to`; a filter is built exactly when every check passes, with the clamped limit, `to` made exclusive, the trimmed domain without `www.`, and the tags normalised when any are given |
| Seqs.FirstOccurrences | web/src/app/links/LinksPageClient.tsx:10-17 | `Array.from(new Set(...))`: distinct, with the same elements as its input, and no longer |
| Seqs.FirstOccurrencesOrder | web/src/app/links/LinksPageClient.tsx:10-17 | the deduplicated elements keep the order of their first occurrences |
| Seqs.FirstOccurrencesIdempotent | api/internal/handler/links.go:174-190 | deduplicating twice is deduplicating once |
| Strings.JoinSplit | extension/src/auth.ts:22 | joining the pieces of a split with the separator gives the string back |
| Strings.TrimToLower | api/internal/service/metadata.go:58 | lower-casing commutes with trimming |
| Metadata.FirstNonEmptyFrom | api/internal/service/metadata.go:164-172 | the loop's stopping point: the position it returns holds a value whose trim is non-empty and every value before it trims to empty; with no such value it is the number of values |
| Metadata.FirstNonEmpty | api/internal/service/metadata.go:164-172 | the trim of the first value whose trim is non-empty, and `""` when there is none |
| Metadata.FirstNonEmptyIsFirst | api/internal/service/metadata.go:164-172 | the result is empty exactly when every value trims to empty |
| Metadata.FirstNonEmptyKeepsFirst | api/internal/service/metadata.go:144-145 | a value already found is kept, and an empty one is replaced by the trimmed later value |
| Metadata.MergePreferExisting | api/internal/service/metadata.go:62-79 | each of title, description and image comes from the primary when non-empty and from the fallback otherwise; the source comes from the primary |
| Metadata.LooksLikeBotChallenge | api/internal/service/metadata.go:57-60 | the trimmed, lower-cased title contains `just a moment`, `attention required` or `cloudflare`; so a title whose trim is shorter than `cloudflare` is never a challenge |
| Metadata.BotChallengeIgnoresCase | api/internal/service/metadata.go:57-60 | the bot-challenge test gives the same answer for a title and its lower-case form |
| Metadata.BotChallengeIgnoresPadding | api/internal/service/metadata.go:57-60 | the bot-challenge test gives the same answer for a title and its trim |
| Metadata.GetMeta | api/internal/service/metadata.go:104-113 | the trimmed `property` attribute when it is non-blank, and otherwise the trimmed `name` attribute |
| Metadata.FirstTitleFrom | api/internal/service/metadata.go:197-203 | the loop's stopping point: the line it returns is a title line and no earlier line is one; with none it is the number of lines |
| Metadata.FirstTitle | api/internal/service/metadata.go:197-203 | the trimmed text after `Title:` on the first line whose trim starts with `Title:`, even when it is empty; `""` with no such line |
| Metadata.FirstTitleAtStart | api/internal/service/metadata.go:197-203 | a title line at the start decides the title |
| Metadata.ParseJinaTitle | api/internal/service/metadata.go:196-204 | the title of the body's lines split at `\n`; always trimmed |
| Metadata.JinaTitleRoundTrip | api/internal/service/metadata.go:196-204 | a body whose first line is `Title: <t>` gives `t` |
| Metadata.ExtractFirstImageUrl | api/internal/service/metadata.go:211-219 | the Markdown image match wins over the bare match; trailing `)` are removed; with neither the result is empty |
| Metadata.ResolveMaybeRelativeUrl | api/internal/service/metadata.go:174-194 | a blank URL gives the empty string; an absolute one, or one where either URL does not parse, is returned trimmed; otherwise it is resolved against the base |
| Metadata.FetchAndParse | api/internal/service/metadata.go:99-148 | the description and image come from the HTML tags; when no image is found, the proxy title fills only an empty title and the image comes from the text; the source is empty |
| Metadata.NeedsProxy | api/internal/service/metadata.go:41 | the proxy is needed for a non-200 status, a bot-challenge title, or all three fields empty; a 200 result whose trimmed title is non-empty and shorter than `cloudflare` is trusted |
| Metadata.FetchMetadata | api/internal/service/metadata.go:25-55 | a direct-fetch error is returned; the proxy `https://r.jina.ai/<target>` is asked exactly when the status is not 200, the title looks like a bot challenge, or all three fields are empty; a proxy failure returns the direct result unchanged; a proxy success is merged preferring the direct values, with source `jina`; otherwise the source is `direct` |

## Left out

- Text is ASCII as far as trimming, lower-casing and the `\s` of tag splitting go. JavaScript's and Go's Unicode white space and case mapping are not modelled.
- LinksHandler.NormalizeLinkInput: a character stands for a byte, so the description is cut at 2000 characters, where Go cuts at 2000 bytes and may split a UTF-8 sequence.
- ContentScript.ButtonPosition: mouse and touch coordinates and the viewport size are integers, where JavaScript passes doubles. Fractional positions and their rounding are not modelled.
- Auth.ParseJwt: the decoded claims are an optional string `sub` and an optional integer `exp`. A truthy non-string `sub`, or an `exp` that is not a number, cannot be represented; the decoder parameter reports such claims as absent.
- Time is a single clock reading per handler. The 15 s and 10 s fetch timeouts, the 5 s repository timeouts, and the 500 ms, 5000 ms, 300 ms and toast-duration timers are events, not durations.
- JSON parsing, `atob`, `decodeURIComponent`, `new URL`, `url.Parse`, `ResolveReference`, `time.LoadLocation` and `time.ParseInLocation` are parameters. So are the two image regular expressions and goquery's HTML parsing. Dates are day numbers.
- Runtime messages are objects whose fields are strings. A field of another type (a number `exp` in a message, a non-string `apiBaseUrl`) is modelled as absent.
- ApiClient.Classify: the response body's `error` and `id` are read only as strings. A field of another JSON type reads as absent, so `{"error": 42}` gives `HTTP <status> <statusText>` where the page shows "42", and a numeric `id` is not passed on.
- Stored values of the wrong type are not modelled: the store keeps strings under the string keys and a number under the expiry key.
- LinksPage.NumberOf: models `Number()` only for blank strings, optionally signed decimal integers and `Infinity`. Fractions, exponents and hexadecimal are treated as NaN, because floating point is not modelled.
- LinksPage.ActiveLimit: inherits that restriction, so `limit=1.5` or `limit=1e2` give 50 in the model, while the page gives 1.5 and 100.
- LinksHandler.Limit: `strconv.Atoi` overflow is not modelled. An out-of-range integer gives 50 either way.
- The `href` of an anchor is taken as the browser has resolved it. URL resolution, which decides when an `href="#"` reads back as `#`, is not modelled.
- Percent-encoding of query parameters and `URLSearchParams.toString()` are not modelled. The query is the list of parameters.
- The `/links` versus `/links?…` choice of `router.replace`, the rendering of the links list, and the `useLayoutEffect` that re-syncs the inputs when the URL changes are left out, because they are presentation.
- The `LOGIN` and `LOGOUT` branches of `extension/src/background.ts` are left out, because they call functions the auth module does not define.
- The options page is not part of this model. It is status-text UI, and its storage code duplicates the background script.
- Logging, CSS, element styles and class names other than the toast type and the saving state are left out.
- The HTTP client, its browser-like request headers and the 2 MB body cap of the metadata fetch are left out, because they do not affect the decisions modelled.
- `getMeta`'s escaping of `'` in selector keys is left out, because all keys are constants without quotes.
- The repository layer (`api/internal/db/ent.go`) is not part of this model. Its insert and list results are parameters.
