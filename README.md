# InviteFlow.ai core, modelled in Dafny

InviteFlow.ai turns a pasted event description into structured event data
with a language model, renders invitation cards in fourteen layouts, and lets
a user keep projects with guest lists. A FREE plan limits how many events a
user may keep and how many guests each event may hold. Upgrades go through a
hosted checkout whose payment webhook switches the user's plan.

This project models that core:

- **The server routes**, as handlers over an in-memory store (`Store.Db`, one
  map per collection plus a creation clock):
  - event listing and creation with the FREE-tier limits;
  - the payment webhook (product → plan name, payment upsert keyed by the
    provider's payment id, then the user's plan update);
  - sign-up with lazy seeding of the FREE and PAID plans, and log-in;
  - the profile read;
  - the name update;
  - the checkout URL;
  - the plan reset.
- **The event-extraction route and its client caller**: the fence strip,
  trim and brace slice applied to the model's reply, and the fallback records.
- **The client logic with statable behaviour**:
  - the guest list editor;
  - the workspace step machine and save handling;
  - the dashboard's create gate and handlers;
  - the card renderer's lookup tables and per-layout field sets;
  - the style picker's catalogues;
  - the event details form.

Route handlers that change the store are methods proved against a
specification function of the store's content (`(store.Snap(), r) ==
Spec(old(store.Snap()), …)`). The properties the application promises are
lemmas about those functions:

- a refusal changes nothing;
- the guest cap keeps a prefix;
- at most one payment exists per provider payment id;
- the webhook is idempotent.

The JavaScript built-ins the code relies on are modelled with their
ECMAScript semantics in `JsStrings`: `trim`, `indexOf`, `lastIndexOf`,
`substring` with its bound swap, `slice`, `split(' ')[0]`, `charAt(0)` and
`encodeURIComponent` (section 19.2.6.4 of ECMA-262).

Some operations are foreign. They are parameters of the model:

- the language-model call and `JSON.parse`;
- bcrypt hashing and comparison;
- JWT signing and verification;
- fetch replies;
- random ids.

## Model

| member | source | states |
|---|---|---|
| Store.FindBy | app/api/webhook/payment/route.ts:25-27 | `findUnique` on a unique column: a found id holds the key; None exactly when no row holds it |
| Store.FindByUnique | app/api/auth/route.ts:53-56 | on a unique column the lookup of a row's own key finds that row |
| Store.UniqueInsert | app/api/auth/route.ts:39-46 | adding a row with a new key value, or replacing a row by one with the same key, keeps the column unique |
| Store.Lookup | app/api/auth/route.ts:12-14 | the executable lookup agrees with `FindBy` |
| Store.Details | app/api/events/route.ts:44-47 | the included plan is present exactly when `planId` links an existing plan, and is that plan |
| Store.OwnedIds | app/api/events/route.ts:54 | the ids counted are exactly the events whose `userId` is the user's |
| Store.EventCountInsert | app/api/events/route.ts:71-90 | a fresh event raises its owner's count by one and leaves every other user's count alone |
| Store.FreshId | app/api/events/route.ts:71 | a new row id is not among the ids in use |
| Store.Db.constructor | app/api/events/route.ts:3 | the database client the handlers share, as model infrastructure: the store starts empty, with a valid invariant (unique email, plan name, product id, payment id; events stamped before the clock) |
| EventsRoute.NewestExists | app/api/events/route.ts:19 | every non-empty set of events has a newest member, so `orderBy createdAt desc` is well defined |
| EventsRoute.PartialStep | app/api/events/route.ts:12-28 | taking the newest remaining event keeps the listing's loop state: summaries of owned events, each once, newest first, none older than a remaining one |
| EventsRoute.Get | app/api/events/route.ts:5-30 | 401 without a session; otherwise exactly the caller's events, each once, newest first, each with the title as name, its date, status and number of guests |
| EventsRoute.ResolveLimits | app/api/events/route.ts:56-59 | free iff the plan string or the linked plan's name is "FREE"; limits 3 and 50 without a linked plan, the plan's own otherwise |
| EventsRoute.GuestsToSave | app/api/events/route.ts:65-69 | the saved guests are a prefix of the submitted ones; all of them unless a free user exceeds the cap; exactly `maxGuestsPerEvent` when cut |
| EventsRoute.CappedIff | app/api/events/route.ts:92 | `guestCountCapped` holds iff the user is free, over the cap, and something was dropped |
| EventsRoute.NonFreeUnlimited | app/api/events/route.ts:61-69 | a non-free user is never refused and never cut, whatever the counts and limits |
| EventsRoute.GuestRows | app/api/events/route.ts:84-87 | one row per saved guest with its name; a missing or empty email becomes "", a present one is kept |
| EventsRoute.Admission | app/api/events/route.ts:39-63 | 401 "Unauthorized" without a session, 404 "User not found" for an unknown user, 403 with the limit message when the resolved limits refuse, and admission otherwise, carrying the user and its limits |
| EventsRoute.Post | app/api/events/route.ts:37-92 | the store and reply are `PostSpec` of the old store with a fresh event id; the invariant is kept |
| EventsRoute.LimitRefusalChangesNothing | app/api/events/route.ts:54-63 | a free user at the event limit gets 403 "Free plan limit reached. Upgrade to Pro!" and the store is unchanged |
| EventsRoute.RefusalChangesNothing | app/api/events/route.ts:40-63 | every refusal (401, 404, 403) leaves the store as it was |
| EventsRoute.CreateAddsOneEvent | app/api/events/route.ts:66-92 | a create adds exactly one event and changes no other; the new row belongs to the caller and holds the submitted event data, template and customization, the default status and the current clock; the caller owns one more event and nobody else any; its guests are the saved prefix; `guestCountCapped` iff guests were dropped |
| EventsRoute.CreateIsNewest | app/api/events/route.ts:71-90 | the new event is later than every existing event, so it heads the listing, and the invariant holds |
| WebhookRoute.PlanName | app/api/webhook/payment/route.ts:25-29 | the plan name is never empty |
| WebhookRoute.PlanNameIs | app/api/webhook/payment/route.ts:25-29 | the plan name is the matching product's name when non-empty, "PAID" when no product has the id |
| WebhookRoute.Upsert | app/api/webhook/payment/route.ts:32-45 | the upsert never removes a payment, adds at most the one new id, and never changes the provider id of a payment stored under another id |
| WebhookRoute.UpsertChanges | app/api/webhook/payment/route.ts:32-45 | an existing payment with the provider id changes only its status, to "completed"; otherwise the new row (provider id, amount, currency, status, product id, user id) is added under the new id; no other payment changes |
| WebhookRoute.UpsertOnce | app/api/webhook/payment/route.ts:32-45 | after the upsert exactly one payment carries the provider id, with status "completed", and upserting again changes nothing |
| WebhookRoute.OtherEventsIgnored | app/api/webhook/payment/route.ts:11-65 | any other event type is acknowledged with no write |
| WebhookRoute.MissingUserIdRefused | app/api/webhook/payment/route.ts:17-22 | a succeeded payment without a user id gets 400 "Missing userId in metadata" with no write |
| WebhookRoute.DeliverUpdatesUser | app/api/webhook/payment/route.ts:25-62 | for a known user: the payment is recorded; the user's plan becomes the plan name; planId becomes that plan's id if one exists and is kept otherwise; the payments are exactly the upsert's result; no other user, plan, product, event or the clock changes |
| WebhookRoute.DeliverKeepsInv | app/api/webhook/payment/route.ts:32-59 | every delivery keeps the invariants; in particular at most one payment per provider payment id |
| WebhookRoute.DeliverIdempotent | app/api/webhook/payment/route.ts:11-65 | delivering the same notification twice gives the same store and reply as delivering it once |
| WebhookRoute.Post | app/api/webhook/payment/route.ts:4-69 | the store and reply are `Deliver` of the old store with a fresh payment id; the invariant is kept |
| AuthRoute.SessionCookie | app/api/auth/route.ts:50-64 | the cookie is "token", http-only, secure, same-site strict, 604800 seconds |
| AuthRoute.SignUpWithFreePlanCreatesNone | app/api/auth/route.ts:12-17 | with a FREE plan present no plan row is created, even when PAID is missing |
| AuthRoute.SeedPlans | app/api/auth/route.ts:11-36 | with fresh distinct ids, a FREE plan exists afterwards under the returned id and every old plan is kept |
| AuthRoute.SignUpSeedsPlans | app/api/auth/route.ts:17-36 | without FREE, FREE (3, 50, 0) is added and PAID (9999999, 9999999, 29) unless a PAID exists, whose failed create is swallowed; old plans are kept and names stay unique |
| AuthRoute.SignUpCreatesUser | app/api/auth/route.ts:10-71 | success iff the email is new; then exactly the new user is added, linked to the FREE plan, with the hash and the default plan string, and only id, name and email are returned; a taken email gets 400 "Email already exists" with no user added |
| AuthRoute.LogInFailuresAlike | app/api/auth/route.ts:53-60 | an unknown email and a wrong password get the same 401 "Invalid credentials" |
| AuthRoute.LogInSucceeds | app/api/auth/route.ts:53-65 | log-in succeeds iff the stored hash matches, and returns that user's id, name and email |
| AuthRoute.Post | app/api/auth/route.ts:6-73 | sign-up is `SignUp` of the old store with fresh ids, the plan ids also unused by any user's `planId`; log-in changes nothing and answers `LogIn`; the invariant is kept |
| MeRoute.Get | app/api/auth/me/route.ts:5-35 | 401 without a session, 404 for a missing user; otherwise id, name, email, plan, the linked plan row with its id (present exactly when `planId` links a plan) and the number of events the user owns |
| MeRoute.GetHidesPassword | app/api/auth/me/route.ts:25-34 | the reply does not depend on the stored password hash |
| UserUpdateRoute.BlankNameRefused | app/api/user/update/route.ts:20-24 | an all-whitespace name gets 400 "Name is required" with no write |
| UserUpdateRoute.RefusalChangesNothing | app/api/user/update/route.ts:11-41 | every refusal (401, 400, 500) leaves the store as it was |
| UserUpdateRoute.UpdateChangesOnlyName | app/api/user/update/route.ts:26-37 | on success only the caller's name changes, to the trimmed non-empty input; the reply is id, name, email and plan; the invariant holds |
| UserUpdateRoute.Update | app/api/user/update/route.ts:6-42 | the store and reply are `Patch` of the old store |
| CheckoutRoute.Post | app/api/payments/checkout/route.ts:5-24 | 401 without a user id; 500 "Pro Plan ID not configured" without a product id; success exactly when both are present, and then the provider URL with product and user id verbatim and the encoded return address |
| CheckoutRoute.RedirectIsOneValue | app/api/payments/checkout/route.ts:22 | the encoded return address holds no '&', '=', '?', '/' or ':', only unreserved characters and '%' |
| CheckoutRoute.DefaultBase | app/api/payments/checkout/route.ts:14 | an unset or empty base URL means "http://localhost:3000" |
| SeedRoute.Reset | app/api/seed/route.ts:7-25 | the new plan table has exactly the two new ids, FREE and PAID |
| SeedRoute.ResetHoldsTwoPlans | app/api/seed/route.ts:7-25 | afterwards exactly two plans exist, FREE (3, 50, 0) and PAID (9999999, 9999999, 29), with unique names |
| SeedRoute.ResetTwiceSameRows | app/api/seed/route.ts:7-25 | two resets give the same plan rows; only the ids differ |
| SeedRoute.ResetUnlinksUsers | app/api/seed/route.ts:7-25 | when the new ids are not ones users link, no user has an included plan after the reset: old links dangle and nobody is linked to the new rows |
| SeedRoute.Get | app/api/seed/route.ts:4-27 | the old plans are gone, the two new rows are the whole plan table under ids that no deleted plan had and no user's `planId` names, so every user's included plan is absent; nothing else changes, and the reply reports the new rows |
| JsStrings.TrimStartSpec | app/api/user/update/route.ts:28 | removing leading whitespace leaves a suffix, drops only whitespace and stops at a non-whitespace character |
| JsStrings.TrimEndSpec | app/api/user/update/route.ts:28 | removing trailing whitespace leaves a prefix, drops only whitespace and stops at a non-whitespace character |
| JsStrings.Trim | app/api/user/update/route.ts:28 | the result is the input minus whitespace at both ends and does not start or end with whitespace |
| JsStrings.TrimEmptyIff | app/api/user/update/route.ts:22 | a string trims to "" exactly when it is all whitespace |
| JsStrings.IndexFrom | app/api/analyze/route.ts:53 | the search from a start position gives -1 iff the character is absent from there on, else its first position from there |
| JsStrings.LastIndexBefore | app/api/analyze/route.ts:54 | the backward search below a bound gives -1 iff the character is absent below it, else its last position there |
| JsStrings.IndexOf | app/api/analyze/route.ts:53 | -1 iff the character is absent; otherwise its first position |
| JsStrings.LastIndexOf | app/api/analyze/route.ts:54 | -1 iff the character is absent; otherwise its last position |
| JsStrings.Substring | app/api/analyze/route.ts:57 | the slice between the clamped bounds, swapped when the start is larger |
| JsStrings.SliceTo | app/api/events/route.ts:68 | `slice(0, n)` is the prefix of length min(n, length), a negative n counting back |
| JsStrings.BeforeFirstSpace | components/CardPreview.tsx:281 | `split(' ')[0]` is the longest space-free prefix, ended by a space or the end |
| JsStrings.FirstChar | components/CardPreview.tsx:203 | `charAt(0)` is the first character, or "" for "" |
| JsStrings.EncodeUriComponent | app/api/payments/checkout/route.ts:22 | the encoding holds only unreserved characters and '%' and is never shorter than its input |
| JsStrings.EncodeUnreservedIdentity | app/api/payments/checkout/route.ts:22 | unreserved text is its own encoding |
| JsStrings.EncodeAppend | app/api/payments/checkout/route.ts:22 | encoding distributes over concatenation |
| JsStrings.EncodeIdentityOnlyIfUnreserved | app/api/payments/checkout/route.ts:22 | a string is its own encoding only if all of it is unreserved |
| AnalyzeRoute.FenceAt | app/api/analyze/route.ts:50 | a match never runs past the end and starts with a backtick or a newline followed by a backtick |
| AnalyzeRoute.StripFrom | app/api/analyze/route.ts:50 | the scan from a position never yields more characters than remain |
| AnalyzeRoute.StripFences | app/api/analyze/route.ts:50 | removing fences never lengthens the text |
| AnalyzeRoute.NoTickInFromAll | app/api/analyze/route.ts:50 | a stretch with no backtick at any position passes the position-by-position check |
| AnalyzeRoute.StripKeptRun | app/api/analyze/route.ts:50 | a backtick-free run not ending in a newline is copied as it stands, and scanning resumes after it |
| AnalyzeRoute.StripFencesNoBacktick | app/api/analyze/route.ts:50 | text without a backtick passes the fence removal unchanged |
| AnalyzeRoute.FencedTextStripped | app/api/analyze/route.ts:50 | a json fence around a backtick-free text is removed and nothing else |
| AnalyzeRoute.TrimKeeps | app/api/analyze/route.ts:50 | text that neither starts nor ends with whitespace trims to itself |
| AnalyzeRoute.ExtractWhole | app/api/analyze/route.ts:53-58 | text from a '{' to a '}' is its own extraction |
| AnalyzeRoute.Clean | app/api/analyze/route.ts:50 | the cleaned reply is never longer than the reply and neither starts nor ends with whitespace |
| AnalyzeRoute.ExtractJson | app/api/analyze/route.ts:53-58 | text missing either brace is left unchanged |
| AnalyzeRoute.ExtractJsonOrdered | app/api/analyze/route.ts:56-57 | when the first '{' precedes the last '}', the result runs from one to the other, starting with '{' and ending with '}' |
| AnalyzeRoute.ExtractJsonReversed | app/api/analyze/route.ts:57 | when the last '}' precedes the first '{', the result is the text strictly between them and holds no brace |
| AnalyzeRoute.ServerFallback | app/api/analyze/route.ts:69-77 | "New Event", "TBD" ×3, "casual", "Host", and a description that is the first min(100, length) characters of the raw text |
| AnalyzeRoute.Post | app/api/analyze/route.ts:4-79 | 400 without raw text; the placeholder with 200 without a key; otherwise the parsed reply with 200, or the fallback with 500 exactly when the call or the parse failed |
| AnalyzeRoute.NoKeyNoModelCall | app/api/analyze/route.ts:12-22 | without a key the answer does not depend on the model or the parser |
| AnalyzeRoute.FencedReplyReachesParser | app/api/analyze/route.ts:47-58 | a reply wrapped in a json fence reaches the parser as exactly the object text |
| GeminiService.ParseEventDetails | services/geminiService.ts:3-30 | an ok, decodable reply is returned unchanged; a thrown fetch, a non-ok reply or an undecodable body gives the fallback |
| GeminiService.ClientFallback | services/geminiService.ts:20-28 | for the same raw text the client fallback equals the server's 500 body, so it has the same fixed fields and the same 100-character description |
| GuestManager.AddGuest | components/GuestManager.tsx:17-30 | a blank name changes nothing; otherwise the list gains one pending guest with the name exactly as typed and empty email at the end, it becomes the preview, and the input clears |
| GuestManager.RemoveGuest | components/GuestManager.tsx:32-36 | the result is no longer, holds no guest with the id, and holds only guests of the input |
| GuestManager.RemoveConcat | components/GuestManager.tsx:34 | removal works guest by guest, so the kept guests keep their order |
| GuestManager.RemoveOne | components/GuestManager.tsx:34 | a single guest is dropped exactly when it has the id |
| GuestManager.RemoveAbsent | components/GuestManager.tsx:34 | an absent id leaves the list unchanged |
| GuestManager.RemoveIdempotent | components/GuestManager.tsx:34 | removing twice is removing once |
| GuestManager.RemoveKeepsOthers | components/GuestManager.tsx:34 | every guest with another id is kept |
| GuestManager.Upload | components/GuestManager.tsx:38-52 | with a file, five pending guests with the mock names are appended in order; without one nothing changes |
| GuestManager.MarkGenerated | components/GuestManager.tsx:57-63 | same length, every guest generated, nothing else changed |
| GuestManager.ExportSettles | components/GuestManager.tsx:57-63 | after the export every guest is generated and otherwise unchanged; exporting again changes nothing |
| GuestManager.Export | components/GuestManager.tsx:54-63 | the loop leaves the array equal to `MarkGenerated` of its old content |
| Workspace.ActivePreviewGuest | components/Workspace.tsx:49-50 | the chosen guest, else the first guest, else the demo guest "Alex Johnson" |
| Workspace.DownloadFileName | components/Workspace.tsx:86 | the guest's name (or "guest") followed by "-invitation.png" |
| Workspace.SaveEffects | components/Workspace.tsx:114-126 | navigation back iff the reply succeeded; any failed reply, 403 included, only alerts its error; a thrown fetch alerts its message; a success navigates back, preceded by the capped alert exactly when guests were cut |
| Workspace.SaveNavigatesLast | components/Workspace.tsx:118-124 | navigation, when it happens, is the last effect and happens once: every alert precedes it |
| Workspace.RefusedSaveStays | components/Workspace.tsx:114-117 | a refused save (403) alerts and never leaves the editor |
| Workspace.Editor.constructor | components/Workspace.tsx:20-37 | ANALYZE, no data, not reviewing, MINIMAL_POP, default/modern, no guests |
| Workspace.Editor.LeftPanel | components/Workspace.tsx:132-180 | at ANALYZE the editor iff reviewing with data, else the input; at STYLE the selector iff data; at BATCH the guest list |
| Workspace.Editor.DataParsed | components/Workspace.tsx:52-55 | the data is stored and review turns on; nothing else changes |
| Workspace.Editor.EditData | components/Workspace.tsx:139 | the data is replaced; nothing else changes |
| Workspace.Editor.ContinueToStyle | components/Workspace.tsx:140-143 | review off, step STYLE, so the editor is no longer shown |
| Workspace.Editor.GoTo | components/Workspace.tsx:157-206 | next, back and the Style and Batch tabs set only the step |
| Workspace.Editor.AnalyzeTab | components/Workspace.tsx:194-197 | ANALYZE with review on, so the editor shows iff there is data |
| Workspace.Editor.Save | components/Workspace.tsx:98-130 | no data: nothing sent and nothing happens; otherwise the current data, guests, template and customization are sent, a 403 opens the upgrade dialog, and the effects are `SaveEffects` |
| Dashboard.CreateBlocked | components/Dashboard.tsx:25 | blocking needs three or more projects, and a user whose plan string is FREE with three or more is always blocked |
| Dashboard.Page.constructor | components/Dashboard.tsx:16-22 | the page starts with the given user, no projects and the upgrade dialog closed |
| Dashboard.GateMatchesServer | components/Dashboard.tsx:24-28 | the client gate blocks iff the server would refuse, while the linked plan (if any) allows three events |
| Dashboard.GateDiffersForOtherLimits | components/Dashboard.tsx:25 | with a FREE plan allowing five events, three projects block the client while the server still accepts |
| Dashboard.Upgrade | components/Dashboard.tsx:32-45 | redirect iff the reply has a url, to that url; a url-less reply alerts its error or "Unknown error"; a thrown fetch alerts "An error occurred. Please try again." |
| Dashboard.PlanBadge | components/Dashboard.tsx:78 | the badge is never empty: the plan string when non-empty, "FREE" when it is empty |
| Dashboard.Page.CreateClick | components/Dashboard.tsx:24-30 | creation starts iff not blocked; when blocked the upgrade dialog opens |
| Dashboard.Page.LoadEvents | components/Dashboard.tsx:47-54 | the projects are the returned events, or [] |
| Dashboard.Page.UpdateUser | components/Dashboard.tsx:56-65 | a failed update throws and keeps the user; a successful one replaces it with the returned record |
| Dashboard.GateAfterUpdate | components/Dashboard.tsx:25-64 | after a name update the gate rests on the plan string alone |
| CardPreview.GetColors | components/CardPreview.tsx:13-23 | "default" and any unknown palette give the gray/black set |
| CardPreview.PalettesDistinct | components/CardPreview.tsx:13-23 | the six palettes give six different colour sets |
| CardPreview.GetFont | components/CardPreview.tsx:26-34 | classic → serif/sans, mono → mono/mono, playful → display/sans, anything else → sans/sans |
| CardPreview.Render | components/CardPreview.tsx:36-500 | the layout is the named template, MINIMAL_POP for any other name; the card shows exactly that layout's fields, each with its text |
| CardPreview.CoreFieldsAlwaysShown | components/CardPreview.tsx:51-500 | every layout shows the title, the guest's name and the date |
| CardPreview.LocationAndDescription | components/CardPreview.tsx:303-500 | location in every layout but ABSTRACT_GEO; description in every layout but MINIMAL_POP |
| CardPreview.UnknownIsMinimalPop | components/CardPreview.tsx:455-457 | an unknown template name renders exactly as MINIMAL_POP |
| CardPreview.CustomizationOnlyStyles | components/CardPreview.tsx:37-38 | customization changes only colours and fonts, never the layout or the texts shown |
| CardPreview.FixedStyleLayouts | components/CardPreview.tsx:379-453 | GLITCH_PUNK and FILM_NOIR render the same whatever the customization |
| CardPreview.WatermarkAndBadge | components/CardPreview.tsx:203-281 | the TYPO_SWISS watermark is the date before its first space; the CORPORATE_PRO badge is the host's first character, "" for an empty name |
| TemplateSelector.CatalogueIsComplete | components/TemplateSelector.tsx:16-31 | fourteen entries, every template exactly once |
| TemplateSelector.OptionsAreTheEnumerations | components/TemplateSelector.tsx:33-47 | the palette and font buttons are exactly the six palettes and four font styles, in order |
| TemplateSelector.WithPalette | components/TemplateSelector.tsx:112 | picking a palette changes only the palette |
| TemplateSelector.WithFont | components/TemplateSelector.tsx:131 | picking a font changes only the font style |
| TemplateSelector.Tiles | components/TemplateSelector.tsx:68-92 | one tile per catalogue entry, in order, marked iff it is the selected template |
| TemplateSelector.TilesMarkOne | components/TemplateSelector.tsx:72-90 | exactly one tile is marked, the selected template's |
| TemplateSelector.TilesIgnoreCustomization | components/TemplateSelector.tsx:72-90 | the tiles are the same whatever the current customization |
| TemplateSelector.TilePreviewUsesDefaults | components/TemplateSelector.tsx:72-90 | each micro preview is its template rendered for "Guest" in the default palette and modern font |
| EventDataEditor.HandleChange | components/EventDataEditor.tsx:14-20 | the changed control shows the new value and every other control its old one |
| EventDataEditor.ControlsListed | components/EventDataEditor.tsx:37-128 | every control is on the form, each under its own name |
| EventDataEditor.ControlsCoverRecord | components/EventDataEditor.tsx:35-137 | the controls cover the whole record: equal in every control means equal |
| EventDataEditor.ChangeLaws | components/EventDataEditor.tsx:14-20 | a second change of a control overrides the first; setting the shown value changes nothing |
| EventDataEditor.ToneOptionsAreTones | components/EventDataEditor.tsx:133-136 | the tone options are exactly formal, casual, playful and tech |
| Types.TemplateFromName | types.ts:18-33 | a parsed name belongs to that template; None when no template has the name |
| Types.TemplateNameRoundTrip | types.ts:18-33 | parsing a template's own name gives it back |
| Basics.OrDefault | app/api/events/route.ts:86 | a JavaScript or-default is the value when present and non-empty, the default otherwise |

## Left out

- The language-model call and `JSON.parse` are parameters (`ModelCall`, `parse`). The prompt text is not modelled.
- bcrypt and JWT are parameters. The password hash is an input, `matches` compares, `sign` builds a token, `verify` returns the claims or None. Token expiry is not modelled.
- Sessions in the events, profile and checkout routes are the decoded user id. A token without a user id is not modelled for the events and profile routes, where Prisma would receive an undefined filter.
- Malformed request bodies are not modelled: a body that is not JSON, or fields of the wrong type.
- Failures of the database itself are not modelled, so the following 500 paths are absent:
  - the events GET and POST catch;
  - sign-up errors other than the duplicate email;
  - the seed failure reply.
- WebhookRoute.Post: a missing product id or payment id is answered with 500 before any write. Prisma rejects an undefined unique filter, so the first lookup throws.
- WebhookRoute.Post: a missing amount or currency is not modelled; they are always given.
- WebhookRoute.Post: a user id unknown to the store gives 500 after the payment is already written, because the user update throws. There is no foreign key, so the payment stays.
- Concurrency is not modelled: the event-limit check and the create are not atomic, and two sign-ups can seed plans at the same time. Every handler runs sequentially.
- Random ids are either chosen by `Store.FreshId` or passed as parameters. `FreshId` avoids only the ids it is given: each caller passes the ids of the rows that exist, and plan ids also avoid every id a user's `planId` still names (`Store.LinkedPlanIds`), so a new plan never picks up a stale link. Ids of rows deleted earlier are not remembered, so the model does not promise a database's "never reuse an id" beyond that. Timestamps are a counter in the store.
- The schema file is not part of this model. The defaults for `User.plan` and `Event.status` are constants of the store (`userPlanDefault`, `eventStatusDefault`).
- The store does not enforce the `planId` relation: `SeedRoute.Get` leaves users' `planId` pointing at deleted plans, as the source does, and those users then have no included plan.
- Prices are integer cents (0 and 2900); the source stores floats, but no arithmetic is done on them.
- String lengths count Unicode scalar values, not UTF-16 code units. This affects `substring(0, 100)` only for characters outside the basic plane.
- EventsRoute.Post: the success reply carries the new event's id and `guestCountCapped`, not the whole created row; the row stored under that id is the one `CreateAddsOneEvent` describes.
- Guests are kept inside their event row, in creation order, rather than in a table of their own.
- GuestManager.Export models the shallow copy's shared guest objects as one array updated in place. The progress delays and the final alert are not modelled.
- Markup, CSS classes, animations, timers, alerts and navigation are left out. Alerts and navigation are returned as effect values where a handler's outcome depends on them.
- The image export and the download handler are left out, except for the file name.
- CardPreview.Render does not model which palette or font roles each layout uses; it records only whether the layout takes them.
- Workspace.SaveEffects: the capped alert always says 50, whatever the plan's guest limit, as the source does.
- Dashboard.GateMatchesServer: the client gate and the server agree only while the plan allows three events; `GateDiffersForOtherLimits` shows the other case.
- JsStrings.EncodeUriComponent: injectivity of the encoding is not proved. Lone surrogates, which make `encodeURIComponent` throw, cannot occur in Dafny strings.
- The per-event routes (`app/api/events/[id]`), logout and the per-event page are not part of this model.
