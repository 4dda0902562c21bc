# Padmalaya: the lead pipeline and the site's navigation, modelled in Dafny

Padmalaya is the website of a real-estate developer. This project models the parts of it that
take decisions:

- **the `submit-lead` edge function** (`supabase/functions/submit-lead/index.ts`): it receives an
  enquiry and decides in order:
  - the CORS headers for the request's origin;
  - the preflight;
  - the method;
  - the JSON body;
  - field validation (every faulty field reported);
  - the bot check;
  - two sliding-window rate limits, by address and by client IP;
  - the insert of a normalised row.
- **the enquiry form** (`src/components/LeadForm.tsx`): its own field checks, the body it posts, the
  success/error states and the 60-second cooldown after a successful submission.
- **the input sanitizers** (`src/lib/sanitize.ts`): the four-pattern safety check and the name,
  phone and email cleaners.
- **the URL helpers** (`src/lib/utils.ts`): the WhatsApp chat link and the rewriting of Google
  Drive share links into thumbnail links.
- **the hash router** (`src/App.tsx`): path-to-hash redirects, page selection from
  `#/<page>[/<slug>]`, navigation, and which screen each page shows.
- **the admin lead list** (`src/components/LeadsManager.tsx`): the search and filters, the
  per-status counts, status updates and reloads.
- **the project gallery** (`src/pages/ProjectDetail.tsx`): the grouping of images by category
  and the lightbox with wrap-around stepping and keyboard control.
- **the project list** (`src/pages/Projects.tsx`): the status filter, the empty-list message and
  the navigation a card triggers.

Modules follow the source files:

| module | models |
|---|---|
| `SubmitLead` | the endpoint |
| `LeadForm` | the form |
| `Sanitize` | the sanitizers |
| `Utils` | the URL helpers |
| `Routes` | the router |
| `LeadsManager` | the lead list |
| `ProjectDetail` | the gallery |
| `Projects` | the project list |

Four shared modules support them:

- Types: the enumerations of `src/lib/types.ts` and their wire names.
- Patterns: the regular expressions that the endpoint, the form and the sanitizers share.
- Fragment: what the browser makes of a string assigned to `window.location.hash`, the
  fragment percent-encoding of the WHATWG URL Standard (the fragment state of its
  basic URL parser).
- `Text` and `Seqs`: JavaScript string operations (`trim`, ASCII `toLowerCase`, `includes`) and
  `Array.prototype.filter` with its lemmas.

Where the source keeps state in place, the model is a class whose methods are tied, through a
ghost `View()`, to a pure transition function:

- a React component's `useState` variables;
- the router's browser location;
- the `leads` table behind the endpoint.

The lemmas are stated about those functions.

External services become parameters:

- the Supabase queries' answers;
- the Turnstile verdict;
- the clock;
- DOMPurify;
- `encodeURIComponent`;
- the result of `fetch`.

## Model

| member | source | states |
|---|---|---|
| Types.ContactTimeName | supabase/functions/submit-lead/index.ts:46 | each contact time has one of the four accepted wire names |
| Types.ParseContactTime | supabase/functions/submit-lead/index.ts:46 | a string is accepted exactly when it is one of the four names, and parsing is the inverse of naming |
| Types.InterestName | supabase/functions/submit-lead/index.ts:45 | each interest has one of the four accepted wire names |
| Types.ParseInterest | supabase/functions/submit-lead/index.ts:45 | accepted exactly on the four names, inverse of naming |
| Types.HeardFromName | supabase/functions/submit-lead/index.ts:47-50 | each source has one of the eight accepted wire names |
| Types.ParseHeardFrom | supabase/functions/submit-lead/index.ts:47-50 | accepted exactly on the eight names, inverse of naming |
| Types.StatusName | src/lib/types.ts:78 | each lead status has a non-empty wire name among `new`, `contacted`, `qualified`, `closed` |
| Types.WireNamesRoundTrip | src/lib/types.ts:74-76 | every enumeration value is recovered from its wire name |
| Types.StatusNameInjective | src/lib/types.ts:78 | distinct statuses have distinct names, so the status filter selects one status |
| Patterns.NoAngleNoTag | supabase/functions/submit-lead/index.ts:84 | a string without `<` never matches the tag pattern `<[^>]*>` |
| Patterns.DomainChars | supabase/functions/submit-lead/index.ts:51 | a domain matched by `EMAIL_REGEX` is made of domain characters only |
| Patterns.EmailChars | supabase/functions/submit-lead/index.ts:51 | an address matching `EMAIL_REGEX` is local-part characters around exactly one `@` |
| Patterns.EmailShape | supabase/functions/submit-lead/index.ts:51 | a matching address has one `@`, no whitespace at its ends and no tag |
| Patterns.EmailLowerCased | supabase/functions/submit-lead/index.ts:321 | lower-casing a matching address keeps it matching, so the normalised address stored is still valid |
| Patterns.PhoneShape | supabase/functions/submit-lead/index.ts:122-125 | a phone number with 7-15 digits after removing separators is made of phone characters only and has no tag |
| SubmitLead.GetCorsHeaders | supabase/functions/submit-lead/index.ts:28-43 | the allowed methods and headers are fixed; the origin header is the request's own origin or the first listed one |
| SubmitLead.CorsAdmission | supabase/functions/submit-lead/index.ts:5-43 | the request's origin is reflected exactly when it is listed or a `padmalaya-*.vercel.app` preview, and otherwise the first listed origin is sent |
| SubmitLead.PayloadErrorsInOrder | supabase/functions/submit-lead/index.ts:76-162 | `validatePayload`'s list is the reports of all fields in order |
| SubmitLead.ReportsFor | supabase/functions/submit-lead/index.ts:77-159 | among the first k checks, a field is reported once when its check failed and never otherwise |
| SubmitLead.ReportsEmpty | supabase/functions/submit-lead/index.ts:77-159 | the reports are empty exactly when none of the checks failed |
| SubmitLead.NameRule | supabase/functions/submit-lead/index.ts:80-96 | the name check passes exactly when the name is a string whose trimmed form has 2-100 characters of the name class, no tag and no SQL phrase |
| SubmitLead.EmailRule | supabase/functions/submit-lead/index.ts:99-110 | the email check passes exactly when the trimmed address has no tag and matches `EMAIL_REGEX` |
| SubmitLead.PhoneRule | supabase/functions/submit-lead/index.ts:113-129 | the phone check passes exactly when the trimmed number has no tag, 7-15 digits once separators are removed, and only phone characters |
| SubmitLead.MessageRule | supabase/functions/submit-lead/index.ts:144-152 | the message check passes exactly when the message is absent or empty, or at most 1000 characters without a script marker |
| SubmitLead.CheckMatchesRule | supabase/functions/submit-lead/index.ts:80-159 | each field's check passes exactly when the field keeps its rule |
| SubmitLead.EachFieldReportedOnce | supabase/functions/submit-lead/index.ts:76-162 | validation is not fail-fast: every broken field is reported exactly once, every valid field never |
| SubmitLead.ChecksMatchRules | supabase/functions/submit-lead/index.ts:80-159 | all field checks agree with their rules at once |
| SubmitLead.AllChecksPass | supabase/functions/submit-lead/index.ts:80-159 | all checks pass exactly when every rule holds |
| SubmitLead.ChecksInFieldOrder | supabase/functions/submit-lead/index.ts:80-159 | the check outcomes, read by position, are the checks of the fields in source order |
| SubmitLead.PayloadErrorsEmpty | supabase/functions/submit-lead/index.ts:76-162 | the error list is empty exactly when the payload keeps every rule |
| SubmitLead.ValidatePayload | supabase/functions/submit-lead/index.ts:76-162 | the pushes build exactly the list above |
| SubmitLead.PhoneCharsBranchUnreachable | supabase/functions/submit-lead/index.ts:125-126 | the "invalid characters" phone error is never produced |
| SubmitLead.GetClientIp | supabase/functions/submit-lead/index.ts:164-170 | a client address, when found, is never empty |
| SubmitLead.ClientIpChoice | supabase/functions/submit-lead/index.ts:164-170 | the first trimmed `x-forwarded-for` entry wins when non-empty, otherwise a non-empty `x-real-ip`, otherwise none |
| SubmitLead.FirstHop | supabase/functions/submit-lead/index.ts:166 | the first forwarded entry has no comma and is trimmed |
| SubmitLead.RateLimitDecision | supabase/functions/submit-lead/index.ts:217-259 | a request is limited exactly when the address already has 3 enquiries in 24 hours or the client IP has 5 in an hour; the address window is checked first and its reason wins |
| SubmitLead.CountAppend | supabase/functions/submit-lead/index.ts:222-246 | an appended row raises a window count by one exactly when it matches |
| SubmitLead.HandleInsertOutcome | supabase/functions/submit-lead/index.ts:340-385 | past the gates the answer is 201 with the row written, or 500 with nothing written |
| SubmitLead.HandleInsertStored | supabase/functions/submit-lead/index.ts:340-350 | the row written for a valid payload is normalised and keeps every rule |
| SubmitLead.HandleValidGates | supabase/functions/submit-lead/index.ts:315-338 | for a valid payload: 403 exactly when the bot check fails, 429 exactly when it passes and the rate limit applies |
| SubmitLead.HandlePayloadGates | supabase/functions/submit-lead/index.ts:307-338 | 422 exactly when the payload is invalid, with every fault listed; then 403; then 429 |
| SubmitLead.HandlePayloadResponses | supabase/functions/submit-lead/index.ts:307-385 | after parsing, every answer is JSON with the CORS headers and a known status, and a row is written exactly with 201 |
| SubmitLead.HandleResponses | supabase/functions/submit-lead/index.ts:283-387 | every response carries the origin's CORS headers; the preflight gets 200 without a body; a row is written exactly with 201 |
| SubmitLead.HandleGateOrder | supabase/functions/submit-lead/index.ts:297-338 | for a POST with a parsed body, the gates apply in source order |
| SubmitLead.HandleWrites | supabase/functions/submit-lead/index.ts:283-387 | a row is written exactly when every gate passes and the insert succeeds; it keeps the stored-lead rules, has status `new`, and is stamped with the request time and the insert's id |
| SubmitLead.NewLeadChoices | supabase/functions/submit-lead/index.ts:340-350 | the row's contact time and interest are the ones the payload names, and a source is stored exactly when one was given |
| SubmitLead.WrittenRow | supabase/functions/submit-lead/index.ts:320-363 | the row written is, exactly when every gate passes and the insert succeeds, the row built from the request's payload, client address, insert id and time; otherwise nothing is written |
| SubmitLead.WrittenRowFields | supabase/functions/submit-lead/index.ts:340-350 | field by field, the row written holds the normalised address, the trimmed name and phone, the named contact time, interest and source, the stored message, the client address and status `new` |
| SubmitLead.EnquiryCounted | supabase/functions/submit-lead/index.ts:222-246 | a request that passes every gate and is inserted adds one to its address's count in every window that holds the request time, and nothing to any other address's count |
| SubmitLead.FourthEnquiryLimited | supabase/functions/submit-lead/index.ts:222-236 | with three enquiries from an address in the last 24 hours, a further valid, verified one gets 429 with the e-mail reason and writes nothing |
| SubmitLead.StoredName | supabase/functions/submit-lead/index.ts:341 | the stored name of a valid payload keeps the name rule |
| SubmitLead.StoredEmail | supabase/functions/submit-lead/index.ts:321 | the stored address of a valid payload matches the pattern and has no upper case |
| SubmitLead.StoredPhone | supabase/functions/submit-lead/index.ts:343 | the stored phone of a valid payload keeps the phone rule |
| SubmitLead.StoredMessageOk | supabase/functions/submit-lead/index.ts:347 | the stored message is null, or non-empty, trimmed, at most 1000 characters and script-free |
| SubmitLead.StoredLeadShape | supabase/functions/submit-lead/index.ts:340-350 | the row built from a valid payload is a stored lead with status `new` |
| SubmitLead.Written | supabase/functions/submit-lead/index.ts:352-378 | one request writes at most one row, exactly when an insert succeeded |
| SubmitLead.LeadsTable.constructor | supabase/functions/submit-lead/index.ts:352-363 | the table starts empty, and so every row in it was written by the handler |
| SubmitLead.LeadsTable.CheckRateLimit | supabase/functions/submit-lead/index.ts:217-259 | the decision is the one the counts over the current rows give |
| SubmitLead.LeadsTable.Insert | supabase/functions/submit-lead/index.ts:352-363 | appends the row; a table whose rows the handler wrote stays one when the new row keeps the rules |
| SubmitLead.LeadsTable.Serve | supabase/functions/submit-lead/index.ts:283-387 | answers as the handler does, appends exactly the row it writes, and keeps a table whose rows the handler wrote, whatever their statuses |
| SubmitLead.LeadsTable.UpdateStatus | src/components/LeadsManager.tsx:76-79 | the admin's update gives every row with that id the new status, changes nothing else, and keeps the rows ones the handler wrote |
| Sanitize.ValidateSafeInput | src/lib/sanitize.ts:34-58 | the input is valid exactly when no reason is given |
| Sanitize.EmptyIsSafe | src/lib/sanitize.ts:35 | the empty input is valid |
| Sanitize.SafeExactlyWhenNoPattern | src/lib/sanitize.ts:34-58 | an input is valid exactly when none of the tag, event handler, SQL and script-scheme patterns occurs in it |
| Sanitize.FirstFailingReason | src/lib/sanitize.ts:37-55 | the reason names the first pattern that occurs, in source order |
| Sanitize.SanitizeInput | src/lib/sanitize.ts:7-19 | the result is trimmed, and empty for an empty input |
| Sanitize.SanitizePhoneShape | src/lib/sanitize.ts:76-81 | the sanitized phone has only phone characters, is trimmed, and is empty for an empty input |
| Sanitize.SanitizePhoneIdempotent | src/lib/sanitize.ts:76-81 | sanitizing twice is sanitizing once |
| Sanitize.SanitizePhoneKeepsDigits | src/lib/sanitize.ts:76-81 | every digit is kept, in order |
| Sanitize.SanitizeNameShape | src/lib/sanitize.ts:63-71 | whatever DOMPurify returns, the name has only name characters and is trimmed |
| Sanitize.SanitizeEmailShape | src/lib/sanitize.ts:86-94 | the sanitized address is lower-cased and trimmed |
| Sanitize.SanitizeEmailKeepsAddress | src/lib/sanitize.ts:86-94 | a matching address that DOMPurify leaves alone becomes its lower-case form, which still matches |
| LeadForm.FormData.With | src/components/LeadForm.tsx:137 | storing an input changes that input only |
| LeadForm.CollectKeys | src/components/LeadForm.tsx:58-94 | each field's check sets that field's key, and no other |
| LeadForm.ValidateFormByField | src/components/LeadForm.tsx:58-94 | a field has an error exactly when its check fails, and the error is that check's message |
| LeadForm.HeardFromNeverReported | src/components/LeadForm.tsx:58-94 | the optional source field never has an error |
| LeadForm.SelectsOnlyRequired | src/components/LeadForm.tsx:81-87 | the two selects are only required: any non-empty value passes |
| LeadForm.ValidateFormEmpty | src/components/LeadForm.tsx:147-151 | the form is sent exactly when every field passes its check |
| LeadForm.FormPayload | src/components/LeadForm.tsx:167-175 | the posted body has no bot-check token |
| LeadForm.FormEmailAccepted | src/components/LeadForm.tsx:69-73 | an address the form accepts is accepted by the endpoint after the form's trimming and lower-casing |
| LeadForm.SentEmailAccepted | src/components/LeadForm.tsx:169 | the trimmed, lower-cased form of an accepted address keeps the endpoint's email rule |
| LeadForm.FormPhoneAccepted | src/components/LeadForm.tsx:75-79 | a phone the form accepts is accepted by the endpoint |
| LeadForm.ServerNameAcceptedByForm | src/components/LeadForm.tsx:61-67 | a name the endpoint accepts is accepted by the form (the endpoint's rule is stricter) |
| LeadForm.FormMessageWithinBound | src/components/LeadForm.tsx:89-91 | a message the form accepts is at most 1000 characters once trimmed |
| LeadForm.MissingTokenRejected | supabase/functions/submit-lead/index.ts:155-159 | a POST without a token gets 422, lists the missing token and writes nothing |
| LeadForm.FormSubmissionRejected | src/components/LeadForm.tsx:160-176 | the endpoint answers every body the form posts with 422 and writes nothing |
| LeadForm.TickDown | src/components/LeadForm.tsx:125-131 | one tick lowers the countdown by one, and never below zero |
| LeadForm.TicksCountDown | src/components/LeadForm.tsx:122-133 | after n seconds a countdown from c shows c − n, and at c it is zero and the interval is cleared |
| LeadForm.SubmitSends | src/components/LeadForm.tsx:143-176 | a submission posts exactly when there is no cooldown and every field passes, and it posts the form's body |
| LeadForm.SubmitBlocked | src/components/LeadForm.tsx:145-151 | a submission that posts nothing keeps the inputs, the status and the message, and outside a cooldown shows exactly the form's faults |
| LeadForm.SubmitSettles | src/components/LeadForm.tsx:178-192 | a posted submission ends in success or error; only success clears the form and starts the cooldown |
| LeadForm.EmptyFormInvalid | src/components/LeadForm.tsx:185 | the cleared form fails the five required checks |
| LeadForm.CooldownAfterSuccess | src/components/LeadForm.tsx:145 | after success every submission in the next 59 seconds is ignored, and at 60 seconds the countdown is over |
| LeadForm.LeadFormState.constructor | src/components/LeadForm.tsx:101-114 | empty inputs, no errors, idle, no cooldown |
| LeadForm.LeadFormState.StartCooldown | src/components/LeadForm.tsx:122-133 | sets the countdown and schedules the interval |
| LeadForm.LeadFormState.Tick | src/components/LeadForm.tsx:124-132 | one firing of the interval |
| LeadForm.LeadFormState.HandleChange | src/components/LeadForm.tsx:135-141 | stores the value and clears that field's error only |
| LeadForm.LeadFormState.HandleSubmit | src/components/LeadForm.tsx:143-193 | the new state and the posted body are the submission function's |
| LeadForm.LeadFormState.Settle | src/components/LeadForm.tsx:178-192 | the state once the request is answered |
| LeadForm.LeadFormState.SubmitAnother | src/components/LeadForm.tsx:205-211 | back to the form once the cooldown is over |
| Utils.WhatsAppUrlParts | src/lib/utils.ts:1-6 | the link is `https://wa.me/`, then exactly the digits of the number, then `?text=` and the encoded message (the default one when none is given) |
| Utils.BeforeFirstAppend | src/lib/utils.ts:5 | the digit run ends at the `?` of the query |
| Utils.WhatsAppUrlIgnoresFormatting | src/lib/utils.ts:4 | formatting the number, or sanitizing it first, does not change the link |
| Utils.IdRun | src/lib/utils.ts:12 | the identifier taken is the longest run of `[a-zA-Z0-9_-]` at that point |
| Utils.FirstMatch | src/lib/utils.ts:12 | a non-global `match` finds the leftmost position |
| Utils.ConvertSlashD | src/lib/utils.ts:12-17 | a `/d/<id>` link becomes the thumbnail of the id after the leftmost `/d/`, taking priority over `id=` |
| Utils.ConvertIdParam | src/lib/utils.ts:19-22 | without `/d/`, the id after the leftmost `?id=` or `&id=` is used |
| Utils.ConvertKeeps | src/lib/utils.ts:8-25 | the empty string, and a link of neither form, are returned unchanged |
| Utils.ThumbnailPunctuation | src/lib/utils.ts:16 | a thumbnail link has `/`, `?` and `&` only in its fixed parts |
| Utils.ThumbnailHasNoSlashD | src/lib/utils.ts:16 | a thumbnail link has no `/d/` form |
| Utils.ThumbnailIdParam | src/lib/utils.ts:16 | the first `id=` of a thumbnail link is its own |
| Utils.ThumbnailFixed | src/lib/utils.ts:16-21 | a thumbnail link converts to itself |
| Utils.IdRunStops | src/lib/utils.ts:16 | the id run of a thumbnail stops at `&sz=` |
| Utils.ConvertIdempotent | src/lib/utils.ts:8-25 | converting an already converted link changes nothing |
| Routes.Split | src/App.tsx:65 | `split('/')` gives at least one piece, none containing the separator |
| Routes.SplitJoin | src/App.tsx:65 | joining the pieces gives the string back |
| Routes.SplitNoSep | src/App.tsx:65 | a string without a separator is one piece |
| Routes.SplitAfterPiece | src/App.tsx:65 | a piece followed by the separator splits off first |
| Routes.Segments | src/App.tsx:65 | the path segments are non-empty and contain no slash |
| Routes.ParseHash | src/App.tsx:64-81 | the page chosen is a valid page or `404`, and a slug is chosen only for `project` and is non-empty with no slash |
| Routes.ParseHashCases | src/App.tsx:69-81 | no segment gives home; `project/<slug>` gives that project; a valid first segment gives its page; anything else gives 404 |
| Routes.EmptyHashIsHome | src/App.tsx:64-71 | an empty hash, or one of slashes only, gives home |
| Routes.SlashesHaveNoSegments | src/App.tsx:65 | a path of slashes only has no segments |
| Routes.SegmentsOfPage | src/App.tsx:64-65 | `#/<a>` has the one segment `a` |
| Routes.SegmentsOfPageSlug | src/App.tsx:64-65 | `#/<a>/<b>` has the segments `a`, `b` |
| Fragment.EncodeAppend | src/App.tsx:84-89 | the browser encodes an assigned hash character by character |
| Fragment.EncodeKeepsExactlySafe | src/App.tsx:84-89 | an assigned hash reads back unchanged exactly when it has no character of the fragment percent-encode set, tab or newline |
| Fragment.SpaceIsEncoded | src/App.tsx:84-89 | a space in an assigned hash reads back as `%20` |
| Fragment.EncodeFragment | src/App.tsx:84-89 | what reads back has no character left to encode, and has a slash exactly when the hash assigned had one |
| Routes.NavigateHashRoute | src/App.tsx:64-89 | the hash navigation writes for a valid page, or a project slug without a slash, selects that page and slug as written |
| Routes.NavigateEncodesSlug | src/App.tsx:84-89 | navigating to a project selects the slug as the browser encodes it: the slug itself exactly when it has nothing to encode |
| Routes.NavigateRoundTrip | src/App.tsx:84-89 | navigating to a valid page, or to a slug without a slash or characters to encode, and reading the hash back selects that page and slug |
| Routes.ParsedRouteIsCanonical | src/App.tsx:64-89 | every non-404 route read from a hash as the browser reports it is written back by navigation as a hash that selects it again |
| Routes.RouteChange | src/App.tsx:53-82 | after a route change the path is `/` (or empty) |
| Routes.RedirectThenRoute | src/App.tsx:56-62 | a redirect moves the path into the hash and chooses no page; the route change the new hash triggers then selects from that path |
| Routes.PathRedirectKeepsRoute | src/App.tsx:56-81 | `/about` or `/project/<slug>`, as the browser reports the path, ends on the page it names |
| Routes.NavigateThenRoute | src/App.tsx:84-89 | navigation, then the route change it triggers, lands on the page asked for when the slug has nothing to encode |
| Routes.Router.constructor | src/App.tsx:16-17 | the state on mount: home, no slug |
| Routes.Router.HandleRouteChange | src/App.tsx:53-82 | the new location and page are the route-change function's |
| Routes.Router.HandleNavigate | src/App.tsx:84-91 | only the hash changes, to the encoded hash navigation assigns |
| Routes.RenderPage | src/App.tsx:93-116 | NotFound exactly for an invalid page; the project detail exactly for `project` with a non-empty slug; the project list for `projects` or a slug-less `project` |
| Routes.HashRenders | src/App.tsx:64-116 | whatever the hash, NotFound is shown exactly when the router chose 404, and a project hash shows that project |
| LeadsManager.FilteredSpec | src/components/LeadsManager.tsx:89-98 | a lead is listed exactly when it is loaded and passes the search and both filters, in loaded order |
| LeadsManager.NoFilterListsAll | src/components/LeadsManager.tsx:89-98 | with no search and no filter every lead is listed |
| LeadsManager.CountsSum | src/components/LeadsManager.tsx:100-105 | the four status cards add up to the number of loaded leads |
| LeadsManager.CardCountIsListLength | src/components/LeadsManager.tsx:95-105 | a card's number is the length of the list when only that status filter is set |
| LeadsManager.SetStatus | src/components/LeadsManager.tsx:84 | the update keeps the number of leads |
| LeadsManager.SetStatusChangesOnlyThatLead | src/components/LeadsManager.tsx:84 | only leads with that id change, and only their status |
| LeadsManager.StatusMovesBetweenCards | src/components/LeadsManager.tsx:84-105 | with unique ids one lead changes, and it moves from its old card to the new one |
| LeadsManager.SetStatusUnknownId | src/components/LeadsManager.tsx:84 | an unknown id changes nothing |
| LeadsManager.ToggleStatusFilter | src/components/LeadsManager.tsx:121 | clicking the selected card clears the filter; clicking another selects its status |
| LeadsManager.ToggleTwice | src/components/LeadsManager.tsx:121 | clicking a card twice restores the filter |
| LeadsManager.OutcomesOnLeads | src/components/LeadsManager.tsx:59-87 | an error keeps the list, rows replace it (missing rows empty it), a successful update keeps its length; loading and the update marker end either way |
| LeadsManager.FailureNotice | src/components/LeadsManager.tsx:59-87 | a notice is sent exactly on an error, and it starts with the operation's prefix |
| LeadsManager.Manager.constructor | src/components/LeadsManager.tsx:47-53 | nothing loaded, loading, no filters |
| LeadsManager.Manager.FetchLeads | src/components/LeadsManager.tsx:59-72 | the new state and the notice of a reload |
| LeadsManager.Manager.UpdateLeadStatus | src/components/LeadsManager.tsx:74-87 | the new state and the notice of a status change |
| LeadsManager.Manager.ClickStatusCard | src/components/LeadsManager.tsx:121 | only the status filter changes, toggled |
| ProjectDetail.JsRem | src/pages/ProjectDetail.tsx:57-63 | JavaScript `%` on a non-negative operand lies in `[0, n)` and agrees with the mathematical remainder |
| ProjectDetail.StepsStayInRange | src/pages/ProjectDetail.tsx:57-63 | from a shown image both steps land on a shown image; next wraps from the last image to the first, previous from the first to the last |
| ProjectDetail.PrevUndoesNext | src/pages/ProjectDetail.tsx:57-63 | previous undoes next, and next undoes previous |
| ProjectDetail.NextTimesNoWrap | src/pages/ProjectDetail.tsx:57-59 | before the end, k steps move k images on |
| ProjectDetail.NextTimesAdd | src/pages/ProjectDetail.tsx:57-59 | a steps then b steps are a + b steps |
| ProjectDetail.FullCircle | src/pages/ProjectDetail.tsx:57-59 | n steps through n images return to the start |
| ProjectDetail.KeyDown | src/pages/ProjectDetail.tsx:65-75 | a key never moves the index off the images, and keeps their number |
| ProjectDetail.KeyDownCases | src/pages/ProjectDetail.tsx:65-75 | keys are ignored while closed; Escape closes on the same image; the arrows undo each other |
| ProjectDetail.IndexOf | src/pages/ProjectDetail.tsx:233 | `indexOf` gives the first position of the image, or −1 |
| ProjectDetail.Lightbox.constructor | src/pages/ProjectDetail.tsx:16-18 | closed, on the first image |
| ProjectDetail.Lightbox.ClickImage | src/pages/ProjectDetail.tsx:233 | the lightbox opens on the clicked image |
| ProjectDetail.Lightbox.OpenLightbox | src/pages/ProjectDetail.tsx:46-50 | open, on that index |
| ProjectDetail.Lightbox.CloseLightbox | src/pages/ProjectDetail.tsx:52-55 | closed, on the same index |
| ProjectDetail.Lightbox.NextImage | src/pages/ProjectDetail.tsx:57-59 | the index steps forward with wrap-around |
| ProjectDetail.Lightbox.PrevImage | src/pages/ProjectDetail.tsx:61-63 | the index steps back with wrap-around |
| ProjectDetail.Lightbox.HandleKeyDown | src/pages/ProjectDetail.tsx:65-75 | the new state is the key function's |
| ProjectDetail.GroupCons | src/pages/ProjectDetail.tsx:85-91 | the first image goes to the group of its category, and to no other |
| ProjectDetail.GroupsPartition | src/pages/ProjectDetail.tsx:85-91 | the five groups together are as large as the image list |
| ProjectDetail.GroupMembers | src/pages/ProjectDetail.tsx:85-91 | each group holds exactly the images of its category (uncategorised for none), in page order |
| Projects.FilterSpec | src/pages/Projects.tsx:29-32 | `all` shows every project; `completed` and `ongoing` show exactly the projects of that status, in order |
| Projects.CompletedAndOngoingPartition | src/pages/Projects.tsx:29-32 | the completed and ongoing lists together are the full list |
| Projects.EmptyMessageExactly | src/pages/Projects.tsx:130-134 | the empty message shows exactly when no project passes the filter; for `all`, when nothing is loaded |
| Projects.ProjectClickOpensProject | src/pages/Projects.tsx:34-36 | clicking a card whose slug has no slash opens the detail page for the slug as the browser encodes it, which is the card's slug exactly when it has nothing to encode |

## Left out

- The Turnstile verification call is a parameter of the handler: its verdict is given, not computed.
- The environment lookups (`Deno.env`, `import.meta.env`) are not modelled: they give keys and URLs and take no decisions.
- The Google Sheets webhook and `waitUntil` are not modelled: they are fire-and-forget side effects after the response is decided.
- The endpoint counts and then inserts without a transaction, so two concurrent requests can both pass the rate limit. The model handles one request at a time and does not show this race.
- DOMPurify (`sanitizeInput`, `sanitizeName`, `sanitizeEmail`) is a parameter. `sanitizeHtml`, `sanitizeUrl` and `sanitizeMessage` are DOMPurify configurations or URL parsing and are not part of this model.
- `encodeURIComponent` in `getWhatsAppUrl` is a parameter.
- String lengths count Unicode scalar values, while JavaScript counts UTF-16 code units. The two differ only for characters outside the Basic Multilingual Plane.
- `toLowerCase` is modelled for ASCII letters only. Case-insensitive matching of the ASCII patterns is exact.
- LeadForm.LeadFormState.Tick: the `setInterval` of the cooldown is a method the environment calls once per second. Timing between calls is not modelled.
- `fetch` in `handleSubmit` is a parameter (`FetchOutcome`), and so are the Supabase answers in `LeadsManager`.
- Not modelled, because they only affect what is drawn:
  - `window.scrollTo` in the router;
  - the page scroll lock in the lightbox (`document.body.style.overflow`);
  - the lead list's `expandedLead`.
- These loads are not modelled because the data they load is a parameter of the model:
  - `fetchContactInfo` and `checkAdminAuth` in `App`;
  - the project and image loads of `ProjectDetail`;
  - `fetchProjects` of `Projects`.
- The server-side order of the leads (`created_at` descending) and of the projects (`display_order`) is not modelled: the lists are taken as the rows arrive.
- Assigning `window.location.hash` is modelled by `Fragment.EncodeFragment`, the fragment percent-encoding of the WHATWG URL Standard. A slug with a space, a quote, `<`, `>`, a backtick or a non-ASCII letter therefore reaches the project page encoded (`sky villa` becomes `sky%20villa`). The page then looks that encoded slug up, and the lookup is not part of this model.
- Routes.NavigateRoundTrip: promises the page and slug asked for only for a slug the browser does not encode. For any other slug, `Routes.NavigateEncodesSlug` states that the encoded slug is selected instead.
- Routes.NavigateThenRoute: the same restriction as `NavigateRoundTrip`, for the same reason.
- Routes.PathRedirectKeepsRoute: the slug is one the browser does not encode, as in a path the browser reports.
- `Fragment.Utf8` works on Unicode scalar values. JavaScript strings can also hold lone surrogates, which the URL parser replaces with U+FFFD; the model does not have them.
- The browser's `hashchange` event is a separate `Routes.Router.HandleRouteChange` call, so after a redirect the second route change is a second call.
- ProjectDetail.Lightbox.NextImage: requires an open lightbox showing an existing image. With no images, JavaScript would compute `NaN`, but the lightbox is opened only by clicking an existing image.
- ProjectDetail.Lightbox.PrevImage: the same precondition and reason as `NextImage`.
- ProjectDetail.GroupsPartition: the partition is stated as the group sizes adding up to the list length, together with `GroupMembers`' membership, rather than as one multiset equality.
- Authentication, MFA, the admin screens other than the lead list, and the home page are not part of this model.
- The enquiry form posts no `turnstileToken`, while the endpoint requires one. `LeadForm.FormSubmissionRejected` shows that the endpoint answers every body the form posts with 422. The two are separate programs, so the model records this as a consequence rather than choosing a side.
