# ÅbenForms frontend core, modelled in Dafny

ÅbenForms is a Nuxt front end for Danish municipal self-service forms. These
forms are Drupal webforms served over JSON:API, with MitID sign-in and
workflow tracking. This project models the parts of the front end that carry
rules:

- **`Api`**, the JSON:API access layer (`composables/useApi.ts`):
  - a response cache whose entries expire five minutes after they are stored;
  - a pending-read table, so a second read of the same key joins the first
    instead of calling the transport again;
  - retry with exponential backoff on server errors;
  - cache invalidation after a successful write.

  `ApiClient` is a class whose fields are the module-level maps. The clock is
  a `now` parameter. The transport is a script of replies it gives in order.
  The asynchronous `fetchResource` is split into `StartFetch`, the
  synchronous part up to registering the request, and `CompleteFetch`, the
  settlement. `fetchWithRetry` is a recursive function that reports its
  result, the number of transport calls and the waits between them.
- **`Form`**, the webform store (`stores/form.ts`):
  - required-field and e-mail validation, and the getters over the error list;
  - the right-biased merge of entered values;
  - the schema cache;
  - the submit sequence, including mapping backend error pointers to fields.

  `FormStore` is a class with the store's state as fields.
- **`Workflow`**, the workflow-tracker helpers (`composables/useWorkflowTracker.ts`).
  These are pure functions: status classification, the step and execution
  mapping with its defaults, progress, the completion, failure and
  current-step queries, display names and duration formatting.
- **`Tenant`**, the tenant store (`stores/tenant.ts`):
  - the branding getters and their platform defaults;
  - the domain-record mapping;
  - hexadecimal colour lightening and darkening as their bit arithmetic
    computes them;
  - settings merge, clearing and the default tenant.

  `TenantStore` holds the tenant and localStorage.
- **`Users`**, the user store (`stores/user.ts`): CPR masking, session
  expiry, the display name, and the set, clear, load, restore and logout
  transitions over localStorage.
- **`Auth`**, the MitID composable (`composables/useAuth.ts`):
  - its own CPR masking and expiry check, which differ from the user store's,
    and a pair of lemmas that pins down how;
  - loading a user from a session, the callback, restore and logout flows
    over localStorage and sessionStorage.

Supporting modules:

- `Wrappers`: Option and Result.
- `Text`: decimal and hexadecimal digits, ASCII lower-casing, ECMAScript
  white space, `split('/').pop()`.
- `Json`: JavaScript values and truthiness, `||` defaults, objects as ordered
  entries with spread merge, and `JSON.stringify` of strings and objects with
  the decoder that proves it injective.
- `Arith`: division facts.

Time is an integer number of milliseconds. Parsing a date string is a
`Users.DateParser` parameter that returns `None` for an Invalid Date. Every
network reply is a parameter or comes from the transport script.

## Model

| member | source | states |
|---|---|---|
| Api.CacheKey | composables/useApi.ts:20-23 | the key starts with the URL and equals it exactly when no params are given |
| Api.CacheKeyParamsInjective | composables/useApi.ts:20-23 | the same URL with different params gives different keys, because the params serialisation is injective |
| Json.StringObjectInjective | composables/useApi.ts:21 | two param lists with the same JSON.stringify text are equal |
| Json.DecodeStringMembers | composables/useApi.ts:21 | decoding the serialised members of a string object gives back the pairs |
| Api.Lookup | composables/useApi.ts:28-39 | data is returned exactly when the key is stored and now - timestamp <= 300000, and it is the stored data |
| Api.AfterLookup | composables/useApi.ts:28-39 | an expired entry of the key is deleted; every other entry is unchanged |
| Api.SavedThenLookup | composables/useApi.ts:8 | a value saved at t is served up to and including t + CACHE_TTL, and missed after that |
| Api.ClearedMisses | composables/useApi.ts:54-60 | after the table is cleared, every lookup misses |
| Api.ApiClient.GetFromCache | composables/useApi.ts:28-39 | returns Lookup and leaves the table AfterLookup |
| Api.ApiClient.SaveToCache | composables/useApi.ts:44-49 | the key now maps to the data stamped with now; nothing else changes |
| Api.ApiClient.ClearCache | composables/useApi.ts:54-60 | a non-empty key removes exactly that entry; no key or the empty key empties the table |
| Api.FetchWithRetry | composables/useApi.ts:65-80 | between 1 and retries + 1 transport calls; the waits are the doubling Backoff sequence; exactly the replies used are consumed |
| Api.BackoffDoubles | composables/useApi.ts:76 | n retries wait n times, the i-th wait being delay * 2^i |
| Api.RetryTrace | composables/useApi.ts:71-79 | every call but the last failed with status >= 500 while retries remained; the result is the last reply unchanged, and that reply succeeded or may not be retried |
| Api.RetriedBefore | composables/useApi.ts:73 | each call before the last one was a retried server error |
| Api.RetryResult | composables/useApi.ts:71-79 | the result is the last call's reply and it ends the retries |
| Api.RetryStep | composables/useApi.ts:73-76 | a retried failure adds exactly one call in front of the retry, with the same result |
| Api.RetryRecoversFromServerErrors | composables/useApi.ts:65-80 | with the read defaults (3 retries, 1000 ms), 500, 500, ok gives three calls, waits 1000 and 2000, and the success |
| Api.NoRetryOnClientError | composables/useApi.ts:73 | a 404 is rethrown after one call, with no wait |
| Api.RetriesExhausted | composables/useApi.ts:65-80 | four server errors with the read defaults: four calls, waits 1000, 2000, 4000, and the fourth error rethrown |
| Api.ApiClient.Retrying | composables/useApi.ts:65-80 | the transport is called exactly as FetchWithRetry says and the script is consumed accordingly |
| Api.ApiClient.FetchApiIndex | composables/useApi.ts:85-101 | a fresh truthy cached index is returned with no transport call; otherwise the index is fetched with the read defaults and cached only on success |
| Api.ApiClient.StartFetch | composables/useApi.ts:110-152 | a fresh truthy cached value (only with caching on) is served; otherwise a pending read of the key is joined; otherwise a new read is registered; no transport call happens; request ids stay distinct |
| Api.ApiClient.CompleteFetch | composables/useApi.ts:130-149 | the retried calls happen, the reply is cached only on success when the read asked for caching, and the pending entry is removed on success and on failure |
| Api.ApiClient.PostResource | composables/useApi.ts:161-179 | the write is retried at most twice; success removes exactly the parameterless resource key; a failure leaves the cache untouched |
| Api.WriteKeepsParameterisedEntries | composables/useApi.ts:174-176 | a parameterised key is never the parameterless key a write removes |
| Api.ConcurrentReads | composables/useApi.ts:124-152 | n reads of one key before any reply: the first issues, the rest join, one transport call, and every caller, answered through the request id it holds, gets the success reply |
| Api.ReadAfterWrite | composables/useApi.ts:161-179 | a cached read hits before a successful write and issues a new request after it |
| Form.MatchesEmailPattern | stores/form.ts:212-213 | the checked e-mail test accepts exactly the strings of the regular expression's shape: a word, '@', a word, '.', a word, where words have no white space and no '@' (both directions) |
| Form.MatchesEmailHasPattern | stores/form.ts:212 | an accepted string has the pattern's shape |
| Form.PatternMatchesEmail | stores/form.ts:212 | a string of the pattern's shape is accepted |
| Form.ElementErrors | stores/form.ts:202-219 | every error of an element is on that element's key, and an element gives at most two errors |
| Form.ValidationErrors | stores/form.ts:201-219 | the list validateForm builds, at most two errors per schema element; emptiness, field names and order are stated by ValidationErrorsEmpty, ValidationErrorsNameFields and ValidationErrorsSnoc |
| Form.AsText | stores/form.ts:212 | `String(v)` is empty exactly for the empty string, and a value that is not a string has no '@', so it never passes the e-mail test |
| Form.MatchesEmail | stores/form.ts:211-212 | an accepted address has at least five characters, contains '@' and does not start with it; its exact set is stated by MatchesEmailPattern |
| Form.ValidationErrorsEmpty | stores/form.ts:194-223 | validation finds no error exactly when every element is filled where required and holds a valid address where it is an e-mail field |
| Form.ValidationErrorsNameFields | stores/form.ts:202-219 | every validation error names a field of the schema |
| Form.ValidationErrorsSnoc | stores/form.ts:202-219 | errors are collected element by element, in schema order |
| Form.ValidateImpliesIsValid | stores/form.ts:89-100 | a form that passes validateForm passes isValid |
| Form.IsValidIgnoresEmailFormat | stores/form.ts:89-100 | the converse fails: an optional e-mail field holding "x" passes isValid and fails validateForm |
| Form.FormStore.IsValid | stores/form.ts:89-100 | false with no form; otherwise true exactly when every required field is truthy |
| Form.FormStore.ValidateForm | stores/form.ts:194-223 | the error list becomes the validation errors of the current form (empty with no form); true exactly when a form is loaded and no error was found |
| Form.FieldErrors | stores/form.ts:80-84 | at most as many messages as errors; empty exactly when no error is on the field; each message comes from an error on it (the order is stated by Form.FieldErrorsAppend and Form.FieldErrorsWithout) |
| Form.HasErrors | stores/form.ts:73-75 | without recorded errors no field shows an error; the converse is HasErrorsIffFieldErrors |
| Form.HasErrorsIffFieldErrors | stores/form.ts:73-75 | hasErrors holds exactly when some field has an error to show |
| Form.WithoutField | stores/form.ts:169-171 | an error is kept exactly when it is on another field (membership; the effect on each field's ordered list is Form.FieldErrorsWithout) |
| Form.FieldErrorsWithout | stores/form.ts:165-172 | clearing a field empties its error list and leaves every other field's list as it was |
| Form.FieldErrorsAppend | stores/form.ts:80-84 | the field's messages of two lists concatenated are the concatenation of their messages |
| Form.FormStore.SetFieldValue | stores/form.ts:165-172 | sets that one field and removes exactly its errors, keeping the others in order |
| Form.FormStore.SetFormData | stores/form.ts:177-179 | right-biased merge: the new values win, absent keys keep their values, no other key appears |
| Form.FormStore.ResetFormData | stores/form.ts:184-189 | no values, no errors, no submit error, not submitted |
| Form.PointerField | stores/form.ts:288 | the last '/'-segment of the pointer when it is non-empty, otherwise 'general' |
| Form.MapBackendErrors | stores/form.ts:287-290 | one validation error per backend error, in order, with the pointer's field and the detail or 'Validation error' |
| Form.PointerFieldExamples | stores/form.ts:288 | "/data/attributes/email" maps to "email" and a missing pointer to "general" |
| Form.PointerFieldTrailingSlash | stores/form.ts:288 | a pointer ending in '/' maps to "general" |
| Form.SchemaOf | stores/form.ts:133-140 | the built schema has the fetched id, the title or else the form id, and the elements or else none |
| Form.FormTitle | stores/form.ts:59-61 | the form's title, or 'Untitled Form' when no form is loaded or the title is empty |
| Form.FormDescription | stores/form.ts:66-68 | the description when it is a non-empty string, otherwise null |
| Form.LoadedTitle | stores/form.ts:133-135 | a loaded schema's displayed title is the fetched title, else the form id, else 'Untitled Form' |
| Form.FormStore.LoadForm | stores/form.ts:114-160 | a cached schema is used without a fetch and without resetting the values; fetched data builds, caches and selects a schema and resets the values; a failure records its message and is passed on |
| Form.FormStore.SubmitForm | stores/form.ts:228-300 | fails and changes nothing without a form; does not post when validation fails; a posted submission is appended exactly once and the form ends empty and not submitted; a rejection maps the backend's errors or records a general message |
| Form.FormStore.ClearCurrentForm | stores/form.ts:351-355 | no form selected and the entered state reset |
| Form.FormStore.ClearCache | stores/form.ts:360-362 | the schema cache is empty |
| Form.FormStore.constructor | stores/form.ts:35-46 | the store's initial state |
| Workflow.StatusWord | composables/useWorkflowTracker.ts:104 | 'pending' for a missing or empty status; otherwise a word of the same length with no upper-case ASCII letter |
| Workflow.MapStepStatus | composables/useWorkflowTracker.ts:103-116 | each status word list gives its status, each status exactly for its list, everything else pending |
| Workflow.WordListsDisjoint | composables/useWorkflowTracker.ts:107-113 | no status word is in two lists |
| Workflow.MapStepStatusIgnoresCase | composables/useWorkflowTracker.ts:104 | the classification of a status equals that of its lower-cased form |
| Workflow.MapStepStatusMissing | composables/useWorkflowTracker.ts:104 | a missing or empty status is pending |
| Workflow.MapStepStatusUpperCase | composables/useWorkflowTracker.ts:103-116 | "SUCCESS" is completed and "Rejected" is failed |
| Workflow.MapStep | composables/useWorkflowTracker.ts:76-97 | default id step-i and name Step i+1; a duration exactly when both timestamps are present, equal to end - start; isBranching only when true; the mapped status |
| Workflow.MapSteps | composables/useWorkflowTracker.ts:75-98 | one step per record, in order, each mapped at its own position |
| Workflow.DefaultStepIdsDistinct | composables/useWorkflowTracker.ts:86 | two steps without ids get different default ids |
| Workflow.MapExecution | composables/useWorkflowTracker.ts:57-70 | the id and status are never empty; without attributes the status is 'running' and there are no steps; given steps are mapped by MapSteps |
| Workflow.Either | composables/useWorkflowTracker.ts:86-87 | the JavaScript or-default of two optional strings: the first when it is a non-empty string, otherwise the second |
| Workflow.CompletedCount | composables/useWorkflowTracker.ts:173-175 | at most the number of steps; equal to it exactly when all are completed; zero exactly when none is |
| Workflow.CompletedCountAppend | composables/useWorkflowTracker.ts:173-175 | the count of two step lists concatenated is the sum of their counts |
| Workflow.CalculateProgress | composables/useWorkflowTracker.ts:121-129 | 0 without steps; otherwise the nearest integer to 100·completed/total, halves up (2n·r <= 200c + n < 2n·(r+1)); always within 0..100; 100 exactly when 200·completed >= 199·total; 0 exactly when 200·completed < total |
| Workflow.RoundedPercent | composables/useWorkflowTracker.ts:128 | Math.round(100·c/n) in exact arithmetic (the double divergence is under Left out): 2n·r <= 200c + n < 2n·(r+1), so r is the nearest integer with halves up; at most 100, with the exact conditions for 100 and 0 |
| Workflow.ProgressFullIffAllCompleted | composables/useWorkflowTracker.ts:121-129 | with fewer than 200 steps, progress is 100 exactly when every step is completed |
| Workflow.AlmostCompleteReadsFull | composables/useWorkflowTracker.ts:128 | 399 of 400 steps completed reads as 100 percent |
| Workflow.AnyStep | composables/useWorkflowTracker.ts:160 | `steps.some` over a status: some step has it |
| Workflow.HasWorkflowFailed | composables/useWorkflowTracker.ts:158-161 | exactly when the execution status is 'failed' or some step failed |
| Workflow.IsWorkflowComplete | composables/useWorkflowTracker.ts:151-153 | completion is the status 'completed', so a complete execution counts as failed exactly when one of its steps failed |
| Workflow.CompleteAndFailed | composables/useWorkflowTracker.ts:151-161 | completion is the backend's own status: an execution reported completed with a failed step is both complete and failed, at 0 percent |
| Workflow.CurrentStep | composables/useWorkflowTracker.ts:166-168 | null exactly when no step is active; otherwise the first active step |
| Workflow.DisplayName | composables/useWorkflowTracker.ts:134-146 | each of the eight known ids maps to its name in the table; 'Workflow' exactly for every other id |
| Workflow.FormatDuration | composables/useWorkflowTracker.ts:180-195 | in closed form for ms >= 0: the largest unit reached among days, hours and minutes, whole, with the whole remainder in the next unit; under a minute only the seconds; a negative duration shows only its floored, negative seconds |
| Tenant.IsDefaultTenant | stores/tenant.ts:25-29 | exactly when the domain is aabenforms.dk, localhost or 127.0.0.1 |
| Tenant.FieldOr | stores/tenant.ts:34-57 | the optional field with a fallback: the field when it is a non-empty string, otherwise the fallback |
| Tenant.PrimaryColor | stores/tenant.ts:34-36 | the tenant's colour, or #007acc when there is no tenant or the colour is missing or empty |
| Tenant.SecondaryColor | stores/tenant.ts:41-43 | the tenant's colour, or #28a745 when there is no tenant or the colour is missing or empty |
| Tenant.LogoUrl | stores/tenant.ts:48-50 | the logo when it is a non-empty string, otherwise null |
| Tenant.TenantName | stores/tenant.ts:55-57 | the tenant's name, or ÅbenForms when there is no tenant or the name is empty |
| Tenant.IsMitIdEnabled | stores/tenant.ts:62-64 | false exactly when settings.enableMitId is the boolean false |
| Tenant.RemoveFirstHash | stores/tenant.ts:197 | `replace('#', '')` removes the first '#' only |
| Tenant.HexRun | stores/tenant.ts:197 | the longest prefix of hexadecimal digits, which is what parseInt reads |
| Tenant.ParseHex | stores/tenant.ts:197 | NaN exactly when the string does not start with a hexadecimal digit |
| Tenant.ColorInput | stores/tenant.ts:197 | the inputs the colour parse is modelled for; every string of at most six hex digits is one, and DecodeDigits gives the same with a leading '#' |
| Tenant.ColorNumber | stores/tenant.ts:197 | the parsed colour is a 24-bit number |
| Tenant.Unpack | stores/tenant.ts:199-201 | the shifts and masks give three channels below 256 that recompose the number |
| Tenant.UnpackPack | stores/tenant.ts:199-202 | unpacking a packed colour gives back its channels |
| Tenant.ToHexLeadingOne | stores/tenant.ts:202 | toString(16) of 16^k + x is '1' followed by x in exactly k digits |
| Tenant.HexValuePad | stores/tenant.ts:202 | reading back k padded hexadecimal digits gives the number |
| Tenant.EncodeDecode | stores/tenant.ts:202 | encoding gives '#' and six lower-case hex digits, and reading it back gives the channels |
| Tenant.DecodeDigits | stores/tenant.ts:197 | '#' followed by at most six hex digits reads as the number they denote |
| Tenant.Lighten | stores/tenant.ts:196-203 | the result has the 7-character form; each channel becomes min(255, c + amt), so none decreases |
| Tenant.Darken | stores/tenant.ts:208-215 | the result has the 7-character form; each channel becomes max(0, c - amt), so none increases |
| Tenant.Amount | stores/tenant.ts:198 | the nearest integer to 2.55 · percent, halves up, in exact arithmetic (agrees with the code at percent 20; see Left out) |
| Tenant.BrandingAmount | stores/tenant.ts:187-190 | branding shifts by 20 percent, which is 51 |
| Tenant.ShiftFixedPoints | stores/tenant.ts:196-215 | a zero shift keeps the channels; a white channel stays white when lightened and a black one black when darkened |
| Tenant.DarkenUndoesLighten | stores/tenant.ts:196-215 | darkening undoes lightening when no channel hit the cap |
| Tenant.DefaultPrimaryPalette | stores/tenant.ts:184-188 | the default primary #007acc lightens to #33adff and darkens to #004799 |
| Tenant.ShorthandColor | stores/tenant.ts:197-202 | "#fff" is read as the number 0xfff (channels 0, 15, 255), not expanded, and lightens to #3342ff |
| Tenant.DerivedSettings | stores/tenant.ts:125-127 | the three derived settings have distinct keys |
| Tenant.MapDomainToTenant | stores/tenant.ts:116-130 | name, host and logo copied; colours with the platform defaults; the third-party settings with enableMitId, defaultLanguage and timezone derived over them and every other key kept |
| Tenant.MappedMitId | stores/tenant.ts:125 | a mapped tenant has MitID on unless its record's aabenforms settings hold exactly false |
| Tenant.MappedColors | stores/tenant.ts:121-122 | a mapped tenant's colour getters give the record's colours or the defaults |
| Tenant.DefaultTenant | stores/tenant.ts:136-146 | the platform tenant has the current host as its domain |
| Tenant.DefaultTenantGetters | stores/tenant.ts:135-149 | the platform tenant shows the default colours and name, no logo, MitID on, and is the default tenant exactly for the platform's domains |
| Tenant.WithSettingsGet | stores/tenant.ts:220-226 | the merged settings give the update's value where it has one and the old value elsewhere; name, domain, logo and colours unchanged |
| Tenant.TenantStore.UpdateSettings | stores/tenant.ts:220-232 | no change without a tenant; otherwise the merged tenant is set and written to storage |
| Tenant.TenantStore.ClearTenant | stores/tenant.ts:237-244 | no tenant, no error, and the stored tenant removed |
| Tenant.TenantStore.SetDefaultTenant | stores/tenant.ts:135-149 | the platform tenant for the host is set |
| Tenant.TenantStore.constructor | stores/tenant.ts:15-19 | the store's initial state |
| Users.MaskedCpr | stores/user.ts:29-33 | null exactly without a CPR; otherwise the first six characters without spaces and dashes, then -****, with no length check |
| Users.MaskedShortCpr | stores/user.ts:29-33 | a four-digit CPR masks to 1234-**** |
| Users.Before | stores/user.ts:40 | `new Date(expiry) < new Date()`: false for an Invalid Date, otherwise exactly when the parsed instant is before now |
| Users.IsSessionExpired | stores/user.ts:38-41 | false without an expiry; otherwise exactly when the expiry lies before now |
| Users.DisplayName | stores/user.ts:46-48 | the user's name, or 'Unknown User' |
| Users.UserStore.SetUser | stores/user.ts:55-68 | user, session and expiry (or null) set and authenticated; the expiry key written only when an expiry is given |
| Users.UserStore.ClearSession | stores/user.ts:124-134 | nobody signed in, not authenticated, and both storage keys removed |
| Users.UserStore.LoadSession | stores/user.ts:73-95 | a reply with a user sets it as SetUser does, storage included; a reply without one changes nothing; a failure clears the session; loading ends false |
| Users.UserStore.RestoreSession | stores/user.ts:100-119 | nothing changes without a stored id; an expired stored session ends cleared; otherwise id and expiry are taken over and the user is to be loaded |
| Users.UserStore.Logout | stores/user.ts:139-154 | the backend is called exactly when there is a session id, and the session always ends cleared |
| Users.UserStore.constructor | stores/user.ts:17-23 | the store's initial state |
| Auth.IsAuthenticated | composables/useAuth.ts:22 | exactly when there is a user and a non-empty session id |
| Auth.MaskedCpr | composables/useAuth.ts:186-193 | null exactly without a CPR; ten characters show the first six and -****; any other length shows ******-****; always 11 characters |
| Auth.IsSessionExpired | composables/useAuth.ts:174-181 | true without an expiry; otherwise exactly when the expiry lies before now |
| Auth.MaskedCprComparison | composables/useAuth.ts:186-193 | for a digit CPR, the two stores' masks agree exactly when it has ten digits |
| Auth.ExpiryComparison | composables/useAuth.ts:174-181 | the two expiry checks agree when an expiry is present and give opposite answers without one |
| Auth.FailureMessage | composables/useAuth.ts:82-108 | the error loadUserFromSession passes on: the lookup's own message when it failed; otherwise a non-empty message, 'Invalid session' exactly when the reply had no data |
| Auth.UserOf | composables/useAuth.ts:94-99 | the user built from a session: CPR and expiry copied, name and e-mail defaulting to the empty string |
| Auth.AuthState.ClearSession | composables/useAuth.ts:163-169 | no user, session id or error, and both stored items removed |
| Auth.AuthState.LoadUserFromSession | composables/useAuth.ts:79-109 | on success the session id and user are set and stored; on any failure both are null, storage is untouched, and the error is passed on |
| Auth.AuthState.HandleCallback | composables/useAuth.ts:45-74 | without a session parameter it records 'No session ID in callback', fetches nothing and changes nothing else; otherwise it loads the user, and on success stores the session id and user and consumes a stored return URL, and records the error's message or 'Authentication failed' on failure |
| Auth.AuthState.RestoreSession | composables/useAuth.ts:114-136 | false without a session request when a stored item is missing; otherwise reloads the user, rewriting both stored items and leaving the error as it was, and clears the session when that fails |
| Auth.AuthState.Logout | composables/useAuth.ts:141-158 | a logout request goes to fetchResource exactly when there is a session id, and the session always ends cleared and not loading |
| Auth.AuthState.constructor | composables/useAuth.ts:14-17 | the shared state's initial values |
| Json.GetMerge | stores/tenant.ts:222-225 | in `{ ...a, ...b }` a key reads b's value when b has it, otherwise a's |
| Json.MergeKeepsUnique | stores/tenant.ts:222-225 | a spread merge of an object keeps its keys distinct |
| Json.OrDefault | stores/form.ts:289 | the or-default of an optional string: the string when it is non-empty, otherwise the default |
| Text.LastSegment | stores/form.ts:288 | `split('/').pop()`: the suffix after the last '/', containing no '/' |
| Text.StripSpacesAndDashes | stores/user.ts:31 | `replace(/[\s-]/g, '')`: no white space or dash remains, and a string without them is unchanged |
| Text.Lower | composables/useWorkflowTracker.ts:104 | lower-casing keeps the length and lowers each character |

## Left out

- I/O is not modelled: `$fetch` and HTTP headers, `useRuntimeConfig`, `process.client`, console logging, `window.location`, `navigateTo` and `useRoute`. Each network reply is a parameter or comes from the transport script.
- Promise sharing and interleaving are not modelled. `fetchResource` is the two events `StartFetch` and `CompleteFetch`. Joined callers receive the reply of the request they joined, but no Promise objects are shared. The code makes the first transport call of a new read synchronously, before registering it in the pending table; the model defers that call to `CompleteFetch`, so `StartFetch` makes none.
- `setTimeout` is not modelled: the backoff waits are recorded, never slept.
- Api.CacheKey: `JSON.stringify(params)` is modelled for params whose values are strings, as an ordered list of pairs. Other value types are not modelled.
- Cache keys from different URLs can collide (URL "a" with params versus a URL that ends in the same text). The model states injectivity only for the same URL.
- The retry condition follows the code: any status of at least 500 is retried, including values above 599.
- When the transport script is exhausted, the model's transport fails without a status code, and such a failure is never retried.
- Form.FormStore.IsValid, `isFormLoaded` and `submissionCount` are read as `currentForm.Some?` and `|submissions|`. The two trivial getters have no members of their own.
- Form.FormStore.SubmitForm: the submission payload sent to the backend is not modelled, only the reply.
- Form.FormStore.SubmitForm: `submittedAt` is the clock as an integer, not the ISO string `toISOString` gives.
- Form.MatchesEmail is a hand-written predicate equivalent to the regular expression (proved in Form.MatchesEmailPattern). No regular-expression engine is modelled.
- Form.AsText: `String(v)` is modelled for null, booleans, integers, strings and objects. Arrays and non-integer numbers are out of scope.
- Form.FormStore.LoadForm: a response whose `data` has no `attributes` (a TypeError in the code) is not modelled.
- `loadDraft` and `saveDraft` (stores/form.ts:305-346) are not modelled. They only wrap a network call.
- `detectTenant`, `loadFromCache` and `applyBranding` (stores/tenant.ts:71-191) are not modelled. They are a domain fetch, a localStorage parse and CSS custom properties on `document`. Their colour arithmetic is modelled through Lighten, Darken and BrandingAmount.
- `login` (composables/useAuth.ts:28-39) is not modelled: it redirects the browser.
- `fetchExecutionStatus`, `fetchWorkflowStatus` and `formatRelativeTime` (composables/useWorkflowTracker.ts:16-52 and 200-223) are not modelled. The first two are fetch wrappers; the last depends on the clock and on `toLocaleDateString('da-DK')`.
- Workflow.MapExecution: a missing submission time falls back to the current time's ISO text, which is passed in as a string.
- Workflow.MapStep: step timestamps carry their instant in milliseconds next to their text, in place of `new Date(...).getTime()`.
- Workflow.CalculateProgress: uses exact rational rounding, `floor((200c+n)/(2n))`, not floating point. "100 exactly when all steps are completed" holds only for fewer than 200 steps (Workflow.ProgressFullIffAllCompleted). Above that, rounding reads nearly complete as 100 (Workflow.AlmostCompleteReadsFull). Where 100·c/n lies exactly on a half, the double quotient can fall just below it: 23 of 40 steps give 57.49999999999999 in the code, shown as 57, where the model gives 58; 29 of 200 give 14 in the code and 15 in the model.
- Workflow.StatusWord: `toLowerCase` is modelled for ASCII letters only. The classification words contain no letter that a non-ASCII character lowers to.
- Workflow.DisplayName: ids that name inherited object properties (such as `constructor`) are not modelled. The code would return the property for them.
- Tenant.Amount: computes 2.55 · percent exactly, where the code multiplies doubles. At percent 50 the double product is 127.49999999999999, so the code shifts by 127 where `Amount(50)` is 128. At percent 20, the only value the code uses, both give 51 (Tenant.BrandingAmount).
- Tenant.Lighten and Tenant.Darken take the rounded shift `amt` rather than the percentage. `Amount` computes `Math.round(2.55 · percent)` exactly, without floating-point error.
- Tenant.ColorInput: colour strings that `parseInt` would read with leading white space, a sign, a `0x` prefix or more than six hex digits are out of scope. So is the NaN-to-0 case beyond the model's `ColorNumber`.
- Users.Before: date parsing is the `DateParser` parameter; `new Date()` is the `now` parameter.
- Users.UserStore.RestoreSession: the decision is modelled. The following `loadSession` call, which the code does not await, is returned as `LoadUser(id)` and modelled separately by Users.UserStore.LoadSession.
- Auth.AuthState.RestoreSession and Auth.AuthState.Logout: their `requested` result says that a request was handed to `fetchResource`. With its default caching, a fresh cached reply or a pending read of the same URL answers without the backend, so the session check in restoreSession can be answered from the five-minute cache.
- Auth.MaskedCprComparison: the disagreement on lengths other than ten is stated only for CPRs made of digits. Only there can the first character tell the two masks apart.
- Auth.FailureMessage: the message of a missing `attributes` object is V8's TypeError wording.
- Browser storage holds strings. The stored user and tenant are the model's JSON serialisation of the object.
- The rest of the repository is not part of this model:
  - composables/useTenant.ts, middleware/tenant.ts and plugins/tenant.client.ts are thin glue over fetch and shared state;
  - middleware/auth.ts depends on async ordering and the router;
  - composables/useDebouncedInput.ts and composables/useLazyComponent.ts are timer, observer and component-lifecycle code;
  - the Playwright tests are out of scope;
  - nuxt.config.ts is configuration only;
  - the type declarations under types/ only shaped the datatypes.
