# Incident console — a Dafny model

This project models the client side of a ServiceNow incident console, written in React. It covers five parts:

- **Incident service.** List, create, update, delete and get on the `incident` table of the Table API. Each call builds a request: verb, path, `URLSearchParams` query, headers with the conditional session token, and JSON body. It then turns the reply into a value or a thrown error.
- **Subscription service.** Create a `sys_noti_subscription` record. Search `sys_user` and subscribable `sysevent_email_action` records.
- **Incident form.** The field map, the submitting flag and the result message. Submit, clear, and the priority help text.
- **Incident list and card.**
  - The status filter and the status counts.
  - The class tables for state and priority badges. The list and the card each keep their own copy of these tables.
  - The table rows and the cards.
  - The Resolve and Close transitions.
  - The `loading` / `hasLoaded` state, which decides when the full-page loading screen appears.
- **Subscription page and app shell.** Search-as-you-type dropdowns, picking, submit and clear on the page. Tab switching, the incident list the shell owns, and the refresh after a creation.

Every field of a record arrives either as a plain string or as a `{value, display_value}` pair. `Fields.Field` models both shapes. Codes such as state, priority and sys_id are read from the value side. Everything shown as text is read from the display side.

Network calls are split into a request and a settle step.

- The request step is a method that returns the `Http.Request` the code would hand to `fetch`.
- The settle step maps an abstract reply to the service's result or thrown message. The reply is `NetworkError`, or `Response(ok, body)` where the body has an optional error message and an optional result.

Each asynchronous React handler is split the same way, into a `Start…` method and a `Settle…` method. Their state in between (`isSubmitting`, `loading`) is therefore visible. Components whose state React updates are classes whose fields the methods update.

Modules:

- `Wrappers`: the Option type.
- `Fields`: the two field shapes and JavaScript truthiness.
- `Records`: the incident, user and notification records.
- `Seqs`: `Array.prototype.filter`.
- `SearchParams`: `URLSearchParams.get` and `set`, as the URL standard defines them.
- `Http`: requests and replies.
- `Messages`: the banner shown after a submission.
- `IncidentService`, `SubscriptionService`, `IncidentForm`, `IncidentItem`, `IncidentList`, `SubscriptionPage`, `App`: one module per source file.

## Model

| member | source | states |
|---|---|---|
| Fields.ShapesReadAlike | src/client/components/IncidentItem.jsx:6-52 | States `ValueOf`, `DisplayOf` and `Truthy`. A plain string reads as itself on both sides. A pair reads as its value on the code side and as its display on the text side. The two sides coincide exactly for strings and for pairs whose value equals their display. A string is truthy exactly when it is non-empty. A pair is always truthy, even with both sides empty. |
| Http.TokenOrEmpty | src/client/services/SubscriptionService.js:16 | The header carries the page's token when it is truthy, and the empty string otherwise. |
| Http.BodyMessageOr | src/client/services/IncidentService.js:29-31 | The thrown message is the body's error message when it is non-empty. When it is absent or empty, the message is the call's fixed fallback. |
| Http.ResultOrEmpty | src/client/services/IncidentService.js:34-35 | A list call returns the body's `result`. When the body has none, it returns the empty list. |
| Http.Settle | src/client/services/IncidentService.js:24-39 | A call yields a value exactly when the reply is an ok response. A network failure rethrows its own error. A non-ok response throws the call's failure message. |
| SearchParams.SetThenGet | src/client/services/IncidentService.js:10-14 | States `GetParam` and `SetParam`. After `set(name, v)`, `get(name)` is `v`, and the name occurs exactly once, whatever the query held before. |
| SearchParams.SetLeavesOthers | src/client/services/IncidentService.js:10-14 | `set` of one name changes neither the value nor the number of occurrences of any other name. |
| SearchParams.SetKeepsOthers | src/client/services/IncidentService.js:10-14 | `set` of a name keeps every pair of the other names, with its value, its copies and its position. Dropping any set of names that contains the one set leaves the query unchanged. |
| Seqs.Filter | src/client/components/IncidentList.jsx:29-46 | The result keeps exactly the elements the test accepts, in their original order. It keeps every copy of an accepted element and no copy of a rejected one, and it is never longer than the input. |
| Seqs.FilterKeepingAll | src/client/components/IncidentList.jsx:29-30 | A test that accepts every element gives back the input itself. |
| Seqs.DisjointFilterLengths | src/client/components/IncidentList.jsx:48-63 | Three mutually exclusive tests keep at most every element once between them. They keep every element exactly when each element passes one of them. |
| IncidentService.ListRequest | src/client/services/IncidentService.js:8-27 | A GET on the incident table. The display-value, limit (100), field-list and descending-update-order parameters each occur once with their fixed values. With those four names set aside, the query is the caller's filters, pair for pair and in order. The token header is added only outside the development build and only when the token is truthy. |
| IncidentService.CreateRequest | src/client/services/IncidentService.js:43-58 | A POST of the data, unchanged, to the table. Write headers plus the conditional token. |
| IncidentService.UpdateRequest | src/client/services/IncidentService.js:73-88 | A PATCH of the data, unchanged, to `RecordPath`, which is `/api/now/table/incident/<sys_id>`. No query. Conditional token. |
| IncidentService.DeleteRequest | src/client/services/IncidentService.js:103-116 | A DELETE with no body on the record's path. Conditional token. |
| IncidentService.GetRequest | src/client/services/IncidentService.js:131-147 | A GET on the record's path whose query names only `sysparm_display_value=all`. |
| IncidentService.ListOutcome | src/client/services/IncidentService.js:29-38 | Ok exactly for an ok response, with the result or `[]`. A non-ok response fails with the body's error message, or "Failed to fetch incidents" when that is absent or empty. A network failure rethrows its own error. |
| IncidentService.CreateOutcome | src/client/services/IncidentService.js:60-68 | Ok exactly for an ok response, with the whole parsed body. A non-ok response fails with the body's error message, or "Failed to create incident" when that is absent or empty. A network failure rethrows its own error. |
| IncidentService.UpdateOutcome | src/client/services/IncidentService.js:90-98 | Ok exactly for an ok response, with the whole parsed body. A non-ok response fails with the body's error message, or "Failed to update incident" when that is absent or empty. A network failure rethrows its own error. |
| IncidentService.DeleteOutcome | src/client/services/IncidentService.js:118-126 | Ok exactly for an ok response, with `true`. A non-ok response fails with the body's error message, or "Failed to delete incident" when that is absent or empty. A network failure rethrows its own error. |
| IncidentService.GetOutcome | src/client/services/IncidentService.js:149-158 | Ok exactly for an ok response, with the body's `result`, which may be absent. A non-ok response fails with the body's error message, or "Failed to fetch incident" when that is absent or empty. A network failure rethrows its own error. |
| SubscriptionService.CreateRequest | src/client/services/SubscriptionService.js:7-19 | A POST of the payload to `sys_noti_subscription`. The token header is always present and holds the token or the empty string. |
| SubscriptionService.UsersRequest | src/client/services/SubscriptionService.js:42-58 | A GET on `sys_user` with display values, limit 20 and the four fields. `sysparm_query` is absent for an empty search text. Otherwise it is `UserQuery`, the name-or-user-name LIKE query of the text. |
| SubscriptionService.NotificationsRequest | src/client/services/SubscriptionService.js:72-91 | A GET on `sysevent_email_action` whose query always starts with `subscribable=true`. It is exactly that when the search text is empty. Otherwise it adds a name LIKE clause. |
| SubscriptionService.CreateOutcome | src/client/services/SubscriptionService.js:23-39 | Ok exactly for an ok response, with the whole body. A non-ok response fails with the body's error message, or "Failed to create subscription" when that is absent or empty. A network failure rethrows its own error. |
| SubscriptionService.UsersOutcome | src/client/services/SubscriptionService.js:60-69 | Ok with the result or `[]` exactly for an ok response. A non-ok response always fails with "Failed to fetch users", whatever the body says. A network failure rethrows its own error. |
| SubscriptionService.NotificationsOutcome | src/client/services/SubscriptionService.js:93-102 | Ok with the result or `[]` exactly for an ok response. A non-ok response always fails with "Failed to fetch notifications". A network failure rethrows its own error. |
| IncidentForm.GetPriorityDescription | src/client/components/IncidentForm.jsx:56-65 | The fixed help text for each of `'1'` to `'5'`, and `''` for every other key. |
| IncidentForm.Form.constructor | src/client/components/IncidentForm.jsx:5-17 | The form starts at the defaults: priority, impact and urgency `'3'`, every other field empty. It is not submitting and shows no message. |
| IncidentForm.Form.HandleInputChange | src/client/components/IncidentForm.jsx:19-25 | The named field takes the new value. Every other field keeps its value. |
| IncidentForm.Form.StartSubmit | src/client/components/IncidentForm.jsx:27-33 | Sets the submitting flag and clears the message. The current values go to `create` unchanged. |
| IncidentForm.Form.SettleSubmit | src/client/components/IncidentForm.jsx:33-53 | On success: the defaults return, the success message is shown, and `onCreated` is called iff the parent passed one. On failure: the values are kept, the error message is shown, and `onCreated` is not called. The flag ends false either way. |
| IncidentForm.Form.Clear | src/client/components/IncidentForm.jsx:220-232 | Restores the defaults and removes the message. |
| IncidentForm.Form.SubmitButton | src/client/components/IncidentForm.jsx:236-242 | The button is disabled exactly while submitting, and says "Creating Incident..." exactly then. |
| IncidentItem.ActionableIffNotTerminal | src/client/components/IncidentItem.jsx:126 | States `IsActionable`. A card is actionable exactly when its state code is neither 6 nor 7. That is exactly when its state badge is neither resolved nor closed. |
| IncidentItem.FormatDate | src/client/components/IncidentItem.jsx:76-89 | "Not specified" exactly for a falsy date. Otherwise the date itself, to be rendered in the locale. |
| IncidentItem.Card | src/client/components/IncidentItem.jsx:128-229 | The state and priority codes come from the value side and every shown text from the display side. The badge classes come from the card's own tables, on the codes. The priority badge is `P<code>`. An empty assignee shows "Unassigned". The created and last-updated dates are the formatted display sides. The caller and group rows appear exactly for a truthy name. View Details is always offered. Resolve and Close are offered together, exactly for an actionable state. |
| IncidentItem.HandleResolve | src/client/components/IncidentItem.jsx:91-102 | One PATCH of the card's own record with state `'6'`, resolver "System" and the time. The parent is notified exactly when the update succeeds. Otherwise the alert reads "Failed to resolve incident: " followed by the service's message. |
| IncidentItem.HandleClose | src/client/components/IncidentItem.jsx:104-117 | One PATCH with state `'7'` and the fixed close code and notes, closer and time. The parent is notified exactly on success. Otherwise "Failed to close incident: " followed by the message. |
| IncidentList.FilterSelects | src/client/components/IncidentList.jsx:29-46 | States `FilteredIncidents` and its test `KeepByFilter`. The filtered list is the input in order with some incidents left out. `active` keeps every copy of each incident with code 1, 2 or 3 and nothing else. `resolved` does the same for exactly 6, and `closed` for exactly 7. |
| IncidentList.FilterKeepsAllWhenUnknown | src/client/components/IncidentList.jsx:43-44 | `all`, and any filter the switch does not know, give back the whole list in order. |
| IncidentList.CountsMatchFilters | src/client/components/IncidentList.jsx:48-63 | States `GetStatusCounts`. Each status badge count equals the length of the list its filter shows. |
| IncidentList.CountsWithinTotal | src/client/components/IncidentList.jsx:141-144 | The three counts never exceed the total. They equal it exactly when every state code is 1, 2, 3, 6 or 7. |
| IncidentList.GetPriorityClass | src/client/components/IncidentList.jsx:82-91 | Codes 1, 2, 4 and 5 map to critical, high, low and planning. Every other code maps to moderate. |
| IncidentList.GetStateClass | src/client/components/IncidentList.jsx:93-102 | Code 1 and every unknown code map to new. Codes 2 and 3 map to progress, 6 to resolved, and 7 to closed. |
| IncidentList.FormatDate | src/client/components/IncidentList.jsx:67-80 | "Not specified" exactly for a falsy date. Otherwise the date itself, to be rendered in the locale. |
| IncidentList.CopiesAgree | src/client/components/IncidentItem.jsx:54-89 | States the card's `GetPriorityClass`, `GetStateClass` and `FormatDate` through the list's. The card's copies give the same answer as the list's, for every input. |
| IncidentList.TerminalBadgeIffNoActions | src/client/components/IncidentItem.jsx:126 | The list shows a resolved or closed badge exactly for the incidents whose card offers no action. Every active incident is actionable. |
| IncidentList.Row | src/client/components/IncidentList.jsx:215-250 | The row is keyed by the value side of `sys_id`, and View opens that record. Number, description, state label and assignee are display sides, and an empty assignee shows "Unassigned". The badge is `P` plus the priority code. The classes are the list's tables on the codes. The update time is the formatted display side. |
| IncidentList.RowAgreesWithCard | src/client/components/IncidentList.jsx:252-300 | A table row and the card of the same incident show the same number, title, state label, badges, assignee and update time, although each computes them with its own copy of the tables. |
| IncidentList.EmptyStateText | src/client/components/IncidentList.jsx:192-194 | "No incidents found." exactly for `all`. Otherwise the text names the filter. |
| IncidentList.ListView.constructor | src/client/components/IncidentList.jsx:6-9 | Starts not loading, with filter `all`, table mode, and nothing loaded. |
| IncidentList.ListView.StartInitialLoad | src/client/components/IncidentList.jsx:12-15 | The mount effect loads exactly when nothing has loaded yet, and then sets `loading`. |
| IncidentList.ListView.SettleInitialLoad | src/client/components/IncidentList.jsx:16-23 | Only a load that did not throw sets `hasLoaded`. `loading` always ends false. |
| IncidentList.ListView.StartRefresh | src/client/components/IncidentList.jsx:111-112 | Refresh sets `loading`. |
| IncidentList.ListView.SettleRefresh | src/client/components/IncidentList.jsx:113-119 | `loading` ends false, and `hasLoaded` is not touched. |
| IncidentList.ListView.SelectFilter | src/client/components/IncidentList.jsx:152-154 | The selected filter becomes the current one. |
| IncidentList.ListView.SelectViewMode | src/client/components/IncidentList.jsx:173-185 | The selected view mode becomes the current one. |
| IncidentList.ListView.Screen | src/client/components/IncidentList.jsx:127-322 | The loading screen is shown exactly while loading before anything has loaded. Otherwise: the badges count the whole list, and Refresh is disabled and relabelled exactly while loading. The body is the empty-state text exactly when no incident passes the filter. Otherwise it shows one row or one card per filtered incident, in order. |
| SubscriptionPage.IdOf | src/client/components/SubscriptionPage.jsx:129 | The chosen id is the pair's value when that is non-empty, and the id itself otherwise. The code side and the truthiness of the id are unchanged. |
| SubscriptionPage.UserLabel | src/client/components/SubscriptionPage.jsx:131 | The box shows the name's display, then the user name's display, then the raw name, then the raw user name. The result is truthy exactly when the name or the user name is. |
| SubscriptionPage.NotificationLabel | src/client/components/SubscriptionPage.jsx:173 | The box shows the name's display, or the raw name. It is truthy exactly when the name is. |
| SubscriptionPage.UserEntry | src/client/components/SubscriptionPage.jsx:138-141 | The entry's title is empty exactly when neither the name nor the user name has a non-empty display. A non-empty title is exactly the text that picking this user puts in the box. The e-mail line is always present. |
| SubscriptionPage.NotificationEntry | src/client/components/SubscriptionPage.jsx:180-185 | The title is the text that picking this notification puts in the box. It cannot be rendered exactly when that text is the name object itself, which happens for a name pair with an empty display. A description line appears exactly when the description's display is non-empty. |
| SubscriptionPage.Page.constructor | src/client/components/SubscriptionPage.jsx:6-18 | Starts with an empty form, empty lists and boxes, no message and both dropdowns closed. |
| SubscriptionPage.Page.MountLoads | src/client/components/SubscriptionPage.jsx:23-26 | On mount: all users, and all subscribable notifications. |
| SubscriptionPage.Page.UsersSettled | src/client/components/SubscriptionPage.jsx:42-49 | On success the user list is replaced. On any failure it is left as it was. |
| SubscriptionPage.Page.NotificationsSettled | src/client/components/SubscriptionPage.jsx:51-58 | The same for notifications. |
| SubscriptionPage.Page.UserTyped | src/client/components/SubscriptionPage.jsx:114-118 | The box shows the text and the dropdown opens. Users are searched by that text, or all users when it is empty. |
| SubscriptionPage.Page.NotificationTyped | src/client/components/SubscriptionPage.jsx:156-160 | The box shows the text and the dropdown opens. The request is always limited to subscribable notifications. It adds `^nameLIKE` and the text exactly when the text is non-empty. |
| SubscriptionPage.Page.UserFocused | src/client/components/SubscriptionPage.jsx:119 | Focus opens the user dropdown. |
| SubscriptionPage.Page.NotificationFocused | src/client/components/SubscriptionPage.jsx:161 | Focus opens the notification dropdown. |
| SubscriptionPage.Page.UserSelected | src/client/components/SubscriptionPage.jsx:128-133 | The user's reduced id becomes the chosen user and its label fills the box. The dropdown closes. The notification and channel are kept. |
| SubscriptionPage.Page.NotificationSelected | src/client/components/SubscriptionPage.jsx:170-174 | The same for the notification. |
| SubscriptionPage.Page.ChannelChanged | src/client/components/SubscriptionPage.jsx:196-198 | The channel changes and nothing else does. |
| SubscriptionPage.Page.MouseDown | src/client/components/SubscriptionPage.jsx:28-40 | A press closes each dropdown it falls outside of, and never opens one. |
| SubscriptionPage.Page.StartSubmit | src/client/components/SubscriptionPage.jsx:60-72 | Posts the chosen user and notification, with the channel sent as `device`. Sets the flag and clears the message. |
| SubscriptionPage.Page.SettleSubmit | src/client/components/SubscriptionPage.jsx:72-81 | On success: the form and both boxes are emptied and the success message is shown. On failure: everything is kept and the error message is shown. The flag ends false. |
| SubscriptionPage.Page.Clear | src/client/components/SubscriptionPage.jsx:212-217 | Empties the form and both boxes and removes the message. |
| SubscriptionPage.Page.SubmitDisabled | src/client/components/SubscriptionPage.jsx:224 | Submit is enabled exactly when not submitting and user, notification and channel are all truthy. |
| SubscriptionPage.Page.UserDropdown | src/client/components/SubscriptionPage.jsx:123-145 | The dropdown is drawn exactly while it is open and the list is non-empty, with one entry per user in order. |
| SubscriptionPage.Page.NotificationDropdown | src/client/components/SubscriptionPage.jsx:165-189 | The same for notifications. |
| SubscriptionPage.PickedFormEnablesSubmit | src/client/components/SubscriptionPage.jsx:224 | After a user and a notification with truthy ids are picked and a channel is chosen, submit is enabled. |
| SubscriptionPage.EmptyFormDisablesSubmit | src/client/components/SubscriptionPage.jsx:224 | After a successful submission or a Clear, submit is disabled. |
| App.Shell.constructor | src/client/app.jsx:9-10 | Opens on the form tab with no incidents. |
| App.Shell.SelectTab | src/client/app.jsx:35-46 | A tab button makes its tab active. |
| App.Shell.StartRefresh | src/client/app.jsx:13-15 | The refresh lists incidents with no caller filters. |
| App.Shell.SettleRefresh | src/client/app.jsx:15-20 | On success the shell holds the fetched list. On any failure it holds the empty list. |
| App.Shell.HandleIncidentCreated | src/client/app.jsx:23-28 | A refresh is issued exactly when the list tab is active. |
| App.Shell.Rendered | src/client/app.jsx:51-63 | The form is rendered exactly on the form tab. The list is given the shell's incidents. |
| App.Shell.NavClass | src/client/app.jsx:35-46 | A tab button is marked `active` exactly when it is the active tab. |

## Left out

- Network I/O. `fetch` itself, the JSON encoding of bodies and the percent-encoding of the query string are not modelled. A reply is a parameter of each settle step.
- Ambient values. The build flag (`import.meta.env.DEV`), the page token `window.g_ck` and the current time are parameters.
- Query text. Search text is spliced into encoded queries verbatim, as the code does. A `^` in the text therefore adds clauses. The model keeps the splice and does not interpret the query language.
- Error bodies. A non-ok reply whose body is not JSON throws a parse error in the source. The model folds it into the failure message path.
- Dates. Locale formatting (`toLocaleString`) is not modelled. A shown date is either the "Not specified" fallback or the raw string marked as localized.
- Browser side effects. `window.open` for View Details, `alert` text display, console output, CSS classes other than the badge tables, and inline styling.
- Scheduling. Asynchronous interleaving and React's batching and effect scheduling are not modelled; each handler is a start step followed by a settle step. Two searches in flight may settle out of order, and the source does not guard against that, so the model makes no last-query-wins claim.
- Field values. Field values are strings. The source compares codes with `===` in the filter and with `String(...)` in the class tables. These agree on strings but not on numeric JSON values, which the Table API does not send.
- IncidentForm.GetPriorityDescription: models the lookup for string keys only. A key such as `'toString'` would read an inherited property in the source.
- SubscriptionPage.NotificationEntry: an unrenderable title is marked `None`. What React then does with the page (an error thrown while rendering) is not modelled.
- Input validation. HTML `required` and `maxLength` checks run in the browser before submit and are not modelled.
- IncidentList.ListView.SettleInitialLoad: the shell's refresh never throws, since it catches its own errors and sets an empty list. So in the full app `hasLoaded` is set after the first load whatever the reply. The model keeps the `threw` case because the component allows any `onRefresh`.
- Unmodelled files. `AuthCheck.jsx` and the Fluent metadata (`src/fluent`) are not part of this model. The app shell renders no subscription view: `app.jsx` mounts only the form and the list, and the model follows it.
- Card state. `HandleResolve` and `HandleClose` return the parent notification as a value. The card keeps no state of its own.
