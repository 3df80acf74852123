# PropMind core, modelled in Dafny

PropMind is a small property-maintenance app. Tenants report a problem in a chat. A
maintenance ticket then moves through seven statuses, from `new` to `complete`. Landlords see
their tickets on a dashboard, grouped by property, and choose a vendor and a time slot.

This project models the deterministic logic around that ticket data:

- the status lifecycle, its display table and the six-step progress bar;
- the seeded in-memory ticket store;
- the tenant chat's line-buffered reading of the streamed reply (`data: ` lines);
- the route gate and the mock credentials and session cookie;
- the mock vendor generator;
- the dashboard's counts, filters and partitions;
- the vendor card's slot choice;
- the ticket card's age label and fallbacks;
- the demo bar that steps the demo ticket through the lifecycle.

Each source file is one module in its own `.dfy` file:

- `types.dfy`: the data model.
- `text.dfy`: the JavaScript string built-ins the core relies on (`trim`, `split('\n')`,
  `startsWith`, number-to-string, `padStart`).
- `status.dfy`, `status_bar.dfy`, `store.dfy`, `tenant_chat.dfy`, `auth.dfy`, `middleware.dfy`,
  `vendors.dfy`, `vendor_card.dfy`, `property_sidebar.dfy`, `dashboard.dfy`, `ticket_card.dfy`
  and `demo_controls.dfy`: one each for the rest.

Code that computes a value is modelled as functions and lemmas. Code that changes state in
place is modelled as classes. The store's `Map` is a `TicketMap` class. The chat's state is
`TenantChat.Chat`, whose `HandleSend` keeps the source's read loop and line loop. Other
stateful components are `VendorCard.Card`, `Dashboard.Page` and `DemoControls.Controls`.
Each method is proved against a pure function: the loops against `ProcessStream` and
`ProcessLines`, for example. The lemmas about those functions carry the properties.

The rest of the system enters as parameters:

- The clock (`Date.now()`) is a parameter `now`, in milliseconds.
- The Base64 and JSON codecs of the session cookie are the parameters `serialize` and
  `deserialize`.
- `JSON.parse` of a stream payload is `parse`, None when parsing throws.
- The outcomes of `fetch` and of the body reader are datatypes: `ChatResponse`,
  `FetchOutcome` and `PatchOutcome`.
- Floating-point ratings and distances are integer tenths.

## Model

| member | source | states |
|---|---|---|
| Types.ParseIssueType | lib/types.ts:1-8 | a name parses to the issue type whose wire name it is, and to nothing else |
| Types.ParseUrgency | lib/types.ts:10 | a name parses to the urgency whose wire name it is, and to nothing else |
| Types.ParseStatus | lib/types.ts:12-19 | a name parses to the status whose wire name it is, and to nothing else |
| Text.Trim | components/TenantChat.tsx:43 | the result is the slice of the input that starts after its leading whitespace and stops before its trailing whitespace: everything dropped is whitespace, and the result neither starts nor ends with whitespace |
| Text.TrimEmptyIff | components/TenantChat.tsx:43-44 | the trimmed text is empty exactly when every character is whitespace |
| Text.TrimIdempotent | components/TenantChat.tsx:43 | trimming twice is trimming once |
| Text.Split | components/TenantChat.tsx:83 | `split('\n')` yields at least one piece, no piece holds '\n', and joining the pieces with '\n' gives the input back |
| Text.SplitJoin | components/TenantChat.tsx:83 | splitting a join of '\n'-free lines gives the lines back |
| Text.TerminatedThenRest | components/TenantChat.tsx:83-86 | all pieces but the last, each followed by '\n', then the last piece, rebuild the joined text |
| Text.SplitTerminatedPrefix | components/TenantChat.tsx:83 | splitting '\n'-free lines, each followed by '\n', and then any text gives those lines followed by the pieces of that text |
| Text.SplitAppend | components/TenantChat.tsx:82-84 | splitting `x + y` gives every piece of `x` but the last, then the pieces of that last piece followed by `y` |
| Text.CompleteLinesAppend | components/TenantChat.tsx:82-84 | appending text keeps the complete lines already there and continues the leftover, which never holds '\n' |
| Text.NatToString | lib/vendors.ts:37 | the decimal rendering is non-empty, all digits, with no leading zero |
| Text.NatToStringRoundTrip | lib/vendors.ts:37 | reading the digits back gives the number |
| Text.NatToStringInjective | lib/vendors.ts:37 | different numbers render differently |
| Text.PadStart | lib/vendors.ts:49 | `padStart` ends with the input, is at least `width` long, and is filled in front |
| Status.StatusConfigKeys | lib/status.ts:9-45 | the table has an entry for each of the seven statuses and no other key |
| Status.GetStatusConfig | lib/status.ts:47-49 | the lookup always returns an entry of the table |
| Status.GetStatusConfigOfStatus | lib/status.ts:47-48 | a status gets its own table entry |
| Status.GetStatusConfigFallback | lib/status.ts:48 | a name that is not a status gets the `new` entry, labelled "New" |
| Status.ActionNeededOnlyForAwaitingApproval | lib/status.ts:30-34 | `awaiting_approval` is the one status labelled "Action needed" |
| Status.StatusLabelsDistinct | lib/status.ts:9-45 | no two statuses share a label |
| Status.AllStatusesLifecycle | lib/status.ts:51-59 | the list has seven distinct statuses, holds every status, starts at `new` and ends at `complete`, each at its rank |
| Status.IndexOf | components/DemoControls.tsx:21 | `indexOf` is -1 exactly for a missing element, and otherwise the first position holding it |
| Status.IndexOfAllStatuses | lib/status.ts:51-59 | every status's position in the list is its lifecycle rank |
| StatusBar.StatusOrderIsLifecycle | components/TicketStatusBar.tsx:15-23 | the bar's order is the lifecycle list |
| StatusBar.CurrentIndex | components/TicketStatusBar.tsx:26 | the index is -1 exactly for a name that is not a status, and otherwise in range |
| StatusBar.StepsPartitionStatusOrder | components/TicketStatusBar.tsx:6-13 | the steps' key lists, joined, are the status order, and none is empty |
| StatusBar.MaxOf | components/TicketStatusBar.tsx:29-31 | `Math.max` is an element and bounds all others from above |
| StatusBar.MinOf | components/TicketStatusBar.tsx:32-34 | `Math.min` is an element and bounds all others from below |
| StatusBar.StepBounds | components/TicketStatusBar.tsx:29-34 | each step spans the ranks of its first to its last key |
| StatusBar.CurrentIndexOfStatus | components/TicketStatusBar.tsx:26 | a status's index in the bar is its lifecycle rank |
| StatusBar.StepStateOfStatus | components/TicketStatusBar.tsx:35-38 | steps before the status's step are complete, its step is current, later steps are future |
| StatusBar.ExactlyOneCurrentStep | components/TicketStatusBar.tsx:28-39 | for a known status exactly one step is current |
| StatusBar.SubmittedIsCurrentEarly | components/TicketStatusBar.tsx:7 | both `new` and `gathering_info` make "Submitted" current |
| StatusBar.StepStateMonotone | components/TicketStatusBar.tsx:35-38 | a later index never moves a step back from complete or current |
| StatusBar.UnknownStatusAllFuture | components/TicketStatusBar.tsx:26-38 | an unknown status leaves every step in the future |
| Store.SeedTablesConsistent | lib/store.ts:4-37 | every tenant's property is listed, and property ids and slugs are unique |
| Store.FindProperty | components/TicketCard.tsx:56 | `find` by id gives None exactly when no property has the id, and otherwise the first that has it |
| Store.FindListedProperty | app/dashboard/page.tsx:60 | each listed property is found under its own id |
| Store.SeedTicketFacts | lib/store.ts:48-63 | the seed ticket is complete and well formed: created before updated, no vendor or slot chosen, at a listed property |
| Store.DemoTicketFacts | lib/store.ts:66-120 | the demo ticket awaits approval and is well formed: its messages alternate tenant and assistant in time order, and its vendors have ordered prices and ratings within 0 to 5 |
| Store.SeedEntriesFacts | lib/store.ts:44-121 | seeding stores exactly the two tickets, each under its own id, all well formed, none with a vendor or slot |
| Store.TicketMap.Set | lib/store.ts:48-66 | `set` adds or replaces one entry and keeps the rest |
| Store.EvaluateStore | lib/store.ts:44-123 | an existing map is returned unchanged, neither reset nor re-seeded; otherwise a fresh map holds exactly the seed entries |
| TenantChat.AppendToLastAi | components/TenantChat.tsx:94-104 | a text event extends the last message when it is the assistant's and changes nothing otherwise; the message count never changes |
| TenantChat.Dispatch | components/TenantChat.tsx:91-110 | a `text` event applies `AppendToLastAi` with its content; `ticket_created` sets the ticket id to the event's (None when it has none) and leaves the messages; any other event or a payload that does not parse changes nothing |
| TenantChat.ProcessLinesOnlyLastGrows | components/TenantChat.tsx:86-111 | the lines of a chunk keep the number and roles of messages and only extend the last one |
| TenantChat.ProcessStreamOnlyLastGrows | components/TenantChat.tsx:78-112 | the same holds for a whole stream |
| TenantChat.ChunkBuffering | components/TenantChat.tsx:82-84 | after a chunk the buffer has no '\n', and the handed-on lines with their '\n', then the buffer, are the old buffer plus the chunk |
| TenantChat.NoNewlineNoLines | components/TenantChat.tsx:82-84 | text without '\n' is only buffered |
| TenantChat.DoneStopsChunk | components/TenantChat.tsx:87-89 | a "[DONE]" line ends the lines of its chunk |
| TenantChat.DoneDoesNotEndStream | components/TenantChat.tsx:78-89 | for any buffer, any chunk and a "[DONE]" line at any position among its complete lines, the lines before it are handled, the rest of the chunk is skipped, and the following chunks are still read with the new buffer |
| TenantChat.UnterminatedTailIgnored | components/TenantChat.tsx:82-86 | a stream without any '\n' changes nothing: an unterminated last line is never handled |
| TenantChat.TerminatedSplits | components/TenantChat.tsx:82-84 | whole lines, each with its '\n', are handed on exactly as they are, with an empty buffer left over |
| TenantChat.TextLinesAppendInOrder | components/TenantChat.tsx:86-104 | data lines that each parse to a `text` event append their texts, in order, to the assistant's message and change nothing else |
| TenantChat.DoneLineExactly | components/TenantChat.tsx:87-89 | a line stops the line loop exactly when it is "data: [DONE]" |
| TenantChat.ProcessLinesAppend | components/TenantChat.tsx:86-111 | when the first run holds no "[DONE]" line, handling two runs of lines one after the other is handling them together |
| TenantChat.FirstChunkLines | components/TenantChat.tsx:82-84 | the complete lines of the buffer and all chunks are those of the first chunk, then those of its leftover (which has no '\n') followed by the other chunks |
| TenantChat.StreamAsOneChunk | components/TenantChat.tsx:78-111 | when no complete line is "data: [DONE]", the stream from a '\n'-free buffer handles exactly the complete lines of the buffer and all chunks, however the text is cut into chunks |
| TenantChat.TextReplyStreamed | components/TenantChat.tsx:78-104 | a reply of whole `text` data lines, cut into chunks at any points, leaves the assistant's message as its old content followed by the texts, in order |
| TenantChat.Apologize | components/TenantChat.tsx:113-125 | only an empty assistant message at the end changes, and it becomes the apology; nothing else changes |
| TenantChat.SendOutcomeShape | components/TenantChat.tsx:46-125 | a send leaves the old messages, the tenant's message and one assistant message; a request that fails before reading ends with the apology and the ticket id unchanged |
| TenantChat.ApologyKeepsPartialReply | components/TenantChat.tsx:118 | the apology never overwrites a reply that already has text |
| TenantChat.Chat.HandleEvent | components/TenantChat.tsx:91-110 | handling one payload changes the state as `Dispatch` says |
| TenantChat.Chat.HandleLines | components/TenantChat.tsx:86-111 | the line loop changes the state as `ProcessLines` says |
| TenantChat.Chat.ReadStream | components/TenantChat.tsx:76-112 | the read loop, with its buffer kept free of '\n', changes the state as `ProcessStream` says |
| TenantChat.Chat.HandleSend | components/TenantChat.tsx:42-130 | no-op on blank input or while loading; otherwise input cleared, the outcome is `SendOutcome` and loading ends false |
| TenantChat.Chat.Finish | components/TenantChat.tsx:113-127 | on failure the messages become `Apologize` of the old ones, otherwise they stay; loading ends either way and the ticket id is kept |
| Auth.FindUser | lib/auth.ts:49-54 | None exactly when no entry matches both email and password; otherwise the first matching entry's user, without the password |
| Auth.ValidateCredentials | lib/auth.ts:45-55 | a login succeeds only with "demo123", and the user returned is a demo account with the given email |
| Auth.ValidateDemoAccounts | lib/auth.ts:19-54 | each of the three demo accounts logs in with its own email and "demo123" and gets its own user; an email that is no demo account's, or any other password, logs no one in |
| Auth.SessionOf | lib/auth.ts:57-64 | the session copies id, email, name and role, and has a slug exactly when the user's slug is non-empty |
| Auth.DecodeSession | lib/auth.ts:68-76 | None exactly when decoding fails or user id, email or role is missing or empty; otherwise the parsed object as it is |
| Auth.MockUsersWellFormed | lib/auth.ts:19-43 | each demo user has an id and an email, and each tenant a slug |
| Auth.EncodeDecodeRoundTrip | lib/auth.ts:57-76 | with a codec that decodes what it encodes, a user's cookie decodes to that user's session |
| Auth.LoginCookieDecodes | lib/auth.ts:45-76 | whoever logs in gets a cookie that decodes back to their session |
| Middleware.PathSegments | middleware.ts:27-30 | the path after its leading separator is cut at every '/' and '\', so no segment holds a separator |
| Middleware.ResolveSegments | middleware.ts:27-30 | resolving separator-free segments onto resolved ones leaves only resolved segments: none is "." or ".." in any `%2e` spelling, and none holds a separator |
| Middleware.ResolvePath | middleware.ts:27-30 | the pathname `new URL` gives a path that starts with '/' and is joined from segments that hold no dot segment and no separator |
| Middleware.PlainTenantPathResolves | middleware.ts:27-30 | "/tenant/" followed by a plain slug resolves to itself |
| Middleware.DemoSlugsPlain | lib/auth.ts:19-43 | the demo tenants' slugs, and the text "undefined" for a missing one, are plain |
| Middleware.RoleRedirect | middleware.ts:25-36 | a redirect target exists exactly for a tenant on "/dashboard..." or a landlord on "/tenant...", and it is a path |
| Middleware.SessionFrom | middleware.ts:15-16 | no cookie, or an empty one, gives no session; a session has a non-empty user id, email and role and is what the cookie decodes to |
| Middleware.Middleware | middleware.ts:6-39 | public routes pass; the login redirect, carrying the requested path, happens exactly for a private path without a session; every redirect goes to a path |
| Middleware.PublicRoutesPass | middleware.ts:4-12 | "/" and "/login" always pass |
| Middleware.NoSessionGoesToLogin | middleware.ts:14-23 | without a usable session a private path goes to "/login" with `redirect` set to the path |
| Middleware.TenantLeavesDashboard | middleware.ts:26-32 | a tenant on "/dashboard..." goes to the URL resolved from "/tenant/" and the slug, which is "/tenant/" plus the slug when the slug is plain |
| Middleware.LandlordLeavesTenantPages | middleware.ts:34-36 | a landlord on "/tenant..." goes to "/dashboard" |
| Middleware.AuthenticatedOtherwisePass | middleware.ts:38 | every other request with a session passes |
| Middleware.RedirectTargetPasses | middleware.ts:15-38 | for a session with a plain slug or none, following a redirect with the same cookie passes: there is no redirect loop |
| Middleware.TenantPagePasses | middleware.ts:26-38 | a tenant's request for any "/tenant/..." page passes |
| Middleware.DotSlugResolves | middleware.ts:27-30 | "/tenant/../dashboard" resolves to "/dashboard" |
| Middleware.DotSlugRedirectLoops | middleware.ts:26-32 | a tenant cookie with the slug "../dashboard" redirects "/dashboard" to "/dashboard" again |
| Vendors.VendorDbShape | lib/vendors.ts:3-32 | the table has one entry per issue type, each with three names |
| Vendors.EntryFor | lib/vendors.ts:35 | every lookup, with fallback, gives three names |
| Vendors.GetMockVendors | lib/vendors.ts:34-51 | three vendors, named in table order |
| Vendors.UnknownIssueTypeFallsBack | lib/vendors.ts:35 | an unknown category gets the `other` vendors |
| Vendors.MockVendorsFacts | lib/vendors.ts:36-50 | ids v1 to v3 and phone numbers (555) 010-0001 to 0003; review counts 127, 89 and 44; ordered prices 120+30i below 200+50i; rating 4.8-0.3i within 0 to 5 and falling; distance 0.8+0.6i growing; slots non-empty |
| Vendors.ZipIgnored | lib/vendors.ts:34 | the zip code does not affect the result |
| VendorCard.SelectClick | components/VendorCard.tsx:67-68 | `onSelect` fires exactly when the button is enabled, with this vendor and the chosen non-empty slot |
| VendorCard.AtMostOneChecked | components/VendorCard.tsx:47-55 | at most one slot name is checked |
| VendorCard.ChosenSlotIsSelected | components/VendorCard.tsx:55-68 | a picked slot is checked and is what `onSelect` receives |
| VendorCard.Card.constructor | components/VendorCard.tsx:15 | no slot is chosen at first |
| VendorCard.Card.ChooseSlot | components/VendorCard.tsx:56 | a radio's `onChange` replaces the choice with one of the vendor's own slots |
| VendorCard.Card.Click | components/VendorCard.tsx:68 | the click makes the call `SelectClick` describes, always with one of the vendor's slots |
| PropertySidebar.ActiveCount | components/PropertySidebar.tsx:21-22 | the count is at most the number of tickets, and equals it only when every ticket is an open ticket of the property |
| PropertySidebar.TotalActive | components/PropertySidebar.tsx:24 | the total is at most the number of tickets, and equals it exactly when no ticket is complete |
| PropertySidebar.HasUrgent | components/PropertySidebar.tsx:26-32 | the scan finds an urgent ticket exactly when some open ticket of the property is an emergency |
| PropertySidebar.Badge | components/PropertySidebar.tsx:49-78 | a badge shows, with the count, exactly when the count is positive |
| PropertySidebar.BadgeIffOpenTicket | components/PropertySidebar.tsx:21-78 | a property has a badge exactly when it has an open ticket |
| PropertySidebar.ActiveCountPositive | components/PropertySidebar.tsx:21-22 | a property's count is positive exactly when it has an open ticket |
| PropertySidebar.UrgentIsCounted | components/PropertySidebar.tsx:21-32 | a property with an open emergency has a count of at least one |
| PropertySidebar.ActiveCountAtMostTotal | components/PropertySidebar.tsx:21-24 | one property's count is at most the total |
| PropertySidebar.ActiveCountAppend | components/PropertySidebar.tsx:21-24 | counts of a concatenation add up |
| PropertySidebar.CompletedTicketIgnored | components/PropertySidebar.tsx:22-31 | a completed ticket changes no count and no urgency flag |
| PropertySidebar.SumCountsAtMostTotal | components/PropertySidebar.tsx:21-24 | over distinct properties the counts sum to at most the total, and to exactly the total when every open ticket's property is listed |
| Dashboard.Filtered | app/dashboard/page.tsx:34-36 | a selection keeps exactly the selected property's tickets; no (or an empty) selection keeps all |
| Dashboard.ActiveTickets | app/dashboard/page.tsx:38 | keeps exactly the tickets that are not complete |
| Dashboard.CompletedTickets | app/dashboard/page.tsx:39 | keeps exactly the completed tickets |
| Dashboard.NoSelectionShowsAll | app/dashboard/page.tsx:34-36 | without a selection the list is all tickets, in order |
| Dashboard.FilteredDistributes | app/dashboard/page.tsx:35 | the property filter keeps the order |
| Dashboard.ActiveDistributes | app/dashboard/page.tsx:38 | the open filter keeps the order |
| Dashboard.CompletedDistributes | app/dashboard/page.tsx:39 | the completed filter keeps the order |
| Dashboard.ListsPartition | app/dashboard/page.tsx:38-39 | open and completed lists together are the filtered tickets, as a multiset and in number |
| Dashboard.HeaderCountMatchesSidebar | app/dashboard/page.tsx:54 | the header's open count equals the sidebar's badge for the selection, or the total |
| Dashboard.TicketNoun | app/dashboard/page.tsx:55 | "ticket" exactly for a count of one, and "tickets" for every other count |
| Dashboard.PropertyName | app/dashboard/page.tsx:56-62 | a name appears only for a selection, and it is the selected listed property's |
| Dashboard.PropertyNamesFound | app/dashboard/page.tsx:60 | selecting a listed property names it |
| Dashboard.PaneOf | app/dashboard/page.tsx:65-100 | placeholders exactly while loading; the two lists are the open and the completed filtered tickets in the fetched order (ActiveTickets and CompletedTickets of the filtered list), and together they are exactly the filtered tickets |
| Dashboard.EmptyPaneIff | app/dashboard/page.tsx:74 | once loaded, the empty message shows exactly when the selection has no ticket |
| Dashboard.Page.constructor | app/dashboard/page.tsx:10-12 | no tickets, no selection, loading |
| Dashboard.Page.FetchTickets | app/dashboard/page.tsx:14-26 | the list is replaced only by a successful response; loading ends either way |
| Dashboard.Page.Select | app/dashboard/page.tsx:47 | the selection changes and nothing else |
| TicketCard.IconFor | components/TicketCard.tsx:19-69 | a listed issue type gets its icon; any other name gets the `other` icon |
| TicketCard.UrgencyStyleFor | components/TicketCard.tsx:29-57 | a listed urgency gets its own table entry, and any other name the `low` style |
| TicketCard.StatusLabelFor | components/TicketCard.tsx:35-58 | a listed status gets its own table entry, and any other name the `new` badge |
| TicketCard.IconsDistinct | components/TicketCard.tsx:19-27 | each issue type has its own icon |
| TicketCard.UrgencyStylesDistinct | components/TicketCard.tsx:29-33 | each urgency has its own border |
| TicketCard.StatusLabelsAgreeWithConfig | components/TicketCard.tsx:35-43 | the card's badge table has the keys, labels and colours of the shared status table |
| TicketCard.ReviewMarkerIffActionNeeded | components/TicketCard.tsx:59-91 | the Review marker shows exactly when the badge reads "Action needed" |
| TicketCard.AgeOf | components/TicketCard.tsx:45-53 | under 60 s (or in the future) "just now", under an hour minutes, under a day hours, else days, on whole seconds rounded down |
| TicketCard.AgeBounds | components/TicketCard.tsx:48-52 | minutes are 1 to 59, hours 1 to 23, days at least 1, and the label undercounts by less than its unit |
| TicketCard.AgeMonotone | components/TicketCard.tsx:45-53 | a later clock never shows a smaller age |
| TicketCard.CardOf | components/TicketCard.tsx:55-97 | the link, the badge and border from the tables, the Review marker for `awaiting_approval`, "Unknown" for a missing or unnamed property |
| TicketCard.CardShowsListedProperty | components/TicketCard.tsx:56-74 | a listed property's name is shown |
| DemoControls.ArrowsMatchGuard | components/DemoControls.tsx:31-102 | Prev and Next are enabled exactly when the change they ask for would go ahead |
| DemoControls.DotAt | components/DemoControls.tsx:64-81 | the current dot is ringed, earlier dots are coloured, later dots grey |
| DemoControls.ExactlyOneCurrentDot | components/DemoControls.tsx:71-77 | exactly one dot is current |
| DemoControls.Controls.constructor | components/DemoControls.tsx:20-23 | the bar starts at the position of `awaiting_approval`, not busy |
| DemoControls.Controls.BeginChange | components/DemoControls.tsx:30-40 | an out-of-range index or a change in flight does nothing; otherwise the bar is busy and the status to send is returned |
| DemoControls.Controls.FinishChange | components/DemoControls.tsx:41-49 | only a successful request moves the index, which stays in range, and notifies; the bar is no longer busy either way |

## Left out

- StatusBar.GetStepState: a step's keys are a non-empty type (`StepKeys`); every step of the bar has keys, so `Math.max()` and `Math.min()` of no indices (-Infinity and Infinity) are not modelled.
- Conversation orchestration, tool loops, ticket creation on the server and a check on which
  status transitions are legal are not modelled. The chat route `app/api/chat/route.ts` is a
  placeholder, and the PATCH handler that the demo bar calls is not part of this model.
- `lib/claude.ts` (tool schemas and a prompt template), `lib/providers/*` and
  `lib/image-gen.ts` are left out. They are SDK clients, environment variables and network I/O.
- The route handlers under `app/api/` are left out. They are HTTP wrappers around the modelled
  functions.
- Rendering-only components are left out: the navigation bars, layout, fade-in, the demo
  wrapper, the booking modal, and the `useSession` hook.
- Base64, `JSON.stringify`/`JSON.parse` and `TextDecoder` are not modelled. They are the
  parameters `serialize`, `deserialize` and `parse`. The stream's chunks arrive already
  decoded to text.
- `Store.SeedTicket`, `Store.DemoTicket`: the source reads `Date.now()` once per timestamp. The
  model takes one reading, `now`, for all of them.
- `Vendors.MakeVendor`: ratings and distances are integer tenths. The float rounding of
  `toFixed(1)` is not modelled.
- React state batching, focus and scrolling are not modelled. Neither are the dashboard's
  5-second polling (beyond repeated `FetchTickets`) or interleaved async requests.
- `DemoControls.Controls.BeginChange`: `changeStatus` is split at its request into two methods.
  A second change that starts while one is in flight is rejected, and nothing else is
  modelled about interleaving.
- The middleware's matcher regular expression is left out. The model decides for every path
  it is given.
- `TicketCard.IconFor`, `TicketCard.UrgencyStyleFor`, `TicketCard.StatusLabelFor`,
  `Status.GetStatusConfig`, `Vendors.EntryFor`: a key that names an inherited JavaScript
  object property (such as `constructor`) is treated as absent. The source would find the
  inherited value.
- `Auth.DecodeSession`: cookie fields that are present but not strings are outside the model.
  Fields are optional strings.
- `TenantChat.Dispatch`: a `text` event without `content` would append "undefined" in the
  source. The model's text event always carries a string. A `ticket_created` event without a
  `ticketId` clears the id, as the source's `undefined` does.
- `TenantChat.Chat.HandleSend`: the request body and the `console.error` call are left out.
  The fields read at call time are assumed not to change while the reply streams.
- `DemoControls.IsDemo`: the bar renders nothing unless `demo=true` is in the query. That is
  a rendering switch and has no state of its own.
- `Text.NatToString`: only the non-negative integers the core renders are modelled.
- `Middleware.RoleRedirect`: URL resolution of the tenant target is modelled for dot segments
  ("." and "..", also spelled with `%2e`) and for '\' as a separator. A slug holding `?`, `#`,
  spaces or other characters that URL parsing splits off or percent-encodes is not modelled.
  The lemmas about the resolved target speak of plain slugs (letters, digits, '-' and '_').
- `Middleware.ResolvePath`: a path whose second character is also a separator ("//host/x")
  is read by URL parsing as a host followed by a path. That case is not modelled; the template
  always puts "tenant" after the first '/'.
- `Middleware.RedirectTargetPasses`: "no redirect loop" is proved only for sessions whose slug
  is plain or absent, as every demo tenant's is. The cookie is decoded without checking the
  slug, so a slug such as "../dashboard" does loop (`Middleware.DotSlugRedirectLoops`).
- `TicketCard.AgeOf`: timestamps are integers. An unparsable `createdAt` makes `timeAgo` work on
  NaN and print "NaNd ago"; that case is not modelled.
- `Auth.EncodeSession`: `btoa` throws for a name or email outside Latin-1. The parameter
  `serialize` is total, so that failure is not modelled.
