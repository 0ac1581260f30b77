# PCOF church site — the logic behind the pages, in Dafny

This project models the rules that sit under the PCOF church website's
pages, routes and forms. The site itself is a Next.js application.

- **Church list and events list.** The tag menu, the case-insensitive
  search, the tag and upcoming-only filters, the sort, and pagination at
  nine cards per page, with clamped Previous/Next buttons.
- **Leadership grid.** The `chunk` loop that cuts leaders into pages, with a
  zero-based page index.
- **Admin navigation.** Which link of the side menu is highlighted for a path.
- **The four client forms** (donate, contact, RSVP, subscribe). The checks
  they make before posting, the request they send, and how each outcome of
  the post updates their state.
- **The donation checkout route.** Amount validation, conversion to cents,
  and the Stripe session parameters.
- **The Stripe webhook.** It prepends a donation record to the donations file.
- **Sign-in and the admin gate.** The credentials check, the provider list,
  the role carried through the token into the session, and the admin layout.
- **The home page.** Totals, the next upcoming event, featured sermons and
  the church snapshot.
- **A leader's card.** Initials, subtitle, bio text and the bio toggle.

Each file is one module. Shared pieces live in three of them:

- `Text` holds the JavaScript string operations the code relies on: `trim`
  with JavaScript's whitespace set, ASCII `toLowerCase`, `includes`,
  `startsWith`, `split`/`join` on one character, and the email pattern
  `^\S+@\S+\.\S+$`. The pattern is stated as a predicate and decided by an
  index-based check proved equivalent to it.
- `Sequences` holds filter, sort (a stable insertion sort under a total
  preorder), distinct, flatten and slice.
- `Paging` holds the nine-per-page arithmetic.

Components whose state changes in place are classes with `modifies` clauses:

- the list views and the leadership grid;
- the forms;
- the NextAuth token and session;
- the donations file.

A form's async handler is split in two. `Submit` runs up to the `await`. It
validates, updates state, and hands back the request it would post. `Settle`
runs after the `await` and receives the outcome of the post as an input.
Stripe's signature check and session creation, the network, the file system
and the clock are all inputs in the same way.

What the code does not do:

- The checkout route never validates the donor email.
- The checkout route has no "provider not configured" (501) answer. It
  answers `{ url }` rather than a redirect field.
- The webhook has no "not configured" acknowledgment.
- The forms match the email pattern on the email as typed. They do not trim
  or lower-case it first.

## Model

| member | source | states |
|---|---|---|
| Text.Trim | src/components/ChurchesList.tsx:37 | `query.trim()` is empty exactly when the query is all JavaScript whitespace; a non-empty result starts and ends with non-whitespace |
| Text.Lower | src/components/ChurchesList.tsx:38-42 | lower-casing keeps the length, maps each character pointwise and leaves no upper-case ASCII letter |
| Text.Includes | src/components/ChurchesList.tsx:40-42 | `s.includes(q)` holds iff `q` occurs at some position of `s` |
| Text.EmailOk | src/components/DonateForm.tsx:35 | the index-based check accepts exactly the strings matching `^\S+@\S+\.\S+$` |
| Text.Split | src/components/LeaderCard.tsx:23 | `split(' ')` gives at least one piece, no piece contains a space, and joining the pieces with spaces gives back the name |
| Text.SplitJoin | src/components/LeaderCard.tsx:23 | splitting the join of space-free pieces gives back the pieces |
| Text.LexLeTotal | src/components/ChurchesList.tsx:49 | the name order compares any two names |
| Text.LexLeTransitive | src/components/ChurchesList.tsx:49 | the name order is transitive |
| Sequences.Filter | src/components/ChurchesList.tsx:39-47 | `filter` returns no more elements than it was given, and each of them passes the test |
| Sequences.FilterMultiset | src/components/ChurchesList.tsx:39-47 | `filter` keeps each element's full multiplicity when it passes the test and drops it otherwise |
| Sequences.SortBy | src/components/ChurchesList.tsx:48-50 | `sort` returns a permutation of its input, sorted whenever the comparator is a total preorder |
| Sequences.Distinct | src/components/ChurchesList.tsx:29-31 | collecting into a `Set` keeps one copy of every value and nothing else |
| Sequences.DistinctOrder | src/components/ChurchesList.tsx:29-31 | `Array.from(new Set(...))` lists the values in the order of their first occurrence |
| Paging.TotalPages | src/components/ChurchesList.tsx:56 | `max(1, ceil(total/9))` is at least 1, exactly 1 for an empty list, and its pages hold all items with no empty last page |
| Paging.PageItems | src/components/ChurchesList.tsx:59 | a page holds at most 9 items, those at `(page-1)*9 + k`; it is empty beyond the last page and non-empty on an existing page of a non-empty list |
| Paging.PagesCoverAll | src/components/ChurchesList.tsx:55-59 | the pages 1..totalPages laid end to end are exactly the filtered list |
| Paging.PrevPage | src/components/ChurchesList.tsx:109 | Previous goes back one page but never below 1 |
| Paging.NextPage | src/components/ChurchesList.tsx:119 | Next goes forward one page but never past the last |
| ChurchesList.TagOptions | src/components/ChurchesList.tsx:28-32 | the menu is `all` followed by each tag of some church exactly once, and only those, in the order each tag first appears |
| ChurchesList.SearchThenTagKeepsOrder | src/components/ChurchesList.tsx:36-47 | searching then filtering by tag is one filter by the combined test, in input order |
| ChurchesList.Filtered | src/components/ChurchesList.tsx:35-52 | the result is sorted by name for `name`; for `recent` it is the one combined filter over the input, in input order |
| ChurchesList.FilteredMeaning | src/components/ChurchesList.tsx:35-52 | whatever the sort, the result is a sub-multiset of the input holding every church the search and tag accept as often as the input does, and only such churches |
| ChurchesList.SortKeepsCount | src/components/ChurchesList.tsx:48-50 | any two sorts show the same number of churches |
| ChurchesList.NoFilterShowsAll | src/components/ChurchesList.tsx:36-47 | an empty query, tag `all` and `recent` show the input unchanged |
| ChurchesList.ChurchesView.constructor | src/components/ChurchesList.tsx:21-24 | the initial state is query '', tag `all`, sort `name` and page 1 |
| ChurchesList.ChurchesView.SetQuery | src/components/ChurchesList.tsx:70 | typing a query resets to page 1 and changes nothing else |
| ChurchesList.ChurchesView.SetTag | src/components/ChurchesList.tsx:77 | choosing a tag resets to page 1 and changes nothing else |
| ChurchesList.ChurchesView.SetSort | src/components/ChurchesList.tsx:86 | changing the sort keeps the page and the page count |
| ChurchesList.ChurchesView.Receive | src/components/ChurchesList.tsx:20 | new churches replace the list and keep the filters and the page |
| ChurchesList.ChurchesView.ResetPageIfBeyond | src/components/ChurchesList.tsx:57 | a page beyond the page count goes back to 1, and then the page exists |
| ChurchesList.ChurchesView.Prev | src/components/ChurchesList.tsx:109 | Previous keeps the page at least 1 and within range |
| ChurchesList.ChurchesView.Next | src/components/ChurchesList.tsx:119 | Next keeps the page within `[1, totalPages]` |
| EventsList.TagOptions | src/components/EventsList.tsx:33-43 | the nested loops give `all` followed by each distinct non-empty tag of an event's tag array exactly once, and only those, in the order each tag first appears |
| EventsList.TagListMeaning | src/components/EventsList.tsx:33-43 | a value is in the tag menu iff it is non-empty and in some event's tags; the tags follow their first appearance |
| EventsList.StartLeIsTotalPreorder | src/components/EventsList.tsx:58-62 | ordering by start (missing start as 0) is a total preorder |
| EventsList.ThreeFiltersMeaning | src/components/EventsList.tsx:48-57 | search, tag and upcoming-only in a row keep each event exactly as often as the input holds it when it passes all three tests, and drop it otherwise |
| EventsList.Filtered | src/components/EventsList.tsx:58-62 | the result is ascending by start, a missing start counting as 0 |
| EventsList.FilteredMeaning | src/components/EventsList.tsx:45-64 | the result holds exactly the events passing search, tag and upcoming-only (no start, or a start not before now), each as often as in the input |
| EventsList.EventsView.constructor | src/components/EventsList.tsx:23-30 | a non-array prop is an empty list; the initial state is query '', tag `all`, upcoming-only on and page 1 |
| EventsList.EventsView.SetQuery | src/components/EventsList.tsx:83 | typing a query resets to page 1 and changes no other filter |
| EventsList.EventsView.SetTag | src/components/EventsList.tsx:88 | choosing a tag resets to page 1 and changes no other filter |
| EventsList.EventsView.SetUpcomingOnly | src/components/EventsList.tsx:95 | the upcoming-only switch keeps the page |
| EventsList.EventsView.Receive | src/components/EventsList.tsx:21-47 | a new events prop replaces the list, read again at the current time, and keeps the filters and the page |
| EventsList.EventsView.ResetPageIfBeyond | src/components/EventsList.tsx:68 | a page beyond the page count goes back to 1 |
| EventsList.EventsView.Prev | src/components/EventsList.tsx:112 | Previous never goes below page 1 |
| EventsList.EventsView.Next | src/components/EventsList.tsx:114 | Next keeps the page within `[1, totalPages]` |
| LeaderGrid.ChunkStallsWithoutPositiveSize | src/components/LeaderGrid.tsx:21 | with a size of 0 or less and a non-empty array, `i` never reaches the array's length however many turns the loop takes |
| LeaderGrid.Chunk | src/components/LeaderGrid.tsx:19-23 | the chunks laid end to end are the input; each is non-empty and at most `size` long, all but the last exactly `size`; there are `ceil(len/size)` of them |
| LeaderGrid.CeilingCount | src/components/LeaderGrid.tsx:21 | the loop's chunk count is the rounded-up quotient |
| LeaderGrid.LeaderGridView.TotalPages | src/components/LeaderGrid.tsx:30 | `Math.max(1, pages.length)`: 1 without pages, else the number of chunks |
| LeaderGrid.LeaderGridView.Current | src/components/LeaderGrid.tsx:31 | the current page is the chunk at the index, or empty when the index is out of range |
| LeaderGrid.LeaderGridView.Label | src/components/LeaderGrid.tsx:74 | `0 of 0` without leaders, else the one-based page of the page count |
| LeaderGrid.LeaderGridView.constructor | src/components/LeaderGrid.tsx:25-28 | a non-array prop is no leaders; `perPage` defaults to 3; the pages are the chunks of the leaders and the index starts at 0, within range |
| LeaderGrid.LeaderGridView.Receive | src/components/LeaderGrid.tsx:25-31 | new props are re-read and chunked again while the page index is kept; an index past the new pages shows no leaders |
| LeaderGrid.LeaderGridView.ShowsNavigation | src/components/LeaderGrid.tsx:49 | the buttons show iff there is more than one page, that is, iff the leaders do not fit on one page |
| LeaderGrid.FlattenLongerThanHead | src/components/LeaderGrid.tsx:21 | with two or more non-empty chunks, the leaders outnumber the first chunk |
| LeaderGrid.LeaderGridView.Prev | src/components/LeaderGrid.tsx:54 | Previous is `max(0, p-1)`; an index within range stays within range |
| LeaderGrid.LeaderGridView.Next | src/components/LeaderGrid.tsx:64 | Next is `min(totalPages-1, p+1)` and always leaves the index within range, even one left stale by new props |
| LeaderGrid.ReachablePagesAreFull | src/components/LeaderGrid.tsx:27-31 | with leaders, a page index within range shows some |
| LeaderGrid.StalePageShowsNothing | src/components/LeaderGrid.tsx:26-39 | with leaders present but the index past the last page (kept from earlier props), the grid shows no leader and the index is out of range |
| AdminShell.Pathname | src/components/AdminShell.tsx:18-19 | a missing path name is `/` |
| AdminShell.IsActive | src/components/AdminShell.tsx:26-30 | an empty path name highlights nothing; an exact link is highlighted iff the path name is the path or the path plus `/`; a subtree link iff the path name is the path or continues it after a `/` |
| AdminShell.SubtreePrefix | src/components/AdminShell.tsx:29 | `startsWith(path + '/')` holds iff the path name is longer, begins with the path and has `/` right after it |
| AdminShell.ExactImpliesPrefix | src/components/AdminShell.tsx:28-29 | an exact match is also a subtree match |
| AdminShell.DivergingPathsExclusive | src/components/AdminShell.tsx:29 | two subtree links whose paths differ inside both never match the same path name |
| AdminShell.AtMostOneHighlighted | src/components/AdminShell.tsx:44-90 | for any path name at most one of the six links is highlighted |
| AdminShell.SectionPages | src/components/AdminShell.tsx:46-54 | on `/admin/churches` Churches is highlighted and Dashboard is not; `/admin/churchesX` does not highlight Churches |
| LeaderCard.Initials | src/components/LeaderCard.tsx:22-26 | at most two characters, never a space, and empty for an empty name |
| LeaderCard.InitialsMeaning | src/components/LeaderCard.tsx:22-26 | the initials are the name's first character (unless a space) then the character after the first space (unless a space or the end) |
| LeaderCard.DoubleSpaceKeepsOneInitial | src/components/LeaderCard.tsx:23-26 | `Ann  Bell` gives `A`: the empty piece takes the second place |
| LeaderCard.Subtitle | src/components/LeaderCard.tsx:43 | the title when present, else the role |
| LeaderCard.BioText | src/components/LeaderCard.tsx:56 | the bio when non-empty, else `No bio available.`; never empty |
| LeaderCard.ToggleTwiceRestores | src/components/LeaderCard.tsx:60 | two toggles restore the bio's state |
| LeaderCard.BioToggle.Toggle | src/components/LeaderCard.tsx:60 | a click flips `open` |
| LeaderCard.BioToggle.ButtonText | src/components/LeaderCard.tsx:65 | `Hide bio` when open, `Read bio` when closed |
| Fetch.OrElse | src/components/DonateForm.tsx:63 | `m \|\| fallback` is the message when non-empty, else the fallback; never empty with a non-empty fallback |
| Fetch.Caught | src/components/DonateForm.tsx:42-63 | the catch is reached unless the response is ok and its JSON reads; a refusal carries the server's message or the form's fallback |
| Checkout.UnitAmount | src/app/api/donate/checkout/route.ts:20 | `Math.round(x*100)` is within half a cent of `100x` and never negative for a non-negative amount |
| Checkout.WholeAmountInCents | src/app/api/donate/checkout/route.ts:20 | a whole amount becomes exactly 100 cents per unit |
| Checkout.SmallAmounts | src/app/api/donate/checkout/route.ts:13-20 | positive amounts under half a cent pass the check yet ask for 0 cents |
| Checkout.Params | src/app/api/donate/checkout/route.ts:10-48 | subscription and monthly recurrence iff frequency is `monthly`; currency lower-cased (default KES); product name the description or `PCOF donation`; quantity 1; donor email passed through unchecked; donor name or ''; the two URLs after the base URL |
| Checkout.Post | src/app/api/donate/checkout/route.ts:7-56 | a session is requested iff the body parses and the amount is a positive number; an invalid amount is 400 `Invalid amount`; success is 200 with Stripe's URL; every thrown error is 500 with its message or `Server error` |
| DonateForm.Validate | src/components/DonateForm.tsx:30-38 | the form passes iff the amount is positive and the email matches the pattern; the amount check comes first |
| DonateForm.RequestFor | src/components/DonateForm.tsx:45-52 | the body carries the amount, the currency, the frequency, the donor and `Donation by ` with the name, or the email when the name is empty |
| DonateForm.SettleWith | src/components/DonateForm.tsx:54-63 | redirect iff the reply is ok, reads, and has a URL; otherwise an error, never empty, `No checkout URL returned.` for a missing URL, the server's message or `Failed to create checkout session` for a refusal, and the error's message or `An error occurred` for a network failure or an unreadable reply |
| DonateForm.DonationForm.constructor | src/components/DonateForm.tsx:10-16 | currency KES by default, amount 1000, one-time, nothing typed, not processing, no error |
| DonateForm.DonationForm.Submit | src/components/DonateForm.tsx:27-53 | the error is the validation result; a request is sent iff there is none, and only then is the form processing |
| DonateForm.DonationForm.Settle | src/components/DonateForm.tsx:54-66 | processing ends on every path; the form redirects or shows the error |
| DonateForm.FormRequestsReachStripe | src/components/DonateForm.tsx:45-52 | whatever the form posts passes the route's check; Stripe is asked for the form's currency, the donor's email and name, the description as product name, the mode matching the frequency |
| ContactForm.Check | src/components/ContactForm.tsx:25-41 | the required-field message appears iff a field is blank after trimming |
| ContactForm.CheckMeaning | src/components/ContactForm.tsx:29-41 | a bad email (untrimmed) is refused; a good one is sent, or faked as sent when the honeypot is filled |
| ContactForm.StatusAfter | src/components/ContactForm.tsx:52-59 | success iff the response is ok and reads; a refusal shows the server message or `Could not send message`; a network error or an unreadable reply shows the error's message, kept even when empty, or `An error occurred` when it has none |
| ContactForm.ContactFormState.Submit | src/components/ContactForm.tsx:21-49 | only a genuine submission posts; the honeypot clears the fields and claims success; a refusal keeps the fields |
| ContactForm.ContactFormState.Act | src/components/ContactForm.tsx:25-48 | for a verdict: a refusal shows its message and keeps the fields; the honeypot clears the fields and claims success; a genuine submission sets submitting and yields the request with the three fields |
| ContactForm.ContactFormState.Settle | src/components/ContactForm.tsx:52-62 | success clears the three fields, failure keeps them; submitting ends |
| RSVPForm.RsvpPath | src/components/RSVPForm.tsx:16 | the path is `/api/events/`, then the event id, then `/rsvp` |
| RSVPForm.AfterPost | src/components/RSVPForm.tsx:21-28 | confirmed iff the response is ok and reads; otherwise `error` with the server message or `Failed` for a refusal, and the error's message or `Could not register.` for a network failure or an unreadable reply; the message is never empty |
| RSVPForm.RsvpForm.CanSubmit | src/components/RSVPForm.tsx:76 | the button is disabled exactly while sending |
| RSVPForm.RsvpForm.Submit | src/components/RSVPForm.tsx:13-20 | a missing name or email only sets the message and leaves the status; otherwise `sending` and the request to the event's route |
| RSVPForm.RsvpForm.Settle | src/components/RSVPForm.tsx:21-28 | the status and message follow the outcome; success clears name and email |
| SubscribeForm.StatusAfter | src/components/SubscribeForm.tsx:16-28 | failure iff the fetch rejects; any response, whatever its status, is success |
| SubscribeForm.RefusalLooksLikeSuccess | src/components/SubscribeForm.tsx:17-25 | a refused request (a 404, say) still shows success |
| SubscribeForm.SubscribeFormState.CanSubmit | src/components/SubscribeForm.tsx:43 | the button is disabled exactly while sending |
| SubscribeForm.SubscribeFormState.Submit | src/components/SubscribeForm.tsx:14-23 | an empty email changes nothing and sends nothing; otherwise `sending` |
| SubscribeForm.SubscribeFormState.Settle | src/components/SubscribeForm.tsx:24-28 | success clears the email, failure keeps it |
| Auth.AuthorizeAsWritten | src/lib/auth.ts:16-24 | the admin user (id `1`, name `Dev Admin`, the configured email, role ADMIN) is returned only when email and password equal the configured values under strict equality, where absent equals absent; it throws iff the credentials are missing and neither admin variable is set |
| Auth.UnsetAdminEnvAdmitsEmptyCredentials | src/lib/auth.ts:17-21 | with neither admin variable set, credentials lacking email and password sign in as ADMIN |
| Auth.Authorize | src/lib/auth.ts:16-24 | the admin user is returned iff both admin variables are set and both credentials equal them; it never throws |
| Auth.AuthorizeAgreesWhenConfigured | src/lib/auth.ts:17-24 | once both admin variables are set, the corrected check and the code agree on every input |
| Auth.BuildProviders | src/lib/auth.ts:6-36 | credentials first; Google second iff its client id and secret are both set, with those values; one or two providers |
| Auth.JwtRole | src/lib/auth.ts:42-45 | a signing-in user's role is copied to the token, `MEMBER` replaces it when absent; without a user the role stays |
| Auth.Token.Jwt | src/lib/auth.ts:42-45 | the callback leaves the token role the `JwtRole` of the old role and the user |
| Auth.Session.ApplyToken | src/lib/auth.ts:46-48 | the session user, when present, takes the token's role |
| Auth.AdminGate | src/app/admin/layout.tsx:23-28 | the admin layout renders iff there is a session with a user whose role is exactly `ADMIN`; otherwise it redirects to `/api/auth/signin?callbackUrl=/admin` |
| Auth.AdminRoleNeedsConfiguredCredentials | src/lib/auth.ts:16-45 | with the corrected `Authorize` (not the code as written), a credentials sign-in gives the ADMIN role only with both admin variables set and matched |
| Auth.RolelessUserIsRefused | src/app/admin/layout.tsx:23 | a user without a role goes through `jwt` and `session` as `MEMBER` and is redirected |
| Home.Total | src/app/page.tsx:21-22 | the totals are the list lengths, or 0 for a non-array |
| Home.Upcoming | src/app/page.tsx:25-28 | with a future event, an event from the list that is in the future and starts no later than any other future one; otherwise the first event, or none for an empty list |
| Home.FirstIsEarliest | src/app/page.tsx:25-28 | the head of the future events sorted by start is in the list, in the future and the earliest |
| Home.Featured | src/app/page.tsx:30 | the first at most three sermons, in order |
| Home.Snapshot | src/app/page.tsx:116 | the first at most six churches, in order |
| Home.ChurchLink | src/app/page.tsx:121 | the link uses the slug when present, else the id |
| Webhook.RecordOf | src/app/api/webhook/stripe/route.ts:28-36 | the record copies id, email, amount (unscaled), currency, metadata and payment status, stamped with the time |
| Webhook.ListOf | src/app/api/webhook/stripe/route.ts:38-46 | a missing or unparseable file reads as the empty list; a non-array has none |
| Webhook.Step | src/app/api/webhook/stripe/route.ts:10-57 | a bad signature is 400 with the file unchanged; another event type is 200 unchanged; a completed checkout that is written makes the file the event's record followed by the old entries; a non-array file, or a write failing before the file is opened, is 500 with the file unchanged; a write failing partway is 500 and leaves an unparseable file |
| Webhook.TruncatedWriteLosesHistory | src/app/api/webhook/stripe/route.ts:39-48 | after a write that fails partway, the next completed checkout reads the file as empty and leaves its record alone in the file: every earlier record is lost |
| Webhook.RedeliveryDuplicates | src/app/api/webhook/stripe/route.ts:23-50 | delivering the same event twice leaves two full records of it, the later first, with the same session id |
| Webhook.DonationLog.Post | src/app/api/webhook/stripe/route.ts:10-57 | the handler's answer and the new file are those of `Step` on the old file, for each way the write ends |

## Left out

- Rendering, styling, links that only navigate, images and the suggested-amount buttons: they hold no logic beyond the state modelled.
- Stripe's SDK is an input. Signature verification is `Verified(event)` or `BadSignature`, and session creation is a URL or a thrown message. The secret and the signature header only feed that input.
- File, network and clock effects are inputs: the donations file's contents, how the write ends (written, failed before opening the file, or failed partway), each fetch's outcome, `Date.now()` and the ISO time stamp.
- Concurrency: two webhook deliveries racing on the donations file are not modelled; each `Post` runs alone.
- The webhook and checkout routes' module-level Stripe client construction has no failure branch in the code and is not modelled.
- Floating point: amounts are reals, and `Math.round` is `floor(x + 0.5)` without binary rounding error. An infinite amount (`1e400` or `"Infinity"` in the body) is left out: it passes the route's check, and `Math.round(Infinity * 100)` is infinite.
- `localeCompare` is a character-by-character order, not locale collation.
- `toLowerCase` is ASCII only; there is no other Unicode case mapping.
- Characters are code points, whereas JavaScript indexes UTF-16 units; this affects `s[0]` in the initials for characters outside the basic plane.
- Dates are integer timestamps, and an unreadable date is an absent start. The `Date` parsing and normalisation in app/events/page.tsx are not part of this model.
- JSON values of unexpected types (a number where a string is expected, tags that are not strings, `String(t)` on them, a reply body of JSON `null`) are not modelled; fields are present strings or absent.
- Sequences.SortBy: the sort is stable, but only sortedness and the permutation are proved, not the order of ties.
- The RSVP and subscribe routes, the calendar export and lib/api.ts are not part of this model.
- React hooks and effects are reduced to the state they hold. The list views' page reset after new data runs as an explicit `ResetPageIfBeyond` step.
- The form field setters are plain assignments to the class fields and have no methods of their own.

## Findings

| source | as written | input that shows it | evidently intended | confidence | as-written member | corrected member |
|---|---|---|---|---|---|---|
| src/lib/auth.ts:17-21 | `credentials?.email === process.env.ADMIN_EMAIL && credentials?.password === process.env.ADMIN_PASS`, where an unset variable is `undefined` | `ADMIN_EMAIL` and `ADMIN_PASS` unset, and credentials posted without `email` and `password`: both sides are `undefined`, so the ADMIN user is returned | admin sign-in only when both variables are set and both credentials match them | medium, not executed | Auth.UnsetAdminEnvAdmitsEmptyCredentials | Auth.Authorize |
| src/components/LeaderGrid.tsx:21 | `for (let i = 0; i < arr.length; i += size)` with `perPage` taken from the props unchecked | `perPage` of 0 (or negative) with at least one leader: `i` stays at 0 or below, so the loop never ends | a positive page size | medium, not executed | LeaderGrid.ChunkStallsWithoutPositiveSize | LeaderGrid.Chunk |
