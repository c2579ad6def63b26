# Chilume events arena — a verified model of the front end's logic

This project models the logic of the Chilume 2025 events front end. Students register for sports and cultural events. Visitors browse and search the events. Admins sign in to see funds, expenses and participants. The model covers these parts of the program:

- the registration form's guard chain and the roster append on success (`Registration`);
- the events page's category filter and case-insensitive search (`EventsPage`);
- the admin dashboard's sign-in guard, fallbacks and integer totals (`AdminDashboard`, `Aggregates`);
- the home page's fallbacks, featured events and winners input (`HomePage`);
- the event card's slot, badge, count, link and button logic (`EventCard`);
- the event detail page: its load effect, its labels, the rules text it assembles and the line markup that renders that text (`EventDetail`);
- the winners section (`WinnersSection`);
- the admin session held by the auth context (`AuthContext`);
- the error-code table of the Firebase helper (`FirebaseErrors`).

Shared pieces live in their own modules:

- `Types` holds the records of `src/types/index.ts`, with fees and amounts as integers.
- `Samples` holds the hard-coded sample events the pages fall back to.
- `RulesTemplate` holds the lines of the event detail page's rules text: the five general rules and the chess, badminton and dance sections.
- `Text` gives the JavaScript string operations the code relies on: `toLowerCase`, `includes`, `startsWith`, `split("\n")`, number formatting and the regular-expression class `\s`.
- `Seqs` gives `Array.prototype.filter` and `slice(0, n)`.

State the source changes in place is modelled with classes:

- `Registration.EventDocument` is an event whose roster and `updatedAt` a successful registration rewrites.
- `Registration.RegistrationPage` holds the page's event list, form and `submitting` flag.
- `AuthContext.AuthProvider` holds `currentUser`, `loading` and `error`.

Each method is proved against a pure function of the old state, such as `Decide`, `AfterAuthChange`, `AfterLogin` or `AfterLogout`. The properties the program promises are proved about those functions as lemmas.

Network reads and writes, the identity provider, clocks and generated ids are not modelled as effects. Their outcomes are parameters:

- a fetched list, or `None` for a failed read;
- whether sign-in succeeded;
- the document id the store generated;
- the ISO timestamps.

## Model

| member | source | states |
|---|---|---|
| `Registration.WithField` | src/pages/RegistrationPage.tsx:99-102 | the named field takes the new value; every other field and the event id keep theirs |
| `Registration.RegistrationPage.HandleChange` | src/pages/RegistrationPage.tsx:99-102 | only the form changes, and it changes as `WithField` says |
| `Registration.RegistrationPage.HandleEventChange` | src/pages/RegistrationPage.tsx:104-106 | only the form's event id changes |
| `Registration.RegistrationPage.constructor` | src/pages/RegistrationPage.tsx:17-29 | the form starts empty, with the `eventId` query parameter or ""; not submitting |
| `Registration.ValidPhone` | src/pages/RegistrationPage.tsx:117-118 | `/^\d{10}$/`: exactly ten characters, each '0' to '9'; no contract of its own, its use is stated by `FirstFailureWins` and `RosterOk` |
| `Registration.ValidEmail` | src/pages/RegistrationPage.tsx:125-126 | the e-mail test as a left-to-right scan; no contract of its own, `ValidEmailIff` proves it equal to the pattern |
| `Registration.ValidEmailIff` | src/pages/RegistrationPage.tsx:124-130 | the scan accepts exactly the language of `^[^\s@]+@[^\s@]+\.[^\s@]+$`, in both directions |
| `Registration.Decide` | src/pages/RegistrationPage.tsx:111-166 | a success is only ever decided when the form checks pass, the event exists, it has a free place and the phone is not on its roster |
| `Registration.FirstFailureWins` | src/pages/RegistrationPage.tsx:111-155 | each rejection (missing field, bad phone, bad e-mail, not found, full, duplicate) happens iff every earlier check passed and its own failed |
| `Registration.AcceptedIff` | src/pages/RegistrationPage.tsx:111-166 | a submission is accepted iff all six checks pass; the participant then carries the form's name, college, phone and event id, the store's id, and the success route |
| `Registration.ArrayUnion` | src/pages/RegistrationPage.tsx:177-184 | `arrayUnion` appends the entry iff it is not already on the roster |
| `Registration.RosterAfterAppends` | src/pages/RegistrationPage.tsx:169-186 | a success appends exactly one summary at the end, with no e-mail and no event ids; a rejection leaves the roster as it was |
| `Registration.RegistrationKeepsRosterOk` | src/pages/RegistrationPage.tsx:142-186 | capacity, valid phones and distinct phones hold after every decision when they held before |
| `Registration.RunAll` | src/pages/RegistrationPage.tsx:108-186 | one outcome per submission, in order; the capacity never changes |
| `Registration.RunAllKeepsRosterOk` | src/pages/RegistrationPage.tsx:108-206 | over any run of submissions the roster rule is kept, and the roster grows by exactly the number accepted |
| `Registration.TwoPlaceScenario` | src/pages/RegistrationPage.tsx:117-155 | with two places, two phones are accepted and a third is turned away as full; a repeated phone is a duplicate; a five-digit phone is malformed |
| `Registration.EventDocument.OptionDisabled` | src/pages/RegistrationPage.tsx:241 | an event's option is disabled iff every form that passes the form checks would be turned away from it as fully booked |
| `Registration.EventDocument.OptionLabel` | src/pages/RegistrationPage.tsx:243 | the option reads "{name} (Full)" iff it is disabled |
| `Registration.EventDocument.Update` | src/pages/RegistrationPage.tsx:176-186 | the roster becomes its union with the entry; `updatedAt` is the new time; the capacity is unchanged |
| `Registration.FindEvent` | src/pages/RegistrationPage.tsx:136 | `find` returns the first event with the id, or none iff no event has it |
| `Registration.RegistrationPage.HandleSubmit` | src/pages/RegistrationPage.tsx:108-206 | the outcome is `Decide` on the old form and selected event. Only a success writes, and only to the selected event, whose roster gains the summary at its end and keeps the roster rule. The form is cleared on success only. `submitting` is false once the event checks ran |
| `EventsPage.ApplyFilters` | src/pages/EventsPage.tsx:153-173 | never more events than loaded; every shown event is a loaded one that passes the category and search tests |
| `EventsPage.ApplyFiltersIsOneFilter` | src/pages/EventsPage.tsx:153-173 | the two filter passes equal one filter by the conjunction of the category and search tests |
| `EventsPage.ApplyFiltersExactly` | src/pages/EventsPage.tsx:155-172 | the shown list is an order-preserving subsequence holding exactly the events that pass both tests |
| `EventsPage.EachTestAlone` | src/pages/EventsPage.tsx:158-170 | "all" and "" remove nothing; a category keeps exactly its events; a non-empty term keeps exactly the events whose lowercased name or description contains it |
| `EventsPage.SearchIgnoresTermCase` | src/pages/EventsPage.tsx:164 | lowercasing the term first changes nothing |
| `EventsPage.Refilter` | src/pages/EventsPage.tsx:153-173 | after the filter effect the shown list is the filter of the current inputs |
| `EventsPage.SetSearch` | src/pages/EventsPage.tsx:200 | typing a term refilters with it; no contract of its own, `ResetShowsAll` states that the loaded events are untouched |
| `EventsPage.SetType` | src/pages/EventsPage.tsx:204 | choosing a category refilters with it; no contract of its own, `ResetShowsAll` states that the loaded events are untouched |
| `EventsPage.Reset` | src/pages/EventsPage.tsx:217-220 | both reset buttons clear the term and choose "all"; no contract of its own, `ResetShowsAll` states that the whole list is then shown |
| `EventsPage.FetchFallback` | src/pages/EventsPage.tsx:20-151 | an empty store puts the five samples in both lists; a non-empty one is shown as fetched; a failed fetch leaves both empty; loading ends |
| `EventsPage.ResetShowsAll` | src/pages/EventsPage.tsx:217-220 | after reset the shown list is the whole list; searching, choosing a category and resetting never touch the loaded events |
| `Text.IncludesIff` | src/pages/EventsPage.tsx:167-168 | `includes` finds the term iff it occurs at some position |
| `AdminDashboard.Guard` | src/pages/admin/AdminDashboardPage.tsx:25-30 | the page redirects to "/admin" iff no admin is signed in, and fetches only otherwise |
| `AdminDashboard.Load` | src/pages/admin/AdminDashboardPage.tsx:25-66 | with no user nothing is read and loading stays on; otherwise loading ends, all three reads are kept when they succeed, and a failed events read keeps nothing |
| `AdminDashboard.DisplayEvents` | src/pages/admin/AdminDashboardPage.tsx:135 | the fetched events if any, else the three samples; never empty |
| `AdminDashboard.TotalParticipants` | src/pages/admin/AdminDashboardPage.tsx:136-138 | the collection's size when positive, else the rosters summed; no contract of its own, `SampleFigures` states the fallback's value |
| `AdminDashboard.TotalFunds` | src/pages/admin/AdminDashboardPage.tsx:140-142 | roster length times fee summed over the events on show; no contract of its own, `AdmissionRaisesFunds` and `SampleFigures` state how it moves and its fallback value |
| `AdminDashboard.TotalExpenses` | src/pages/admin/AdminDashboardPage.tsx:144-146 | expense amounts summed; no contract of its own, `ExpenseLowersBalance` states how it moves |
| `AdminDashboard.Balance` | src/pages/admin/AdminDashboardPage.tsx:238 | funds minus expenses; no contract of its own, `ExpenseLowersBalance` and `AdmissionRaisesFunds` state how it moves |
| `AdminDashboard.RecentEvents` | src/pages/admin/AdminDashboardPage.tsx:288 | `slice(0, 3)` of the events on show; no contract of its own, `RecentIsPrefix` states it |
| `AdminDashboard.SampleFigures` | src/pages/admin/AdminDashboardPage.tsx:68-142 | with nothing stored the dashboard shows 45 participants and 11600 collected |
| `AdminDashboard.ExpenseLowersBalance` | src/pages/admin/AdminDashboardPage.tsx:144-146 | one more expense lowers the balance by exactly its amount |
| `AdminDashboard.AdmissionRaisesFunds` | src/pages/admin/AdminDashboardPage.tsx:140-142 | one more participant on an event raises funds and balance by exactly its fee |
| `AdminDashboard.RecentIsPrefix` | src/pages/admin/AdminDashboardPage.tsx:288 | the recent cards are the first min(3, n) events in order; "View All Events" shows iff some event has no card |
| `Aggregates.FundsCollected` | src/pages/HomePage.tsx:36-38 | the `reduce` from 0 adding roster length times fee; no contract of its own, the lemmas below state how it adds up |
| `Aggregates.RosterCount` | src/pages/admin/AdminDashboardPage.tsx:136-138 | the `reduce` from 0 adding roster lengths; no contract of its own, the lemmas below state how it adds up |
| `Aggregates.ExpenseTotal` | src/pages/admin/AdminDashboardPage.tsx:144-146 | the `reduce` from 0 adding amounts; no contract of its own, `ExpenseTotalAppend` states how it adds up |
| `Aggregates.FundsAppend` | src/pages/admin/AdminDashboardPage.tsx:140-142 | the funds of a concatenation are the sum of the parts' funds |
| `Aggregates.RosterCountAppend` | src/pages/admin/AdminDashboardPage.tsx:136-138 | roster counts of a concatenation add up |
| `Aggregates.ExpenseTotalAppend` | src/pages/admin/AdminDashboardPage.tsx:144-146 | expense totals of a concatenation add up |
| `Aggregates.FundsAfterAdmission` | src/pages/HomePage.tsx:36-38 | one admission raises the funds by the event's fee and the participant count by one |
| `Aggregates.EmptyRostersNoFunds` | src/pages/HomePage.tsx:36-38 | events whose rosters are all empty have collected 0 and count nobody |
| `HomePage.Load` | src/pages/HomePage.tsx:20-56 | a successful load keeps the fetched events, their funds and the participants count; at most three featured events, each fetched; a failed events read keeps nothing |
| `HomePage.FeaturedAreFetched` | src/pages/HomePage.tsx:32-33 | exactly min(3, n) featured events, drawn from the fetched ones; the samples stand in only when none was fetched |
| `HomePage.DisplayEvents` | src/pages/HomePage.tsx:137 | the fetched events if any, else the three samples |
| `HomePage.DisplayFeatured` | src/pages/HomePage.tsx:138 | the featured events if any, else the three samples |
| `HomePage.FallbackFigures` | src/pages/HomePage.tsx:36-148 | after a load the funds shown are the fetched events' total unless it is 0, then 16500 (so stored events without participants show 16500); the participants shown are the count unless it is 0 or its read failed, then 45 beside the real events; a failed events read shows 16500 and 45 |
| `HomePage.WinnersInputIsWhatTheSectionShows` | src/pages/HomePage.tsx:177 | the section receives exactly the shown events with winners, in order, and filtering again inside it removes nothing |
| `HomePage.EmptyStoreFigures` | src/pages/HomePage.tsx:58-148 | with nothing stored: three events, 45 participants, 16500 shown (the samples' funds are 11600), and the chess event alone has winners |
| `EventCard.IsFullyBooked` | src/components/EventCard.tsx:23-24 | fully booked iff the roster has reached the capacity |
| `EventCard.BadgeLabel` | src/components/EventCard.tsx:31-33 | "Sports" iff a sports event, "Cultural" iff a cultural one |
| `EventCard.CountLabel` | src/components/EventCard.tsx:50 | "{roster length}/{capacity} participants"; no contract of its own, `CountLabelStartsWithRosterLength` states how it reads back |
| `EventCard.CountLabelStartsWithRosterLength` | src/components/EventCard.tsx:49-51 | the label starts with the roster length's digits, and its first '/' follows them |
| `EventCard.DetailsLink` | src/components/EventCard.tsx:60 | "/events/{id}"; no contract of its own, `LinksNameTheirEvent` states that it names its event |
| `EventCard.RegisterLink` | src/components/EventCard.tsx:63 | "/register?eventId={id}"; no contract of its own, `LinksNameTheirEvent` states that it names its event |
| `EventCard.LinksNameTheirEvent` | src/components/EventCard.tsx:60-63 | each link ends in the card's id; two links are equal iff their ids are |
| `EventCard.RegisterButton` | src/components/EventCard.tsx:64-69 | disabled and "Fully Booked" iff the roster has reached the capacity, else "Register" |
| `EventCard.AdmissionTakesOnePlace` | src/components/EventCard.tsx:23-24 | one more registrant takes exactly one place, and the last place fills the event |
| `EventDetail.ParticipantsLine` | src/pages/EventDetailPage.tsx:183-184 | the participants line; no contract of its own, `ParticipantsLineIff` states how it reads |
| `EventDetail.ParticipantsLineIff` | src/pages/EventDetailPage.tsx:183-184 | the line ends ", fully booked" iff the event is full, and otherwise names the free places |
| `EventDetail.TeamSizeLabel` | src/pages/EventDetailPage.tsx:196 | "Individual" iff the team size is 1, else "{n} members" |
| `EventDetail.DetailButton` | src/pages/EventDetailPage.tsx:200-203 | disabled iff the roster has reached the capacity, reading "Fully Booked" or "Register Now" |
| `EventDetail.Classify` | src/pages/EventDetailPage.tsx:219-232 | heading iff "# ", subheading iff "## ", bullet iff "- ", nothing iff empty: each line gets exactly one class |
| `EventDetail.ClassifyRoundTrip` | src/pages/EventDetailPage.tsx:221-231 | the marker plus the block's text gives back the line; a well-formed block is read back as itself |
| `EventDetail.ClassifyAll` | src/pages/EventDetailPage.tsx:219 | one block per line, in order |
| `EventDetail.SubheadingIn` | src/pages/EventDetailPage.tsx:223-224 | a subheading is rendered iff its "## " line is among the lines |
| `EventDetail.WrittenRulesText` | src/pages/EventDetailPage.tsx:37-69 | the template literal with the source's indentation; no contract of its own, `WrittenRulesHaveNoMarkup` and `WrittenSectionsIff` state what it holds |
| `EventDetail.RulesText` | src/pages/EventDetailPage.tsx:37-69 | the same template without the indentation, as its markup means it; no contract of its own, `RulesRenderAsMeant` and `SectionsRenderIff` state how it renders |
| `EventDetail.WrittenRulesHaveNoMarkup` | src/pages/EventDetailPage.tsx:37-69 | as written, every rules line is a paragraph or nothing, the title included |
| `EventDetail.PreambleLines` | src/pages/EventDetailPage.tsx:37-44 | the text's second line is the title and the five general rules follow its indentation line, in order |
| `EventDetail.HeadingLineIn` | src/pages/EventDetailPage.tsx:37-69 | a line starting "##" is in the text iff it belongs to a section the lowercased name asks for; the title and the general rules never match |
| `EventDetail.HeadingsOwnSection` | src/pages/EventDetailPage.tsx:47-67 | each section heading is a line of its own section and of no other |
| `EventDetail.SubheadingRendered` | src/pages/EventDetailPage.tsx:37-69 | without the indentation a subheading is rendered iff its "## " line belongs to a section the name asks for |
| `EventDetail.WrittenSectionsIff` | src/pages/EventDetailPage.tsx:46-68 | each section's heading line is in the text iff the lowercased name contains "chess", "badminton" or "dance" |
| `EventDetail.RulesRenderAsMeant` | src/pages/EventDetailPage.tsx:37-44 | without the indentation the title is a heading and the five general rules follow as paragraphs |
| `EventDetail.SectionsRenderIff` | src/pages/EventDetailPage.tsx:46-68 | without the indentation each section's subheading is rendered iff the name asks for it |
| `RulesTemplate.GeneralRulesHaveNoNewline` | src/pages/EventDetailPage.tsx:40-44 | no general rule holds a line break, so splitting the text on "\n" keeps each rule one line |
| `RulesTemplate.ChessHasNoNewline` | src/pages/EventDetailPage.tsx:47-51 | no line of the chess section holds a line break |
| `RulesTemplate.BadmintonHasNoNewline` | src/pages/EventDetailPage.tsx:55-59 | no line of the badminton section holds a line break |
| `RulesTemplate.DanceHasNoNewline` | src/pages/EventDetailPage.tsx:63-67 | no line of the dance section holds a line break |
| `RulesTemplate.TemplateLineStarts` | src/pages/EventDetailPage.tsx:40-67 | the general rules start with a digit, section rules with "-", and the three headings are "## " and their titles, told apart by the title's first letter |
| `EventDetail.Load` | src/pages/EventDetailPage.tsx:19-83 | loading ends with the rules pending; an event is held iff the route id is non-empty and the document exists, under the route's id |
| `EventDetail.RulesArrive` | src/pages/EventDetailPage.tsx:36-69 | the delayed `setRules` stores the indented template text for the loaded event and changes nothing else; with no event nothing changes |
| `EventDetail.ViewOf` | src/pages/EventDetailPage.tsx:84-218 | the spinner iff loading, "Event Not Found" iff loaded without an event, otherwise the event, its rules shown iff they are a non-empty string |
| `EventDetail.ArrivedRulesShowNoMarkup` | src/pages/EventDetailPage.tsx:36-69 | the rules a found event receives are the indented template, and for a one-line name every rendered line is a paragraph or nothing |
| `EventDetail.MissingIdShowsNotFound` | src/pages/EventDetailPage.tsx:22-25 | a missing id reads nothing and shows "Event Not Found", as does a missing document; a found event shows its rules once they arrive |
| `WinnersSection.EventsWithWinners` | src/components/WinnersSection.tsx:12 | `events.filter(...)` for events with a non-empty winners list; no contract of its own, `Render` and `FilterOnFilteredInput` state it |
| `WinnersSection.PlaceLabel` | src/components/WinnersSection.tsx:50 | "1st Place" iff index 0, "2nd Place" iff index 1, "3rd Place" iff index 2 or more |
| `WinnersSection.WinnerRows` | src/components/WinnersSection.tsx:37-53 | one row per winner, in order, each labelled by its position |
| `WinnersSection.Cards` | src/components/WinnersSection.tsx:29-53 | one card per event, named after it, holding its winner rows; no contract of its own, `RenderListsEveryWinner` states it |
| `WinnersSection.Render` | src/components/WinnersSection.tsx:12-16 | nothing is rendered iff no event has winners; otherwise one card per such event |
| `WinnersSection.RenderListsEveryWinner` | src/components/WinnersSection.tsx:12-53 | the cards follow the events with winners in order, each listing every winner in order |
| `WinnersSection.FilterOnFilteredInput` | src/components/WinnersSection.tsx:12 | the filter is idempotent |
| `AuthContext.UseAuth` | src/contexts/AuthContext.tsx:11-17 | outside a provider the hook fails with "useAuth must be used within an AuthProvider"; inside it yields the context |
| `AuthContext.AuthProvider.constructor` | src/contexts/AuthContext.tsx:20-22 | the session starts with no user, loading, and no error |
| `AuthContext.AdminsWithEmail` | src/contexts/AuthContext.tsx:29-33 | the query returns only admin documents with the session's e-mail, and some when one exists |
| `AuthContext.AfterAuthChange` | src/contexts/AuthContext.tsx:26-49 | the callback's new state; no contract of its own, `AuthChangeOutcome` states it case by case |
| `AuthContext.AfterLogin` | src/contexts/AuthContext.tsx:55-77 | `login`'s effect on the state; no contract of its own, `AuthProvider.Login` is proved against it and `LoginNeverSignsIn` states that it never sets a user |
| `AuthContext.AfterLogout` | src/contexts/AuthContext.tsx:79-91 | `logout`'s effect on the state; no contract of its own, `AuthProvider.Logout` is proved against it |
| `AuthContext.AuthChangeOutcome` | src/contexts/AuthContext.tsx:26-49 | signed out clears the user; a failed or empty lookup keeps it; a successful lookup signs in the first admin document with the session's e-mail; any user it sets is an admin document's record with that e-mail; loading ends |
| `AuthContext.AuthProvider.OnAuthStateChanged` | src/contexts/AuthContext.tsx:26-49 | the new state is the auth-change step of the old one |
| `AuthContext.AuthProvider.Login` | src/contexts/AuthContext.tsx:55-77 | sign-in uses "admin@chilume2025.org" and the key; it rethrows iff sign-in failed; the error is cleared, or set to "Invalid authentication key" on failure; the user is untouched; loading ends |
| `AuthContext.AuthProvider.Logout` | src/contexts/AuthContext.tsx:79-91 | the user is cleared iff sign-out succeeds; loading ends |
| `AuthContext.RunKeepsUserIsAdmin` | src/contexts/AuthContext.tsx:26-91 | over any session the signed-in user is always the record of an admin document |
| `AuthContext.LoginNeverSignsIn` | src/contexts/AuthContext.tsx:55-91 | logging in and out alone never produces a user: only the auth-state callback does |
| `FirebaseErrors.HandleFirebaseError` | src/lib/firebase.ts:29-43 | a listed code gets its table entry; no code or any other code gets the UNKNOWN_ERROR message |
| `FirebaseErrors.TableCodes` | src/lib/firebase.ts:29-37 | the table has exactly the seven authentication codes |
| `FirebaseErrors.ListedEntry` | src/lib/firebase.ts:29-37 | each listed code's message is tagged and reads back to that code |
| `FirebaseErrors.MessagesAreTagged` | src/lib/firebase.ts:30-43 | every message is an upper-case tag, ": ", then text |
| `FirebaseErrors.MessageIdentifiesCode` | src/lib/firebase.ts:29-43 | two codes share a message iff they are the same, when one is listed; no listed code gets the default |
| `FirebaseErrors.Lookup` | src/lib/firebase.ts:39-40 | `errorMap[code]` on the object literal: a listed code yields its message; nothing is found iff the code is neither listed nor an inherited member's name |
| `FirebaseErrors.HandleAsWritten` | src/lib/firebase.ts:38-43 | the function as written; no contract of its own, `InheritedCodeReturnsNoMessage` and `AgreesOutsideInheritedNames` state how it differs from the corrected lookup |
| `FirebaseErrors.InheritedCodeReturnsNoMessage` | src/lib/firebase.ts:39-40 | as written, the code "toString" yields a function and "__proto__" an object, not a message |
| `FirebaseErrors.AgreesOutsideInheritedNames` | src/lib/firebase.ts:39-43 | except for inherited member names, the code as written returns the table's message |

## Left out

- Network reads and writes, the identity provider and its auth-state subscription are not modelled as effects; their outcomes are parameters.
- The registration page's own event fetch and its three-sample fallback (src/pages/RegistrationPage.tsx:31-97) are not modelled. The page is constructed with its event list.
- The two writes of a registration are non-atomic, and concurrent registrants can race on a stale snapshot. Neither is modelled: a registration is one sequential step on one snapshot, which stands for the stored event.
- The `catch` path of `handleSubmit` (a failing write, "Registration failed. Please try again.") is not modelled, since writes are assumed to succeed.
- Toasts, `console` logging and navigation are left out, except for the success route, which the outcome carries.
- `Date.now()`, `new Date().toISOString()` and the store's generated ids are opaque string parameters. The temporary `p_…` id is left out because it is overwritten by the store's id before anything is written.
- `Text.ToLower`: `toLowerCase` is modelled for ASCII letters only; other Unicode case mappings are not.
- `Text.IsJsWhitespace` has the full set of characters JavaScript's `\s` matches, not only ASCII whitespace. The e-mail check therefore rejects every character the pattern's `[^\s@]` excludes.
- `HomePage.Load`: the random shuffle is a parameter, constrained only to be a permutation of the fetched events.
- The one-second `setTimeout` before the rules appear is modelled as a separate step, `EventDetail.RulesArrive`, with no timing. A response that arrives after the route changed is not modelled.
- WrittenRulesHaveNoMarkup: proved only for event names without a line break. A stored name such as "Quiz\n# Finals" adds an unindented line to the text, which renders as a heading.
- RulesRenderAsMeant: proved only for event names without a line break, since a line break in the name splits the title line.
- SectionsRenderIff: proved only for event names without a line break, since a name holding "## " after a line break adds a subheading of its own.
- SubheadingRendered: proved only for event names without a line break, for the same reason.
- ArrivedRulesShowNoMarkup: states the rendering only for event names without a line break; that the arriving text is the indented template holds for every name.
- Date and time formatting (`toLocaleDateString`, `toLocaleTimeString`) is left out.
- Fees, amounts and counts are unbounded integers. JavaScript's floating-point numbers are not modelled.
- The user's e-mail in the auth-state callback is modelled as always present; a provider user with a null e-mail is not modelled.
- The registration form's `handleChange` is modelled for its four text inputs by name; inputs with other names are not modelled.
- The sample data gives every participant the phone "9876543210". The distinct-phone roster rule is therefore never stated about the samples.
- Presentational components and pages are not part of this model: header, footer, hero, statistics counter, routes, login page glue and the success page. Neither is the Firebase configuration (src/lib/firebase.ts:9-22).
- `EventCard.CountLabelStartsWithRosterLength`: the count label's digits are stated for the roster length only. The capacity's part after the '/' is not parsed back.

## Findings

| source | as written | input that shows it | evidently intended | confidence | as-written member | corrected member |
|---|---|---|---|---|---|---|
| src/pages/EventDetailPage.tsx:37-69 | the rules template literal keeps the source's 14-space indentation on every line, so no line starts with "# ", "## " or "- " and the renderer shows every marker as plain paragraph text | an event named "Chess Championship": its second line is 14 spaces then "# Rules for Chess Championship", a paragraph, not a heading | the title renders as a heading, section titles as subheadings and rules as bullets | high, not executed | `EventDetail.WrittenRulesHaveNoMarkup` | `EventDetail.RulesRenderAsMeant` |
| src/lib/firebase.ts:39-40 | `errorMap[error.code]` also finds the members every object inherits, so such a code passes the guard and that member is returned | an error whose code is "toString" gets the function `Object.prototype.toString` back, not a message | only the seven listed codes map to their messages; every other code gets UNKNOWN_ERROR | low, not executed | `FirebaseErrors.InheritedCodeReturnsNoMessage` | `FirebaseErrors.HandleFirebaseError` |
