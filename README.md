# Mountainside Elks site scripts — a verified model

This project models the client-side logic of a small lodge website. The site reads events and
recurring events from a hosted document database and renders them into page containers. It also
submits hall-rental inquiries and contact messages, and runs some page chrome: the mobile menu,
the header's scroll class, anchor links and the active navigation link.

The model keeps the decision rules and leaves out the browser and the database:

- **Events** (`js/events.js`). `EventsQuery` holds the two read queries as pure functions over a
  sequence of stored documents. The upcoming query filters `date >= today`, sorts ascending by
  date and takes `limit`. The recurring query sorts by `sortOrder`. `EventsView` holds the three
  card renderers as view-models: picture or emoji placeholder, tag, meta line and access label.
  `EventsPage` holds the two loaders as methods that assign a container's content step by step.
- **Submissions** (`js/hall-inquiries.js`). `HallInquiries` holds the records the two forms write,
  the `{success, id | error}` result objects and the status update. It also holds the submit
  handler of each form: a `SubmitForm` class that moves idle → submitting → sent, or back to idle.
- **Page chrome** (`js/main.js`). `SiteChrome` holds the mobile-menu state machine, the header's
  scroll threshold, the anchor-link rule and `setActiveNavLink`.
- Helper modules. `JsValues` states how `||` treats a missing or empty field. `Strings` holds
  code-point string order, `includes` and `endsWith`. `Sorting` holds a stable insertion sort
  under a total preorder. `Encoding` holds UTF-8 and windows-1252, used for the findings below.

Modelling decisions:

- The database's answer to a read is `Fetched(docs)` or `ReadFailed(message)`. The documents
  are taken to be in document-id order, which is the order the store uses to break ties between
  equal sort keys. A stable sort of them therefore gives the store's order.
- The store compares strings by code point (`Strings.LessEq`). So `date >= today` holds for
  zero-padded ISO dates exactly when the date is not earlier.
- `{ id: doc.id, ...doc.data() }` puts the data after `id`. A document that stores its own `id`
  field therefore shows that value instead of its document id (`EventsQuery.Merge`).
- The store leaves documents without `sortOrder` out of `orderBy('sortOrder')`.
- A write is given as its outcome: `Added(id)` or `AddFailed(message)` for `add`, and `Written`
  or `WriteFailed(message)` for `update`. The server timestamp is given as a number.
- A form's controls are a map from control id to value. A control read with `?.` may be missing
  and then reads as `''`. A control read without `?.` (`#name` and `#email` on both forms,
  `#message` on the contact form) makes the handler throw when it is missing. The form then stays
  in the submitting state with its button disabled (`written == None`).

What the code does, in the places where a reader might expect something else:

- The code's `today` is the UTC date from `toISOString`, not the local calendar date. It is a
  parameter here.
- The access label has no free-text tag fallback.
- `status` is always overwritten with `"new"`, not only used as a default.
- There is no detail view and no clickable card in these files.

## Model

| member | source | states |
|---|---|---|
| EventsQuery.Merge | js/events.js:16-19 | a fetched record carries the document's fields unchanged and the document id, unless the stored data has its own `id` entry, which wins |
| EventsQuery.FromToday | js/events.js:11 | the date filter keeps exactly the stored documents dated on or after `today`, and no others |
| Sorting.SortSorted | js/events.js:12 | the `orderBy` sort yields a sequence ordered under any total preorder (its permutation property is `Sorting.Sort`'s ensures) |
| Sorting.Sort | js/events.js:12 | sorting keeps exactly the same documents, as a multiset |
| Sorting.Take | js/events.js:13 | `limit(n)` keeps a prefix of the ordered documents: exactly `n` of them, or all when there are fewer |
| EventsQuery.UpcomingDocs | js/events.js:10-14 | the query keeps as many matching documents as there are, up to `limit`, and only matching ones (a sub-multiset of them) |
| EventsQuery.GetUpcomingEvents | js/events.js:7-23 | a failed read gives `[]`; a fetched one gives `limit` records, or every matching one when fewer match (filter and order: `UpcomingEventsSound`, `UpcomingEventsComplete`) |
| EventsQuery.UpcomingDocsSound | js/events.js:10-14 | the query keeps at most `limit` documents, each a stored one dated today or later, in date order |
| EventsQuery.UpcomingEventsSound | js/events.js:7-23 | `getUpcomingEvents` returns at most `limit` records, each dated today or later and the merge of a stored document, non-decreasing by date |
| EventsQuery.UpcomingEventsComplete | js/events.js:10-14 | a matching document the query does not keep means `limit` records were returned, none dated later than it (the result is the earliest matching events) |
| EventsQuery.ReadFailureLooksEmpty | js/events.js:20-23 | a failed read returns `[]`, the same as a store without matching events |
| EventsQuery.WithSortOrder | js/events.js:29-31 | the ordered query keeps exactly the documents that have a `sortOrder` |
| EventsQuery.RecurringDocsSorted | js/events.js:29-31 | the ordered recurring documents are a permutation of those with a `sortOrder`, non-decreasing in it |
| EventsQuery.GetRecurringEvents | js/events.js:27-40 | a failed read gives `[]`; a fetched one gives one record per document that has a `sortOrder` (order and membership: `RecurringEventsOrdered`) |
| EventsQuery.RecurringEventsOrdered | js/events.js:27-40 | `getRecurringEvents` returns one record per stored document with a `sortOrder`, each such document present, in non-decreasing `sortOrder` |
| EventsView.EmojiSlot | js/events.js:110 | the emoji shown is the record's emoji when set, else the calendar glyph; never empty |
| EventsView.TagSlot | js/events.js:115 | the tag shown is the record's tag when set, else `"Event"`; never empty |
| EventsView.MetaLine | js/events.js:118 | the meta line starts with the short date and continues with `" • " + time` exactly when the time is set |
| EventsView.RenderEventCard | js/events.js:100-122 | the homepage card shows a picture `images/<image>` (alt = title) if and only if `image` is set, and otherwise the emoji placeholder |
| EventsView.RenderSpecialEventCard | js/events.js:158-172 | the special-event card always shows the emoji placeholder |
| EventsView.RenderRecurringEvent | js/events.js:125-155 | the schedule entry shows the emoji slot and the access label the tier rule selects |
| EventsView.AccessTagOf | js/events.js:127-142 | the `if` chain agrees with the tier table {open → Open to All, members → Members Only, guests → Members & Guests}, falling back to the legacy flag |
| EventsView.ExplicitTierWins | js/events.js:129-137 | `open`, `members` and `guests` give their own class and text, and flipping `openToAll` changes nothing when one of them is set |
| EventsView.LegacyFlagDecides | js/events.js:138-142 | with no explicit tier the label depends only on `openToAll`: set gives `--open`/"Open to All", unset gives `--members`/"Members & Guests" |
| EventsView.EmojiNeverEmpty | js/events.js:107-162 | in all three renderers the emoji slot is non-empty: the record's emoji when set, else the calendar glyph |
| EventsView.CardsShareText | js/events.js:104-171 | homepage and special cards show the same tag, title, text and meta line, and are equal when there is no image |
| EventsView.EmojiSlotAsWritten | js/events.js:110 | the source's fallback shows its literal when the record has no emoji |
| EventsView.MetaLineAsWritten | js/events.js:118 | the source's meta line joins date and time with its separator literal |
| EventsView.DefaultEmojiAsWritten | js/events.js:110 | the source's default-emoji literal is the windows-1252 reading of the UTF-8 bytes of U+1F4C5, four characters instead of one |
| EventsView.MetaSeparatorAsWritten | js/events.js:118 | the source's separator literal is the windows-1252 reading of the UTF-8 bytes of U+2022, so when a time is shown the meta line differs from the intended one |
| EventsPage.HomeCards | js/events.js:188 | one homepage card per record, in query order |
| EventsPage.SpecialCards | js/events.js:214 | one special-event card per record, in query order |
| EventsPage.RecurringEntries | js/events.js:198 | one schedule entry per record, in query order |
| EventsPage.Settled | js/events.js:183-188 | after loading, a container shows the empty-state message if and only if there are no cards, otherwise exactly the cards |
| EventsPage.LoadHomepageEvents | js/events.js:175-189 | a missing container is left alone; otherwise it gets the loading text, then the empty-state message or the cards of the upcoming query, at most `limit` of them and 3 when no limit is given |
| EventsPage.RecurringWrites | js/events.js:195-199 | the recurring section assigns nothing when there are no records, and otherwise one assignment of the rendered entries, one per record in query order |
| EventsPage.LoadRecurringSection | js/events.js:194-200 | the recurring container gets the entries in query order when there are any, and is left untouched (no empty-state text) when there are none |
| EventsPage.LoadUpcomingSection | js/events.js:203-215 | the upcoming container gets the loading text, then its own empty-state message or the special cards of a 6-event query |
| EventsPage.LoadEventsPage | js/events.js:192-216 | an empty recurring result leaves that container untouched; the upcoming section asks for 6 events and shows loading text, then its own empty-state message or the special cards; when both ids name one container, the upcoming writes follow the recurring ones there and the upcoming result stays |
| EventsPage.ShownCardsFollowQuery | js/events.js:181-188 | the cards shown are at most `limit`, dated today or later, ordered by date, with the date-and-time meta line of their records |
| HallInquiries.InquiryPayloadOf | js/hall-inquiries.js:9-19 | an inquiry is stored with status "new", name and email verbatim, and each optional field as given when set, else `''` |
| HallInquiries.ContactPayloadOf | js/hall-inquiries.js:136-144 | a contact message is stored with status "new", the message without a default, the phone or `''`, and the subject or "General Inquiry" |
| HallInquiries.AddResponse | js/hall-inquiries.js:20-24 | a successful write returns success with the new id; a failed one returns no success with the error message, and nothing is thrown |
| HallInquiries.AddResponseRoundTrip | js/hall-inquiries.js:145-148 | the result object determines the store's answer: nothing of it is lost |
| HallInquiries.SubmitInquiry | js/hall-inquiries.js:7-25 | `submitInquiry` writes a record with status "new" and reports success exactly when the store accepted it |
| HallInquiries.SubmitContact | js/hall-inquiries.js:134-150 | `submitContact` writes a record with status "new" and reports success exactly when the store accepted it |
| HallInquiries.UpdateResponse | js/hall-inquiries.js:69-72 | a status update returns success without an id, or no success with the store's error message |
| HallInquiries.UpdateStatus | js/hall-inquiries.js:63-74 | a failed update leaves the inquiry as it was and returns the store's error message; an accepted one returns success |
| HallInquiries.UpdateStatusTouchesOnlyStatus | js/hall-inquiries.js:65-68 | an accepted update sets `status` and `updatedAt` and leaves every other field unchanged |
| HallInquiries.ReadInquiryForm | js/hall-inquiries.js:100-108 | the inquiry handler reads form data exactly when `#name` and `#email` exist |
| HallInquiries.ReadContactForm | js/hall-inquiries.js:164-170 | the contact handler reads form data exactly when `#name`, `#email` and `#message` exist |
| HallInquiries.MissingControlsStoredAsDefaults | js/hall-inquiries.js:103-107 | a missing optional control is stored as `''`; a contact form with no `#subject` reads `''`, which is stored as "General Inquiry" |
| HallInquiries.SubmitForm.Begin | js/hall-inquiries.js:95-98 | entering the submitting state saves the label, shows the progress label and disables the button, and records that change in the button's history |
| HallInquiries.SubmitForm.Complete | js/hall-inquiries.js:112-126 | on success the thank-you panel replaces the form for good; on failure the saved label and the enabled button return (recorded in the button's history) and the entered values stay |
| HallInquiries.HandleInquirySubmit | js/hall-inquiries.js:92-127 | on every path the button first shows "Submitting..." disabled; the listener writes the record read from the form, then ends in "Thank You!", or on a failed write the button shows its original label enabled again, the only later change to it |
| HallInquiries.HandleContactSubmit | js/hall-inquiries.js:156-187 | on every path the button first shows "Sending..." disabled; the listener writes the record read from the form, then ends in "Message Sent!", or on a failed write the button shows its original label enabled again, the only later change to it |
| SiteChrome.Toggle | js/main.js:17-26 | a toggle flips both classes; overflow becomes `hidden` and `aria-expanded` "true" when the menu was closed, and `''` and "false" when it was open, whatever the other fields held; a state whose fields agree stays so |
| SiteChrome.ToggleTwiceRestores | js/main.js:17-26 | on a state whose fields agree (every state the handlers reach from the closed markup), two toggles give back that state |
| SiteChrome.LinkClick | js/main.js:29-36 | a link click leaves the menu closed and in sync, whatever its state |
| SiteChrome.KeyDown | js/main.js:38-46 | Escape on an open menu closes it exactly as a link click does; any other key, or Escape on a closed menu, changes nothing; the fields stay in sync |
| SiteChrome.MobileNav.OnToggleClick | js/main.js:17-26 | the toggle handler moves the four fields as the toggle rule says |
| SiteChrome.MobileNav.OnLinkClick | js/main.js:30-35 | a link click sets the closed state |
| SiteChrome.MobileNav.OnKeyDown | js/main.js:39-45 | the keydown handler closes the menu on Escape while it is open, and does nothing otherwise |
| SiteChrome.Header.OnScroll | js/main.js:53-63 | the header has `scrolled` exactly when the offset is above 50 (not at 50); the offset is remembered |
| SiteChrome.AnchorClick | js/main.js:68-86 | an anchor whose href is exactly `#` is ignored (no lookup, no prevented default, no scroll); otherwise the default is prevented and a smooth scroll starts exactly when the target exists |
| SiteChrome.LinkMatches | js/main.js:128-131 | the four-way match is the same as: href other than `/` included in the path, `/` on `/` or `/index.html`, or `index.html` on `/` (the `endsWith` test is subsumed) |
| SiteChrome.RootLinkMatches | js/main.js:128-131 | the `/` link is marked on exactly the paths `/` and `/index.html` |
| SiteChrome.EmptyHrefAlwaysMatches | js/main.js:129 | a link with an empty href is marked on every page |
| SiteChrome.MarkedIdempotent | js/main.js:124-134 | marking never removes the class, and a second run changes nothing |
| SiteChrome.SetActiveNavLink | js/main.js:120-135 | after the loop each link is active exactly when it was or its href matches the current path |

## Findings

| source | as written | input that shows it | evidently intended | confidence | as-written member | corrected member |
|---|---|---|---|---|---|---|
| js/events.js:110 | the default emoji (also at lines 146 and 162) is the four-character text `ðŸ“…` | an event or recurring event without `emoji` | the calendar glyph U+1F4C5 | medium, not executed: a page that serves the script as UTF-8 shows the four characters | EventsView.DefaultEmojiAsWritten | EventsView.EmojiSlot |
| js/events.js:118 | the date/time separator (also at line 168) is ` â€¢ ` | an event with `time` "7:00 PM" | ` • ` (U+2022 between spaces) | medium, not executed: same condition as above | EventsView.MetaSeparatorAsWritten | EventsView.MetaLine |

In both cases the literal is exactly the UTF-8 encoding of the intended glyph read back as
windows-1252. The lemmas prove this equality. The rest of the model uses the intended glyphs.

## Left out

- js/firebase-config.js is not part of this model. Its bootstrap is configuration. `formatDate`
  and `formatDateShort` depend on the browser's locale, so `formatDateShort` is the parameter
  `formatShort`. `isPastEvent` reads the clock.
- The document store: network calls, `serverTimestamp` (a number parameter), id assignment (the
  id arrives in the outcome) and `console.error` logging.
- How `today` is computed (`new Date().toISOString()`, a UTC date from the clock). It is a parameter.
- The admin operations of the two files, which none of the pages modelled here uses:
  - Three reads: `getAllEvents` (ordered by `date` descending), `getAllInquiries` (ordered by
    `createdAt` descending) and `getNewInquiries` (only `status == 'new'`, ordered by `createdAt`
    descending). Each returns the merged records, as `GetRecurringEvents` does, or `[]` when the read
    fails.
  - Four writes: `addEvent` maps its store call into `AddResponse`. `updateEvent`, `deleteEvent`
    and `deleteInquiry` map theirs into `UpdateResponse`.
- `async`/`await`. An awaited read or write is given as its outcome. Each handler runs to its
  end in one step, so another event handled while a read is pending is not modelled. The events
  page itself awaits its recurring section before the upcoming one, which is the order
  `LoadEventsPage` follows.
- The default `limit = 10` of `getUpcomingEvents` (js/events.js:7). Every caller in these files
  passes a limit, so no modelled call takes the default.
- The exact HTML text, inline styles, the image `onerror` fallback (js/events.js:102 and 108),
  which reacts to a failed image load, and the `alert` dialogs.
- Smooth-scroll geometry (js/main.js:78-84, floating point), the IntersectionObserver animation
  (js/main.js:90-111) and the copyright year (js/main.js:114-117).
- JavaScript values other than the ones named here. A text field of a record is a string or
  missing. A missing `title`, `description` or `schedule` is shown as the text "undefined"
  (`JsValues.Interpolated`). An event's `date` is taken to be present, because the store's date
  filter leaves out a document without one. A recurring event's `sortOrder` is an integer or
  missing. A fractional, string or `null` `sortOrder` is not modelled; the store would order such
  values by type first. A number or `null` in a text field is not modelled, nor a `null` href.
  `openToAll` is its truthiness. A `pageYOffset` is an integer here, although the browser may give a fraction.
- Sorting.Sort: ties keep the order of the given documents by construction. This stability, which
  gives the store's document-id tie-break, is not proved.
- EventsQuery.GetUpcomingEvents: `limit` is a natural number. A negative or fractional limit,
  which the store client refuses, is not modelled.
- HallInquiries.UpdateStatus: a missing document is not modelled on its own; it is one of the
  failures the `WriteOutcome` parameter stands for. The same holds for a store that refuses an
  `undefined` contact message.
- HallInquiries.SubmitForm.Begin: it requires an idle form. The browser fires no submit event
  while the only submit button is disabled, or after the thank-you panel has removed it. A form
  without a submit button, where the handler throws before anything else, is not modelled, and
  neither is a form id that finds no form (no listener is attached).
- SiteChrome.AnchorClick: an href that is not a valid CSS selector, which makes `querySelector`
  throw, is not modelled.
