/**
 * The two page loaders of js/events.js: look up a container by id, assign
 * its `innerHTML` step by step (loading text, then the empty-state text or
 * the cards), in the order the queries return the records.
 *
 * `document.getElementById` is a map from ids to containers. The reads are
 * given as their outcomes. The events page awaits its recurring section
 * before it looks up the upcoming one, so the two sections run one after
 * the other, here as in the scripts.
 */
module EventsPage {
  import opened JsValues
  import opened EventsQuery
  import opened EventsView

  /** What a script has put into a container. */
  datatype Markup =
    | Static                          // the page's own markup, before any script wrote to it
    | LoadingText                     // "Loading events..."
    | EmptyState(message: string)
    | Cards(cards: seq<Fragment>)     // rendered fragments joined in order

  datatype Fragment = Card(card: CardView) | Recurring(entry: RecurringView)

  const HomepageEmpty: string := "No upcoming events. Check back soon!"
  const SpecialEventsEmpty: string := "No upcoming special events scheduled. Check back soon!"

  /** The number of records the homepage asks for when its caller gives no limit. */
  const HomepageLimit: nat := 3

  /** The number of upcoming special events the events page asks for. */
  const EventsPageLimit: nat := 6

  /** A page element whose `innerHTML` the loaders assign. */
  class Container {
    var html: Markup
    /** Every value assigned to `innerHTML`, oldest first. */
    ghost var writes: seq<Markup>

    constructor (initial: Markup)
      ensures html == initial && writes == []
    {
      html := initial;
      writes := [];
    }

    method SetInnerHtml(m: Markup)
      modifies this
      ensures html == m && writes == old(writes) + [m]
    {
      html := m;
      writes := writes + [m];
    }
  }

  /** The homepage cards, in query order. */
  function HomeCards(events: seq<Record<EventFields>>, formatShort: string -> string): (r: seq<Fragment>)
    ensures |r| == |events|
    ensures forall i :: 0 <= i < |r| ==> r[i] == Card(RenderEventCard(events[i].fields, formatShort))
  {
    seq(|events|, i requires 0 <= i < |events| => Card(RenderEventCard(events[i].fields, formatShort)))
  }

  /** The special-event cards, in query order. */
  function SpecialCards(events: seq<Record<EventFields>>, formatShort: string -> string): (r: seq<Fragment>)
    ensures |r| == |events|
    ensures forall i :: 0 <= i < |r| ==> r[i] == Card(RenderSpecialEventCard(events[i].fields, formatShort))
  {
    seq(|events|, i requires 0 <= i < |events| => Card(RenderSpecialEventCard(events[i].fields, formatShort)))
  }

  /** The recurring-events entries, in query order. */
  function RecurringEntries(events: seq<Record<RecurringFields>>): (r: seq<Fragment>)
    ensures |r| == |events|
    ensures forall i :: 0 <= i < |r| ==> r[i] == Recurring(RenderRecurringEvent(events[i].fields))
  {
    seq(|events|, i requires 0 <= i < |events| => Recurring(RenderRecurringEvent(events[i].fields)))
  }

  /** What a loader leaves in a container after the loading text, given the fetched records. */
  function Settled(cards: seq<Fragment>, emptyMessage: string): (m: Markup)
    ensures m.Cards? <==> cards != []
    ensures cards == [] ==> m == EmptyState(emptyMessage)
    ensures cards != [] ==> m.cards == cards
  {
    if |cards| == 0 then EmptyState(emptyMessage) else Cards(cards)
  }

  /** The containers a loader may write: the one its id names, if the page has it. */
  function Named(page: map<string, Container>, id: string): set<Container>
  {
    if id in page then {page[id]} else {}
  }

  /** `loadHomepageEvents(containerId, limit = 3)`: `None` stands for a call without a limit. */
  method LoadHomepageEvents(
    page: map<string, Container>, containerId: string, limit: Option<nat>,
    store: ReadOutcome<EventFields>, today: string, formatShort: string -> string)
    modifies Named(page, containerId)
    ensures containerId in page ==>
      var count := if limit.Some? then limit.value else HomepageLimit;
      var events := GetUpcomingEvents(store, today, count);
      var c := page[containerId];
      && |events| <= count
      && c.writes == old(c.writes) + [LoadingText, Settled(HomeCards(events, formatShort), HomepageEmpty)]
      && c.html == (if events == [] then EmptyState(HomepageEmpty) else Cards(HomeCards(events, formatShort)))
  {
    if containerId !in page {
      return;
    }
    var count := if limit.Some? then limit.value else HomepageLimit;
    var container := page[containerId];
    container.SetInnerHtml(LoadingText);
    var events := GetUpcomingEvents(store, today, count);
    if |events| == 0 {
      container.SetInnerHtml(EmptyState(HomepageEmpty));
      return;
    }
    container.SetInnerHtml(Cards(HomeCards(events, formatShort)));
  }

  /** What the recurring section assigns: the entries, or nothing at all when there are none. */
  function RecurringWrites(recurring: seq<Record<RecurringFields>>): (w: seq<Markup>)
    ensures |w| <= 1
    ensures w == [] <==> recurring == []
    ensures w != [] ==> w == [Cards(RecurringEntries(recurring))] && |w[0].cards| == |recurring|
  {
    if |recurring| > 0 then [Cards(RecurringEntries(recurring))] else []
  }

  /** The recurring section of `loadEventsPage`: its container is written only when there are records. */
  method LoadRecurringSection(container: Container, store: ReadOutcome<RecurringFields>)
    modifies container
    ensures var recurring := GetRecurringEvents(store);
      && container.writes == old(container.writes) + RecurringWrites(recurring)
      && (recurring == [] ==> container.html == old(container.html))
      && (recurring != [] ==> container.html == Cards(RecurringEntries(recurring)))
  {
    var recurringEvents := GetRecurringEvents(store);
    if |recurringEvents| > 0 {
      container.SetInnerHtml(Cards(RecurringEntries(recurringEvents)));
    }
  }

  /** The upcoming section of `loadEventsPage`: loading text, then the empty state or six cards at most. */
  method LoadUpcomingSection(
    container: Container, store: ReadOutcome<EventFields>, today: string, formatShort: string -> string)
    modifies container
    ensures var events := GetUpcomingEvents(store, today, EventsPageLimit);
      && container.writes == old(container.writes) + [LoadingText, Settled(SpecialCards(events, formatShort), SpecialEventsEmpty)]
      && container.html == Settled(SpecialCards(events, formatShort), SpecialEventsEmpty)
  {
    container.SetInnerHtml(LoadingText);
    var events := GetUpcomingEvents(store, today, EventsPageLimit);
    if |events| == 0 {
      container.SetInnerHtml(EmptyState(SpecialEventsEmpty));
      return;
    }
    container.SetInnerHtml(Cards(SpecialCards(events, formatShort)));
  }

  /**
   * `loadEventsPage(recurringContainerId, upcomingContainerId)`: the recurring
   * section first, then the upcoming one. When both ids name the same
   * container, the upcoming section's writes follow the recurring entries in
   * it and its last write is what stays.
   */
  method LoadEventsPage(
    page: map<string, Container>, recurringId: string, upcomingId: string,
    recurringStore: ReadOutcome<RecurringFields>, eventStore: ReadOutcome<EventFields>,
    today: string, formatShort: string -> string)
    modifies Named(page, recurringId), Named(page, upcomingId)
    ensures recurringId in page && (upcomingId !in page || page[upcomingId] != page[recurringId]) ==>
      var recurring := GetRecurringEvents(recurringStore);
      var c := page[recurringId];
      && c.writes == old(c.writes) + RecurringWrites(recurring)
      && (recurring == [] ==> c.html == old(c.html))
      && (recurring != [] ==> c.html == Cards(RecurringEntries(recurring)))
    ensures upcomingId in page ==>
      var events := GetUpcomingEvents(eventStore, today, EventsPageLimit);
      var c := page[upcomingId];
      var shared := recurringId in page && page[recurringId] == c;
      && c.writes == old(c.writes) + (if shared then RecurringWrites(GetRecurringEvents(recurringStore)) else [])
                     + [LoadingText, Settled(SpecialCards(events, formatShort), SpecialEventsEmpty)]
      && c.html == Settled(SpecialCards(events, formatShort), SpecialEventsEmpty)
  {
    if recurringId in page {
      LoadRecurringSection(page[recurringId], recurringStore);
    }
    if upcomingId in page {
      LoadUpcomingSection(page[upcomingId], eventStore, today, formatShort);
    }
  }

  /**
   * The cards a loader shows are the query's records rendered one by one and
   * in the query's order, so they are dated today or later and ordered by date.
   */
  lemma ShownCardsFollowQuery(store: ReadOutcome<EventFields>, today: string, limit: nat,
                              formatShort: string -> string)
    ensures var events := GetUpcomingEvents(store, today, limit);
      var m := Settled(HomeCards(events, formatShort), HomepageEmpty);
      && (m.Cards? ==> 0 < |m.cards| <= limit)
      && (m.Cards? ==> forall i :: 0 <= i < |m.cards| ==>
            m.cards[i].card.meta == MetaLine(formatShort, events[i].fields.date, events[i].fields.time)
            && Strings.LessEq(today, events[i].fields.date))
      && (m.Cards? ==> forall i, j :: 0 <= i < j < |m.cards| ==>
            Strings.LessEq(events[i].fields.date, events[j].fields.date))
      && (m.EmptyState? <==> events == [])
  {
    UpcomingEventsSound(store, today, limit);
  }
}
