/**
 * The records of the `events` and `recurring-events` collections, and what
 * the two read queries of js/events.js return from them.
 *
 * The document store is not modelled: a read either fails or hands back the
 * collection's documents as a sequence, taken to be in document-id order
 * (the order the store uses to break ties between equal sort keys). The
 * queries' filter, order and limit are then stated over that sequence.
 */
module EventsQuery {
  import opened JsValues
  import Strings
  import Sorting

  /**
   * The fields of an `events` document. `date` is taken to be present: the
   * store's `where('date', ...)` leaves a document without it out of the query.
   */
  datatype EventFields = EventFields(
    title: Option<string>,
    description: Option<string>,
    date: string,            // ISO calendar date, YYYY-MM-DD
    time: Option<string>,
    tag: Option<string>,
    emoji: Option<string>,
    image: Option<string>)

  /** The fields of a `recurring-events` document. */
  datatype RecurringFields = RecurringFields(
    title: Option<string>,
    schedule: Option<string>,
    description: Option<string>,
    emoji: Option<string>,
    accessLevel: Option<string>,
    openToAll: bool,         // truthiness of the legacy `openToAll` field
    sortOrder: Option<int>)

  /**
   * A stored document: its store-assigned id, the `id` entry of its data
   * if it has one, and the rest of its data.
   */
  datatype Doc<F> = Doc(id: string, idField: Option<string>, fields: F)

  /** A document as the scripts see it: `{ id: doc.id, ...doc.data() }`. */
  datatype Record<F> = Record(id: string, fields: F)

  /** What a read of a collection gives back. */
  datatype ReadOutcome<F> = Fetched(docs: seq<Doc<F>>) | ReadFailed(message: string)

  /**
   * Spreading the data after `id` lets an `id` entry stored in the document
   * take the place of the document's own id.
   */
  function Merge<F>(d: Doc<F>): (r: Record<F>)
    ensures r.fields == d.fields
    ensures d.idField.None? ==> r.id == d.id
    ensures d.idField.Some? ==> r.id == d.idField.value
  {
    Record(if d.idField.Some? then d.idField.value else d.id, d.fields)
  }

  function MergeAll<F>(docs: seq<Doc<F>>): (r: seq<Record<F>>)
    ensures |r| == |docs|
    ensures forall i :: 0 <= i < |docs| ==> r[i] == Merge(docs[i])
  {
    seq(|docs|, i requires 0 <= i < |docs| => Merge(docs[i]))
  }

  // ---------------------------------------------------------------------
  // getUpcomingEvents: where('date', '>=', today), orderBy('date', 'asc'), limit(limit)

  /** The `where('date', '>=', today)` filter on one document. */
  predicate OnOrAfter(d: Doc<EventFields>, today: string)
  {
    Strings.LessEq(today, d.fields.date)
  }

  /** The documents that pass the date filter, in store order. */
  function FromToday(docs: seq<Doc<EventFields>>, today: string): (r: seq<Doc<EventFields>>)
    ensures forall d :: d in r <==> d in docs && OnOrAfter(d, today)
    ensures |r| <= |docs|
  {
    if docs == [] then []
    else if OnOrAfter(docs[0], today) then [docs[0]] + FromToday(docs[1..], today)
    else FromToday(docs[1..], today)
  }

  /** The `orderBy('date', 'asc')` preorder. */
  predicate DateLe(a: Doc<EventFields>, b: Doc<EventFields>)
  {
    Strings.LessEq(a.fields.date, b.fields.date)
  }

  lemma DateLeIsTotalPreorder()
    ensures Sorting.Total(DateLe)
    ensures Sorting.Transitive(DateLe)
  {
    forall a, b ensures DateLe(a, b) || DateLe(b, a) {
      Strings.LessEqTotal(a.fields.date, b.fields.date);
    }
    forall a, b, c | DateLe(a, b) && DateLe(b, c) ensures DateLe(a, c) {
      Strings.LessEqTransitive(a.fields.date, b.fields.date, c.fields.date);
    }
  }

  /** The matching documents, ordered by date, cut to `limit`. */
  function UpcomingDocs(docs: seq<Doc<EventFields>>, today: string, limit: nat): (r: seq<Doc<EventFields>>)
    ensures var matching := FromToday(docs, today);
      && |r| == (if |matching| < limit then |matching| else limit)
      && multiset(r) <= multiset(matching)
  {
    Sorting.Take(Sorting.Sort(FromToday(docs, today), DateLe), limit)
  }

  /** `getUpcomingEvents(limit)` with the current date given as `today`. */
  function GetUpcomingEvents(store: ReadOutcome<EventFields>, today: string, limit: nat): (r: seq<Record<EventFields>>)
    ensures store.ReadFailed? ==> r == []
    ensures |r| <= limit
    ensures store.Fetched? ==>
      var matching := FromToday(store.docs, today);
      |r| == (if |matching| < limit then |matching| else limit)
  {
    match store
    case ReadFailed(_) => []
    case Fetched(docs) => MergeAll(UpcomingDocs(docs, today, limit))
  }

  /** A failed read is reported exactly as a store with no matching event. */
  lemma ReadFailureLooksEmpty(message: string, today: string, limit: nat)
    ensures GetUpcomingEvents(ReadFailed(message), today, limit) == GetUpcomingEvents(Fetched([]), today, limit) == []
  {
  }

  /** The documents the query keeps: at most `limit`, each a matching stored one, ordered by date. */
  lemma UpcomingDocsSound(docs: seq<Doc<EventFields>>, today: string, limit: nat)
    ensures var u := UpcomingDocs(docs, today, limit);
      && |u| <= limit
      && (forall i :: 0 <= i < |u| ==> u[i] in docs && OnOrAfter(u[i], today))
      && Sorting.SortedBy(u, DateLe)
  {
    var matching := FromToday(docs, today);
    var sorted := Sorting.Sort(matching, DateLe);
    var u := Sorting.Take(sorted, limit);
    DateLeIsTotalPreorder();
    Sorting.SortSorted(matching, DateLe);
    forall i | 0 <= i < |u|
      ensures u[i] in docs && OnOrAfter(u[i], today)
    {
      assert sorted[i] in multiset(matching);
    }
  }

  /**
   * What the upcoming-events query promises: no more than `limit` records,
   * each one a stored document dated today or later (its id merged with its
   * fields), in non-decreasing date order.
   */
  lemma UpcomingEventsSound(store: ReadOutcome<EventFields>, today: string, limit: nat)
    ensures var r := GetUpcomingEvents(store, today, limit);
      && |r| <= limit
      && (forall i :: 0 <= i < |r| ==> Strings.LessEq(today, r[i].fields.date))
      && (forall i, j :: 0 <= i < j < |r| ==> Strings.LessEq(r[i].fields.date, r[j].fields.date))
      && (store.Fetched? ==> forall i :: 0 <= i < |r| ==> exists d :: d in store.docs && r[i] == Merge(d))
  {
    if store.Fetched? {
      var u := UpcomingDocs(store.docs, today, limit);
      UpcomingDocsSound(store.docs, today, limit);
      var r := GetUpcomingEvents(store, today, limit);
      assert r == MergeAll(u);
      forall i | 0 <= i < |r|
        ensures Strings.LessEq(today, r[i].fields.date)
        ensures exists d :: d in store.docs && r[i] == Merge(d)
      {
        assert r[i] == Merge(u[i]) && u[i] in store.docs;
      }
      assert forall i :: 0 <= i < |r| ==> exists d :: d in store.docs && r[i] == Merge(d);
      forall i, j | 0 <= i < j < |r|
        ensures Strings.LessEq(r[i].fields.date, r[j].fields.date)
      {
        assert DateLe(u[i], u[j]);
      }
    }
  }

  /**
   * The query returns the earliest matching events: a stored document dated
   * today or later that is not among the results can only be missing because
   * `limit` results were already found, none of them later than it.
   */
  lemma UpcomingEventsComplete(docs: seq<Doc<EventFields>>, today: string, limit: nat, d: Doc<EventFields>)
    requires d in docs && OnOrAfter(d, today)
    requires d !in UpcomingDocs(docs, today, limit)
    ensures var r := GetUpcomingEvents(Fetched(docs), today, limit);
      |r| == limit && forall i :: 0 <= i < |r| ==> Strings.LessEq(r[i].fields.date, d.fields.date)
  {
    var matching := FromToday(docs, today);
    var sorted := Sorting.Sort(matching, DateLe);
    var taken := Sorting.Take(sorted, limit);
    var r := GetUpcomingEvents(Fetched(docs), today, limit);
    assert r == MergeAll(taken);
    assert d in matching;
    assert d in multiset(sorted);
    var k :| 0 <= k < |sorted| && sorted[k] == d;
    assert k >= |taken|;
    assert |taken| == limit;
    DateLeIsTotalPreorder();
    Sorting.SortSorted(matching, DateLe);
    Sorting.SortedSplit(sorted, DateLe, limit);
    forall i | 0 <= i < |r|
      ensures Strings.LessEq(r[i].fields.date, d.fields.date)
    {
      assert DateLe(sorted[i], sorted[k]);
    }
  }

  // ---------------------------------------------------------------------
  // getRecurringEvents: orderBy('sortOrder', 'asc')

  /** The store leaves out of an ordered query every document without the order field. */
  function WithSortOrder(docs: seq<Doc<RecurringFields>>): (r: seq<Doc<RecurringFields>>)
    ensures forall d :: d in r <==> d in docs && d.fields.sortOrder.Some?
    ensures |r| <= |docs|
  {
    if docs == [] then []
    else if docs[0].fields.sortOrder.Some? then [docs[0]] + WithSortOrder(docs[1..])
    else WithSortOrder(docs[1..])
  }

  function SortKey(d: Doc<RecurringFields>): int
  {
    if d.fields.sortOrder.Some? then d.fields.sortOrder.value else 0
  }

  /** The `orderBy('sortOrder', 'asc')` preorder. */
  predicate SortOrderLe(a: Doc<RecurringFields>, b: Doc<RecurringFields>)
  {
    SortKey(a) <= SortKey(b)
  }

  /** `getRecurringEvents()`. */
  function GetRecurringEvents(store: ReadOutcome<RecurringFields>): (r: seq<Record<RecurringFields>>)
    ensures store.ReadFailed? ==> r == []
    ensures store.Fetched? ==> |r| == |WithSortOrder(store.docs)|
  {
    match store
    case ReadFailed(_) => []
    case Fetched(docs) => MergeAll(Sorting.Sort(WithSortOrder(docs), SortOrderLe))
  }

  lemma SortOrderLeIsTotalPreorder()
    ensures Sorting.Total(SortOrderLe)
    ensures Sorting.Transitive(SortOrderLe)
  {
  }

  /** The ordered documents: a permutation of those with a `sortOrder`, ordered by it. */
  lemma RecurringDocsSorted(docs: seq<Doc<RecurringFields>>)
    ensures var s := Sorting.Sort(WithSortOrder(docs), SortOrderLe);
      && multiset(s) == multiset(WithSortOrder(docs))
      && (forall i :: 0 <= i < |s| ==> s[i] in docs && s[i].fields.sortOrder.Some?)
      && (forall i, j :: 0 <= i < j < |s| ==> s[i].fields.sortOrder.value <= s[j].fields.sortOrder.value)
  {
    var kept := WithSortOrder(docs);
    var sorted := Sorting.Sort(kept, SortOrderLe);
    SortOrderLeIsTotalPreorder();
    Sorting.SortSorted(kept, SortOrderLe);
    forall i | 0 <= i < |sorted|
      ensures sorted[i] in docs && sorted[i].fields.sortOrder.Some?
    {
      assert sorted[i] in multiset(kept);
    }
    forall i, j | 0 <= i < j < |sorted|
      ensures sorted[i].fields.sortOrder.value <= sorted[j].fields.sortOrder.value
    {
      assert SortOrderLe(sorted[i], sorted[j]);
    }
  }

  /** Every stored document with a `sortOrder` is among the ordered ones. */
  lemma RecurringDocsKept(docs: seq<Doc<RecurringFields>>, d: Doc<RecurringFields>)
    requires d in docs && d.fields.sortOrder.Some?
    ensures Merge(d) in GetRecurringEvents(Fetched(docs))
  {
    var sorted := Sorting.Sort(WithSortOrder(docs), SortOrderLe);
    var r := GetRecurringEvents(Fetched(docs));
    assert r == MergeAll(sorted);
    assert d in multiset(sorted);
    var k :| 0 <= k < |sorted| && sorted[k] == d;
    assert r[k] == Merge(d);
  }

  /**
   * What the recurring-events query promises: one record per stored document
   * that has a `sortOrder`, every such document among them, in
   * non-decreasing `sortOrder`.
   */
  lemma RecurringEventsOrdered(docs: seq<Doc<RecurringFields>>)
    ensures var r := GetRecurringEvents(Fetched(docs));
      && |r| == |WithSortOrder(docs)|
      && (forall i :: 0 <= i < |r| ==> exists d :: d in docs && d.fields.sortOrder.Some? && r[i] == Merge(d))
      && (forall d :: d in docs && d.fields.sortOrder.Some? ==> Merge(d) in r)
      && (forall i, j :: 0 <= i < j < |r| ==> r[i].fields.sortOrder.value <= r[j].fields.sortOrder.value)
  {
    var sorted := Sorting.Sort(WithSortOrder(docs), SortOrderLe);
    var r := GetRecurringEvents(Fetched(docs));
    assert r == MergeAll(sorted);
    RecurringDocsSorted(docs);
    forall i | 0 <= i < |r|
      ensures exists d :: d in docs && d.fields.sortOrder.Some? && r[i] == Merge(d)
    {
      assert r[i] == Merge(sorted[i]);
    }
    forall d | d in docs && d.fields.sortOrder.Some?
      ensures Merge(d) in r
    {
      RecurringDocsKept(docs, d);
    }
  }
}
