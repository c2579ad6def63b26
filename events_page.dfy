/** The events page: the list shown is the fetched list (or the five sample
    events when the store has none), narrowed by a category selector and a
    case-insensitive search over name and description. */
module EventsPage {
  import opened Types
  import opened Text
  import opened Seqs
  import opened Samples

  /** The category selector: "all", "sports" or "cultural". */
  datatype TypeFilter = AllTypes | OnlyKind(kind: EventType)

  predicate TypeMatches(tf: TypeFilter, e: Event) {
    tf.AllTypes? || e.kind == tf.kind
  }

  /** The search test for a non-empty term: the lowercased name or the
      lowercased description contains the lowercased term. */
  predicate SearchMatches(term: string, e: Event) {
    var t := ToLower(term);
    Includes(ToLower(e.name), t) || Includes(ToLower(e.description), t)
  }

  /** The filter effect: a copy of `events`, filtered by category unless the
      selector is "all", then by the search term unless it is empty. */
  function ApplyFilters(events: seq<Event>, term: string, tf: TypeFilter): (r: seq<Event>)
    ensures |r| <= |events|
    ensures forall k :: 0 <= k < |r| ==> r[k] in events && Shown(term, tf, r[k])
  {
    var byType := if tf.AllTypes? then events else Filter(e => TypeMatches(tf, e), events);
    if term == "" then byType else Filter(e => SearchMatches(term, e), byType)
  }

  /** Both tests together, as one predicate on one event. */
  predicate Shown(term: string, tf: TypeFilter, e: Event) {
    TypeMatches(tf, e) && (term == "" || SearchMatches(term, e))
  }

  /** The two passes are one filter by the conjunction of both tests. */
  lemma ApplyFiltersIsOneFilter(events: seq<Event>, term: string, tf: TypeFilter)
    ensures ApplyFilters(events, term, tf) == Filter(e => Shown(term, tf, e), events)
  {
    var t := (e: Event) => TypeMatches(tf, e);
    var q := (e: Event) => term == "" || SearchMatches(term, e);
    var shown := (e: Event) => Shown(term, tf, e);
    var byType := if tf.AllTypes? then events else Filter(t, events);
    assert byType == Filter(t, events) by {
      if tf.AllTypes? {
        FilterKeepsAll(t, events);
      }
    }
    FilterThenFilter(t, q, shown, events);
    if term == "" {
      FilterKeepsAll(q, byType);
    } else {
      FilterSamePredicate(q, e => SearchMatches(term, e), byType);
    }
  }

  /** The shown list keeps its input's order and holds exactly the events that
      pass both tests. */
  lemma ApplyFiltersExactly(events: seq<Event>, term: string, tf: TypeFilter)
    ensures var r := ApplyFilters(events, term, tf);
      && IsSubsequence(r, events)
      && (forall k :: 0 <= k < |r| ==> Shown(term, tf, r[k]))
      && (forall k :: 0 <= k < |events| && Shown(term, tf, events[k]) ==> events[k] in r)
  {
    ApplyFiltersIsOneFilter(events, term, tf);
    FilterIsSubsequence(e => Shown(term, tf, e), events);
  }

  /** "all" removes nothing by category and an empty term removes nothing by
      search; a category keeps exactly the events of that category; a
      non-empty term keeps exactly the events whose name or description
      contain it, ignoring case. */
  lemma EachTestAlone(events: seq<Event>, term: string, kind: EventType)
    ensures ApplyFilters(events, "", AllTypes) == events
    ensures ApplyFilters(events, "", OnlyKind(kind)) == Filter((e: Event) => e.kind == kind, events)
    ensures term != "" ==>
      ApplyFilters(events, term, AllTypes) == Filter(e => SearchMatches(term, e), events)
  {
    FilterKeepsAll((e: Event) => Shown("", AllTypes, e), events);
    ApplyFiltersIsOneFilter(events, "", AllTypes);
    ApplyFiltersIsOneFilter(events, "", OnlyKind(kind));
    FilterSamePredicate((e: Event) => Shown("", OnlyKind(kind), e), (e: Event) => e.kind == kind, events);
    if term != "" {
      ApplyFiltersIsOneFilter(events, term, AllTypes);
      FilterSamePredicate((e: Event) => Shown(term, AllTypes, e), e => SearchMatches(term, e), events);
    }
  }

  /** The search ignores letter case in the term. */
  lemma SearchIgnoresTermCase(term: string, e: Event)
    ensures SearchMatches(ToLower(term), e) == SearchMatches(term, e)
  {
    assert ToLower(ToLower(term)) == ToLower(term);
  }

  /** What the fetch delivered: the store's events, or an error. */
  datatype FetchResult = Fetched(events: seq<Event>) | FetchFailed

  /** The page's state. */
  datatype PageState = PageState(events: seq<Event>, filtered: seq<Event>, loading: bool,
                                 term: string, tf: TypeFilter)

  /** First render: nothing loaded, loading, no search, "all". */
  const InitialPage: PageState := PageState([], [], true, "", AllTypes)

  /** The filter effect has run for the current inputs. */
  ghost predicate Settled(s: PageState) {
    s.filtered == ApplyFilters(s.events, s.term, s.tf)
  }

  /** The filter effect: it runs after any change to events, term or category. */
  function Refilter(s: PageState): (t: PageState)
    ensures Settled(t)
  {
    s.(filtered := ApplyFilters(s.events, s.term, s.tf))
  }

  /** The fetch effect followed by the filter effect: the fetched list, or the
      five samples when it is empty, becomes `events`; a failed fetch leaves
      the lists alone; loading ends either way. */
  function AfterFetch(s: PageState, result: FetchResult, now: string): PageState {
    var loaded := match result
      case FetchFailed => s
      case Fetched(fetched) =>
        var shown := if |fetched| == 0 then EventsPageSamples(now) else fetched;
        s.(events := shown, filtered := shown);
    Refilter(loaded.(loading := false))
  }

  /** An empty store puts the five sample events in both lists; a non-empty
      one is shown as fetched. */
  lemma FetchFallback(result: FetchResult, now: string)
    ensures var s := AfterFetch(InitialPage, result, now);
      && !s.loading
      && (result == Fetched([]) ==> s.events == EventsPageSamples(now) && s.filtered == s.events
                                    && |s.events| == 5)
      && (result.Fetched? && |result.events| > 0 ==> s.events == result.events && s.filtered == s.events)
      && (result.FetchFailed? ==> s.events == [] && s.filtered == [])
  {
    var s := AfterFetch(InitialPage, result, now);
    EachTestAlone(s.events, "", Sports);
  }

  function SetSearch(s: PageState, term: string): PageState {
    Refilter(s.(term := term))
  }

  function SetType(s: PageState, tf: TypeFilter): PageState {
    Refilter(s.(tf := tf))
  }

  /** Both reset buttons: empty term, "all". */
  function Reset(s: PageState): PageState {
    Refilter(s.(term := "", tf := AllTypes))
  }

  /** After a reset the shown list is the whole list, and the loaded events
      themselves are never touched by searching, choosing a category or
      resetting. */
  lemma ResetShowsAll(s: PageState, term: string, tf: TypeFilter)
    ensures Reset(s).filtered == s.events
    ensures SetSearch(s, term).events == s.events && SetType(s, tf).events == s.events
    ensures Reset(s).events == s.events
  {
    EachTestAlone(s.events, "", Sports);
  }
}
