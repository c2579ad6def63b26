/** The home page: the statistics strip, the featured events and the input
    to the winners section, each falling back to the three home-page samples
    or to fixed figures when the store returned nothing. */
module HomePage {
  import opened Wrappers
  import opened Types
  import opened Seqs
  import opened Samples
  import opened Aggregates
  import WinnersSection

  /** The page's loaded state. `totalFunds` is computed from the fetched
      events alone, never from the samples. */
  datatype Home = Home(events: seq<Event>, featured: seq<Event>, participantCount: nat,
                       totalFunds: int, loading: bool)

  const InitialHome: Home := Home([], [], 0, 0, true)

  /** The fetch effect. `shuffled` is the random reordering of the fetched
      events; the participants read runs only after the events read
      succeeded, and loading ends either way. */
  function Load(events: Option<seq<Event>>, shuffled: seq<Event>, participants: Option<nat>): (h: Home)
    requires events.Some? ==> multiset(shuffled) == multiset(events.value)
    ensures !h.loading
    ensures events.None? ==> h == InitialHome.(loading := false)
    ensures events.Some? ==>
      && h.events == events.value
      && h.totalFunds == FundsCollected(events.value)
      && h.participantCount == (if participants.Some? then participants.value else 0)
    ensures |h.featured| <= 3 && forall k :: 0 <= k < |h.featured| ==> h.featured[k] in h.events
  {
    match events
    case None => InitialHome.(loading := false)
    case Some(fetched) =>
      var featured := Take(shuffled, 3);
      assert forall k :: 0 <= k < |featured| ==> featured[k] in fetched by {
        forall k | 0 <= k < |featured| ensures featured[k] in fetched {
          assert featured[k] in multiset(shuffled);
        }
      }
      var h := Home(fetched, featured, 0, FundsCollected(fetched), false);
      if participants.Some? then h.(participantCount := participants.value) else h
  }

  /** The events counted in the statistics strip: the fetched ones, or the samples. */
  function DisplayEvents(h: Home, now: string): (r: seq<Event>)
    ensures |r| > 0
    ensures |h.events| > 0 ==> r == h.events
    ensures |h.events| == 0 ==> r == HomeSamples(now)
  {
    if |h.events| > 0 then h.events else HomeSamples(now)
  }

  /** The featured cards: at most three fetched events, or the three samples. */
  function DisplayFeatured(h: Home, now: string): (r: seq<Event>)
    ensures 0 < |r|
    ensures |h.featured| > 0 ==> r == h.featured
    ensures |h.featured| == 0 ==> r == HomeSamples(now)
  {
    if |h.featured| > 0 then h.featured else HomeSamples(now)
  }

  /** The participant figure: the collection's size, or 45 when it is empty. */
  function DisplayParticipants(h: Home): (n: nat)
    ensures h.participantCount > 0 ==> n == h.participantCount
    ensures h.participantCount == 0 ==> n == 45
  {
    if h.participantCount > 0 then h.participantCount else 45
  }

  /** `totalFundsCollected || 16500`: only a total of exactly zero is replaced. */
  function DisplayFunds(h: Home): (n: int)
    ensures h.totalFunds != 0 ==> n == h.totalFunds
    ensures h.totalFunds == 0 ==> n == 16500
  {
    if h.totalFunds != 0 then h.totalFunds else 16500
  }

  /** The list handed to the winners section. */
  function WinnersInput(h: Home, now: string): seq<Event> {
    Filter(WinnersSection.HasWinners, DisplayEvents(h, now))
  }

  /** After a successful load there are min(3, n) featured events, each a
      fetched one; the samples stand in only when no event was fetched. */
  lemma FeaturedAreFetched(events: seq<Event>, shuffled: seq<Event>, participants: Option<nat>, now: string)
    requires multiset(shuffled) == multiset(events)
    ensures var h := Load(Some(events), shuffled, participants);
      && |h.featured| == (if |events| < 3 then |events| else 3)
      && (|events| > 0 ==>
            && DisplayFeatured(h, now) == h.featured
            && forall k :: 0 <= k < |h.featured| ==> h.featured[k] in events)
      && (|events| == 0 ==> DisplayFeatured(h, now) == HomeSamples(now))
  {
    assert |multiset(shuffled)| == |multiset(events)|;
  }

  /** The strip's figures after a load: the funds computed from the fetched
      events unless they come to 0, when 16500 is shown instead (so a store
      whose events have no participants yet shows 16500, which no stored
      event accounts for); the participants counted unless the count is 0
      or its read failed, when 45 is shown beside the real events. A failed
      events read shows both fixed figures. */
  lemma FallbackFigures(events: seq<Event>, shuffled: seq<Event>, participants: Option<nat>)
    requires multiset(shuffled) == multiset(events)
    ensures var h := Load(Some(events), shuffled, participants);
      && DisplayFunds(h) == (if FundsCollected(events) != 0 then FundsCollected(events) else 16500)
      && ((forall k :: 0 <= k < |events| ==> |events[k].participants| == 0) ==> DisplayFunds(h) == 16500)
      && DisplayParticipants(h) ==
           (if participants.Some? && participants.value > 0 then participants.value else 45)
    ensures var h := Load(None, shuffled, participants);
      DisplayFunds(h) == 16500 && DisplayParticipants(h) == 45
  {
    if forall k :: 0 <= k < |events| ==> |events[k].participants| == 0 {
      EmptyRostersNoFunds(events);
    }
  }

  /** The winners section is given exactly the events on show that have
      winners, in order, and re-filtering that list inside the section
      changes nothing. */
  lemma WinnersInputIsWhatTheSectionShows(h: Home, now: string)
    ensures var input := WinnersInput(h, now);
      && IsSubsequence(input, DisplayEvents(h, now))
      && (forall k :: 0 <= k < |input| ==> WinnersSection.HasWinners(input[k]))
      && WinnersSection.EventsWithWinners(input) == input
  {
    FilterIsSubsequence(WinnersSection.HasWinners, DisplayEvents(h, now));
    WinnersSection.FilterOnFilteredInput(DisplayEvents(h, now));
  }

  /** With nothing stored, the page shows the samples' figures: three events,
      45 participants, 16500 collected, and the chess event alone among the
      winners. The sample rosters hold 45 participants, but their funds come
      to 11600, not the 16500 shown. */
  lemma EmptyStoreFigures(now: string)
    ensures var h := Load(Some([]), [], Some(0));
      && |DisplayEvents(h, now)| == 3
      && DisplayParticipants(h) == 45
      && DisplayFunds(h) == 16500
      && WinnersInput(h, now) == [HomeSamples(now)[0]]
      && RosterCount(HomeSamples(now)) == 45
      && FundsCollected(HomeSamples(now)) == 11600
  {
    var s := HomeSamples(now);
    var s1, s2 := s[..1], s[..2];
    assert s1[..0] == [] && s2[..1] == s1 && s[..2] == s2;
    assert |s[0].participants| == 15 && |s[1].participants| == 22 && |s[2].participants| == 8;
    assert RosterCount(s1) == 15 && FundsCollected(s1) == 3000;
    assert RosterCount(s2) == 37 && FundsCollected(s2) == 9600;
    assert WinnersSection.HasWinners(s[0]);
    assert !WinnersSection.HasWinners(s[1]) && !WinnersSection.HasWinners(s[2]);
    assert Filter(WinnersSection.HasWinners, s[2..]) == [] by {
      assert s[2..][1..] == [];
    }
    assert Filter(WinnersSection.HasWinners, s[1..]) == [] by {
      assert s[1..][1..] == s[2..];
    }
  }
}
