/** The winners section: a card per event that has winners, each winner on a
    row with a place label taken from the row's position. */
module WinnersSection {
  import opened Wrappers
  import opened Types
  import opened Seqs

  /** `event.winners && event.winners.length > 0`. */
  predicate HasWinners(e: Event) {
    e.winners.Some? && |e.winners.value| > 0
  }

  /** The events the section shows, in input order. */
  function EventsWithWinners(events: seq<Event>): seq<Event> {
    Filter(HasWinners, events)
  }

  /** The label of the row at position `index`: the first two positions are
      first and second place, every later one reads third place. */
  function PlaceLabel(index: nat): (text: string)
    ensures index == 0 <==> text == "1st Place"
    ensures index == 1 <==> text == "2nd Place"
    ensures index >= 2 <==> text == "3rd Place"
  {
    if index == 0 then "1st Place" else if index == 1 then "2nd Place" else "3rd Place"
  }

  datatype WinnerRow = WinnerRow(name: string, college: string, place: string)

  datatype WinnerCard = WinnerCard(eventName: string, rows: seq<WinnerRow>)

  /** One row per winner, in the order of the event's winners list. */
  function WinnerRows(e: Event): (rows: seq<WinnerRow>)
    requires HasWinners(e)
    ensures |rows| == |e.winners.value|
    ensures forall i :: 0 <= i < |rows| ==>
      rows[i] == WinnerRow(e.winners.value[i].name, e.winners.value[i].college, PlaceLabel(i))
  {
    var w := e.winners.value;
    seq(|w|, i requires 0 <= i < |w| => WinnerRow(w[i].name, w[i].college, PlaceLabel(i)))
  }

  function Cards(events: seq<Event>): (cards: seq<WinnerCard>)
    requires forall k :: 0 <= k < |events| ==> HasWinners(events[k])
  {
    seq(|events|, k requires 0 <= k < |events| => WinnerCard(events[k].name, WinnerRows(events[k])))
  }

  /** The section: nothing at all when no event has winners. */
  function Render(events: seq<Event>): (section: Option<seq<WinnerCard>>)
    ensures section.None? <==> forall k :: 0 <= k < |events| ==> !HasWinners(events[k])
    ensures section.Some? ==> |section.value| == |EventsWithWinners(events)| > 0
  {
    var shown := EventsWithWinners(events);
    if |shown| == 0 then None
    else
      assert HasWinners(shown[0]) && shown[0] in events;
      Some(Cards(shown))
  }

  /** The cards are exactly the events with winners, in order; each card
      lists every winner of its event, in order, and the third and later
      winners all read "3rd Place". */
  lemma RenderListsEveryWinner(events: seq<Event>)
    requires Render(events).Some?
    ensures var shown, cards := EventsWithWinners(events), Render(events).value;
      && IsSubsequence(shown, events)
      && forall k :: 0 <= k < |cards| ==>
           && cards[k].eventName == shown[k].name
           && |cards[k].rows| == |shown[k].winners.value|
           && (forall i :: 0 <= i < |cards[k].rows| ==>
                 cards[k].rows[i].name == shown[k].winners.value[i].name
                 && (i >= 2 ==> cards[k].rows[i].place == "3rd Place"))
  {
    FilterIsSubsequence(HasWinners, events);
  }

  /** Showing a list already narrowed to events with winners narrows nothing
      further. */
  lemma FilterOnFilteredInput(events: seq<Event>)
    ensures EventsWithWinners(EventsWithWinners(events)) == EventsWithWinners(events)
  {
    FilterIdempotent(HasWinners, events);
  }
}
