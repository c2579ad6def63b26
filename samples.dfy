/** The hard-coded demonstration events that the home page, the events page
    and the admin dashboard show when the store returns no events. Every
    timestamp the source takes from the clock is the parameter `now`. Every
    sample participant has the phone "9876543210", so these rosters do not
    satisfy the distinct-phone rule that registration keeps. */
module Samples {
  import opened Wrappers
  import opened Types
  import opened Text

  const SamplePhone: string := "9876543210"

  /** `Array(count).fill(null).map((_, i) => ...)`: participants numbered from
      `idOffset` with names numbered from 1. */
  function SampleRoster(count: nat, idOffset: nat, namePrefix: string, college: string,
                        eventId: string, now: string): (r: seq<Participant>)
    ensures |r| == count
    ensures forall k :: 0 <= k < count ==> r[k].phone == SamplePhone && r[k].eventIds == [eventId]
  {
    seq(count, i requires 0 <= i < count =>
      Participant("p" + NatToString(i + idOffset), namePrefix + NatToString(i + 1), college,
                  SamplePhone, None, [eventId], now))
  }

  function SampleEvent(id: string, name: string, kind: EventType, description: string, fee: int,
                       venue: string, maxParticipants: int, roster: seq<Participant>, teamSize: int,
                       winners: Option<seq<Participant>>, now: string): Event
  {
    Event(id, name, kind, description, fee, now, venue, maxParticipants, roster, now, now,
          None, teamSize, winners)
  }

  function ChessRoster(now: string): seq<Participant> {
    SampleRoster(15, 0, "Participant ", "Example College", "1", now)
  }

  function BadmintonRoster(now: string): seq<Participant> {
    SampleRoster(22, 20, "Player ", "Sports Academy", "2", now)
  }

  function DanceRoster(now: string): seq<Participant> {
    SampleRoster(8, 50, "Dancer ", "Arts College", "3", now)
  }

  /** The five events of the events page. */
  function EventsPageSamples(now: string): (r: seq<Event>)
    ensures |r| == 5
  {
    [ SampleEvent("1", "Chess" + " Championship", Sports,
                  "Compete in our" + " annual chess" + " tournament and" + " show your" + " strategic" + " skills.",
                  200, "Main Hall", 32, ChessRoster(now), 1, None, now),
      SampleEvent("2", "Badminton" + " Tournament", Sports,
                  "Singles and" + " doubles" + " badminton" + " competition for" + " all skill" + " levels.",
                  300, "Sports Complex", 48, BadmintonRoster(now), 2, None, now),
      SampleEvent("3", "Cultural Dance" + " Competition", Cultural,
                  "Showcase your" + " dance skills" + " representing" + " various" + " cultural" + " traditions.",
                  250, "Auditorium", 20, DanceRoster(now), 5, None, now),
      SampleEvent("4", "Singing" + " Competition", Cultural,
                  "Show your vocal" + " talent in our" + " popular singing" + " contest.",
                  150, "Music Hall", 30, SampleRoster(12, 100, "Singer ", "Music Academy", "4", now),
                  1, None, now),
      SampleEvent("5", "Table Tennis" + " Tournament", Sports,
                  "Fast-paced table" + " tennis" + " competition for" + " singles and" + " doubles.",
                  250, "Indoor Sports" + " Hall", 40,
                  SampleRoster(18, 150, "TT Player ", "Sports Institute", "5", now), 1, None, now) ]
  }

  /** The three events of the admin dashboard. */
  function DashboardSamples(now: string): (r: seq<Event>)
    ensures |r| == 3
  {
    [ SampleEvent("1", "Chess" + " Championship", Sports, "Compete in our" + " annual chess" + " tournament.",
                  200, "Main Hall", 32, ChessRoster(now), 1, None, now),
      SampleEvent("2", "Badminton" + " Tournament", Sports, "Singles and" + " doubles" + " badminton" + " competition.",
                  300, "Sports Complex", 48, BadmintonRoster(now), 2, None, now),
      SampleEvent("3", "Cultural Dance" + " Competition", Cultural, "Showcase your" + " dance skills.",
                  250, "Auditorium", 20, DanceRoster(now), 5, None, now) ]
  }

  /** The three events of the home page; only the chess event has a winner. */
  function HomeSamples(now: string): (r: seq<Event>)
    ensures |r| == 3
  {
    [ SampleEvent("1", "Chess" + " Championship", Sports,
                  "Compete in our" + " annual chess" + " tournament and" + " show your" + " strategic" + " skills.",
                  200, "Main Hall", 32, ChessRoster(now), 1,
                  Some([Participant("p1", "Rohit Sharma", "Engineering" + " College", SamplePhone,
                                    None, ["1"], now)]), now),
      SampleEvent("2", "Badminton" + " Tournament", Sports,
                  "Singles and" + " doubles" + " badminton" + " competition for" + " all skill" + " levels.",
                  300, "Sports Complex", 48, BadmintonRoster(now), 2, Some([]), now),
      SampleEvent("3", "Cultural Dance" + " Competition", Cultural,
                  "Showcase your" + " dance skills" + " representing" + " various" + " cultural" + " traditions.",
                  250, "Auditorium", 20, DanceRoster(now), 5, Some([]), now) ]
  }
}
