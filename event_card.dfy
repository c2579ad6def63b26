/** The event card shown in lists: free places, the category badge, the
    participant count, the two links and the register button. */
module EventCard {
  import opened Wrappers
  import opened Types
  import opened Text

  /** `maxParticipants - participants.length`; negative when over-full. */
  function AvailableSlots(e: Event): int {
    e.maxParticipants - |e.participants|
  }

  /** `availableSlots <= 0`: no place is left exactly when the roster has
      reached the capacity. */
  predicate IsFullyBooked(e: Event)
    ensures IsFullyBooked(e) <==> |e.participants| >= e.maxParticipants
  {
    AvailableSlots(e) <= 0
  }

  /** The badge text: "Sports" exactly for sports events. */
  function BadgeLabel(kind: EventType): (text: string)
    ensures text == "Sports" <==> kind == Sports
    ensures text == "Cultural" <==> kind == Cultural
  {
    match kind
    case Sports => "Sports"
    case Cultural => "Cultural"
  }

  /** "{roster length}/{capacity} participants". */
  function CountLabel(e: Event): string {
    IntToString(|e.participants|) + "/" + IntToString(e.maxParticipants) + " participants"
  }

  /** The label reads the roster length, a '/', then the rest: the first '/'
      comes right after the roster length's digits. */
  lemma CountLabelStartsWithRosterLength(e: Event)
    ensures var text, n := CountLabel(e), IntToString(|e.participants|);
      text[..|n|] == n && IndexOf(text, '/') == Some(|n|)
  {
    var n := IntToString(|e.participants|);
    NatToStringDigits(|e.participants|);
    var text := CountLabel(e);
    assert text[..|n|] == n;
    assert forall k :: 0 <= k < |n| ==> text[k] == n[k];
    assert text[|n|] == '/';
  }

  function DetailsLink(id: string): string {
    "/events/" + id
  }

  function RegisterLink(id: string): string {
    "/register?eventId=" + id
  }

  /** Each link names exactly one event: different ids give different links,
      and the id is what follows the fixed prefix. */
  lemma LinksNameTheirEvent(a: string, b: string)
    ensures DetailsLink(a) == DetailsLink(b) <==> a == b
    ensures RegisterLink(a) == RegisterLink(b) <==> a == b
    ensures DetailsLink(a)[|"/events/"|..] == a
    ensures RegisterLink(a)[|"/register?eventId="|..] == a
  {
    if DetailsLink(a) == DetailsLink(b) {
      assert a == DetailsLink(a)[8..] && b == DetailsLink(b)[8..];
    }
    if RegisterLink(a) == RegisterLink(b) {
      assert a == RegisterLink(a)[18..] && b == RegisterLink(b)[18..];
    }
  }

  datatype Button = Button(disabled: bool, text: string)

  /** The card's register button: disabled and "Fully Booked" exactly when the
      event is full, enabled and "Register" otherwise. */
  function RegisterButton(e: Event): (b: Button)
    ensures b.disabled <==> |e.participants| >= e.maxParticipants
    ensures b.text == "Fully Booked" <==> b.disabled
    ensures b.text == "Register" <==> !b.disabled
  {
    var full := IsFullyBooked(e);
    Button(full, if full then "Fully Booked" else "Register")
  }

  /** One more registrant takes exactly one place. */
  lemma AdmissionTakesOnePlace(e: Event, p: Participant)
    ensures AvailableSlots(e.(participants := e.participants + [p])) == AvailableSlots(e) - 1
    ensures !IsFullyBooked(e) && AvailableSlots(e) == 1 ==>
      IsFullyBooked(e.(participants := e.participants + [p]))
  {
  }
}
