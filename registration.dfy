/** The registration page: its form state, the submit handler's guard chain
    (required fields, phone pattern, e-mail pattern, event lookup, capacity,
    duplicate phone) and the roster append on success.

    The page's locally held event list is a sequence of `EventDocument`
    objects, and a successful registration appends to the roster of the
    document found there: one registration at a time on one snapshot, with
    the snapshot standing for the stored event. */
module Registration {
  import opened Wrappers
  import opened Types
  import opened Text

  /** The form fields, all strings; an empty string is an unfilled field. */
  datatype FormData = FormData(name: string, college: string, phone: string, email: string,
                               eventId: string)

  /** The text inputs `handleChange` serves, by their `name` attribute. */
  datatype Field = NameField | CollegeField | PhoneField | EmailField

  function FieldValue(f: FormData, field: Field): string {
    match field
    case NameField => f.name
    case CollegeField => f.college
    case PhoneField => f.phone
    case EmailField => f.email
  }

  /** `setFormData(prev => ({ ...prev, [name]: value }))`: the named field takes
      the new value and every other field, the event id included, keeps its own. */
  function WithField(f: FormData, field: Field, value: string): (g: FormData)
    ensures FieldValue(g, field) == value
    ensures forall other: Field :: other != field ==> FieldValue(g, other) == FieldValue(f, other)
    ensures g.eventId == f.eventId
  {
    match field
    case NameField => f.(name := value)
    case CollegeField => f.(college := value)
    case PhoneField => f.(phone := value)
    case EmailField => f.(email := value)
  }

  /** The form on first render: empty fields and the `eventId` query parameter, if any. */
  function InitialForm(preSelectedEventId: Option<string>): FormData {
    FormData("", "", "", "", if preSelectedEventId.Some? then preSelectedEventId.value else "")
  }

  const EmptyForm: FormData := FormData("", "", "", "", "")

  predicate IsAsciiDigit(c: char) {
    '0' <= c <= '9'
  }

  /** `/^\d{10}$/.test(phone)`: exactly ten characters, each '0' to '9'. */
  predicate ValidPhone(phone: string) {
    |phone| == 10 && forall k :: 0 <= k < |phone| ==> IsAsciiDigit(phone[k])
  }

  /** A character of the class `[^\s@]`. */
  predicate EmailChar(c: char) {
    !IsJsWhitespace(c) && c != '@'
  }

  ghost predicate AllEmailChars(s: string) {
    forall k :: 0 <= k < |s| ==> EmailChar(s[k])
  }

  /** The language of `/^[^\s@]+@[^\s@]+\.[^\s@]+$/`: a non-empty run of
      `[^\s@]`, an '@', a non-empty run, a '.', and a non-empty run. */
  ghost predicate EmailPattern(s: string) {
    exists at, dot ::
      && 0 < at && at + 1 < dot && dot + 1 < |s|
      && s[at] == '@' && s[dot] == '.'
      && AllEmailChars(s[..at]) && AllEmailChars(s[at + 1..dot]) && AllEmailChars(s[dot + 1..])
  }

  /** The e-mail check as a scan: no whitespace anywhere, a first '@' that is
      not the first character, no second '@', and a '.' in the part after the
      '@' with at least one character on each side of it. */
  predicate ValidEmail(s: string) {
    && (forall k :: 0 <= k < |s| ==> !IsJsWhitespace(s[k]))
    && match IndexOf(s, '@')
       case None => false
       case Some(at) =>
         && at > 0
         && (forall k :: at < k < |s| ==> s[k] != '@')
         && exists d :: at + 1 < d < |s| - 1 && s[d] == '.'
  }

  /** The scan accepts exactly the strings the e-mail pattern matches. */
  lemma ValidEmailIff(s: string)
    ensures ValidEmail(s) <==> EmailPattern(s)
  {
    if ValidEmail(s) {
      var at := IndexOf(s, '@').value;
      var dot :| at + 1 < dot < |s| - 1 && s[dot] == '.';
      assert AllEmailChars(s[..at]);
      assert AllEmailChars(s[at + 1..dot]);
      assert AllEmailChars(s[dot + 1..]);
    }
    if EmailPattern(s) {
      var at, dot :| && 0 < at && at + 1 < dot && dot + 1 < |s|
                     && s[at] == '@' && s[dot] == '.'
                     && AllEmailChars(s[..at]) && AllEmailChars(s[at + 1..dot])
                     && AllEmailChars(s[dot + 1..]);
      EmailPatternParts(s, at, dot);
    }
  }

  lemma EmailPatternParts(s: string, at: int, dot: int)
    requires 0 < at && at + 1 < dot && dot + 1 < |s|
    requires s[at] == '@' && s[dot] == '.'
    requires AllEmailChars(s[..at]) && AllEmailChars(s[at + 1..dot]) && AllEmailChars(s[dot + 1..])
    ensures ValidEmail(s)
  {
    forall k | 0 <= k < |s| ensures !IsJsWhitespace(s[k]) && (k != at ==> s[k] != '@') {
      if k < at {
        assert s[k] == s[..at][k];
      } else if at < k < dot {
        assert s[k] == s[at + 1..dot][k - at - 1];
      } else if dot < k {
        assert s[k] == s[dot + 1..][k - dot - 1];
      }
    }
    assert IndexOf(s, '@') == Some(at);
  }

  /** What the submit handler ends in, and the page it then navigates to. */
  datatype Outcome =
    | MissingField
    | BadPhone
    | BadEmail
    | NotFound
    | Full
    | Duplicate
    | Registered(participant: Participant, redirect: string)

  /** The toast each outcome shows. */
  function Message(o: Outcome): string {
    match o
    case MissingField => "Please fill all required fields"
    case BadPhone => "Please enter a valid 10-digit phone number"
    case BadEmail => "Please enter a valid email address"
    case NotFound => "Selected event not found"
    case Full => "This event is fully booked"
    case Duplicate => "You have already registered for this event"
    case Registered(_, _) => "Registration successful!"
  }

  /** The part of an event the capacity and duplicate checks read. */
  datatype Snapshot = Snapshot(maxParticipants: int, roster: seq<Participant>)

  /** `participants.some(p => p.phone === phone)`. */
  predicate PhoneOnRoster(roster: seq<Participant>, phone: string) {
    exists k :: 0 <= k < |roster| && roster[k].phone == phone
  }

  /** The participant record written to the participants collection, under
      the document id the store generated. */
  function NewParticipant(f: FormData, docId: string, registeredAt: string): Participant {
    Participant(docId, f.name, f.college, f.phone, if f.email == "" then None else Some(f.email),
                [f.eventId], registeredAt)
  }

  /** The summary appended to the event's roster: no e-mail, no event ids. */
  function RosterEntry(p: Participant): Participant {
    p.(email := None, eventIds := [])
  }

  function SuccessRoute(eventId: string): string {
    "/registration-success?eventId=" + eventId
  }

  /** The submit handler's decision for form `f`, where `target` is the event
      the form's id selects in the held list (`None` when absent). */
  function Decide(f: FormData, target: Option<Snapshot>, docId: string, registeredAt: string): (o: Outcome)
    ensures o.Registered? ==>
      && FormPasses(f) && target.Some?
      && |target.value.roster| < target.value.maxParticipants
      && !PhoneOnRoster(target.value.roster, f.phone)
  {
    if f.name == "" || f.college == "" || f.phone == "" || f.eventId == "" then MissingField
    else if !ValidPhone(f.phone) then BadPhone
    else if f.email != "" && !ValidEmail(f.email) then BadEmail
    else if target.None? then NotFound
    else if |target.value.roster| >= target.value.maxParticipants then Full
    else if PhoneOnRoster(target.value.roster, f.phone) then Duplicate
    else Registered(NewParticipant(f, docId, registeredAt), SuccessRoute(f.eventId))
  }

  /** The three checks made on the form alone, before any event is looked at
      (the e-mail one as the scan; `ValidEmailIff` relates it to the pattern). */
  predicate FormPasses(f: FormData) {
    && f.name != "" && f.college != "" && f.phone != "" && f.eventId != ""
    && ValidPhone(f.phone)
    && (f.email == "" || ValidEmail(f.email))
  }

  /** Each rejection happens exactly when every earlier check passed and its
      own check failed: the first failure wins. */
  lemma FirstFailureWins(f: FormData, target: Option<Snapshot>, docId: string, registeredAt: string)
    ensures var o := Decide(f, target, docId, registeredAt);
      && (o == MissingField <==> (f.name == "" || f.college == "" || f.phone == "" || f.eventId == ""))
      && (o == BadPhone <==>
            f.name != "" && f.college != "" && f.phone != "" && f.eventId != "" && !ValidPhone(f.phone))
      && (o == BadEmail <==>
            && f.name != "" && f.college != "" && f.phone != "" && f.eventId != ""
            && ValidPhone(f.phone) && f.email != "" && !EmailPattern(f.email))
      && (o == NotFound <==> FormPasses(f) && target.None?)
      && (o == Full <==>
            FormPasses(f) && target.Some? && |target.value.roster| >= target.value.maxParticipants)
      && (o == Duplicate <==>
            && FormPasses(f) && target.Some? && |target.value.roster| < target.value.maxParticipants
            && PhoneOnRoster(target.value.roster, f.phone))
  {
    ValidEmailIff(f.email);
  }

  /** A registration is accepted exactly when every check passes, and then it
      carries the form's name, college, phone and event id. */
  lemma AcceptedIff(f: FormData, target: Option<Snapshot>, docId: string, registeredAt: string)
    ensures var o := Decide(f, target, docId, registeredAt);
      && (o.Registered? <==>
            && f.name != "" && f.college != "" && f.eventId != ""
            && ValidPhone(f.phone) && (f.email == "" || EmailPattern(f.email))
            && target.Some?
            && |target.value.roster| < target.value.maxParticipants
            && !PhoneOnRoster(target.value.roster, f.phone))
      && (o.Registered? ==>
            && o.participant.name == f.name && o.participant.college == f.college
            && o.participant.phone == f.phone && o.participant.eventIds == [f.eventId]
            && o.participant.id == docId
            && o.redirect == SuccessRoute(f.eventId))
  {
    ValidEmailIff(f.email);
  }

  /** The rule registration keeps for a roster: no more entries than the
      capacity, every phone a valid 10-digit phone, no phone twice. */
  ghost predicate RosterOk(s: Snapshot) {
    && |s.roster| <= s.maxParticipants
    && (forall k :: 0 <= k < |s.roster| ==> ValidPhone(s.roster[k].phone))
    && (forall j, k :: 0 <= j < k < |s.roster| ==> s.roster[j].phone != s.roster[k].phone)
  }

  /** `arrayUnion(entry)`: appended unless an equal element is already there. */
  function ArrayUnion(roster: seq<Participant>, entry: Participant): (r: seq<Participant>)
    ensures entry !in roster ==> r == roster + [entry]
    ensures entry in roster ==> r == roster
  {
    if entry in roster then roster else roster + [entry]
  }

  /** The roster after decision `o`: the union with the new summary on
      success, the old roster on any rejection. */
  function RosterAfter(s: Snapshot, o: Outcome): Snapshot {
    if o.Registered? then Snapshot(s.maxParticipants, ArrayUnion(s.roster, RosterEntry(o.participant)))
    else s
  }

  /** A successful registration appends exactly one entry at the end, with the
      form's name, college and phone; a rejection changes nothing. */
  lemma {:induction false} RosterAfterAppends(f: FormData, s: Snapshot, docId: string, registeredAt: string)
    ensures var o := Decide(f, Some(s), docId, registeredAt);
      && (o.Registered? ==>
            && RosterAfter(s, o).roster == s.roster + [RosterEntry(o.participant)]
            && RosterEntry(o.participant) ==
                 Participant(docId, f.name, f.college, f.phone, None, [], registeredAt))
      && (!o.Registered? ==> RosterAfter(s, o) == s)
  {
    var o := Decide(f, Some(s), docId, registeredAt);
    if o.Registered? {
      var entry := RosterEntry(o.participant);
      assert forall k :: 0 <= k < |s.roster| ==> s.roster[k] != entry;
    }
  }

  /** Registration keeps the roster rule: capacity, valid phones and distinct
      phones hold after every decision when they held before. */
  lemma {:induction false} RegistrationKeepsRosterOk(f: FormData, s: Snapshot, docId: string, registeredAt: string)
    requires RosterOk(s)
    ensures RosterOk(RosterAfter(s, Decide(f, Some(s), docId, registeredAt)))
  {
    RosterAfterAppends(f, s, docId, registeredAt);
  }

  /** One submission: the form plus the generated document id and timestamp. */
  datatype Submission = Submission(form: FormData, docId: string, registeredAt: string)

  /** Submissions to one event, one after another, each seeing the roster the
      previous ones left. */
  function RunAll(s: Snapshot, subs: seq<Submission>): (r: (Snapshot, seq<Outcome>))
    ensures |r.1| == |subs|
    ensures r.0.maxParticipants == s.maxParticipants
    decreases |subs|
  {
    if |subs| == 0 then (s, [])
    else
      var o := Decide(subs[0].form, Some(s), subs[0].docId, subs[0].registeredAt);
      var (final, rest) := RunAll(RosterAfter(s, o), subs[1..]);
      (final, [o] + rest)
  }

  function CountRegistered(outcomes: seq<Outcome>): nat {
    if |outcomes| == 0 then 0
    else (if outcomes[0].Registered? then 1 else 0) + CountRegistered(outcomes[1..])
  }

  /** After any run of submissions on an event that keeps the roster rule, the
      rule still holds, and the roster grew by exactly the number accepted. */
  lemma {:induction false} RunAllKeepsRosterOk(s: Snapshot, subs: seq<Submission>)
    requires RosterOk(s)
    ensures RosterOk(RunAll(s, subs).0)
    ensures |RunAll(s, subs).0.roster| == |s.roster| + CountRegistered(RunAll(s, subs).1)
    ensures |RunAll(s, subs).1| == |subs|
    decreases |subs|
  {
    if |subs| > 0 {
      var o := Decide(subs[0].form, Some(s), subs[0].docId, subs[0].registeredAt);
      RegistrationKeepsRosterOk(subs[0].form, s, subs[0].docId, subs[0].registeredAt);
      RosterAfterAppends(subs[0].form, s, subs[0].docId, subs[0].registeredAt);
      RunAllKeepsRosterOk(RosterAfter(s, o), subs[1..]);
      var rest := RunAll(RosterAfter(s, o), subs[1..]).1;
      assert ([o] + rest)[1..] == rest;
    }
  }

  /** An event with two places: two different phones are accepted, a third
      is turned away as fully booked, a phone already on the roster as a
      duplicate, and a five-digit phone as malformed. */
  lemma TwoPlaceScenario()
    ensures var a := Submission(FormData("A", "X", "1111111111", "", "e"), "d1", "t1");
      var b := Submission(FormData("B", "X", "2222222222", "", "e"), "d2", "t2");
      var c := Submission(FormData("C", "X", "3333333333", "", "e"), "d3", "t3");
      var run := RunAll(Snapshot(2, []), [a, b, c]);
      && |run.0.roster| == 2 && run.1[0].Registered? && run.1[1].Registered? && run.1[2] == Full
    ensures var s := Snapshot(2, [Participant("d1", "A", "X", "1111111111", None, [], "t1")]);
      && Decide(FormData("Z", "Y", "1111111111", "", "e"), Some(s), "d", "t") == Duplicate
      && Decide(FormData("Z", "Y", "12345", "", "e"), Some(s), "d", "t") == BadPhone
  {
    var a := Submission(FormData("A", "X", "1111111111", "", "e"), "d1", "t1");
    var b := Submission(FormData("B", "X", "2222222222", "", "e"), "d2", "t2");
    var c := Submission(FormData("C", "X", "3333333333", "", "e"), "d3", "t3");
    var s0 := Snapshot(2, []);
    var o1 := Decide(a.form, Some(s0), "d1", "t1");
    assert ValidPhone("1111111111");
    var s1 := RosterAfter(s0, o1);
    assert s1.roster == [RosterEntry(o1.participant)];
    var o2 := Decide(b.form, Some(s1), "d2", "t2");
    assert ValidPhone("2222222222");
    assert o2.Registered?;
    var s2 := RosterAfter(s1, o2);
    assert |s2.roster| == 2;
    assert ValidPhone("3333333333");
    assert Decide(c.form, Some(s2), "d3", "t3") == Full;
    assert [a, b, c][1..] == [b, c] && [b, c][1..] == [c] && [c][1..] == [];
    assert RunAll(s2, []) == (s2, []);
    assert RosterAfter(s2, Full) == s2;
    assert [Full] + [] == [Full];
    assert RunAll(s2, [c]) == (s2, [Full]);
    assert [o2] + [Full] == [o2, Full] && [o1] + [o2, Full] == [o1, o2, Full];
    assert RunAll(s1, [b, c]) == (s2, [o2, Full]);
    assert RunAll(s0, [a, b, c]) == (s2, [o1, o2, Full]);
    var s := Snapshot(2, [Participant("d1", "A", "X", "1111111111", None, [], "t1")]);
    assert s.roster[0].phone == "1111111111";
  }

  /** An event document as the store holds it; the page's snapshot list holds
      these objects. */
  class EventDocument {
    const id: string
    const name: string
    var maxParticipants: int
    var participants: seq<Participant>
    var updatedAt: string

    constructor (id: string, name: string, maxParticipants: int, participants: seq<Participant>,
                 updatedAt: string)
      ensures this.id == id && this.name == name && this.maxParticipants == maxParticipants
      ensures this.participants == participants && this.updatedAt == updatedAt
    {
      this.id := id;
      this.name := name;
      this.maxParticipants := maxParticipants;
      this.participants := participants;
      this.updatedAt := updatedAt;
    }

    function Snap(): Snapshot
      reads this
    {
      Snapshot(maxParticipants, participants)
    }

    /** The select option for this event is disabled exactly when the submit
        handler would turn every valid form for it away as fully booked. */
    predicate OptionDisabled()
      reads this
      ensures OptionDisabled() <==>
        forall f: FormData, docId: string, at: string :: FormPasses(f) ==>
          Decide(f, Some(Snap()), docId, at) == Full
    {
      if |participants| >= maxParticipants then true
      else
        var f := FormData("a", "a", "0000000000", "", "a");
        assert FormPasses(f);
        assert Decide(f, Some(Snap()), "", "") != Full;
        false
    }

    /** `{event.name} {full ? "(Full)" : ""}`. */
    function OptionLabel(): (text: string)
      reads this
      ensures OptionDisabled() <==> text == name + " (Full)"
    {
      name + " " + (if |participants| >= maxParticipants then "(Full)" else "")
    }

    /** `updateDoc(eventRef, { participants: arrayUnion(entry), updatedAt })`. */
    method Update(entry: Participant, now: string)
      modifies this
      ensures participants == ArrayUnion(old(participants), entry)
      ensures updatedAt == now && maxParticipants == old(maxParticipants)
    {
      participants := ArrayUnion(participants, entry);
      updatedAt := now;
    }
  }

  /** `events.find(e => e.id === id)`, as the index found. */
  function FindEvent(events: seq<EventDocument>, id: string): (k: Option<nat>)
    ensures k.Some? ==> k.value < |events| && events[k.value].id == id
    ensures k.Some? ==> forall j :: 0 <= j < k.value ==> events[j].id != id
    ensures k.None? ==> forall j :: 0 <= j < |events| ==> events[j].id != id
    decreases |events|
  {
    if |events| == 0 then None
    else if events[0].id == id then Some(0)
    else match FindEvent(events[1..], id)
      case None => None
      case Some(j) => Some(j + 1)
  }

  /** The registration page's state. */
  class RegistrationPage {
    var events: seq<EventDocument>
    var form: FormData
    var submitting: bool

    constructor (events: seq<EventDocument>, preSelectedEventId: Option<string>)
      ensures this.events == events && form == InitialForm(preSelectedEventId) && !submitting
    {
      this.events := events;
      form := InitialForm(preSelectedEventId);
      submitting := false;
    }

    /** `handleChange`: one text input changed. */
    method HandleChange(field: Field, value: string)
      modifies this
      ensures form == WithField(old(form), field, value)
      ensures events == old(events) && submitting == old(submitting)
    {
      form := WithField(form, field, value);
    }

    /** `handleEventChange`: the event select changed. */
    method HandleEventChange(value: string)
      modifies this
      ensures form == old(form).(eventId := value)
      ensures events == old(events) && submitting == old(submitting)
    {
      form := form.(eventId := value);
    }

    /** `handleSubmit`, with the store's generated document id and the two
        clock readings as parameters. The outcome is `Decide` on the form and
        the selected event as they were; only a success writes, and it writes
        only the selected event, whose roster gains the new summary at its end. */
    method HandleSubmit(docId: string, registeredAt: string, updatedAt: string) returns (r: Outcome)
      modifies this, events
      ensures events == old(events)
      ensures var k := FindEvent(events, old(form).eventId);
        r == Decide(old(form), if k.Some? then Some(old(events[k.value].Snap())) else None,
                    docId, registeredAt)
      ensures r.Registered? ==>
        && FindEvent(events, old(form).eventId).Some?
        && var e := events[FindEvent(events, old(form).eventId).value];
           && e.participants == old(e.participants) + [RosterEntry(r.participant)]
           && e.maxParticipants == old(e.maxParticipants) && e.updatedAt == updatedAt
           && (old(RosterOk(e.Snap())) ==> RosterOk(e.Snap()))
           && form == EmptyForm
      ensures !r.Registered? ==> form == old(form) && forall e :: e in events ==> unchanged(e)
      ensures r.Registered? ==>
        forall e :: e in events && e != events[FindEvent(events, old(form).eventId).value] ==> unchanged(e)
      ensures submitting == if r == MissingField || r == BadPhone || r == BadEmail
                            then old(submitting) else false
    {
      var f := form;
      if f.name == "" || f.college == "" || f.phone == "" || f.eventId == "" {
        return MissingField;
      }
      if !ValidPhone(f.phone) {
        return BadPhone;
      }
      if f.email != "" && !ValidEmail(f.email) {
        return BadEmail;
      }
      submitting := true;
      var k := FindEvent(events, f.eventId);
      if k.None? {
        submitting := false;
        return NotFound;
      }
      var e := events[k.value];
      if |e.participants| >= e.maxParticipants {
        submitting := false;
        return Full;
      }
      if PhoneOnRoster(e.participants, f.phone) {
        submitting := false;
        return Duplicate;
      }
      var p := NewParticipant(f, docId, registeredAt);
      r := Registered(p, SuccessRoute(f.eventId));
      RosterAfterAppends(f, e.Snap(), docId, registeredAt);
      if RosterOk(e.Snap()) {
        RegistrationKeepsRosterOk(f, e.Snap(), docId, registeredAt);
      }
      e.Update(RosterEntry(p), updatedAt);
      form := EmptyForm;
      submitting := false;
    }
  }
}
