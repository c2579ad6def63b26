/** The records of the event-registration front end: events with their
    embedded participant roster, participants, administrators and expenses.
    Money amounts (`fee`, `amount`) are integers. */
module Types {

  import opened Wrappers

  /** The two fixed event categories, written "sports" and "cultural" in the store. */
  datatype EventType = Sports | Cultural

  /** A participant. Roster entries embedded in an event carry no e-mail and no
      event ids; those fields are `None` and `[]` there. */
  datatype Participant = Participant(
    id: string,
    name: string,
    college: string,
    phone: string,
    email: Option<string>,
    eventIds: seq<string>,
    registeredAt: string)

  datatype Event = Event(
    id: string,
    name: string,
    kind: EventType,
    description: string,
    fee: int,
    date: string,
    venue: string,
    maxParticipants: int,
    participants: seq<Participant>,
    createdAt: string,
    updatedAt: string,
    rules: Option<string>,
    teamSize: int,
    winners: Option<seq<Participant>>)

  datatype Role = AdminRole | SuperAdmin

  datatype Admin = Admin(id: string, name: string, email: string, role: Role)

  datatype Expense = Expense(
    id: string,
    title: string,
    amount: int,
    category: string,
    date: string,
    addedBy: string)
}
