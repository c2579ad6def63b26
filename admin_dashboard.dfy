/** The admin dashboard: the sign-in guard, the three fetches, and the
    figures it shows (participants, funds collected, expenses, balance, the
    three most recent events). */
module AdminDashboard {
  import opened Wrappers
  import opened Types
  import opened Seqs
  import opened Samples
  import opened Aggregates

  /** What the guard effect does. */
  datatype GuardAction = RedirectTo(path: string) | FetchAll

  /** Without a signed-in admin the page navigates to the login page and
      fetches nothing. */
  function Guard(currentUser: Option<Admin>): (a: GuardAction)
    ensures a.RedirectTo? <==> currentUser.None?
    ensures a.RedirectTo? ==> a.path == "/admin"
  {
    if currentUser.None? then RedirectTo("/admin") else FetchAll
  }

  /** The page's loaded data: events, the participants collection's size and
      the expenses, plus the loading flag. */
  datatype Dashboard = Dashboard(events: seq<Event>, participantCount: nat, expenses: seq<Expense>,
                                 loading: bool)

  const InitialDashboard: Dashboard := Dashboard([], 0, [], true)

  /** The three reads in order, each `None` if it failed; a failure skips the
      reads after it. */
  datatype Reads = Reads(events: Option<seq<Event>>, participants: Option<nat>,
                         expenses: Option<seq<Expense>>)

  /** The page after the guard and, when it lets the fetch run, the fetch.
      Each read that succeeds before the first failure is kept; loading ends
      once the fetch has run, and stays on when the guard redirected. */
  function Load(currentUser: Option<Admin>, outcome: Reads): (d: Dashboard)
    ensures currentUser.None? ==> d == InitialDashboard
    ensures currentUser.Some? ==> !d.loading
    ensures currentUser.Some? && outcome.events.Some? && outcome.participants.Some? && outcome.expenses.Some? ==>
      d == Dashboard(outcome.events.value, outcome.participants.value, outcome.expenses.value, false)
    ensures currentUser.Some? && outcome.events.None? ==> d == InitialDashboard.(loading := false)
  {
    match Guard(currentUser)
    case RedirectTo(_) => InitialDashboard
    case FetchAll =>
      var d0 := InitialDashboard;
      var d1 := if outcome.events.Some? then d0.(events := outcome.events.value) else d0;
      var d2 := if outcome.events.Some? && outcome.participants.Some?
                then d1.(participantCount := outcome.participants.value) else d1;
      var d3 := if outcome.events.Some? && outcome.participants.Some? && outcome.expenses.Some?
                then d2.(expenses := outcome.expenses.value) else d2;
      d3.(loading := false)
  }

  /** The events on show: the fetched ones, or the three samples. */
  function DisplayEvents(d: Dashboard, now: string): (r: seq<Event>)
    ensures |r| > 0
    ensures |d.events| > 0 ==> r == d.events
    ensures |d.events| == 0 ==> r == DashboardSamples(now)
  {
    if |d.events| > 0 then d.events else DashboardSamples(now)
  }

  /** The participant count shown: the collection's size when positive, else
      the roster lengths summed over the events on show. */
  function TotalParticipants(d: Dashboard, now: string): nat {
    if d.participantCount > 0 then d.participantCount else RosterCount(DisplayEvents(d, now))
  }

  /** Funds collected over the events on show. */
  function TotalFunds(d: Dashboard, now: string): int {
    FundsCollected(DisplayEvents(d, now))
  }

  function TotalExpenses(d: Dashboard): int {
    ExpenseTotal(d.expenses)
  }

  /** The balance card. */
  function Balance(d: Dashboard, now: string): int {
    TotalFunds(d, now) - TotalExpenses(d)
  }

  /** With no events and no participants stored, the dashboard shows the
      samples' 45 participants and 11600 collected. */
  lemma SampleFigures(d: Dashboard, now: string)
    requires |d.events| == 0 && d.participantCount == 0
    ensures TotalParticipants(d, now) == 45
    ensures TotalFunds(d, now) == 11600
  {
    var s := DashboardSamples(now);
    var s1, s2 := s[..1], s[..2];
    assert s1[..0] == [] && s2[..1] == s1 && s[..2] == s2;
    assert |s[0].participants| == 15 && |s[1].participants| == 22 && |s[2].participants| == 8;
    assert RosterCount(s1) == 15 && FundsCollected(s1) == 3000;
    assert RosterCount(s2) == 37 && FundsCollected(s2) == 9600;
    assert RosterCount(s) == 45 && FundsCollected(s) == 11600;
  }

  /** Recording an expense lowers the balance by exactly its amount. */
  lemma ExpenseLowersBalance(d: Dashboard, x: Expense, now: string)
    ensures Balance(d.(expenses := d.expenses + [x]), now) == Balance(d, now) - x.amount
  {
    ExpenseTotalAppend(d.expenses, [x]);
    assert [x][..0] == [];
  }

  /** One more participant on a fetched event raises the funds shown by its fee. */
  lemma AdmissionRaisesFunds(d: Dashboard, i: nat, p: Participant, now: string)
    requires i < |d.events|
    ensures TotalFunds(d.(events := WithAdmission(d.events, i, p)), now) == TotalFunds(d, now) + d.events[i].fee
    ensures Balance(d.(events := WithAdmission(d.events, i, p)), now) == Balance(d, now) + d.events[i].fee
  {
    FundsAfterAdmission(d.events, i, p);
  }

  /** The "Recent Events" cards: the first three events on show. */
  function RecentEvents(d: Dashboard, now: string): seq<Event> {
    Take(DisplayEvents(d, now), 3)
  }

  predicate ShowViewAll(d: Dashboard, now: string) {
    |DisplayEvents(d, now)| > 3
  }

  /** The cards are the first min(3, n) events in order, never empty, and
      "View All Events" appears exactly when some event has no card. */
  lemma RecentIsPrefix(d: Dashboard, now: string)
    ensures var all, recent := DisplayEvents(d, now), RecentEvents(d, now);
      && 0 < |recent| <= 3 && recent == all[..|recent|]
      && (ShowViewAll(d, now) <==> |recent| < |all|)
  {
  }
}
