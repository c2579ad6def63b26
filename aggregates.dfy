/** The integer totals the home page and the admin dashboard compute with
    `reduce`: participants summed over rosters, funds collected as roster
    length times fee, and the sum of expense amounts. Each is a left fold
    from 0, as `reduce(..., 0)` is. */
module Aggregates {
  import opened Types

  /** One event's takings: its roster length times its fee. */
  function EventFunds(e: Event): int {
    |e.participants| * e.fee
  }

  /** `events.reduce((acc, e) => acc + e.participants.length * e.fee, 0)`. */
  function FundsCollected(events: seq<Event>): int
    decreases |events|
  {
    if |events| == 0 then 0
    else FundsCollected(events[..|events| - 1]) + EventFunds(events[|events| - 1])
  }

  /** `events.reduce((acc, e) => acc + e.participants.length, 0)`. */
  function RosterCount(events: seq<Event>): nat
    decreases |events|
  {
    if |events| == 0 then 0
    else RosterCount(events[..|events| - 1]) + |events[|events| - 1].participants|
  }

  /** `expenses.reduce((acc, x) => acc + x.amount, 0)`. */
  function ExpenseTotal(expenses: seq<Expense>): int
    decreases |expenses|
  {
    if |expenses| == 0 then 0
    else ExpenseTotal(expenses[..|expenses| - 1]) + expenses[|expenses| - 1].amount
  }

  /** Funds of a concatenation are the sum of the funds of the parts. */
  lemma {:induction false} FundsAppend(a: seq<Event>, b: seq<Event>)
    ensures FundsCollected(a + b) == FundsCollected(a) + FundsCollected(b)
    decreases |b|
  {
    if |b| == 0 {
      assert a + b == a;
    } else {
      var b' := b[..|b| - 1];
      assert (a + b)[..|a + b| - 1] == a + b';
      assert (a + b)[|a + b| - 1] == b[|b| - 1];
      FundsAppend(a, b');
    }
  }

  /** Roster counts of a concatenation add up. */
  lemma {:induction false} RosterCountAppend(a: seq<Event>, b: seq<Event>)
    ensures RosterCount(a + b) == RosterCount(a) + RosterCount(b)
    decreases |b|
  {
    if |b| == 0 {
      assert a + b == a;
    } else {
      var b' := b[..|b| - 1];
      assert (a + b)[..|a + b| - 1] == a + b';
      assert (a + b)[|a + b| - 1] == b[|b| - 1];
      RosterCountAppend(a, b');
    }
  }

  /** Expense totals of a concatenation add up. */
  lemma {:induction false} ExpenseTotalAppend(a: seq<Expense>, b: seq<Expense>)
    ensures ExpenseTotal(a + b) == ExpenseTotal(a) + ExpenseTotal(b)
    decreases |b|
  {
    if |b| == 0 {
      assert a + b == a;
    } else {
      var b' := b[..|b| - 1];
      assert (a + b)[..|a + b| - 1] == a + b';
      assert (a + b)[|a + b| - 1] == b[|b| - 1];
      ExpenseTotalAppend(a, b');
    }
  }

  /** With no negative fee, the funds collected are never negative. */
  lemma {:induction false} FundsNonNegative(events: seq<Event>)
    requires forall k :: 0 <= k < |events| ==> events[k].fee >= 0
    ensures FundsCollected(events) >= 0
    decreases |events|
  {
    if |events| > 0 {
      FundsNonNegative(events[..|events| - 1]);
      var e := events[|events| - 1];
      assert |e.participants| * e.fee >= 0;
    }
  }

  /** Events with empty rosters have collected nothing and count nobody. */
  lemma {:induction false} EmptyRostersNoFunds(events: seq<Event>)
    requires forall k :: 0 <= k < |events| ==> |events[k].participants| == 0
    ensures FundsCollected(events) == 0 && RosterCount(events) == 0
    decreases |events|
  {
    if |events| > 0 {
      EmptyRostersNoFunds(events[..|events| - 1]);
    }
  }

  /** The event list after one more participant joins the roster of event `i`. */
  function WithAdmission(events: seq<Event>, i: nat, p: Participant): (r: seq<Event>)
    requires i < |events|
  {
    events[i := events[i].(participants := events[i].participants + [p])]
  }

  lemma MulSucc(n: int, f: int)
    ensures (n + 1) * f == n * f + f
  {
  }

  lemma OfOne(e: Event)
    ensures FundsCollected([e]) == EventFunds(e)
    ensures RosterCount([e]) == |e.participants|
  {
    assert [e][..0] == [];
  }

  /** Funds and participant count of a list split around position `i`. */
  lemma AroundIndex(events: seq<Event>, i: nat)
    requires i < |events|
    ensures FundsCollected(events) ==
            FundsCollected(events[..i]) + EventFunds(events[i]) + FundsCollected(events[i + 1..])
    ensures RosterCount(events) ==
            RosterCount(events[..i]) + |events[i].participants| + RosterCount(events[i + 1..])
  {
    assert events == events[..i] + [events[i]] + events[i + 1..];
    FundsAppend(events[..i] + [events[i]], events[i + 1..]);
    FundsAppend(events[..i], [events[i]]);
    RosterCountAppend(events[..i] + [events[i]], events[i + 1..]);
    RosterCountAppend(events[..i], [events[i]]);
    OfOne(events[i]);
  }

  /** One admission to event `i` raises the funds collected by exactly its fee
      and the participant count by exactly one. */
  lemma FundsAfterAdmission(events: seq<Event>, i: nat, p: Participant)
    requires i < |events|
    ensures FundsCollected(WithAdmission(events, i, p)) == FundsCollected(events) + events[i].fee
    ensures RosterCount(WithAdmission(events, i, p)) == RosterCount(events) + 1
  {
    var after := WithAdmission(events, i, p);
    var n, f := |events[i].participants|, events[i].fee;
    assert after[..i] == events[..i];
    assert after[i + 1..] == events[i + 1..];
    assert |after[i].participants| == n + 1 && after[i].fee == f;
    var left, right := FundsCollected(events[..i]), FundsCollected(events[i + 1..]);
    AroundIndex(events, i);
    AroundIndex(after, i);
    assert FundsCollected(events) == left + EventFunds(events[i]) + right;
    assert FundsCollected(after) == left + EventFunds(after[i]) + right;
    assert EventFunds(after[i]) == EventFunds(events[i]) + f by {
      assert EventFunds(after[i]) == (n + 1) * f;
      assert EventFunds(events[i]) == n * f;
      MulSucc(n, f);
    }
  }
}
