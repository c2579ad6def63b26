/** The text of the event rules the detail page shows: five general rules
    and three optional sections, each line held apart from the markup that
    renders it, with the facts about their characters the rendering needs. */
module RulesTemplate {
  /** The five general rules, numbered. */
  const GeneralRules: seq<string> := [Rule1, Rule2, Rule3, Rule4, Rule5]
  const Rule1: string := "1. " + "All participants" + " must report 30" + " minutes before" + " the event" + " starts."
  const Rule2: string := "2. " + "Participants" + " must bring" + " their college" + " ID card."
  const Rule3: string := "3. " + "The decision of" + " judges/referees" + " will be final."
  const Rule4: string := "4. " + "No arguments or" + " fights will be" + " tolerated."
  const Rule5: string := "5. " + "Event-specific" + " rules will be" + " explained" + " before the" + " start."

  /** The chess section: its heading, then four rules. */
  const ChessSection: seq<string> := [ChessHeading, ChessRule1, ChessRule2, ChessRule3, ChessRule4]
  const ChessHeading: string := "## " + "Chess Specific Rules"
  const ChessRule1: string := "- " + "Standard FIDE" + " rules apply"
  const ChessRule2: string := "- " + "Time control: 15" + " minutes per" + " player"
  const ChessRule3: string := "- " + "Touch-move rule" + " is enforced"
  const ChessRule4: string := "- " + "Illegal moves" + " result in" + " immediate loss"

  /** The badminton section: its heading, then four rules. */
  const BadmintonSection: seq<string> := [BadmintonHeading, BadmintonRule1, BadmintonRule2, BadmintonRule3, BadmintonRule4]
  const BadmintonHeading: string := "## " + "Badminton Specific Rules"
  const BadmintonRule1: string := "- " + "BWF rules will" + " be followed"
  const BadmintonRule2: string := "- " + "Matches will be" + " best of 3 sets"
  const BadmintonRule3: string := "- " + "Each set is" + " played to 21" + " points"
  const BadmintonRule4: string := "- " + "Players must" + " bring their own" + " racquets"

  /** The dance section: its heading, then four rules. */
  const DanceSection: seq<string> := [DanceHeading, DanceRule1, DanceRule2, DanceRule3, DanceRule4]
  const DanceHeading: string := "## " + "Dance Competition Rules"
  const DanceRule1: string := "- " + "Performance time" + " limit: 5" + " minutes"
  const DanceRule2: string := "- " + "Teams can have" + " 5-10 members"
  const DanceRule3: string := "- " + "Props are" + " allowed but" + " must be" + " approved"
  const DanceRule4: string := "- " + "Vulgarity in any" + " form will lead" + " to" + " disqualification"

  /** No template line holds a line break: each is joined from pieces
      without one. */
  lemma GeneralRulesHaveNoNewline()
    ensures forall k :: 0 <= k < 5 ==> '\n' !in GeneralRules[k]
  {
    Rule1HasNoNewline();
    Rule2HasNoNewline();
    Rule3HasNoNewline();
    Rule4HasNoNewline();
    Rule5HasNoNewline();
  }

  lemma Rule1HasNoNewline()
    ensures '\n' !in Rule1
  {
    NoBreakJoined("1. ", "All participants");
    NoBreakJoined("1. " + "All participants", " must report 30");
    NoBreakJoined("1. " + "All participants" + " must report 30", " minutes before");
    NoBreakJoined("1. " + "All participants" + " must report 30" + " minutes before", " the event");
    NoBreakJoined("1. " + "All participants" + " must report 30" + " minutes before" + " the event", " starts.");
  }

  lemma Rule2HasNoNewline()
    ensures '\n' !in Rule2
  {
    NoBreakJoined("2. ", "Participants");
    NoBreakJoined("2. " + "Participants", " must bring");
    NoBreakJoined("2. " + "Participants" + " must bring", " their college");
    NoBreakJoined("2. " + "Participants" + " must bring" + " their college", " ID card.");
  }

  lemma Rule3HasNoNewline()
    ensures '\n' !in Rule3
  {
    NoBreakJoined("3. ", "The decision of");
    NoBreakJoined("3. " + "The decision of", " judges/referees");
    NoBreakJoined("3. " + "The decision of" + " judges/referees", " will be final.");
  }

  lemma Rule4HasNoNewline()
    ensures '\n' !in Rule4
  {
    NoBreakJoined("4. ", "No arguments or");
    NoBreakJoined("4. " + "No arguments or", " fights will be");
    NoBreakJoined("4. " + "No arguments or" + " fights will be", " tolerated.");
  }

  lemma Rule5HasNoNewline()
    ensures '\n' !in Rule5
  {
    NoBreakJoined("5. ", "Event-specific");
    NoBreakJoined("5. " + "Event-specific", " rules will be");
    NoBreakJoined("5. " + "Event-specific" + " rules will be", " explained");
    NoBreakJoined("5. " + "Event-specific" + " rules will be" + " explained", " before the");
    NoBreakJoined("5. " + "Event-specific" + " rules will be" + " explained" + " before the", " start.");
  }

  lemma ChessHasNoNewline()
    ensures forall k :: 0 <= k < 5 ==> '\n' !in ChessSection[k]
  {
    ChessHeadingHasNoNewline();
    ChessRule1HasNoNewline();
    ChessRule2HasNoNewline();
    ChessRule3HasNoNewline();
    ChessRule4HasNoNewline();
  }

  lemma ChessHeadingHasNoNewline()
    ensures '\n' !in ChessHeading
  {
    NoBreakJoined("## ", "Chess Specific Rules");
  }

  lemma ChessRule1HasNoNewline()
    ensures '\n' !in ChessRule1
  {
    NoBreakJoined("- ", "Standard FIDE");
    NoBreakJoined("- " + "Standard FIDE", " rules apply");
  }

  lemma ChessRule2HasNoNewline()
    ensures '\n' !in ChessRule2
  {
    NoBreakJoined("- ", "Time control: 15");
    NoBreakJoined("- " + "Time control: 15", " minutes per");
    NoBreakJoined("- " + "Time control: 15" + " minutes per", " player");
  }

  lemma ChessRule3HasNoNewline()
    ensures '\n' !in ChessRule3
  {
    NoBreakJoined("- ", "Touch-move rule");
    NoBreakJoined("- " + "Touch-move rule", " is enforced");
  }

  lemma ChessRule4HasNoNewline()
    ensures '\n' !in ChessRule4
  {
    NoBreakJoined("- ", "Illegal moves");
    NoBreakJoined("- " + "Illegal moves", " result in");
    NoBreakJoined("- " + "Illegal moves" + " result in", " immediate loss");
  }

  lemma BadmintonHasNoNewline()
    ensures forall k :: 0 <= k < 5 ==> '\n' !in BadmintonSection[k]
  {
    BadmintonHeadingHasNoNewline();
    BadmintonRule1HasNoNewline();
    BadmintonRule2HasNoNewline();
    BadmintonRule3HasNoNewline();
    BadmintonRule4HasNoNewline();
  }

  lemma BadmintonHeadingHasNoNewline()
    ensures '\n' !in BadmintonHeading
  {
    NoBreakJoined("## ", "Badminton Specific Rules");
  }

  lemma BadmintonRule1HasNoNewline()
    ensures '\n' !in BadmintonRule1
  {
    NoBreakJoined("- ", "BWF rules will");
    NoBreakJoined("- " + "BWF rules will", " be followed");
  }

  lemma BadmintonRule2HasNoNewline()
    ensures '\n' !in BadmintonRule2
  {
    NoBreakJoined("- ", "Matches will be");
    NoBreakJoined("- " + "Matches will be", " best of 3 sets");
  }

  lemma BadmintonRule3HasNoNewline()
    ensures '\n' !in BadmintonRule3
  {
    NoBreakJoined("- ", "Each set is");
    NoBreakJoined("- " + "Each set is", " played to 21");
    NoBreakJoined("- " + "Each set is" + " played to 21", " points");
  }

  lemma BadmintonRule4HasNoNewline()
    ensures '\n' !in BadmintonRule4
  {
    NoBreakJoined("- ", "Players must");
    NoBreakJoined("- " + "Players must", " bring their own");
    NoBreakJoined("- " + "Players must" + " bring their own", " racquets");
  }

  lemma DanceHasNoNewline()
    ensures forall k :: 0 <= k < 5 ==> '\n' !in DanceSection[k]
  {
    DanceHeadingHasNoNewline();
    DanceRule1HasNoNewline();
    DanceRule2HasNoNewline();
    DanceRule3HasNoNewline();
    DanceRule4HasNoNewline();
  }

  lemma DanceHeadingHasNoNewline()
    ensures '\n' !in DanceHeading
  {
    NoBreakJoined("## ", "Dance Competition Rules");
  }

  lemma DanceRule1HasNoNewline()
    ensures '\n' !in DanceRule1
  {
    NoBreakJoined("- ", "Performance time");
    NoBreakJoined("- " + "Performance time", " limit: 5");
    NoBreakJoined("- " + "Performance time" + " limit: 5", " minutes");
  }

  lemma DanceRule2HasNoNewline()
    ensures '\n' !in DanceRule2
  {
    NoBreakJoined("- ", "Teams can have");
    NoBreakJoined("- " + "Teams can have", " 5-10 members");
  }

  lemma DanceRule3HasNoNewline()
    ensures '\n' !in DanceRule3
  {
    NoBreakJoined("- ", "Props are");
    NoBreakJoined("- " + "Props are", " allowed but");
    NoBreakJoined("- " + "Props are" + " allowed but", " must be");
    NoBreakJoined("- " + "Props are" + " allowed but" + " must be", " approved");
  }

  lemma DanceRule4HasNoNewline()
    ensures '\n' !in DanceRule4
  {
    NoBreakJoined("- ", "Vulgarity in any");
    NoBreakJoined("- " + "Vulgarity in any", " form will lead");
    NoBreakJoined("- " + "Vulgarity in any" + " form will lead", " to");
    NoBreakJoined("- " + "Vulgarity in any" + " form will lead" + " to", " disqualification");
  }

  /** Joining two pieces without line breaks makes none. */
  lemma NoBreakJoined(a: string, b: string)
    requires '\n' !in a && '\n' !in b
    ensures '\n' !in a + b
  {
    assert forall k :: 0 <= k < |a + b| ==> (a + b)[k] in a || (a + b)[k] in b;
  }

  /** How the template's lines begin: the general rules with a digit, the
      section bodies with "- ", the section headings with "## " and then a
      letter that tells them apart. */
  lemma TemplateLineStarts()
    ensures forall k :: 0 <= k < 5 ==> |GeneralRules[k]| > 0 && '0' <= GeneralRules[k][0] <= '9'
    ensures forall k :: 1 <= k < 5 ==>
      && |ChessSection[k]| > 0 && ChessSection[k][0] == '-'
      && |BadmintonSection[k]| > 0 && BadmintonSection[k][0] == '-'
      && |DanceSection[k]| > 0 && DanceSection[k][0] == '-'
    ensures ChessSection[0] == "## " + "Chess Specific Rules"
    ensures BadmintonSection[0] == "## " + "Badminton Specific Rules"
    ensures DanceSection[0] == "## " + "Dance Competition Rules"
    ensures ChessSection[0][3] == 'C' && BadmintonSection[0][3] == 'B' && DanceSection[0][3] == 'D'
  {
    forall k | 0 <= k < 5 ensures |GeneralRules[k]| > 0 && '0' <= GeneralRules[k][0] <= '9' {
      if k == 0 {
      } else if k == 1 {
      } else if k == 2 {
      } else if k == 3 {
      } else {
      }
    }
    forall k | 1 <= k < 5
      ensures ChessSection[k][0] == '-' && BadmintonSection[k][0] == '-' && DanceSection[k][0] == '-'
    {
      if k == 1 {
      } else if k == 2 {
      } else if k == 3 {
      } else {
      }
    }
  }
}
