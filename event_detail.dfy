/** The event detail page: loading one event by the route's id, the slot and
    team-size lines, the register button, and the rules text with the small
    line-oriented markup that renders it. */
module EventDetail {
  import opened Wrappers
  import opened Types
  import opened Text
  import opened EventCard
  import opened RulesTemplate

  /** "{n} registered" followed by the free places or ", fully booked". */
  function ParticipantsLine(e: Event): string {
    IntToString(|e.participants|) + " registered"
      + (if AvailableSlots(e) > 0 then ", " + IntToString(AvailableSlots(e)) + " slots left"
         else ", fully booked")
  }

  /** The line ends in ", fully booked" exactly when the event is fully
      booked, and otherwise names the number of free places. */
  lemma ParticipantsLineIff(e: Event)
    ensures var line, tail := ParticipantsLine(e), ", fully booked";
      && (IsFullyBooked(e) <==> |line| >= |tail| && line[|line| - |tail|..] == tail)
      && (!IsFullyBooked(e) ==>
            line == IntToString(|e.participants|) + " registered, "
                    + IntToString(e.maxParticipants - |e.participants|) + " slots left")
  {
    var line, tail := ParticipantsLine(e), ", fully booked";
    var head := IntToString(|e.participants|) + " registered";
    if !IsFullyBooked(e) {
      var rest := ", " + IntToString(AvailableSlots(e)) + " slots left";
      assert line == head + rest;
      assert line[|line| - 1] == 't' != tail[|tail| - 1];
    } else {
      assert line == head + tail;
      assert line[|line| - |tail|..] == tail;
    }
  }

  /** "Individual" exactly for a team of one, else "{n} members". */
  function TeamSizeLabel(teamSize: int): (text: string)
    ensures text == "Individual" <==> teamSize == 1
    ensures teamSize != 1 ==> text == IntToString(teamSize) + " members"
  {
    if teamSize == 1 then "Individual"
    else
      var text := IntToString(teamSize) + " members";
      assert text[|text| - 1] == 's';
      text
  }

  /** The page's register button: disabled and "Fully Booked" exactly when
      the event is full, "Register Now" otherwise; its link is the card's. */
  function DetailButton(e: Event): (b: Button)
    ensures b.disabled <==> |e.participants| >= e.maxParticipants
    ensures b.text == (if b.disabled then "Fully Booked" else "Register Now")
  {
    var full := IsFullyBooked(e);
    Button(full, if full then "Fully Booked" else "Register Now")
  }

  /** One rendered rules line. */
  datatype Block =
    | Heading(text: string)
    | Subheading(text: string)
    | Bullet(text: string)
    | Paragraph(text: string)
    | Nothing

  /** The three markers, character by character. */
  lemma Markers(s: string)
    ensures StartsWith(s, "# ") <==> |s| >= 2 && s[0] == '#' && s[1] == ' '
    ensures StartsWith(s, "## ") <==> |s| >= 3 && s[0] == '#' && s[1] == '#' && s[2] == ' '
    ensures StartsWith(s, "- ") <==> |s| >= 2 && s[0] == '-' && s[1] == ' '
  {
    if |s| >= 2 {
      assert s[..2] == [s[0], s[1]];
    }
    if |s| >= 3 {
      assert s[..3] == [s[0], s[1], s[2]];
    }
  }

  /** The renderer's cascade: "# " first, then "## ", then "- "; any other
      non-empty line is a paragraph and an empty line renders nothing. */
  function Classify(line: string): (b: Block)
    ensures b.Heading? <==> StartsWith(line, "# ")
    ensures b.Subheading? <==> StartsWith(line, "## ")
    ensures b.Bullet? <==> StartsWith(line, "- ")
    ensures b.Nothing? <==> line == ""
  {
    Markers(line);
    if StartsWith(line, "# ") then Heading(line[2..])
    else if StartsWith(line, "## ") then Subheading(line[3..])
    else if StartsWith(line, "- ") then Bullet(line[2..])
    else if line == "" then Nothing
    else Paragraph(line)
  }

  /** The line a block was read from. */
  function Unclassify(b: Block): string {
    match b
    case Heading(t) => "# " + t
    case Subheading(t) => "## " + t
    case Bullet(t) => "- " + t
    case Paragraph(t) => t
    case Nothing => ""
  }

  /** A block some line can produce: a paragraph is non-empty and carries no
      marker. */
  predicate WellFormed(b: Block) {
    b.Paragraph? ==>
      b.text != "" && !StartsWith(b.text, "# ") && !StartsWith(b.text, "## ") && !StartsWith(b.text, "- ")
  }

  /** Reading a line and writing its block back gives the line; writing a
      well-formed block and reading it gives the block. */
  lemma ClassifyRoundTrip(line: string, b: Block)
    ensures Unclassify(Classify(line)) == line
    ensures WellFormed(Classify(line))
    ensures WellFormed(b) ==> Classify(Unclassify(b)) == b
  {
    Markers(line);
    if StartsWith(line, "# ") {
      assert line == "# " + line[2..];
    } else if StartsWith(line, "## ") {
      assert line == "## " + line[3..];
    } else if StartsWith(line, "- ") {
      assert line == "- " + line[2..];
    }
    Markers(Unclassify(b));
    match b
    case Heading(t) => assert ("# " + t)[2..] == t;
    case Subheading(t) => assert ("## " + t)[3..] == t;
    case Bullet(t) => assert ("- " + t)[2..] == t;
    case Paragraph(t) =>
    case Nothing =>
  }

  /** `lines.map(...)`: one block per line. */
  function ClassifyAll(lines: seq<string>): (blocks: seq<Block>)
    ensures |blocks| == |lines|
    ensures forall i :: 0 <= i < |lines| ==> blocks[i] == Classify(lines[i])
  {
    seq(|lines|, i requires 0 <= i < |lines| => Classify(lines[i]))
  }

  /** A subheading is among the blocks exactly when its marked line is among
      the lines. */
  lemma SubheadingIn(lines: seq<string>, t: string)
    ensures Subheading(t) in ClassifyAll(lines) <==> "## " + t in lines
  {
    var blocks := ClassifyAll(lines);
    if Subheading(t) in blocks {
      var i :| 0 <= i < |blocks| && blocks[i] == Subheading(t);
      ClassifyRoundTrip(lines[i], Nothing);
    }
    if "## " + t in lines {
      var i :| 0 <= i < |lines| && lines[i] == "## " + t;
      ClassifyRoundTrip(lines[i], Subheading(t));
    }
  }

  /** The blocks of a whole rules text: `rules.split("\n").map(...)`. */
  function Render(rules: string): seq<Block> {
    ClassifyAll(SplitLines(rules))
  }

  /** The sections the lowercased event name asks for. */
  predicate HasChess(name: string) { Includes(ToLower(name), "chess") }
  predicate HasBadminton(name: string) { Includes(ToLower(name), "badminton") }
  predicate HasDance(name: string) { Includes(ToLower(name), "dance") }

  function Indented(pad: string, lines: seq<string>): (r: seq<string>)
    ensures |r| == |lines|
    ensures forall i :: 0 <= i < |lines| ==> r[i] == pad + lines[i]
  {
    seq(|lines|, i requires 0 <= i < |lines| => pad + lines[i])
  }

  /** An optional section of the template: a line holding only the
      indentation, then either nothing or the section's own lines and a
      closing indentation line. */
  function Optional(pad: string, present: bool, section: seq<string>): seq<string> {
    if present then [pad] + Indented(pad, section) + [pad] else [pad]
  }

  /** The template's opening: an empty line, the title, an indentation line,
      the five general rules and another indentation line. */
  function Preamble(pad: string, name: string): seq<string> {
    [""] + [pad + "# Rules for " + name, pad] + Indented(pad, GeneralRules) + [pad]
  }

  /** The lines of the rules template with every line indented by `pad` and
      the last line `closing`. */
  function RulesLines(pad: string, closing: string, name: string): seq<string> {
    Preamble(pad, name)
      + Optional(pad, HasChess(name), ChessSection) + [pad]
      + Optional(pad, HasBadminton(name), BadmintonSection) + [pad]
      + Optional(pad, HasDance(name), DanceSection) + [closing]
  }

  /** The template's indentation: fourteen spaces on each line, twelve
      before the closing backtick. */
  const SourceIndent: string := "              "
  const SourceClosing: string := "            "

  /** The rules text exactly as the template literal builds it. */
  function WrittenRulesText(name: string): string {
    JoinLines(RulesLines(SourceIndent, SourceClosing, name))
  }

  /** The rules text without the source's indentation, as its markup means it. */
  function RulesText(name: string): string {
    JoinLines(RulesLines("", "", name))
  }

  /** Property `p` holds of every line. */
  ghost predicate Every(lines: seq<string>, p: string -> bool) {
    forall k :: 0 <= k < |lines| ==> p(lines[k])
  }

  lemma EveryConcat(a: seq<string>, b: seq<string>, p: string -> bool)
    requires Every(a, p) && Every(b, p)
    ensures Every(a + b, p)
  {
    forall k | 0 <= k < |a + b| ensures p((a + b)[k]) {
      if k >= |a| {
        assert (a + b)[k] == b[k - |a|];
      }
    }
  }

  /** A property of the blank, title and closing lines and of every indented
      template line holds of every line of the template. */
  lemma EveryRulesLine(pad: string, closing: string, name: string, p: string -> bool)
    requires p("") && p(pad) && p(closing) && p(pad + "# Rules for " + name)
    requires forall k :: 0 <= k < 5 ==>
      p(pad + GeneralRules[k]) && p(pad + ChessSection[k]) && p(pad + BadmintonSection[k])
      && p(pad + DanceSection[k])
    ensures Every(RulesLines(pad, closing, name), p)
  {
    var general := Indented(pad, GeneralRules);
    assert Every(general, p);
    EveryConcat([""] + [pad + "# Rules for " + name, pad], general, p);
    EveryConcat([""] + [pad + "# Rules for " + name, pad] + general, [pad], p);
    var acc := Preamble(pad, name);
    assert Every(Indented(pad, ChessSection), p);
    assert Every(Indented(pad, BadmintonSection), p);
    assert Every(Indented(pad, DanceSection), p);
    EveryOptional(pad, HasChess(name), ChessSection, p);
    EveryOptional(pad, HasBadminton(name), BadmintonSection, p);
    EveryOptional(pad, HasDance(name), DanceSection, p);
    var c := Optional(pad, HasChess(name), ChessSection);
    var b := Optional(pad, HasBadminton(name), BadmintonSection);
    var d := Optional(pad, HasDance(name), DanceSection);
    EveryConcat(acc, c, p);
    EveryConcat(acc + c, [pad], p);
    EveryConcat(acc + c + [pad], b, p);
    EveryConcat(acc + c + [pad] + b, [pad], p);
    EveryConcat(acc + c + [pad] + b + [pad], d, p);
    EveryConcat(acc + c + [pad] + b + [pad] + d, [closing], p);
  }

  lemma EveryOptional(pad: string, present: bool, section: seq<string>, p: string -> bool)
    requires p(pad) && Every(Indented(pad, section), p)
    ensures Every(Optional(pad, present, section), p)
  {
    if present {
      EveryConcat([pad], Indented(pad, section), p);
      EveryConcat([pad] + Indented(pad, section), [pad], p);
    }
  }

  /** Rendering the text is classifying the template's lines one by one. */
  lemma RenderIsClassifyLines(pad: string, closing: string, name: string)
    requires '\n' !in pad && '\n' !in closing && '\n' !in name
    ensures Render(JoinLines(RulesLines(pad, closing, name))) == ClassifyAll(RulesLines(pad, closing, name))
  {
    var noNewline := (line: string) => '\n' !in line;
    GeneralRulesHaveNoNewline();
    ChessHasNoNewline();
    BadmintonHasNoNewline();
    DanceHasNoNewline();
    forall k | 0 <= k < 5
      ensures noNewline(pad + GeneralRules[k]) && noNewline(pad + ChessSection[k])
      && noNewline(pad + BadmintonSection[k]) && noNewline(pad + DanceSection[k])
    {
    }
    assert noNewline(pad + "# Rules for " + name);
    EveryRulesLine(pad, closing, name, noNewline);
    SplitJoin(RulesLines(pad, closing, name));
  }

  /** As the source writes it, no rules line is a heading, subheading or
      bullet: every line but the first (empty) one starts with a space, so the
      markers are shown as plain paragraph text. */
  lemma WrittenRulesHaveNoMarkup(name: string)
    requires '\n' !in name
    ensures var blocks := Render(WrittenRulesText(name));
      && |blocks| > 1
      && blocks[1] == Paragraph(SourceIndent + "# Rules for " + name)
      && forall k :: 0 <= k < |blocks| ==> blocks[k].Paragraph? || blocks[k].Nothing?
  {
    var pad := SourceIndent;
    var lines := RulesLines(pad, SourceClosing, name);
    RenderIsClassifyLines(pad, SourceClosing, name);
    PreambleLines(pad, SourceClosing, name);
    var spaceLed := (line: string) => line == "" || line[0] == ' ';
    EveryRulesLine(pad, SourceClosing, name, spaceLed);
    forall k | 0 <= k < |lines| ensures Classify(lines[k]).Paragraph? || Classify(lines[k]).Nothing? {
      assert spaceLed(lines[k]);
      Markers(lines[k]);
    }
    Markers(lines[1]);
  }

  /** Prefixing the same indentation keeps lines apart. */
  lemma PadCancel(pad: string, a: string, b: string)
    ensures pad + a == pad + b <==> a == b
  {
    if pad + a == pad + b {
      assert a == (pad + a)[|pad|..] && b == (pad + b)[|pad|..];
    }
  }

  /** An indented section line is present exactly when the unindented line
      is in the section. */
  lemma PadIn(pad: string, section: seq<string>, h: string)
    ensures pad + h in Indented(pad, section) <==> h in section
  {
    var lines := Indented(pad, section);
    if pad + h in lines {
      var k :| 0 <= k < |lines| && lines[k] == pad + h;
      PadCancel(pad, section[k], h);
    }
    if h in section {
      var k :| 0 <= k < |section| && section[k] == h;
      assert lines[k] == pad + h;
    }
  }

  /** A line starting "##", indented, is among the template's lines exactly
      when it is a line of a section the name asks for: the title starts
      "# " and the general rules start with a digit. */
  lemma HeadingLineIn(pad: string, closing: string, name: string, h: string)
    requires |closing| <= |pad|
    requires |h| >= 2 && h[0] == '#' && h[1] == '#'
    ensures pad + h in RulesLines(pad, closing, name) <==>
      || (HasChess(name) && h in ChessSection)
      || (HasBadminton(name) && h in BadmintonSection)
      || (HasDance(name) && h in DanceSection)
  {
    PadCancel(pad, "# Rules for " + name, h);
    assert ("# Rules for " + name)[1] == ' ';
    PadCancel(pad, "", h);
    PadIn(pad, GeneralRules, h);
    TemplateLineStarts();
    assert h !in GeneralRules by {
      forall k | 0 <= k < 5 ensures GeneralRules[k] != h {
        assert GeneralRules[k][0] != h[0];
      }
    }
    assert pad + h !in Preamble(pad, name);
    PadIn(pad, ChessSection, h);
    PadIn(pad, BadmintonSection, h);
    PadIn(pad, DanceSection, h);
  }

  /** Each section's heading is a line of that section and of no other. */
  lemma HeadingsOwnSection()
    ensures ChessSection[0] in ChessSection && ChessSection[0] !in BadmintonSection
      && ChessSection[0] !in DanceSection
    ensures BadmintonSection[0] in BadmintonSection && BadmintonSection[0] !in ChessSection
      && BadmintonSection[0] !in DanceSection
    ensures DanceSection[0] in DanceSection && DanceSection[0] !in ChessSection
      && DanceSection[0] !in BadmintonSection
  {
    TemplateLineStarts();
    var sections := [ChessSection, BadmintonSection, DanceSection];
    forall i, j | 0 <= i < 3 && 0 <= j < 3 && i != j ensures sections[i][0] !in sections[j] {
      forall k | 0 <= k < 5 ensures sections[j][k] != sections[i][0] {
        if k == 0 {
          assert sections[j][0][3] != sections[i][0][3];
        } else {
          assert sections[j][k][0] != sections[i][0][0];
        }
      }
    }
    assert sections[0][0] !in sections[1] && sections[0][0] !in sections[2];
    assert sections[1][0] !in sections[0] && sections[1][0] !in sections[2];
    assert sections[2][0] !in sections[0] && sections[2][0] !in sections[1];
  }

  /** Without the indentation the first line after the leading empty one is
      the heading "Rules for {name}" and the five general rules follow as
      paragraphs. */
  lemma RulesRenderAsMeant(name: string)
    requires '\n' !in name
    ensures var blocks := Render(RulesText(name));
      && |blocks| > 8
      && blocks[1] == Heading("Rules for " + name)
      && (forall k :: 0 <= k < 5 ==> blocks[3 + k] == Paragraph(GeneralRules[k]))
  {
    var lines := RulesLines("", "", name);
    RenderIsClassifyLines("", "", name);
    PreambleLines("", "", name);
    Markers(lines[1]);
    assert lines[1][2..] == "Rules for " + name;
    TemplateLineStarts();
    forall k | 0 <= k < 5 ensures Classify(lines[3 + k]) == Paragraph(GeneralRules[k]) {
      Markers(lines[3 + k]);
    }
  }

  /** The template's second line is the title and the general rules follow
      its indentation line. */
  lemma PreambleLines(pad: string, closing: string, name: string)
    ensures var lines := RulesLines(pad, closing, name);
      && |lines| > 8
      && lines[1] == pad + "# Rules for " + name
      && forall k :: 0 <= k < 5 ==> lines[3 + k] == pad + GeneralRules[k]
  {
    var pre := Preamble(pad, name);
    var lines := RulesLines(pad, closing, name);
    assert |pre| == 9;
    assert lines[..9] == pre;
    assert pre[1] == pad + "# Rules for " + name;
    forall k | 0 <= k < 5 ensures lines[3 + k] == pad + GeneralRules[k] {
      assert lines[3 + k] == pre[3 + k];
    }
  }

  /** Without the indentation a section's heading is rendered exactly when
      the lowercased name contains the section's word. */
  lemma SectionsRenderIff(name: string)
    requires '\n' !in name
    ensures var blocks := Render(RulesText(name));
      && (Subheading("Chess Specific Rules") in blocks <==> HasChess(name))
      && (Subheading("Badminton Specific Rules") in blocks <==> HasBadminton(name))
      && (Subheading("Dance Competition Rules") in blocks <==> HasDance(name))
  {
    TemplateLineStarts();
    HeadingsOwnSection();
    SubheadingRendered(name, "Chess Specific Rules");
    SubheadingRendered(name, "Badminton Specific Rules");
    SubheadingRendered(name, "Dance Competition Rules");
  }

  /** A subheading is rendered exactly when its line belongs to a section
      the name asks for. */
  lemma SubheadingRendered(name: string, t: string)
    requires '\n' !in name
    ensures Subheading(t) in Render(RulesText(name)) <==>
      || (HasChess(name) && "## " + t in ChessSection)
      || (HasBadminton(name) && "## " + t in BadmintonSection)
      || (HasDance(name) && "## " + t in DanceSection)
  {
    var lines := RulesLines("", "", name);
    RenderIsClassifyLines("", "", name);
    SubheadingIn(lines, t);
    HeadingLineIn("", "", name, "## " + t);
    assert "" + ("## " + t) == "## " + t;
  }

  /** The same in the source's indented text: each section heading line is
      there exactly when the name asks for the section. */
  lemma WrittenSectionsIff(name: string)
    ensures var lines := RulesLines(SourceIndent, SourceClosing, name);
      && (SourceIndent + ChessSection[0] in lines <==> HasChess(name))
      && (SourceIndent + BadmintonSection[0] in lines <==> HasBadminton(name))
      && (SourceIndent + DanceSection[0] in lines <==> HasDance(name))
  {
    TemplateLineStarts();
    HeadingsOwnSection();
    HeadingLineIn(SourceIndent, SourceClosing, name, ChessSection[0]);
    HeadingLineIn(SourceIndent, SourceClosing, name, BadmintonSection[0]);
    HeadingLineIn(SourceIndent, SourceClosing, name, DanceSection[0]);
  }

  /** Which page the detail route shows. */
  datatype DetailState = DetailState(event: Option<Event>, loading: bool, rules: Option<string>)

  const InitialDetail: DetailState := DetailState(None, true, None)

  /** The result of reading the event document. */
  datatype Lookup = Exists(data: Event) | Missing | ReadFailed

  /** The load effect for route id `routeId`: with no id (or an empty one)
      nothing is read; a found document becomes the event, under the route's
      id, with its rules still pending; loading ends in every case. */
  function Load(routeId: Option<string>, lookup: Lookup): (d: DetailState)
    ensures !d.loading && d.rules.None?
    ensures d.event.Some? <==> routeId.Some? && routeId.value != "" && lookup.Exists?
    ensures d.event.Some? ==> d.event.value == lookup.data.(id := routeId.value)
  {
    if routeId.None? || routeId.value == "" then InitialDetail.(loading := false)
    else match lookup
      case Exists(data) => DetailState(Some(data.(id := routeId.value)), false, None)
      case _ => InitialDetail.(loading := false)
  }

  /** The delayed `setRules`: the template literal, indentation and all,
      arrives for the loaded event; nothing else changes. */
  function RulesArrive(d: DetailState): (r: DetailState)
    ensures r.event == d.event && r.loading == d.loading
    ensures d.event.None? ==> r.rules == d.rules
    ensures d.event.Some? ==> r.rules == Some(WrittenRulesText(d.event.value.name))
  {
    if d.event.Some? then d.(rules := Some(WrittenRulesText(d.event.value.name))) else d
  }

  datatype View = Spinner | NotFoundView | EventView(event: Event, rulesShown: bool)

  /** The page's three early returns: the spinner while loading, "Event Not
      Found" without an event, the event otherwise, its rules rendered once
      they are a non-empty string. */
  function ViewOf(d: DetailState): (v: View)
    ensures v == Spinner <==> d.loading
    ensures v == NotFoundView <==> !d.loading && d.event.None?
    ensures v.EventView? ==> v.event == d.event.value
    ensures v.EventView? ==> (v.rulesShown <==> d.rules.Some? && d.rules.value != "")
  {
    if d.loading then Spinner
    else if d.event.None? then NotFoundView
    else EventView(d.event.value, d.rules.Some? && d.rules.value != "")
  }

  /** On the page as written, the rules that arrive for a found event are
      the indented template, and (for a one-line name) every line of them is
      rendered as a paragraph or as nothing: no heading, subheading or bullet
      ever appears. */
  lemma ArrivedRulesShowNoMarkup(id: string, lookup: Lookup)
    requires id != "" && lookup.Exists?
    ensures var d := RulesArrive(Load(Some(id), lookup));
      && d.rules == Some(WrittenRulesText(lookup.data.name))
      && ('\n' !in lookup.data.name ==>
            forall k :: 0 <= k < |Render(d.rules.value)| ==>
              Render(d.rules.value)[k].Paragraph? || Render(d.rules.value)[k].Nothing?)
  {
    if '\n' !in lookup.data.name {
      WrittenRulesHaveNoMarkup(lookup.data.name);
    }
  }

  /** A missing route id reads nothing, whatever the store holds, and ends in
      the "Event Not Found" view; so does a missing document. */
  lemma MissingIdShowsNotFound(lookup: Lookup, other: Lookup, id: string)
    ensures Load(None, lookup) == Load(None, other) && ViewOf(Load(None, lookup)) == NotFoundView
    ensures Load(Some(""), lookup) == Load(Some(""), other)
    ensures ViewOf(Load(Some(id), Missing)) == NotFoundView
    ensures id != "" && lookup.Exists? ==>
      ViewOf(RulesArrive(Load(Some(id), lookup))) == EventView(lookup.data.(id := id), true)
  {
    if id != "" && lookup.Exists? {
      var name := lookup.data.name;
      var lines := RulesLines(SourceIndent, SourceClosing, name);
      assert |JoinLines(lines)| >= |lines[0]|;
    }
  }
}
