/** The release-notes script: a changelog split into headed sections, the leading run
    of them that is new since the previous release, and its trailing blanks removed. */
module Changelog {
  import opened Base

  type Line = string

  datatype Section = Section(heading: Line, body: seq<Line>)

  predicate Heading(line: Line) {
    |line| >= 3 && line[0] == '#' && line[1] == '#' && line[2] == ' '
  }

  lemma HeadingIff(line: Line)
    ensures Heading(line) <==> exists text: string :: line == "## " + text
  {
    if Heading(line) { assert line == "## " + line[3..]; }
  }

  predicate Space(c: char) {
    c == ' ' || '\t' <= c <= '\r' || '\U{1c}' <= c <= '\U{1f}'
  }

  /** strip() leaves nothing. */
  predicate Blank(line: Line) {
    forall i :: 0 <= i < |line| ==> Space(line[i])
  }

  predicate DigitAt(s: Line, i: nat) {
    i < |s| && '0' <= s[i] <= '9'
  }

  /** Four digits, two digits and two digits, joined by dashes. */
  predicate DateAt(s: Line, i: nat) {
    && DigitAt(s, i) && DigitAt(s, i + 1) && DigitAt(s, i + 2) && DigitAt(s, i + 3)
    && DigitAt(s, i + 5) && DigitAt(s, i + 6) && DigitAt(s, i + 8) && DigitAt(s, i + 9)
    && s[i + 4] == '-' && s[i + 7] == '-'
  }

  predicate Dated(s: Line) {
    exists i :: 0 <= i < |s| && DateAt(s, i)
  }

  predicate Digits(s: string, n: nat) {
    |s| == n && forall i :: 0 <= i < n ==> '0' <= s[i] <= '9'
  }

  /** `line` is a date of the given digits, with anything before and after it. */
  predicate DateIn(line: Line, before: string, y: string, m: string, d: string, after: string) {
    Digits(y, 4) && Digits(m, 2) && Digits(d, 2) && line == before + y + "-" + m + "-" + d + after
  }

  ghost predicate HasDate(line: Line) {
    exists before: string, y: string, m: string, d: string, after: string :: DateIn(line, before, y, m, d, after)
  }

  /** The search for a date finds one exactly where the line is put together so. */
  lemma DatedIff(line: Line)
    ensures Dated(line) <==> HasDate(line)
  {
    if Dated(line) {
      var i :| 0 <= i < |line| && DateAt(line, i);
      Dates(line, i);
    }
    if HasDate(line) {
      var before: string, y: string, m: string, d: string, after: string :| DateIn(line, before, y, m, d, after);
      DateFound(line, before, y, m, d, after);
    }
  }

  lemma Dates(line: Line, i: nat)
    requires DateAt(line, i)
    ensures HasDate(line)
  {
    var y, m, d := line[i..i + 4], line[i + 5..i + 7], line[i + 8..i + 10];
    assert line[..i] + y + "-" + m + "-" + d + line[i + 10..] == line;
    assert DateIn(line, line[..i], y, m, d, line[i + 10..]);
  }

  lemma DateFound(line: Line, before: string, y: string, m: string, d: string, after: string)
    requires DateIn(line, before, y, m, d, after)
    ensures |before| < |line| && DateAt(line, |before|)
  {
    var date := y + "-" + m + "-" + d;
    assert line == before + date + after;
    assert forall k :: 0 <= k < 10 ==> line[|before| + k] == date[k];
  }

  // ---- Sections and lines -----------------------------------------------------------

  /** The sections of the lines so far, after one more line. */
  function Extended(sections: seq<Section>, line: Line): seq<Section> {
    if Heading(line) then sections + [Section(line, [])]
    else if sections == [] then []
    else
      var last := sections[|sections| - 1];
      sections[..|sections| - 1] + [Section(last.heading, last.body + [line])]
  }

  function Split(lines: seq<Line>): seq<Section> {
    if lines == [] then [] else Extended(Split(lines[..|lines| - 1]), lines[|lines| - 1])
  }

  function Flatten(sections: seq<Section>): seq<Line> {
    if sections == [] then []
    else
      var last := sections[|sections| - 1];
      Flatten(sections[..|sections| - 1]) + [last.heading] + last.body
  }

  predicate NoHeading(lines: seq<Line>) {
    forall i :: 0 <= i < |lines| ==> !Heading(lines[i])
  }

  predicate WellFormed(sections: seq<Section>) {
    forall i :: 0 <= i < |sections| ==> Heading(sections[i].heading) && NoHeading(sections[i].body)
  }

  /** The number of lines before the first heading. */
  function Preamble(lines: seq<Line>): (n: nat)
    ensures n <= |lines| && (forall i :: 0 <= i < n ==> !Heading(lines[i])) && (n < |lines| ==> Heading(lines[n]))
  {
    if lines == [] || Heading(lines[0]) then 0
    else
      var n := 1 + Preamble(lines[1..]);
      assert forall i :: 1 <= i < |lines| ==> lines[i] == lines[1..][i - 1];
      n
  }

  lemma PreambleIs(lines: seq<Line>, n: nat)
    requires n <= |lines| && (forall i :: 0 <= i < n ==> !Heading(lines[i])) && (n < |lines| ==> Heading(lines[n]))
    ensures Preamble(lines) == n
  {
    var m := Preamble(lines);
    assert m == n || m < n || n < m;
  }

  lemma ExtendedFlat(sections: seq<Section>, line: Line)
    requires WellFormed(sections)
    ensures WellFormed(Extended(sections, line))
    ensures Flatten(Extended(sections, line)) ==
            if sections == [] && !Heading(line) then [] else Flatten(sections) + [line]
  {
    var more := Extended(sections, line);
    if Heading(line) {
      assert more[..|more| - 1] == sections;
    } else if sections != [] {
      assert more[..|more| - 1] == sections[..|sections| - 1];
    }
  }

  lemma SplitSnoc(lines: seq<Line>, line: Line)
    ensures Split(lines + [line]) == Extended(Split(lines), line)
  {
    assert (lines + [line])[..|lines|] == lines;
  }

  lemma PreambleSnoc(lines: seq<Line>, line: Line)
    ensures Preamble(lines + [line]) ==
            if Preamble(lines) < |lines| || Heading(line) then Preamble(lines) else |lines| + 1
  {
    var p := Preamble(lines);
    PreambleIs(lines + [line], if p < |lines| || Heading(line) then p else |lines| + 1);
  }

  lemma RestGrows(lines: seq<Line>, p: nat, rest: seq<Line>, line: Line)
    requires p <= |lines| && lines[p..] == rest
    ensures (lines + [line])[p..] == rest + [line]
  {
  }

  /** Splitting loses nothing from the first heading on. */
  lemma {:induction false} SplitThenFlatten(lines: seq<Line>)
    ensures WellFormed(Split(lines))
    ensures Flatten(Split(lines)) == lines[Preamble(lines)..]
    ensures Split(lines) == [] <==> Preamble(lines) == |lines|
  {
    if lines != [] {
      var before, line := lines[..|lines| - 1], lines[|lines| - 1];
      assert lines == before + [line];
      SplitThenFlatten(before);
      SplitOneMore(before, line);
    }
  }

  lemma SplitOneMore(before: seq<Line>, line: Line)
    requires WellFormed(Split(before)) && Flatten(Split(before)) == before[Preamble(before)..]
    requires Split(before) == [] <==> Preamble(before) == |before|
    ensures var lines := before + [line];
            && WellFormed(Split(lines)) && Flatten(Split(lines)) == lines[Preamble(lines)..]
            && (Split(lines) == [] <==> Preamble(lines) == |lines|)
  {
    ExtendedFlat(Split(before), line);
    SplitSnoc(before, line);
    PreambleSnoc(before, line);
    RestGrows(before, Preamble(before), before[Preamble(before)..], line);
  }

  lemma {:induction false} SplitBody(lines: seq<Line>, heading: Line, body: seq<Line>)
    requires Heading(heading) && NoHeading(body)
    ensures Split(lines + [heading] + body) == Split(lines) + [Section(heading, body)]
  {
    if body == [] {
      SplitSnoc(lines, heading);
      Concat(lines + [heading], [], []);
    } else {
      var less, line := body[..|body| - 1], body[|body| - 1];
      assert body == less + [line];
      SplitBody(lines, heading, less);
      SplitSnoc(lines + [heading] + less, line);
      Concat(lines + [heading], less, [line]);
      ExtendedBody(Split(lines), heading, less, line);
    }
  }

  lemma Concat(a: seq<Line>, b: seq<Line>, c: seq<Line>)
    ensures a + b + c == a + (b + c) && a + [] == a
  {
  }

  lemma ExtendedBody(sections: seq<Section>, heading: Line, body: seq<Line>, line: Line)
    requires !Heading(line)
    ensures Extended(sections + [Section(heading, body)], line) == sections + [Section(heading, body + [line])]
  {
    assert (sections + [Section(heading, body)])[..|sections|] == sections;
  }

  lemma {:induction false} SplitNone(lines: seq<Line>)
    requires NoHeading(lines)
    ensures Split(lines) == []
  {
    if lines != [] { SplitNone(lines[..|lines| - 1]); }
  }

  /** The other way round: sections written out below any preamble are split back. */
  lemma {:induction false} FlattenThenSplit(preamble: seq<Line>, sections: seq<Section>)
    requires NoHeading(preamble) && WellFormed(sections)
    ensures Split(preamble + Flatten(sections)) == sections
  {
    if sections == [] {
      SplitNone(preamble);
      Concat(preamble, [], []);
    } else {
      var last, rest := sections[|sections| - 1], sections[..|sections| - 1];
      assert sections == rest + [last];
      FlattenThenSplit(preamble, rest);
      SplitBody(preamble + Flatten(rest), last.heading, last.body);
      Concat(preamble, Flatten(rest) + [last.heading], last.body);
      Concat(preamble, Flatten(rest), [last.heading]);
    }
  }

  lemma {:induction false} FlattenConcat(a: seq<Section>, b: seq<Section>)
    ensures Flatten(a + b) == Flatten(a) + Flatten(b)
  {
    if b == [] {
      assert a + b == a;
    } else {
      FlattenConcat(a, b[..|b| - 1]);
      assert (a + b)[..|a + b| - 1] == a + b[..|b| - 1];
    }
  }

  // ---- The slice ----------------------------------------------------------------------

  /** What a section must be to be emitted: not in the previous release, or, when that
      is not known, dated. */
  predicate Fresh(heading: Line, previous: Option<seq<Line>>) {
    match previous
    case Some(lines) => forall s :: s in Split(lines) ==> s.heading != heading
    case None => Dated(heading)
  }

  /** How many leading sections are emitted. */
  function Taken(sections: seq<Section>, previous: Option<seq<Line>>): (n: nat)
    ensures n <= |sections| && (forall i :: 0 <= i < n ==> Fresh(sections[i].heading, previous))
    ensures n < |sections| ==> !Fresh(sections[n].heading, previous)
  {
    if sections == [] || !Fresh(sections[0].heading, previous) then 0
    else
      var n := 1 + Taken(sections[1..], previous);
      assert forall i :: 1 <= i < |sections| ==> sections[i] == sections[1..][i - 1];
      n
  }

  lemma TakenIs(sections: seq<Section>, previous: Option<seq<Line>>, n: nat)
    requires n <= |sections| && (forall i :: 0 <= i < n ==> Fresh(sections[i].heading, previous))
    requires n < |sections| ==> !Fresh(sections[n].heading, previous)
    ensures Taken(sections, previous) == n
  {
    var m := Taken(sections, previous);
    assert m == n || m < n || n < m;
  }

  function Trimmed(lines: seq<Line>): (r: seq<Line>)
    ensures r <= lines && (r != [] ==> !Blank(r[|r| - 1]))
    ensures forall i :: |r| <= i < |lines| ==> Blank(lines[i])
  {
    if lines == [] || !Blank(lines[|lines| - 1]) then lines else Trimmed(lines[..|lines| - 1])
  }

  /** The lines the script prints. */
  function Output(lines: seq<Line>, previous: Option<seq<Line>>): seq<Line> {
    Trimmed(Flatten(Split(lines)[..Taken(Split(lines), previous)]))
  }

  lemma HeadingIsNotBlank(line: Line)
    requires Heading(line)
    ensures !Blank(line)
  {
    assert !Space(line[0]);
  }

  /** The leading `n` sections are a contiguous run of the file from its first heading,
      up to the next one. */
  lemma SlicedLines(lines: seq<Line>, p: nat, sections: seq<Section>, n: nat)
    requires WellFormed(sections) && n <= |sections| && p <= |lines| && Flatten(sections) == lines[p..]
    ensures var whole := Flatten(sections[..n]);
            && p + |whole| <= |lines| && whole == lines[p..p + |whole|]
            && (n < |sections| ==> p + |whole| < |lines| && Heading(lines[p + |whole|]))
            && (n == |sections| ==> p + |whole| == |lines|)
            && (n > 0 ==> whole != [] && Heading(whole[0]))
  {
    FlattenCut(sections, n);
    Cut(lines, p, Flatten(sections[..n]), Flatten(sections[n..]));
  }

  lemma FlattenCut(sections: seq<Section>, n: nat)
    requires WellFormed(sections) && n <= |sections|
    ensures Flatten(sections) == Flatten(sections[..n]) + Flatten(sections[n..])
    ensures n > 0 ==> Flatten(sections[..n]) != [] && Heading(Flatten(sections[..n])[0])
    ensures n < |sections| ==> Flatten(sections[n..]) != [] && Heading(Flatten(sections[n..])[0])
    ensures n == |sections| ==> Flatten(sections[n..]) == []
  {
    var a, b := sections[..n], sections[n..];
    assert sections == a + b;
    FlattenConcat(a, b);
    if n > 0 { FlattenStarts(a); }
    if n < |sections| { FlattenStarts(b); }
  }

  lemma Cut(lines: seq<Line>, p: nat, a: seq<Line>, b: seq<Line>)
    requires p <= |lines| && lines[p..] == a + b
    ensures p + |a| + |b| == |lines| && a == lines[p..p + |a|] && (b != [] ==> lines[p + |a|] == b[0])
  {
    assert lines[p..][..|a|] == a && lines[p..][|a|..] == b;
  }

  /** `out` is the file from line `p` on, up to the next section after the `n` it comes
      from or to the end, without the blanks at the end; it starts with a heading. */
  ghost predicate RunOf(lines: seq<Line>, p: nat, sections: seq<Section>, n: nat, out: seq<Line>)
    requires n <= |sections|
  {
    var whole := Flatten(sections[..n]);
    && p + |whole| <= |lines| && whole == lines[p..p + |whole|] && out <= whole
    && (n < |sections| <==> p + |whole| < |lines|)
    && (n < |sections| ==> Heading(lines[p + |whole|]))
    && (out != [] ==> Heading(out[0]) && !Blank(out[|out| - 1]))
    && (forall i :: |out| <= i < |whole| ==> Blank(whole[i]))
    && (out == [] <==> n == 0)
  }

  /** What is printed is a contiguous run of the file: it starts at the first heading and
      ends in a line that is not blank, with only blanks from there to the end of the run
      of whole sections it comes from. Nothing is printed exactly when no leading section
      qualifies. */
  lemma {:induction false} OutputIsContiguous(lines: seq<Line>, previous: Option<seq<Line>>)
    ensures RunOf(lines, Preamble(lines), Split(lines), Taken(Split(lines), previous), Output(lines, previous))
  {
    var sections := Split(lines);
    SplitThenFlatten(lines);
    SlicedOutput(lines, Preamble(lines), sections, Taken(sections, previous));
  }

  lemma SlicedOutput(lines: seq<Line>, p: nat, sections: seq<Section>, n: nat)
    requires WellFormed(sections) && n <= |sections| && p <= |lines| && Flatten(sections) == lines[p..]
    ensures RunOf(lines, p, sections, n, Trimmed(Flatten(sections[..n])))
  {
    SlicedLines(lines, p, sections, n);
    if n > 0 { HeadingIsNotBlank(Flatten(sections[..n])[0]); }
  }

  lemma {:induction false} FlattenStarts(sections: seq<Section>)
    requires sections != [] && WellFormed(sections)
    ensures Flatten(sections) != [] && Flatten(sections)[0] == sections[0].heading
  {
    if |sections| > 1 { FlattenStarts(sections[..|sections| - 1]); }
  }

  lemma Headings(sections: seq<Section>, i: nat)
    requires i < |sections| && WellFormed(sections)
    ensures |Flatten(sections[..i])| < |Flatten(sections)|
  {
    assert sections[..i] + sections[i..] == sections;
    FlattenConcat(sections[..i], sections[i..]);
    FlattenStarts(sections[i..]);
  }

  predicate AllFresh(sections: seq<Section>, previous: Option<seq<Line>>) {
    forall i :: 0 <= i < |sections| ==> Fresh(sections[i].heading, previous)
  }

  predicate Among(heading: Line, olds: seq<Section>) {
    exists j :: 0 <= j < |olds| && olds[j].heading == heading
  }

  /** None of the headings is an old one. */
  predicate Unheard(news: seq<Section>, olds: seq<Section>) {
    forall i :: 0 <= i < |news| ==> !Among(news[i].heading, olds)
  }

  lemma FreshIff(heading: Line, preamble: seq<Line>, olds: seq<Section>)
    requires NoHeading(preamble) && WellFormed(olds)
    ensures Fresh(heading, Some(preamble + Flatten(olds))) <==> !Among(heading, olds)
  {
    FlattenThenSplit(preamble, olds);
    assert Among(heading, olds) ==> exists s :: s in olds && s.heading == heading;
  }

  lemma UnheardIff(news: seq<Section>, preamble: seq<Line>, olds: seq<Section>)
    requires NoHeading(preamble) && WellFormed(olds)
    ensures Unheard(news, olds) <==> AllFresh(news, Some(preamble + Flatten(olds)))
  {
    forall i | 0 <= i < |news| ensures Fresh(news[i].heading, Some(preamble + Flatten(olds))) <==> !Among(news[i].heading, olds) {
      FreshIff(news[i].heading, preamble, olds);
    }
  }

  /** New sections put on top of the old ones are what is sliced off, whole and nothing
      else, exactly when none of their headings is in the old changelog. */
  lemma {:induction false} SliceIsTheNewSections(preamble: seq<Line>, news: seq<Section>, olds: seq<Section>)
    requires NoHeading(preamble) && WellFormed(news) && WellFormed(olds)
    ensures var before, now := preamble + Flatten(olds), preamble + Flatten(news + olds);
            && Split(now) == news + olds
            && (Flatten(Split(now)[..Taken(Split(now), Some(before))]) == Flatten(news) <==> Unheard(news, olds))
  {
    UnheardIff(news, preamble, olds);
    FlattenThenSplit(preamble, news + olds);
    if olds != [] { NotFresh(preamble, olds); }
    SliceOfNew(news, olds, Some(preamble + Flatten(olds)));
  }

  lemma SliceOfNew(news: seq<Section>, olds: seq<Section>, previous: Option<seq<Line>>)
    requires WellFormed(news) && (olds != [] ==> !Fresh(olds[0].heading, previous))
    ensures var all := news + olds;
            Flatten(all[..Taken(all, previous)]) == Flatten(news) <==> AllFresh(news, previous)
  {
    var all := news + olds;
    var n := Taken(all, previous);
    assert forall i :: 0 <= i < |news| ==> all[i] == news[i];
    if AllFresh(news, previous) {
      TakenIs(all, previous, |news|);
      assert all[..n] == news;
    } else {
      var i :| 0 <= i < |news| && !Fresh(news[i].heading, previous);
      assert all[i] == news[i];
      assert all[..n] == news[..n];
      Headings(news, n);
    }
  }

  lemma LeadingRun(preamble: seq<Line>, news: seq<Section>, rest: seq<Section>, previous: Option<seq<Line>>)
    requires NoHeading(preamble) && WellFormed(news) && WellFormed(rest) && AllFresh(news, previous)
    requires rest != [] ==> !Fresh(rest[0].heading, previous)
    ensures Output(preamble + Flatten(news + rest), previous) == Trimmed(Flatten(news))
  {
    FlattenThenSplit(preamble, news + rest);
    SliceOfNew(news, rest, previous);
  }

  /** What is printed since any previous changelog, whatever became of its text: the
      sections before the first one whose heading it had, without trailing blanks. */
  lemma {:induction false} NotesAreTheNewSections(preamble: seq<Line>, news: seq<Section>, rest: seq<Section>,
                                                  former: seq<Line>, olds: seq<Section>)
    requires NoHeading(preamble) && WellFormed(news) && WellFormed(rest) && NoHeading(former) && WellFormed(olds)
    requires Unheard(news, olds) && (rest != [] ==> Among(rest[0].heading, olds))
    ensures Output(preamble + Flatten(news + rest), Some(former + Flatten(olds))) == Trimmed(Flatten(news))
  {
    UnheardIff(news, former, olds);
    if rest != [] { FreshIff(rest[0].heading, former, olds); }
    LeadingRun(preamble, news, rest, Some(former + Flatten(olds)));
  }

  /** Without a previous changelog: the sections before the first one whose heading has
      no date in it, without trailing blanks. */
  lemma {:induction false} NotesAreTheDatedSections(preamble: seq<Line>, news: seq<Section>, rest: seq<Section>)
    requires NoHeading(preamble) && WellFormed(news) && WellFormed(rest)
    requires (forall i :: 0 <= i < |news| ==> HasDate(news[i].heading)) && (rest != [] ==> !HasDate(rest[0].heading))
    ensures Output(preamble + Flatten(news + rest), None) == Trimmed(Flatten(news))
  {
    forall i | 0 <= i < |news| ensures Fresh(news[i].heading, None) { DatedIff(news[i].heading); }
    if rest != [] { DatedIff(rest[0].heading); }
    LeadingRun(preamble, news, rest, None);
  }

  /** A second release under the previous one's newest heading prints nothing. */
  lemma {:induction false} SameHeadingPrintsNothing(preamble: seq<Line>, olds: seq<Section>, body: seq<Line>)
    requires NoHeading(preamble) && WellFormed(olds) && olds != [] && NoHeading(body)
    ensures var now := preamble + Flatten([Section(olds[0].heading, body)] + olds[1..]);
            Output(now, Some(preamble + Flatten(olds))) == []
  {
    var sections := [Section(olds[0].heading, body)] + olds[1..];
    FlattenThenSplit(preamble, sections);
    NotFresh(preamble, olds);
    TakenIs(sections, Some(preamble + Flatten(olds)), 0);
    assert sections[..0] == [];
  }

  lemma NotFresh(preamble: seq<Line>, olds: seq<Section>)
    requires NoHeading(preamble) && WellFormed(olds) && olds != []
    ensures !Fresh(olds[0].heading, Some(preamble + Flatten(olds)))
  {
    FlattenThenSplit(preamble, olds);
    assert olds[0] in olds;
  }

  // ---- The script ------------------------------------------------------------------------

  method SplitSections(lines: seq<Line>) returns (sections: seq<Section>)
    ensures sections == Split(lines)
  {
    sections := [];
    var current: Option<Line> := None;
    var body: seq<Line> := [];
    for i := 0 to |lines|
      invariant current.None? ==> sections == [] && Split(lines[..i]) == []
      invariant current.Some? ==> Split(lines[..i]) == sections + [Section(current.value, body)]
    {
      assert lines[..i + 1][..i] == lines[..i];
      var line := lines[i];
      if Heading(line) {
        if current.Some? {
          sections := sections + [Section(current.value, body)];
        }
        current, body := Some(line), [];
      } else if current.Some? {
        assert Split(lines[..i])[..|sections|] == sections;
        body := body + [line];
      }
    }
    assert lines[..|lines|] == lines;
    if current.Some? {
      sections := sections + [Section(current.value, body)];
    }
  }

  /** Both slicing loops: they differ in the test that ends them. */
  method Slice(sections: seq<Section>, previous: Option<seq<Line>>) returns (out: seq<Line>)
    ensures out == Flatten(sections[..Taken(sections, previous)])
  {
    var known: set<Line> := {};
    if previous.Some? {
      var olds := SplitSections(previous.value);
      known := set s | s in olds :: s.heading;
    }
    out := [];
    for i := 0 to |sections|
      invariant out == Flatten(sections[..i]) && forall j :: 0 <= j < i ==> Fresh(sections[j].heading, previous)
    {
      var heading := sections[i].heading;
      if (previous.Some? && heading in known) || (previous.None? && !Dated(heading)) {
        TakenIs(sections, previous, i);
        return;
      }
      assert sections[..i + 1][..i] == sections[..i];
      out := out + [heading];
      out := out + sections[i].body;
    }
    TakenIs(sections, previous, |sections|);
  }

  /** The trimming loop of main. */
  method Trim(lines: seq<Line>) returns (out: seq<Line>)
    ensures out == Trimmed(lines)
  {
    out := lines;
    while out != [] && Blank(out[|out| - 1])
      invariant Trimmed(out) == Trimmed(lines)
    {
      out := out[..|out| - 1];
    }
  }

  /** main, for a readable changelog: 1 when there is nothing to print. */
  method Extract(lines: seq<Line>, previous: Option<seq<Line>>) returns (status: int, out: seq<Line>)
    ensures out == Output(lines, previous)
    ensures status == if Taken(Split(lines), previous) == 0 then 1 else 0
    ensures status == 1 <==> out == []
  {
    var sections := SplitSections(lines);
    var run := Slice(sections, previous);
    out := Trim(run);
    OutputIsContiguous(lines, previous);
    status := if out == [] then 1 else 0;
  }
}
