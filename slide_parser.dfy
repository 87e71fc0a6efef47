/** The Markdown-to-slides parser: the deck text is split into lines, each
    line is stripped and classified, and a slide is closed whenever a new
    `## Slide` header starts (only if it has a title). Python string semantics
    (`strip`, `split`, slicing with negative ends, `replace`) are written out. */
module SlideParser {

  /** One content entry of a slide: the kind tag and its text. */
  datatype Item = Header(text: string) | Bold(text: string) | Bullet(text: string) | Text(text: string)

  datatype Slide = Slide(title: string, content: seq<Item>)

  /** The loop's state: the slides closed so far and the one being filled. */
  datatype ParserState = ParserState(slides: seq<Slide>, current: Slide)

  const EmptySlide: Slide := Slide("", [])
  const Initial: ParserState := ParserState([], EmptySlide)

  const CheckMark: char := '\U{2705}'
  const CrossMark: char := '\U{274C}'

  /** Lines that are never emitted as text. */
  const ClosingText: string := "Thank you for your consideration!"
  const ClosingLine: string := "**" + ClosingText + "**"
  const ExcludedText: seq<string> := ["```typescript", "```", ClosingLine]

  // ---- Python string operations ----

  /** `str.isspace` for one character: tab to carriage return, the file,
      group, record and unit separators, space, next line, no-break space, and
      the Unicode space and line/paragraph separators. */
  predicate IsSpace(c: char) {
    || ('\t' <= c <= '\r') || ('\U{001C}' <= c <= '\U{001F}') || c == ' '
    || c == '\U{0085}' || c == '\U{00A0}' || c == '\U{1680}' || ('\U{2000}' <= c <= '\U{200A}')
    || c == '\U{2028}' || c == '\U{2029}' || c == '\U{202F}' || c == '\U{205F}' || c == '\U{3000}'
  }

  /** The number of whitespace characters `s` starts with. */
  function LeadingSpace(s: string): (n: nat)
    ensures n <= |s|
  {
    if s != [] && IsSpace(s[0]) then 1 + LeadingSpace(s[1..]) else 0
  }

  /** The number of whitespace characters `s` ends with. */
  function TrailingSpace(s: string): (n: nat)
    ensures n <= |s|
  {
    if s != [] && IsSpace(s[|s| - 1]) then 1 + TrailingSpace(s[..|s| - 1]) else 0
  }

  /** `str.strip()`: the slice between the leading and the trailing whitespace. */
  function Strip(s: string): string {
    var left := s[LeadingSpace(s)..];
    left[..|left| - TrailingSpace(left)]
  }

  /** What `LeadingSpace` counts is whitespace, and the next character is not. */
  lemma {:induction false} LeadingSpaceSpec(s: string)
    ensures forall k :: 0 <= k < LeadingSpace(s) ==> IsSpace(s[k])
    ensures LeadingSpace(s) < |s| ==> !IsSpace(s[LeadingSpace(s)])
  {
    if s != [] && IsSpace(s[0]) {
      LeadingSpaceSpec(s[1..]);
      forall k | 1 <= k < LeadingSpace(s) ensures IsSpace(s[k]) {
        assert s[k] == s[1..][k - 1];
      }
    }
  }

  /** What `TrailingSpace` counts is whitespace, and the character before it
      is not. */
  lemma {:induction false} TrailingSpaceSpec(s: string)
    ensures forall k :: |s| - TrailingSpace(s) <= k < |s| ==> IsSpace(s[k])
    ensures TrailingSpace(s) < |s| ==> !IsSpace(s[|s| - TrailingSpace(s) - 1])
  {
    if s != [] && IsSpace(s[|s| - 1]) {
      TrailingSpaceSpec(s[..|s| - 1]);
    }
  }

  /** Stripping keeps a contiguous slice of the input ... */
  lemma StripIsSlice(s: string)
    ensures var i := LeadingSpace(s);
      i + |Strip(s)| <= |s| && Strip(s) == s[i..i + |Strip(s)|]
  {
  }

  /** ... removes whitespace only, from both ends ... */
  lemma StripDropsOnlySpace(s: string)
    ensures var i := LeadingSpace(s);
      && (forall k :: 0 <= k < i ==> IsSpace(s[k]))
      && (forall k :: i + |Strip(s)| <= k < |s| ==> IsSpace(s[k]))
  {
    var i := LeadingSpace(s);
    var left := s[i..];
    LeadingSpaceSpec(s);
    TrailingSpaceSpec(left);
    assert |Strip(s)| == |left| - TrailingSpace(left);
    forall k | i + |Strip(s)| <= k < |s| ensures IsSpace(s[k]) {
      assert s[k] == left[k - i];
    }
  }

  /** ... and leaves neither end of the result on whitespace. */
  lemma StripEnds(s: string)
    ensures Strip(s) != [] ==> !IsSpace(Strip(s)[0]) && !IsSpace(Strip(s)[|Strip(s)| - 1])
  {
    var left := s[LeadingSpace(s)..];
    LeadingSpaceSpec(s);
    TrailingSpaceSpec(left);
    var r := Strip(s);
    if r != [] {
      assert r[0] == left[0];
      assert r[|r| - 1] == left[|left| - TrailingSpace(left) - 1];
    }
  }

  /** Stripping twice is stripping once. */
  lemma StripIdempotent(s: string)
    ensures Strip(Strip(s)) == Strip(s)
  {
    var r := Strip(s);
    StripEnds(s);
    if r != [] {
      assert LeadingSpace(r) == 0;
      assert TrailingSpace(r) == 0;
    }
  }

  predicate StartsWith(s: string, prefix: string) {
    |prefix| <= |s| && s[..|prefix|] == prefix
  }

  predicate EndsWith(s: string, suffix: string) {
    |suffix| <= |s| && s[|s| - |suffix|..] == suffix
  }

  /** A line whose first character differs from the prefix's does not start
      with it. */
  lemma FirstCharRulesOut(s: string, prefix: string)
    requires s != [] && prefix != [] && s[0] != prefix[0]
    ensures !StartsWith(s, prefix)
  {
  }

  /** `'**' in s`. */
  predicate HasDoubleStar(s: string) {
    exists k :: 0 <= k < |s| - 1 && s[k] == '*' && s[k + 1] == '*'
  }

  /** `s.replace('**', '')`: occurrences are removed left to right without
      overlap. */
  function RemoveDoubleStars(s: string): string
    decreases |s|
  {
    if |s| >= 2 && s[0] == '*' && s[1] == '*' then RemoveDoubleStars(s[2..])
    else if s == [] then []
    else [s[0]] + RemoveDoubleStars(s[1..])
  }

  /** The first character survives when it is not a star. */
  lemma RemoveDoubleStarsKeepsHead(s: string)
    requires s != [] && s[0] != '*'
    ensures RemoveDoubleStars(s) != [] && RemoveDoubleStars(s)[0] == s[0]
  {
  }

  /** No `**` is left. */
  lemma {:induction false} RemoveDoubleStarsLeavesNone(s: string)
    ensures !HasDoubleStar(RemoveDoubleStars(s))
    decreases |s|
  {
    if |s| >= 2 && s[0] == '*' && s[1] == '*' {
      RemoveDoubleStarsLeavesNone(s[2..]);
    } else if s != [] {
      RemoveDoubleStarsLeavesNone(s[1..]);
      var rest := RemoveDoubleStars(s[1..]);
      var t := [s[0]] + rest;
      assert RemoveDoubleStars(s) == t;
      forall k | 0 <= k < |t| - 1 ensures !(t[k] == '*' && t[k + 1] == '*') {
        if k > 0 {
          assert t[k] == rest[k - 1] && t[k + 1] == rest[k];
        } else if s[0] == '*' {
          RemoveDoubleStarsKeepsHead(s[1..]);
        }
      }
    }
  }

  /** No character other than a star is removed. */
  lemma {:induction false} RemoveDoubleStarsKeepsOthers(s: string)
    ensures forall c :: c != '*' ==> multiset(RemoveDoubleStars(s))[c] == multiset(s)[c]
    decreases |s|
  {
    if |s| >= 2 && s[0] == '*' && s[1] == '*' {
      RemoveDoubleStarsKeepsOthers(s[2..]);
      assert s == s[..2] + s[2..];
    } else if s != [] {
      RemoveDoubleStarsKeepsOthers(s[1..]);
      assert s == [s[0]] + s[1..];
    }
  }

  /** A string without `**` is unchanged. */
  lemma {:induction false} RemoveDoubleStarsWithoutMarkers(s: string)
    requires !HasDoubleStar(s)
    ensures RemoveDoubleStars(s) == s
    decreases |s|
  {
    if s != [] {
      RemoveDoubleStarsWithoutMarkers(s[1..]);
    }
  }

  /** The string without any star, in order. */
  function Unstarred(s: string): string
    decreases |s|
  {
    if s == [] then [] else (if s[0] == '*' then [] else [s[0]]) + Unstarred(s[1..])
  }

  /** Only stars are removed and the other characters keep their order. */
  lemma {:induction false} RemoveDoubleStarsKeepsOrder(s: string)
    ensures Unstarred(RemoveDoubleStars(s)) == Unstarred(s)
    decreases |s|
  {
    if |s| >= 2 && s[0] == '*' && s[1] == '*' {
      RemoveDoubleStarsKeepsOrder(s[2..]);
      assert s[1..][1..] == s[2..];
    } else if s != [] {
      RemoveDoubleStarsKeepsOrder(s[1..]);
      assert ([s[0]] + RemoveDoubleStars(s[1..]))[1..] == RemoveDoubleStars(s[1..]);
    }
  }

  /** Python `s[2:-2]`: empty when the string is shorter than four characters. */
  function InnerOfDelimited(s: string): (r: string)
    ensures |r| == (if |s| >= 4 then |s| - 4 else 0)
    ensures |s| >= 4 ==> s == s[..2] + r + s[|s| - 2..]
  {
    if |s| >= 4 then s[2..|s| - 2] else ""
  }

  /** `line.split(':', 1)[1]` for a line that contains ':'. */
  function AfterFirstColon(s: string): string {
    if s == [] then ""
    else if s[0] == ':' then s[1..]
    else AfterFirstColon(s[1..])
  }

  /** The title text is what follows the first ':'. */
  lemma {:induction false} AfterFirstColonSpec(s: string)
    requires ':' in s
    ensures exists k :: 0 <= k < |s| && s[k] == ':' && ':' !in s[..k] && AfterFirstColon(s) == s[k + 1..]
  {
    if s[0] == ':' {
      assert s[..0] == [];
    } else {
      var k :| 0 <= k < |s| && s[k] == ':';
      assert s[1..][k - 1] == ':';
      AfterFirstColonSpec(s[1..]);
      var j :| 0 <= j < |s[1..]| && s[1..][j] == ':' && ':' !in s[1..][..j] && AfterFirstColon(s[1..]) == s[1..][j + 1..];
      assert s[..j + 1] == [s[0]] + s[1..][..j];
      assert s[j + 1 + 1..] == s[1..][j + 1..];
    }
  }

  /** `content.split('\n')`. */
  function SplitLines(s: string): (lines: seq<string>)
    ensures |lines| >= 1
  {
    if s == [] then [""]
    else
      var tail := SplitLines(s[1..]);
      if s[0] == '\n' then [""] + tail
      else [[s[0]] + tail[0]] + tail[1..]
  }

  /** No piece contains a newline. */
  lemma {:induction false} SplitLinesHaveNoNewline(s: string)
    ensures forall k :: 0 <= k < |SplitLines(s)| ==> '\n' !in SplitLines(s)[k]
  {
    if s != [] {
      SplitLinesHaveNoNewline(s[1..]);
    }
  }

  /** `'\n'.join(lines)`. */
  function JoinLines(lines: seq<string>): string
    requires |lines| >= 1
  {
    if |lines| == 1 then lines[0] else lines[0] + "\n" + JoinLines(lines[1..])
  }

  /** Splitting on newlines and joining back gives the text again. */
  lemma {:induction false} SplitJoin(s: string)
    ensures JoinLines(SplitLines(s)) == s
  {
    if s != [] {
      SplitJoin(s[1..]);
      var tail := SplitLines(s[1..]);
      if s[0] == '\n' {
        assert SplitLines(s)[1..] == tail;
      } else {
        var lines := SplitLines(s);
        if |tail| == 1 {
          assert lines == [[s[0]] + tail[0]];
        } else {
          assert lines[1..] == tail[1..];
          assert JoinLines(tail) == tail[0] + "\n" + JoinLines(tail[1..]);
        }
      }
    }
  }

  // ---- Line classification ----

  /** What one stripped line does to the parser's state. */
  datatype Action = NewSlide(title: string) | SetTitle(title: string) | Add(item: Item) | Ignore

  /** The text of a `- ` bullet: stripped, with `**` markers removed. */
  function BulletText(line: string): string
    requires StartsWith(line, "- ")
  {
    var text := Strip(line[2..]);
    if HasDoubleStar(text) then RemoveDoubleStars(text) else text
  }

  /** The branches of the loop body in their order of test, for a stripped
      line; `noSlidesYet` says whether no slide has been closed. */
  function Classify(line: string, noSlidesYet: bool): (r: Action)
    ensures r.NewSlide? <==> StartsWith(line, "## Slide")
    ensures r.SetTitle? ==> noSlidesYet && StartsWith(line, "# ")
    ensures r.Add? && r.item.Text? ==>
              r.item.text == line && line != "" && !StartsWith(line, "---") && line !in ExcludedText
  {
    if StartsWith(line, "## Slide") then
      NewSlide(if ':' in line then Strip(AfterFirstColon(line)) else "")
    else if StartsWith(line, "# ") && noSlidesYet then
      SetTitle(Strip(line[2..]))
    else if StartsWith(line, "### ") then
      Add(Header(Strip(line[4..])))
    else if StartsWith(line, "**") && EndsWith(line, "**") then
      Add(Bold(Strip(InnerOfDelimited(line))))
    else if StartsWith(line, "- ") then
      Add(Bullet(BulletText(line)))
    else if CheckMark in line || CrossMark in line then
      Add(Bullet(Strip(line)))
    else if line != "" && !StartsWith(line, "---") && line !in ExcludedText then
      Add(Text(line))
    else Ignore
  }

  /** `if current_slide['title']: slides.append(current_slide)`. */
  function CloseSlide(st: ParserState): (r: seq<Slide>)
    ensures r == st.slides || r == st.slides + [st.current]
    ensures r == st.slides + [st.current] <==> st.current.title != ""
  {
    if st.current.title != "" then st.slides + [st.current] else st.slides
  }

  function Apply(st: ParserState, action: Action): ParserState {
    match action
    case NewSlide(title) => ParserState(CloseSlide(st), Slide(title, []))
    case SetTitle(title) => st.(current := st.current.(title := title))
    case Add(item) => st.(current := st.current.(content := st.current.content + [item]))
    case Ignore => st
  }

  /** One iteration of the parsing loop. */
  function Step(st: ParserState, raw: string): ParserState {
    Apply(st, Classify(Strip(raw), st.slides == []))
  }

  /** The state after the loop has consumed `lines`, in order. */
  function Run(lines: seq<string>): ParserState {
    if lines == [] then Initial else Step(Run(lines[..|lines| - 1]), lines[|lines| - 1])
  }

  /** `parse_markdown_presentation` on the text of the file. */
  function Parse(content: string): seq<Slide> {
    ParseLines(SplitLines(content))
  }

  /** The loop followed by closing the last slide. */
  function ParseLines(lines: seq<string>): seq<Slide> {
    CloseSlide(Run(lines))
  }

  /** The parsing loop over the lines of the text. */
  method ParseMarkdownPresentation(content: string) returns (slides: seq<Slide>)
    ensures slides == Parse(content)
  {
    slides := [];
    var current := EmptySlide;
    var lines := SplitLines(content);
    var i := 0;
    while i < |lines|
      invariant 0 <= i <= |lines|
      invariant ParserState(slides, current) == Run(lines[..i])
    {
      assert lines[..i + 1][..i] == lines[..i];
      slides, current := ProcessLine(slides, current, Strip(lines[i]));
      i := i + 1;
    }
    assert lines[..|lines|] == lines;
    if current.title != "" {
      slides := slides + [current];
    }
  }

  /** The body of the parsing loop for one stripped line. */
  method ProcessLine(slides0: seq<Slide>, current0: Slide, line: string) returns (slides: seq<Slide>, current: Slide)
    ensures ParserState(slides, current) == Apply(ParserState(slides0, current0), Classify(line, slides0 == []))
  {
    slides, current := slides0, current0;
    if StartsWith(line, "## Slide") {
      if current.title != "" {
        slides := slides + [current];
      }
      current := EmptySlide;
      if ':' in line {
        current := current.(title := Strip(AfterFirstColon(line)));
      }
    } else if StartsWith(line, "# ") && slides == [] {
      current := current.(title := Strip(line[2..]));
    } else if StartsWith(line, "### ") {
      current := current.(content := current.content + [Header(Strip(line[4..]))]);
    } else if StartsWith(line, "**") && EndsWith(line, "**") {
      current := current.(content := current.content + [Bold(Strip(InnerOfDelimited(line)))]);
    } else if StartsWith(line, "- ") {
      var text := Strip(line[2..]);
      if HasDoubleStar(text) {
        text := RemoveDoubleStars(text);
      }
      current := current.(content := current.content + [Bullet(text)]);
    } else if CheckMark in line || CrossMark in line {
      current := current.(content := current.content + [Bullet(Strip(line))]);
    } else if line != "" && !StartsWith(line, "---") {
      if line !in ExcludedText {
        current := current.(content := current.content + [Text(line)]);
      }
    }
  }

  // ---- Properties ----

  /** Lines that open a new slide. */
  function CountSlideHeaders(lines: seq<string>): nat {
    if lines == [] then 0
    else CountSlideHeaders(lines[..|lines| - 1]) + (if StartsWith(Strip(lines[|lines| - 1]), "## Slide") then 1 else 0)
  }

  /** Only titled slides are kept, and at most one slide is closed per
      `## Slide` line. */
  ghost predicate AllTitled(slides: seq<Slide>) {
    forall k :: 0 <= k < |slides| ==> slides[k].title != ""
  }

  lemma {:induction false} RunInvariant(lines: seq<string>)
    ensures AllTitled(Run(lines).slides)
    ensures |Run(lines).slides| <= CountSlideHeaders(lines)
  {
    if lines != [] {
      var prefix := lines[..|lines| - 1];
      RunInvariant(prefix);
      var line := Strip(lines[|lines| - 1]);
      var action := Classify(line, Run(prefix).slides == []);
      assert Run(lines) == Apply(Run(prefix), action);
      assert CountSlideHeaders(lines) == CountSlideHeaders(prefix) + (if action.NewSlide? then 1 else 0);
      ApplyKeepsTitledSlides(Run(prefix), action);
    }
  }

  lemma ApplyKeepsTitledSlides(st: ParserState, action: Action)
    requires AllTitled(st.slides)
    ensures AllTitled(Apply(st, action).slides)
    ensures |Apply(st, action).slides| <= |st.slides| + (if action.NewSlide? then 1 else 0)
  {
  }

  /** Every slide returned has a title, and there is at most one more slide
      than there are `## Slide` lines. */
  lemma ParseShape(lines: seq<string>)
    ensures forall k :: 0 <= k < |ParseLines(lines)| ==> ParseLines(lines)[k].title != ""
    ensures |ParseLines(lines)| <= CountSlideHeaders(lines) + 1
  {
    var st := Run(lines);
    RunInvariant(lines);
    CloseSlideKeepsTitles(st);
    assert ParseLines(lines) == CloseSlide(st);
  }

  lemma CloseSlideKeepsTitles(st: ParserState)
    requires AllTitled(st.slides)
    ensures AllTitled(CloseSlide(st))
  {
  }

  /** A text entry is never empty, never a rule (`---`) and never one of the
      excluded lines. */
  ghost predicate WellFormedText(item: Item) {
    item.Text? ==> item.text != "" && !StartsWith(item.text, "---") && item.text !in ExcludedText
  }

  ghost predicate AllTextWellFormed(st: ParserState) {
    && (forall k :: 0 <= k < |st.current.content| ==> WellFormedText(st.current.content[k]))
    && (forall s, k :: s in st.slides && 0 <= k < |s.content| ==> WellFormedText(s.content[k]))
  }

  lemma {:induction false} RunTextWellFormed(lines: seq<string>)
    ensures AllTextWellFormed(Run(lines))
  {
    if lines != [] {
      var prefix := lines[..|lines| - 1];
      RunTextWellFormed(prefix);
      var line := Strip(lines[|lines| - 1]);
      var action := Classify(line, Run(prefix).slides == []);
      assert Run(lines) == Apply(Run(prefix), action);
      ApplyKeepsTextWellFormed(Run(prefix), action);
    }
  }

  lemma ApplyKeepsTextWellFormed(st: ParserState, action: Action)
    requires AllTextWellFormed(st)
    requires action.Add? ==> WellFormedText(action.item)
    ensures AllTextWellFormed(Apply(st, action))
  {
  }

  /** The slides closed after a prefix of the lines stay, in order, at the
      front of the slides closed after all of them. */
  lemma {:induction false} SlidesGrowInOrder(lines: seq<string>, j: nat)
    requires j <= |lines|
    ensures Run(lines[..j]).slides <= Run(lines).slides
    decreases |lines| - j
  {
    if j < |lines| {
      var prefix := lines[..|lines| - 1];
      assert prefix[..j] == lines[..j];
      SlidesGrowInOrder(prefix, j);
      var st := Run(prefix);
      assert Run(lines) == Apply(st, Classify(Strip(lines[|lines| - 1]), st.slides == []));
    } else {
      assert lines[..j] == lines;
    }
  }

  /** A `## Slide` line closes the current block (kept only if titled) and
      opens an empty one titled by the stripped text after the first ':'. */
  lemma SlideHeaderLine(st: ParserState, raw: string)
    requires StartsWith(Strip(raw), "## Slide")
    ensures var line := Strip(raw);
      Step(st, raw) == ParserState(CloseSlide(st), Slide(if ':' in line then Strip(AfterFirstColon(line)) else "", []))
  {
  }

  /** A `### ` line becomes a header entry with the stripped rest of the line. */
  lemma SectionHeaderLine(line: string, noSlidesYet: bool)
    requires StartsWith(line, "### ")
    ensures Classify(line, noSlidesYet) == Add(Header(Strip(line[4..])))
  {
    assert line[..4][1] == '#' && line[..4][2] == '#' && line[..4][3] == ' ';
  }

  /** Empty lines and rules (`---`) with no check or cross mark produce nothing. */
  lemma BlankAndRuleLinesIgnored(line: string, noSlidesYet: bool)
    requires line == "" || (StartsWith(line, "---") && CheckMark !in line && CrossMark !in line)
    ensures Classify(line, noSlidesYet) == Ignore
  {
    if line != "" {
      assert line[0] == line[..3][0] == '-' && line[1] == line[..3][1] == '-';
      FirstCharRulesOut(line, "## Slide");
      FirstCharRulesOut(line, "# ");
      FirstCharRulesOut(line, "### ");
      FirstCharRulesOut(line, "**");
      assert !StartsWith(line, "- ");
    }
  }

  /** A line that opens with none of the markup characters `#`, `*` and `-`. */
  predicate PlainStart(line: string) {
    line != "" && line[0] != '#' && line[0] != '*' && line[0] != '-'
  }

  /** Such a line matches none of the markup branches. */
  lemma PlainStartSkipsMarkup(line: string)
    requires PlainStart(line)
    ensures !StartsWith(line, "## Slide") && !StartsWith(line, "# ") && !StartsWith(line, "### ")
    ensures !StartsWith(line, "**") && !StartsWith(line, "- ") && !StartsWith(line, "---")
  {
    FirstCharRulesOut(line, "## Slide");
    FirstCharRulesOut(line, "# ");
    FirstCharRulesOut(line, "### ");
    FirstCharRulesOut(line, "**");
    FirstCharRulesOut(line, "- ");
    FirstCharRulesOut(line, "---");
  }

  /** A line holding a check or cross mark that no earlier branch takes
      becomes a bullet of itself, whatever characters it opens with. */
  lemma MarkLineIsBullet(line: string, noSlidesYet: bool)
    requires !StartsWith(line, "## Slide") && !(StartsWith(line, "# ") && noSlidesYet)
    requires !StartsWith(line, "### ") && !(StartsWith(line, "**") && EndsWith(line, "**"))
    requires !StartsWith(line, "- ")
    requires CheckMark in line || CrossMark in line
    ensures Classify(line, noSlidesYet) == Add(Bullet(Strip(line)))
  {
  }

  /** A plain line holding a check or cross mark becomes a bullet of itself. */
  lemma CheckMarkLineIsBullet(line: string, noSlidesYet: bool)
    requires PlainStart(line)
    requires CheckMark in line || CrossMark in line
    ensures Classify(line, noSlidesYet) == Add(Bullet(Strip(line)))
  {
    PlainStartSkipsMarkup(line);
    MarkLineIsBullet(line, noSlidesYet);
  }

  /** A `---` line holding a mark is not ignored as a rule: the mark branch
      comes first, so it becomes a bullet. */
  lemma RuleLineWithMarkIsBullet(line: string, noSlidesYet: bool)
    requires StartsWith(line, "---")
    requires CheckMark in line || CrossMark in line
    ensures Classify(line, noSlidesYet) == Add(Bullet(Strip(line)))
  {
    assert line[0] == '-' && line[1] == '-';
    FirstCharRulesOut(line, "## Slide");
    FirstCharRulesOut(line, "# ");
    FirstCharRulesOut(line, "### ");
    FirstCharRulesOut(line, "**");
    MarkLineIsBullet(line, noSlidesYet);
  }

  /** A plain line without marks is text, unless it is an excluded literal. */
  lemma PlainLineIsText(line: string, noSlidesYet: bool)
    requires PlainStart(line)
    requires CheckMark !in line && CrossMark !in line
    ensures Classify(line, noSlidesYet) == (if line in ExcludedText then Ignore else Add(Text(line)))
  {
    PlainStartSkipsMarkup(line);
  }

  /** A line is emitted as text exactly when no earlier branch applies and it
      is non-empty, no rule and not excluded. */
  lemma TextLineRule(line: string, noSlidesYet: bool)
    ensures Classify(line, noSlidesYet) == Add(Text(line)) <==>
              && !StartsWith(line, "## Slide") && !(StartsWith(line, "# ") && noSlidesYet)
              && !StartsWith(line, "### ") && !(StartsWith(line, "**") && EndsWith(line, "**"))
              && !StartsWith(line, "- ") && CheckMark !in line && CrossMark !in line
              && line != "" && !StartsWith(line, "---") && line !in ExcludedText
  {
  }

  /** Before the first slide is appended, a `# ` line sets the current title to
      the stripped rest of the line. */
  lemma MainTitleBeforeFirstSlide(line: string)
    requires StartsWith(line, "# ")
    ensures Classify(line, true) == SetTitle(Strip(line[2..]))
  {
    assert line[1] == line[..2][1] == ' ';
  }

  /** A `- ` bullet is emitted without its `**` markers. */
  lemma BulletHasNoMarkers(st: ParserState, raw: string)
    requires StartsWith(Strip(raw), "- ")
    ensures Step(st, raw) == Apply(st, Add(Bullet(BulletText(Strip(raw)))))
    ensures !HasDoubleStar(BulletText(Strip(raw)))
  {
    var line := Strip(raw);
    RemoveDoubleStarsLeavesNone(Strip(line[2..]));
    assert line[0] == line[..2][0] == '-';
    FirstCharRulesOut(line, "## Slide");
    FirstCharRulesOut(line, "# ");
    FirstCharRulesOut(line, "### ");
    FirstCharRulesOut(line, "**");
  }

  /** Once a slide has been closed, a `# ` line neither opens a slide nor
      sets the title ... */
  lemma MainTitleLineAfterFirstSlide(line: string)
    requires StartsWith(line, "# ")
    ensures !Classify(line, false).NewSlide? && !Classify(line, false).SetTitle?
  {
    assert line[1] == line[..2][1] == ' ';
  }

  /** ... so the closed slides and the current title stay as they were. */
  lemma MainTitleOnlyBeforeFirstSlide(st: ParserState, raw: string)
    requires st.slides != []
    requires StartsWith(Strip(raw), "# ")
    ensures Step(st, raw).slides == st.slides
    ensures Step(st, raw).current.title == st.current.title
  {
    var action := Classify(Strip(raw), false);
    MainTitleLineAfterFirstSlide(Strip(raw));
    assert Step(st, raw) == Apply(st, action);
  }

  /** A stripped line that starts and ends with `**` is a bold entry,
      whatever else it says. */
  lemma DelimitedLineIsBold(line: string, noSlidesYet: bool)
    requires StartsWith(line, "**") && EndsWith(line, "**")
    ensures Classify(line, noSlidesYet) == Add(Bold(Strip(InnerOfDelimited(line))))
  {
    assert line[0] == line[..2][0] == '*';
    FirstCharRulesOut(line, "## Slide");
    FirstCharRulesOut(line, "# ");
    FirstCharRulesOut(line, "### ");
  }

  lemma ClosingLineShape()
    ensures StartsWith(ClosingLine, "**") && EndsWith(ClosingLine, "**")
    ensures Strip(ClosingLine) == ClosingLine
    ensures InnerOfDelimited(ClosingLine) == ClosingText
  {
    var line := ClosingLine;
    assert line[..2] == "**" && line[|line| - 2..] == "**";
    assert line[0] == '*' && line[|line| - 1] == '*';
    assert LeadingSpace(line) == 0;
    assert TrailingSpace(line) == 0;
    assert line[2..|line| - 2] == ClosingText;
  }

  /** The closing line listed among the excluded texts starts and ends with
      `**`, so it is classified as a bold entry and the exclusion never applies. */
  lemma ClosingLineIsBold(noSlidesYet: bool)
    ensures ClosingLine in ExcludedText
    ensures Strip(ClosingLine) == ClosingLine
    ensures Classify(ClosingLine, noSlidesYet) == Add(Bold(Strip(ClosingText)))
  {
    ClosingLineShape();
    DelimitedLineIsBold(ClosingLine, noSlidesYet);
  }
}
