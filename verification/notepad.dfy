/** The notepad view of page.tsx: how a stored strategy is laid out as a
    text document, and the copy and download actions on it. A document is a
    sequence of lines, one per visual line of the notepad: every `div` starts
    a line, a `<br />` ends the open line, and a `<br />` with no open line
    leaves an empty one. An empty `div` (an empty overview, say) counts as an
    empty line, although the browser shows no line for it. The "Generated:" timestamp comes from the clock and
    the locale, so it is a parameter. */
module Notepad {
  import opened Wrappers
  import opened Strategy
  import opened Wizard
  import Text

  const BannerTop := "\U{2554}" + Text.Repeat('\U{2550}', 59) + "\U{2557}"
  const BannerTitle := "\U{2551}" + Text.Repeat(' ', 11) + "SOCIAL MEDIA CONTENT STRATEGY DOCUMENT"
                       + Text.Repeat(' ', 10) + "\U{2551}"
  const BannerBottom := "\U{255A}" + Text.Repeat('\U{2550}', 59) + "\U{255D}"
  const Divider := Text.Repeat('\U{2500}', 70)
  const HeavyDivider := Text.Repeat('\U{2550}', 70)
  /** Written in two pieces: the verifier reasons about two short literals
      far more cheaply than about one long one. */
  const FooterPrefix := "Generated by AI Content Strategist" + " | Total Lines: ~"
  const OverviewHeading := "[1] STRATEGY OVERVIEW"
  const RoadmapHeading := "[2] 30-DAY CONTENT ROADMAP"
  const IdeasHeading := "[3] VIRAL POST IDEAS"
  const CaptionsHeading := "[4] READY-TO-USE CAPTIONS"
  const HashtagsHeading := "[5] HASHTAG STRATEGY"
  const BroadHeading := "BROAD REACH:"
  const NicheHeading := "NICHE SPECIFIC:"
  const BrandedHeading := "BRANDED:"
  const EndHeading := "END OF DOCUMENT"

  /** `#{tag.replace('#', '')}`: the first '#' of the tag, wherever it
      stands, is dropped and one '#' is put in front. */
  function RenderTag(t: string): (r: string)
    ensures |r| >= 1 && r[0] == '#'
    ensures '#' !in t ==> r == "#" + t
    ensures '#' in t ==> |r| == |t|
    ensures forall x :: x in r ==> x == '#' || x in t
  {
    "#" + Text.RemoveFirst(t, '#')
  }

  /** A tag written with or without its leading '#' renders the same. */
  lemma TagHashOptional(t: string)
    requires '#' !in t
    ensures RenderTag("#" + t) == RenderTag(t) == "#" + t
  {
    assert ("#" + t)[1..] == t;
  }

  /** Rendering a rendered tag changes nothing. */
  lemma TagRenderIdempotent(t: string)
    ensures RenderTag(RenderTag(t)) == RenderTag(t)
  {
    var r := RenderTag(t);
    assert Text.FirstIndex(r, '#') == 0;
    assert r[1..] == Text.RemoveFirst(t, '#');
  }

  /** The '#' dropped is the first one anywhere in the tag, not only a
      leading one: "C#dev" renders as "#Cdev". */
  lemma TagDropsInnerHash(a: string, b: string)
    requires '#' !in a
    ensures RenderTag(a + "#" + b) == "#" + a + b
  {
    var t := a + "#" + b;
    var i := Text.FirstIndex(t, '#');
    Text.RemoveFirstAt(t, '#');
    assert t[|a|] == '#';
    assert i == |a|;
    assert t[..i] == a;
    assert t[i + 1..] == b;
  }

  /** One group of tags on one line, each followed by a space */
  function TagLine(tags: seq<string>): (r: string)
    ensures r == [] <==> tags == []
    ensures tags != [] ==> r[0] == '#'
    ensures (forall i :: 0 <= i < |tags| ==> '\n' !in tags[i]) ==> '\n' !in r
  {
    if tags == [] then "" else RenderTag(tags[0]) + " " + TagLine(tags[1..])
  }

  /** Each tag of a group as it is rendered, in order */
  function RenderTags(tags: seq<string>): (r: seq<string>)
    ensures |r| == |tags|
    ensures forall i :: 0 <= i < |tags| ==> r[i] == RenderTag(tags[i])
  {
    if tags == [] then [] else [RenderTag(tags[0])] + RenderTags(tags[1..])
  }

  /** A tag line is every tag of the group, rendered and followed by one
      space, in order, and nothing else. */
  lemma {:induction false} TagLineIsConcat(tags: seq<string>)
    ensures TagLine(tags) == Text.Concat(seq(|tags|, i requires 0 <= i < |tags| => RenderTag(tags[i]) + " "))
  {
    var pieces := seq(|tags|, i requires 0 <= i < |tags| => RenderTag(tags[i]) + " ");
    if tags != [] {
      var rest := tags[1..];
      TagLineIsConcat(rest);
      assert pieces[1..] == seq(|rest|, i requires 0 <= i < |rest| => RenderTag(rest[i]) + " ");
      assert Text.Concat(pieces) == pieces[0] + Text.Concat(pieces[1..]);
    }
  }

  /** When no tag holds a space, splitting the line at its spaces gives the
      rendered tags back, in order, then the empty piece after the last
      space. */
  lemma {:induction false} TagLineSplits(tags: seq<string>)
    requires forall i :: 0 <= i < |tags| ==> ' ' !in tags[i]
    ensures Text.Split(TagLine(tags), ' ') == RenderTags(tags) + [""]
  {
    if tags != [] {
      var first := RenderTag(tags[0]);
      var rest := tags[1..];
      assert ' ' !in first;
      TagLineSplits(rest);
      assert TagLine(tags) == first + [' '] + TagLine(rest);
      Text.SplitAtFirst(first, ' ', TagLine(rest));
      assert RenderTags(tags) + [""] == [first] + (RenderTags(rest) + [""]);
    }
  }

  /** Section [5]: the broad and niche groups, then the branded group
      only when it has tags */
  function HashtagLines(h: HashtagPlan): (r: seq<string>)
    ensures |r| == 10 + (if |h.branded| > 0 then 2 else 0)
    ensures r[0] == HashtagsHeading && r[3] == BroadHeading && r[4] == TagLine(h.broad)
    ensures r[6] == NicheHeading && r[7] == TagLine(h.niche)
    ensures |h.branded| > 0 ==> r[9] == BrandedHeading && r[10] == TagLine(h.branded)
  {
    [HashtagsHeading, Divider, "", BroadHeading, TagLine(h.broad), "",
     NicheHeading, TagLine(h.niche), ""]
    + (if |h.branded| > 0 then [BrandedHeading, TagLine(h.branded)] else [])
    + [""]
  }

  /** Section [5] holds the BRANDED heading exactly when the branded group
      has tags: no rendered tag line can be mistaken for it. */
  lemma HashtagBrandedIff(h: HashtagPlan)
    ensures BrandedHeading in HashtagLines(h) <==> |h.branded| > 0
  {
    NotBranded(TagLine(h.broad));
    NotBranded(TagLine(h.niche));
  }

  /** A line that is empty or starts with '#' is not the BRANDED heading. */
  lemma NotBranded(line: string)
    requires line == [] || line[0] == '#'
    ensures line != BrandedHeading
  {
  }

  /** Section [2]: two lines per roadmap entry, in order */
  function CalendarLines(cal: seq<CalendarEntry>): (r: seq<string>)
    ensures |r| == 2 * |cal|
    ensures forall i :: 0 <= i < |cal| ==> r[2 * i..2 * i + 2] == CalendarBlock(cal[i])
  {
    if cal == [] then []
    else
      var rest := CalendarLines(cal[1..]);
      var r := CalendarBlock(cal[0]) + rest;
      BlocksShift(r, CalendarBlock(cal[0]), rest, 2, |cal|);
      r
  }

  function CalendarBlock(e: CalendarEntry): (r: seq<string>)
    ensures |r| == 2
  {
    [e.day + ": " + e.theme, "\U{2514}\U{2500} Type: " + e.contentType]
  }

  /** Section [3]: three lines per post idea, in order */
  function IdeaLines(ideas: seq<PostIdea>): (r: seq<string>)
    ensures |r| == 3 * |ideas|
    ensures forall i :: 0 <= i < |ideas| ==> r[3 * i..3 * i + 3] == IdeaBlock(ideas[i])
  {
    if ideas == [] then []
    else
      var rest := IdeaLines(ideas[1..]);
      var r := IdeaBlock(ideas[0]) + rest;
      BlocksShift(r, IdeaBlock(ideas[0]), rest, 3, |ideas|);
      r
  }

  function IdeaBlock(p: PostIdea): (r: seq<string>)
    ensures |r| == 3
  {
    ["\U{2022} " + p.title, "Hook: \"" + p.hook + "\"", ""]
  }

  /** Section [4]: three lines per caption, in order, the type tag upper-cased */
  function CaptionLines(caps: seq<Caption>): (r: seq<string>)
    ensures |r| == 3 * |caps|
    ensures forall i :: 0 <= i < |caps| ==> r[3 * i..3 * i + 3] == CaptionBlock(caps[i])
  {
    if caps == [] then []
    else
      var rest := CaptionLines(caps[1..]);
      var r := CaptionBlock(caps[0]) + rest;
      BlocksShift(r, CaptionBlock(caps[0]), rest, 3, |caps|);
      r
  }

  function CaptionBlock(c: Caption): (r: seq<string>)
    ensures |r| == 3
  {
    ["[" + Text.ToUpperAscii(c.kind) + "]", c.content, ""]
  }

  /** Block i + 1 of `first + rest` is block i of `rest` when `first` is one block long. */
  lemma BlocksShift(r: seq<string>, first: seq<string>, rest: seq<string>, w: nat, n: nat)
    requires r == first + rest && |first| == w && n >= 1 && |rest| == w * (n - 1)
    ensures forall i :: 1 <= i < n ==> r[w * i..w * i + w] == rest[w * (i - 1)..w * (i - 1) + w]
    ensures r[0..w] == first
  {
    forall i | 1 <= i < n
      ensures r[w * i..w * i + w] == rest[w * (i - 1)..w * (i - 1) + w]
    {
      assert w * i == w + w * (i - 1);
      assert w * (i - 1) + w <= |rest|;
    }
  }

  /** The line-count estimate printed in the footer: roadmap entries plus
      post ideas plus 50 */
  function FooterLine(st: StrategyData): (r: string)
    ensures |FooterPrefix| < |r| && r[..|FooterPrefix|] == FooterPrefix
  {
    FooterPrefix + Text.NatToDecimal(|st.calendar| + |st.ideas| + 50)
  }

  function HeaderLines(a: Answers, generated: string): seq<string> {
    [BannerTop, BannerTitle, BannerBottom, "",
     "Generated: " + generated,
     "Brand: " + a.brand + " | Niche: " + a.niche,
     "Platform: " + a.platform + " | Goal: " + a.goal,
     "", Divider]
  }

  function OverviewLines(st: StrategyData): seq<string> {
    [OverviewHeading, Divider, "", st.overview, ""]
  }

  function RoadmapLines(st: StrategyData): seq<string> {
    [RoadmapHeading, Divider, ""] + CalendarLines(st.calendar) + [""]
  }

  function PostIdeaLines(st: StrategyData): seq<string> {
    [IdeasHeading, Divider, ""] + IdeaLines(st.ideas)
  }

  function CaptionSectionLines(st: StrategyData): seq<string> {
    [CaptionsHeading, Divider, ""] + CaptionLines(st.captions)
  }

  function FooterLines(st: StrategyData): seq<string> {
    [HeavyDivider, EndHeading, FooterLine(st), HeavyDivider]
  }

  /** The whole notepad document for the current answers and a strategy */
  function Render(a: Answers, st: StrategyData, generated: string): (r: seq<string>)
    ensures |r| == 38 + 2 * |st.calendar| + 3 * |st.ideas| + 3 * |st.captions|
                   + (if |st.hashtags.branded| > 0 then 2 else 0)
  {
    HeaderLines(a, generated) + Body(st) + FooterLines(st)
  }

  /** Sections [1] to [5] */
  function Body(st: StrategyData): seq<string> {
    OverviewLines(st) + RoadmapLines(st) + PostIdeaLines(st) + CaptionSectionLines(st) + HashtagLines(st.hashtags)
  }

  /** The document opens with the banner, then the timestamp and four of the
      five answers; the audience is not shown. */
  lemma RenderOpening(a: Answers, st: StrategyData, generated: string)
    ensures var r := Render(a, st, generated);
            && r[0] == BannerTop && r[1] == BannerTitle && r[2] == BannerBottom
            && r[4] == "Generated: " + generated
            && r[5] == "Brand: " + a.brand + " | Niche: " + a.niche
            && r[6] == "Platform: " + a.platform + " | Goal: " + a.goal
  {
    assert |HeaderLines(a, generated)| == 9;
  }

  /** Section [1] follows, with the overview text after its heading. */
  lemma RenderOverview(a: Answers, st: StrategyData, generated: string)
    ensures var r := Render(a, st, generated);
            r[9] == OverviewHeading && r[12] == st.overview
  {
    assert |HeaderLines(a, generated)| == 9;
    assert |OverviewLines(st)| == 5;
  }

  /** The document closes with the footer block. */
  lemma RenderClosing(a: Answers, st: StrategyData, generated: string)
    ensures var r := Render(a, st, generated);
            r[|r| - 4..] == [HeavyDivider, EndHeading, FooterLine(st), HeavyDivider]
  {
  }

  /** The footer's number reads back as roadmap entries + post ideas + 50. */
  lemma FooterCount(st: StrategyData)
    ensures var line := FooterLine(st);
            && |FooterPrefix| < |line|
            && line[..|FooterPrefix|] == FooterPrefix
            && (forall i :: |FooterPrefix| <= i < |line| ==> Text.IsDigit(line[i]))
            && Text.DecimalValue(line[|FooterPrefix|..]) == |st.calendar| + |st.ideas| + 50
  {
    var n := |st.calendar| + |st.ideas| + 50;
    var digits := Text.NatToDecimal(n);
    var line := FooterLine(st);
    assert line == FooterPrefix + digits;
    assert line[|FooterPrefix|..] == digits;
    Text.DecimalRoundTrip(n);
  }

  /** A line that differs from the BRANDED heading at some position is not it. */
  lemma DiffersFromBranded(line: string, k: nat)
    requires k < |line| && (k >= |BrandedHeading| || line[k] != BrandedHeading[k])
    ensures line != BrandedHeading
  {
  }

  /** A line with a space in it is not the BRANDED heading, which has none. */
  lemma SpacedNotBranded(line: string, k: nat)
    requires k < |line| && line[k] == ' '
    ensures line != BrandedHeading
  {
    if k < |BrandedHeading| {
      assert ' ' !in BrandedHeading;
      assert BrandedHeading[k] in BrandedHeading;
    }
  }

  lemma {:induction false} NoBrandedInCalendar(cal: seq<CalendarEntry>)
    ensures BrandedHeading !in CalendarLines(cal)
  {
    if cal != [] {
      var e := cal[0];
      var line := e.day + ": " + e.theme;
      assert line[|e.day| + 1] == ' ';
      SpacedNotBranded(line, |e.day| + 1);
      DiffersFromBranded("\U{2514}\U{2500} Type: " + e.contentType, 0);
      NoBrandedInCalendar(cal[1..]);
      assert CalendarLines(cal) == CalendarBlock(e) + CalendarLines(cal[1..]);
    }
  }

  lemma {:induction false} NoBrandedInIdeas(ideas: seq<PostIdea>)
    ensures BrandedHeading !in IdeaLines(ideas)
  {
    if ideas != [] {
      var p := ideas[0];
      DiffersFromBranded("\U{2022} " + p.title, 0);
      DiffersFromBranded("Hook: \"" + p.hook + "\"", 0);
      NoBrandedInIdeas(ideas[1..]);
      assert IdeaLines(ideas) == IdeaBlock(p) + IdeaLines(ideas[1..]);
    }
  }

  lemma {:induction false} NoBrandedInCaptions(caps: seq<Caption>)
    requires forall i :: 0 <= i < |caps| ==> caps[i].content != BrandedHeading
    ensures BrandedHeading !in CaptionLines(caps)
  {
    if caps != [] {
      var c := caps[0];
      DiffersFromBranded("[" + Text.ToUpperAscii(c.kind) + "]", 0);
      NoBrandedInCaptions(caps[1..]);
      assert CaptionLines(caps) == CaptionBlock(c) + CaptionLines(caps[1..]);
    }
  }

  /** The BRANDED group is in the document exactly when it has tags, as long
      as no free-text line of the document (the overview or a caption body)
      is itself the word "BRANDED:". */
  lemma BrandedShownIffTags(a: Answers, st: StrategyData, generated: string)
    requires st.overview != BrandedHeading
    requires forall i :: 0 <= i < |st.captions| ==> st.captions[i].content != BrandedHeading
    ensures BrandedHeading in Render(a, st, generated) <==> |st.hashtags.branded| > 0
  {
    DiffersFromBranded(BannerTop, 0);
    DiffersFromBranded(BannerBottom, 0);
    DiffersFromBranded(BannerTitle, 0);
    DiffersFromBranded(Divider, 0);
    DiffersFromBranded(HeavyDivider, 0);
    DiffersFromBranded("Generated: " + generated, 0);
    DiffersFromBranded("Brand: " + a.brand + " | Niche: " + a.niche, 1);
    DiffersFromBranded("Platform: " + a.platform + " | Goal: " + a.goal, 0);
    DiffersFromBranded(FooterLine(st), 0);
    assert BrandedHeading !in HeaderLines(a, generated);
    assert BrandedHeading !in OverviewLines(st);
    NoBrandedInCalendar(st.calendar);
    assert BrandedHeading !in RoadmapLines(st);
    NoBrandedInIdeas(st.ideas);
    assert BrandedHeading !in PostIdeaLines(st);
    NoBrandedInCaptions(st.captions);
    assert BrandedHeading !in CaptionSectionLines(st);
    assert BrandedHeading !in FooterLines(st);
    HashtagBrandedIff(st.hashtags);
  }
}
