/** The copy and download buttons of the notepad view, and the file name of
    the download. Both actions read the notepad's text; the clipboard and
    the browser's download machinery themselves are not modelled, only the
    text and the file name they are handed. */
module Export {
  import opened Wrappers
  import opened Strategy
  import opened Wizard
  import opened Notepad
  import Generation
  import Text

  datatype TextFile = TextFile(name: string, content: string)

  const FileSuffix := "_Content_Strategy.txt"

  /** `${brand}_Content_Strategy.txt`: the brand answer, verbatim, then the suffix */
  function DownloadName(brand: string): (r: string)
    ensures |r| == |brand| + |FileSuffix|
    ensures r[..|brand|] == brand && r[|brand|..] == FileSuffix
  {
    brand + FileSuffix
  }

  /** Different brands give different file names, so the name tells the brand. */
  lemma DownloadNameInjective(b1: string, b2: string)
    requires DownloadName(b1) == DownloadName(b2)
    ensures b1 == b2
  {
    assert |b1| == |b2|;
    assert b1 == DownloadName(b1)[..|b1|];
  }

  /** The notepad is on screen only while a strategy is stored; it renders
      that strategy against the current answers. */
  function Document(s: Session, generated: string): (r: Option<seq<string>>)
    ensures r.Some? <==> s.strategy.Some?
    ensures r.Some? ==> |r.value| >= 38
  {
    match s.strategy
    case None => None
    case Some(st) => Some(Render(s.answers, st, generated))
  }

  /** The notepad's text, one line per document line. (The page reads the
      element's `textContent`, which has no line breaks; see
      DownloadAsWritten.) */
  function NotepadText(lines: seq<string>): (r: string)
    requires |lines| > 1
    ensures '\n' in r
  {
    assert Text.JoinLines(lines) == lines[0] + "\n" + Text.JoinLines(lines[1..]);
    Text.JoinLines(lines)
  }

  /** The download button: the notepad's text offered as a file named after
      the brand. The page offers nothing when the text is empty, which a
      rendered document never is. */
  function Download(s: Session, generated: string): (r: Option<TextFile>)
    ensures r.Some? <==> s.strategy.Some?
    ensures r.Some? ==> r.value.name == DownloadName(s.answers.brand)
    ensures r.Some? ==> Text.SplitLines(r.value.content) == Document(s, generated).value
                          || !Clean(s.answers, s.strategy.value, generated)
  {
    match Document(s, generated)
    case None => None
    case Some(lines) =>
      var content := NotepadText(lines);
      if content == "" then None
      else
        RenderSplitsBack(s.answers, s.strategy.value, generated);
        Some(TextFile(DownloadName(s.answers.brand), content))
  }

  /** The copy button, corrected: the same text as the corrected download,
      handed to the clipboard */
  function Copy(s: Session, generated: string): (r: Option<string>)
    ensures r.Some? <==> s.strategy.Some?
    ensures r.Some? ==> r == Some(Download(s, generated).value.content)
  {
    match Document(s, generated)
    case None => None
    case Some(lines) =>
      var content := NotepadText(lines);
      if content == "" then None else Some(content)
  }

  /** The download as the page writes it: the content is the notepad
      element's `textContent`, the bare concatenation of its text nodes, in
      which the `div` and `<br />` boundaries leave nothing. */
  function DownloadAsWritten(s: Session, generated: string): (r: Option<TextFile>)
    ensures r.Some? <==> s.strategy.Some?
    ensures r.Some? ==> r.value.name == DownloadName(s.answers.brand)
    ensures r.Some? ==> r.value.content == Text.Concat(Document(s, generated).value)
  {
    match Document(s, generated)
    case None => None
    case Some(lines) =>
      var content := Text.Concat(lines);
      assert content == lines[0] + Text.Concat(lines[1..]);
      assert lines[0] == BannerTop;
      if content == "" then None
      else Some(TextFile(DownloadName(s.answers.brand), content))
  }

  /** The copy button as the page writes it: the same `textContent` the
      download reads */
  function CopyAsWritten(s: Session, generated: string): (r: Option<string>)
    ensures r.Some? <==> s.strategy.Some?
    ensures r.Some? ==> r.value == Text.Concat(Document(s, generated).value)
  {
    match Document(s, generated)
    case None => None
    case Some(lines) =>
      var content := Text.Concat(lines);
      assert content == lines[0] + Text.Concat(lines[1..]);
      assert lines[0] == BannerTop;
      if content == "" then None else Some(content)
  }

  /** As written, copy and download hand over the same one-line text. */
  lemma CopyAsWrittenIsDownloadText(s: Session, generated: string)
    ensures CopyAsWritten(s, generated).Some? <==> DownloadAsWritten(s, generated).Some?
    ensures CopyAsWritten(s, generated).Some? ==>
              CopyAsWritten(s, generated).value == DownloadAsWritten(s, generated).value.content
    ensures s.strategy.Some? && Clean(s.answers, s.strategy.value, generated) ==>
              Text.SplitLines(CopyAsWritten(s, generated).value) == [CopyAsWritten(s, generated).value]
  {
    if s.strategy.Some? && Clean(s.answers, s.strategy.value, generated) {
      DownloadAsWrittenIsOneLine(s, generated);
    }
  }

  /** No free text the document shows holds a line feed */
  predicate Clean(a: Answers, st: StrategyData, generated: string) {
    && '\n' !in generated && '\n' !in a.brand && '\n' !in a.niche
    && '\n' !in a.platform && '\n' !in a.goal && '\n' !in st.overview
    && (forall e :: e in st.calendar ==> '\n' !in e.day && '\n' !in e.theme && '\n' !in e.contentType)
    && (forall p :: p in st.ideas ==> '\n' !in p.title && '\n' !in p.hook)
    && (forall c :: c in st.captions ==> '\n' !in c.kind && '\n' !in c.content)
    && Text.NoLineFeed(st.hashtags.broad) && Text.NoLineFeed(st.hashtags.niche)
    && Text.NoLineFeed(st.hashtags.branded)
  }

  lemma {:induction false} CalendarClean(cal: seq<CalendarEntry>)
    requires forall e :: e in cal ==> '\n' !in e.day && '\n' !in e.theme && '\n' !in e.contentType
    ensures Text.NoLineFeed(CalendarLines(cal))
  {
    if cal != [] {
      assert CalendarLines(cal) == CalendarBlock(cal[0]) + CalendarLines(cal[1..]);
      assert cal[0] in cal;
      CalendarClean(cal[1..]);
    }
  }

  lemma {:induction false} IdeasClean(ideas: seq<PostIdea>)
    requires forall p :: p in ideas ==> '\n' !in p.title && '\n' !in p.hook
    ensures Text.NoLineFeed(IdeaLines(ideas))
  {
    if ideas != [] {
      assert IdeaLines(ideas) == IdeaBlock(ideas[0]) + IdeaLines(ideas[1..]);
      assert ideas[0] in ideas;
      IdeasClean(ideas[1..]);
    }
  }

  lemma {:induction false} CaptionsClean(caps: seq<Caption>)
    requires forall c :: c in caps ==> '\n' !in c.kind && '\n' !in c.content
    ensures Text.NoLineFeed(CaptionLines(caps))
  {
    if caps != [] {
      assert CaptionLines(caps) == CaptionBlock(caps[0]) + CaptionLines(caps[1..]);
      assert caps[0] in caps;
      Text.UpperAsciiFacts(caps[0].kind);
      CaptionsClean(caps[1..]);
    }
  }

  lemma BannerTopClean()
    ensures '\n' !in BannerTop && '\n' !in BannerBottom
  {
    var bar := Text.Repeat('\U{2550}', 59);
    assert '\n' !in bar;
  }

  lemma BannerTitleClean()
    ensures '\n' !in BannerTitle
  {
    var sp11 := Text.Repeat(' ', 11);
    var sp10 := Text.Repeat(' ', 10);
    assert '\n' !in sp11 && '\n' !in sp10;
    assert '\n' !in "SOCIAL MEDIA CONTENT STRATEGY DOCUMENT";
  }

  lemma DividersClean()
    ensures '\n' !in Divider && '\n' !in HeavyDivider
  {
  }

  lemma NoLineFeedAppend(x: seq<string>, y: seq<string>)
    requires Text.NoLineFeed(x) && Text.NoLineFeed(y)
    ensures Text.NoLineFeed(x + y)
  {
  }

  lemma HeaderClean(a: Answers, generated: string)
    requires '\n' !in generated && '\n' !in a.brand && '\n' !in a.niche
    requires '\n' !in a.platform && '\n' !in a.goal
    ensures Text.NoLineFeed(HeaderLines(a, generated))
  {
    BannerTopClean();
    BannerTitleClean();
    DividersClean();
    MetadataClean(a, generated);
  }

  lemma MetadataClean(a: Answers, generated: string)
    requires '\n' !in generated && '\n' !in a.brand && '\n' !in a.niche
    requires '\n' !in a.platform && '\n' !in a.goal
    ensures '\n' !in "Generated: " + generated
    ensures '\n' !in "Brand: " + a.brand + " | Niche: " + a.niche
    ensures '\n' !in "Platform: " + a.platform + " | Goal: " + a.goal
  {
  }

  lemma FooterLineClean(st: StrategyData)
    ensures '\n' !in FooterLine(st)
  {
    assert '\n' !in FooterPrefix;
  }

  lemma FooterClean(st: StrategyData)
    ensures Text.NoLineFeed(FooterLines(st))
  {
    DividersClean();
    HeadingsClean();
    FooterLineClean(st);
  }

  /** The fixed lines of the document hold no line feed. Each literal has
      a lemma of its own: proving them together is far more costly for
      the verifier. */
  lemma HeadingsClean()
    ensures '\n' !in OverviewHeading && '\n' !in RoadmapHeading && '\n' !in IdeasHeading
    ensures '\n' !in CaptionsHeading && '\n' !in HashtagsHeading && '\n' !in BroadHeading
    ensures '\n' !in NicheHeading && '\n' !in BrandedHeading && '\n' !in EndHeading
  {
    OverviewHeadingClean();
    RoadmapHeadingClean();
    IdeasHeadingClean();
    CaptionsHeadingClean();
    HashtagsHeadingClean();
    GroupHeadingsClean();
  }

  lemma OverviewHeadingClean() ensures '\n' !in OverviewHeading {}
  lemma RoadmapHeadingClean() ensures '\n' !in RoadmapHeading {}
  lemma IdeasHeadingClean() ensures '\n' !in IdeasHeading {}
  lemma CaptionsHeadingClean() ensures '\n' !in CaptionsHeading {}
  lemma HashtagsHeadingClean() ensures '\n' !in HashtagsHeading {}
  lemma GroupHeadingsClean()
    ensures '\n' !in BroadHeading && '\n' !in NicheHeading && '\n' !in BrandedHeading && '\n' !in EndHeading
  {
  }

  lemma HashtagHeadClean(h: HashtagPlan)
    requires Text.NoLineFeed(h.broad) && Text.NoLineFeed(h.niche)
    ensures Text.NoLineFeed([HashtagsHeading, Divider, "", BroadHeading, TagLine(h.broad), "",
                             NicheHeading, TagLine(h.niche), ""])
  {
    DividersClean();
    assert '\n' !in TagLine(h.broad) && '\n' !in TagLine(h.niche);
    HeadingsClean();
  }

  lemma HashtagClean(h: HashtagPlan)
    requires Text.NoLineFeed(h.broad) && Text.NoLineFeed(h.niche) && Text.NoLineFeed(h.branded)
    ensures Text.NoLineFeed(HashtagLines(h))
  {
    var first := [HashtagsHeading, Divider, "", BroadHeading, TagLine(h.broad), "",
                  NicheHeading, TagLine(h.niche), ""];
    var branded := if |h.branded| > 0 then [BrandedHeading, TagLine(h.branded)] else [];
    HashtagHeadClean(h);
    HeadingsClean();
    assert '\n' !in TagLine(h.branded);
    assert Text.NoLineFeed(branded);
    assert HashtagLines(h) == first + branded + [""];
    NoLineFeedAppend(first, branded);
    NoLineFeedAppend(first + branded, [""]);
  }

  lemma OverviewClean(st: StrategyData)
    requires '\n' !in st.overview
    ensures Text.NoLineFeed(OverviewLines(st))
  {
    DividersClean();
    HeadingsClean();
  }

  lemma RoadmapClean(st: StrategyData)
    requires forall e :: e in st.calendar ==> '\n' !in e.day && '\n' !in e.theme && '\n' !in e.contentType
    ensures Text.NoLineFeed(RoadmapLines(st))
  {
    DividersClean();
    HeadingsClean();
    CalendarClean(st.calendar);
    NoLineFeedAppend([RoadmapHeading, Divider, ""], CalendarLines(st.calendar));
    NoLineFeedAppend([RoadmapHeading, Divider, ""] + CalendarLines(st.calendar), [""]);
  }

  lemma PostIdeasClean(st: StrategyData)
    requires forall p :: p in st.ideas ==> '\n' !in p.title && '\n' !in p.hook
    ensures Text.NoLineFeed(PostIdeaLines(st))
  {
    DividersClean();
    HeadingsClean();
    IdeasClean(st.ideas);
    NoLineFeedAppend([IdeasHeading, Divider, ""], IdeaLines(st.ideas));
  }

  lemma CaptionSectionClean(st: StrategyData)
    requires forall c :: c in st.captions ==> '\n' !in c.kind && '\n' !in c.content
    ensures Text.NoLineFeed(CaptionSectionLines(st))
  {
    DividersClean();
    HeadingsClean();
    CaptionsClean(st.captions);
    NoLineFeedAppend([CaptionsHeading, Divider, ""], CaptionLines(st.captions));
  }

  lemma SectionsOneToFourClean(st: StrategyData)
    requires '\n' !in st.overview
    requires forall e :: e in st.calendar ==> '\n' !in e.day && '\n' !in e.theme && '\n' !in e.contentType
    requires forall p :: p in st.ideas ==> '\n' !in p.title && '\n' !in p.hook
    requires forall c :: c in st.captions ==> '\n' !in c.kind && '\n' !in c.content
    ensures Text.NoLineFeed(OverviewLines(st) + RoadmapLines(st) + PostIdeaLines(st) + CaptionSectionLines(st))
  {
    OverviewClean(st);
    RoadmapClean(st);
    PostIdeasClean(st);
    CaptionSectionClean(st);
    NoLineFeedAppend(OverviewLines(st), RoadmapLines(st));
    NoLineFeedAppend(OverviewLines(st) + RoadmapLines(st), PostIdeaLines(st));
    NoLineFeedAppend(OverviewLines(st) + RoadmapLines(st) + PostIdeaLines(st), CaptionSectionLines(st));
  }

  /** Every line of a document built from clean text is free of line feeds. */
  lemma RenderClean(a: Answers, st: StrategyData, generated: string)
    requires Clean(a, st, generated)
    ensures Text.NoLineFeed(Render(a, st, generated))
  {
    HeaderClean(a, generated);
    SectionsOneToFourClean(st);
    HashtagClean(st.hashtags);
    FooterClean(st);
    var front := OverviewLines(st) + RoadmapLines(st) + PostIdeaLines(st) + CaptionSectionLines(st);
    NoLineFeedAppend(front, HashtagLines(st.hashtags));
    assert Body(st) == front + HashtagLines(st.hashtags);
    NoLineFeedAppend(HeaderLines(a, generated), Body(st));
    NoLineFeedAppend(HeaderLines(a, generated) + Body(st), FooterLines(st));
  }

  /** Splitting the notepad text at its line feeds gives back the document,
      line for line. */
  lemma RenderSplitsBack(a: Answers, st: StrategyData, generated: string)
    ensures Clean(a, st, generated) ==>
              Text.SplitLines(Text.JoinLines(Render(a, st, generated))) == Render(a, st, generated)
  {
    if Clean(a, st, generated) {
      RenderClean(a, st, generated);
      Text.SplitJoin(Render(a, st, generated));
    }
  }

  /** As the page writes it, the downloaded file is a single line, though
      the document it comes from has at least 38. */
  lemma DownloadAsWrittenIsOneLine(s: Session, generated: string)
    requires s.strategy.Some? && Clean(s.answers, s.strategy.value, generated)
    ensures var f := DownloadAsWritten(s, generated).value;
            && Text.SplitLines(f.content) == [f.content]
            && |Document(s, generated).value| >= 38
  {
    RenderClean(s.answers, s.strategy.value, generated);
    Text.ConcatIsOneLine(Document(s, generated).value);
  }

  const AcmeInputs := ["Acme", "Coffee", "Urban professionals", "Instagram", "Awareness"]

  /** Answering the five questions with the Acme inputs finishes the wizard
      with those answers, verbatim. */
  lemma AcmeAnswered()
    ensures var s := SubmitAll(Initial, AcmeInputs);
            && s.finished && !s.loading
            && s.answers == Answers("Acme", "Coffee", "Urban professionals", "Instagram", "Awareness")
  {
    var inputs := AcmeInputs;
    forall j | 0 <= j < |inputs| ensures inputs[j] != [] && Text.IsTrimmed(inputs[j]) {
    }
    AnsweredAsTyped(inputs);
  }

  /** A successful generation from an idle session puts the rendered
      strategy on screen and makes it downloadable under the brand's name. */
  lemma GeneratedDocument(s: Session, st: StrategyData, generated: string)
    requires !s.loading
    ensures var g := Generation.Generate(s, Generation.Fetched(st)).session;
            && g.strategy == Some(st) && g.answers == s.answers && g.finished == s.finished
            && Document(g, generated) == Some(Render(s.answers, st, generated))
            && Download(g, generated).Some?
            && Download(g, generated).value.name == DownloadName(s.answers.brand)
  {
    Generation.GenerateIsAtomic(s, Generation.Fetched(st));
  }

  /** Then a successful generation gives a document whose metadata reads
      "Brand: Acme | Niche: Coffee", whose first section is the overview,
      and whose download is named Acme_Content_Strategy.txt. */
  lemma AcmeWalkthrough(s: Session, st: StrategyData, generated: string)
    requires !s.loading
    requires s.answers == Answers("Acme", "Coffee", "Urban professionals", "Instagram", "Awareness")
    ensures var g := Generation.Generate(s, Generation.Fetched(st)).session;
            && g.strategy == Some(st)
            && Document(g, generated).Some?
            && Document(g, generated).value[5] == "Brand: " + "Acme" + " | Niche: " + "Coffee"
            && Document(g, generated).value[9] == OverviewHeading
            && Download(g, generated).Some?
            && Download(g, generated).value.name == "Acme" + FileSuffix
  {
    GeneratedDocument(s, st, generated);
    var a := s.answers;
    var lines := Render(a, st, generated);
    RenderOpening(a, st, generated);
    RenderOverview(a, st, generated);
    assert lines[5] == "Brand: " + a.brand + " | Niche: " + a.niche;
    assert a.brand == "Acme" && a.niche == "Coffee";
    assert DownloadName(a.brand) == "Acme" + FileSuffix;
  }
}
