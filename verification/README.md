# AI Content Strategist: the chat wizard and the notepad document

A Dafny model of the page component `page.tsx` of the AI Content Strategist web app. The page
has two parts.

1. **A chat wizard.** It asks five fixed questions (brand, niche, audience, platform, goal) and
   stores the trimmed answers. Then it offers to generate a strategy.
2. **A notepad view.** It lays the generated strategy out as a plain-text document and offers it
   for copy and download.

Everything here is a pure function over immutable datatypes:

- `Wizard` holds the session state the page keeps in its `useState` hooks, the `steps` table and
  the transitions `Send` (`handleSend`), `Reset` (`resetChat`) and `Edit` (the text box's
  `onChange`). The delayed appends the page schedules with `setTimeout` happen at once, in the
  same transition.
- `Generation` splits `generateStrategy` into pressing the button (`Press`, disabled while
  loading) and handling the response (`Complete`). The response comes in as an `Outcome`:
  either a fetched document or a failure.
- `Notepad` renders the answers and a `StrategyData` (module `Strategy`) to a sequence of lines.
  Each line is one visual line of the notepad: the banner, the metadata, sections [1] to [5] and
  the footer. (An empty `div`, such as an empty overview, counts as an empty line, although the
  browser shows none for it.) It covers hashtag normalisation, the conditional BRANDED group, the upper-cased
  caption type and the footer's line-count estimate.
- `Export` holds the copy and download buttons, with the file name `<brand>_Content_Strategy.txt`.
- `Text` holds the string operations the page relies on, written out over `seq<char>`:
  - `trim`, with ECMAScript's white-space set;
  - `replace` with a one-character pattern (first occurrence only);
  - ASCII upper-casing and `repeat`;
  - printing a count in decimal.

  It also holds reference definitions that are not operations of the page: `JoinLines` joins a
  document's lines into a text file, and `Split`/`SplitLines` read a text back as pieces. They
  state what the export produces and what it should produce; the page itself never joins or
  splits a string.
- `Wrappers` holds `Option`.

The timestamp printed after "Generated:" depends on the clock and the locale, so it is a
parameter (`generated`) of the rendering.

## Model

| member | source | states |
|---|---|---|
| Wizard.Send | page.tsx:61-62 | A blank or whitespace-only text box changes nothing at all. No submission touches the loading flag or the stored strategy, and the step never passes the last row. |
| Wizard.SendTranscript | page.tsx:64-79 | A non-blank submission appends exactly two entries and keeps the earlier transcript. The first is the user's trimmed text. The second is the next row's question, or the fixed "Perfect! …" message on the last row. |
| Wizard.SendRecords | page.tsx:64-79 | The trimmed text is non-empty and is stored under the current row's key. Every other slot keeps its value and the text box is cleared. Below the last row the step goes up by exactly one. On the last row the step stays put and the wizard finishes. |
| Wizard.Put | page.tsx:66 | `{ ...prev, [key]: v }` writes the named slot and leaves the other four as they were. |
| Wizard.StepKeys | page.tsx:42-48 | Row i of the steps table asks for slot KeyAt(i): brand, niche, audience, platform, goal, in that order. |
| Wizard.KeysDistinct | page.tsx:42-48 | Different rows of the table fill different slots. |
| Wizard.InitialSatisfiesInv | page.tsx:25-55 | The freshly mounted page satisfies the wizard invariant: step in range, passed slots filled and trimmed, later slots empty. |
| Wizard.SendPreservesInv | page.tsx:61-80 | Every submission preserves the invariant. The step stays within the table, and each step writes exactly one slot, with trimmed text. |
| Wizard.FilledCountsSteps | page.tsx:28-37 | In every reachable state, the number of filled slots is the step index, plus one once the wizard has finished. |
| Wizard.Reset | page.tsx:104-113 | After a reset the transcript is the greeting followed by the first question. The step is 0, the wizard is unfinished, no strategy is stored and all five slots are empty. Loading and the text box are left as they were. |
| Wizard.ResetIsInitial | page.tsx:104-113 | From an idle session with an empty text box, a reset lands exactly on the mounted page. Resetting twice is resetting once, and a reset always satisfies the invariant. |
| Wizard.ChipNamesLastAnswer | page.tsx:401-405 | After a submission below the last row, the "<key> Captured" chip names the slot that submission just filled, and that slot is non-empty. |
| Wizard.SubmitAllProgress | page.tsx:69-78 | Submitting n non-blank inputs from step k moves the step on by one per input. The wizard finishes exactly when the last row has been answered. |
| Wizard.SubmitAllTranscript | page.tsx:65-76 | n non-blank submissions add 2n entries to the transcript and keep what was there before. |
| Wizard.SubmitAllEndsReady | page.tsx:74-78 | Answering the last remaining question leaves the ready message at the end of the transcript. |
| Wizard.SubmitAllSlot | page.tsx:64-66 | The j-th of the submitted inputs, trimmed, ends up in slot k + j. |
| Wizard.PassedSlotKept | page.tsx:66 | Later submissions never overwrite the slot of a row already passed. |
| Wizard.Edit | page.tsx:415 | Typing sets the text box to exactly what was typed. The transcript, step, answers, finished flag, loading flag and stored strategy are left as they were. |
| Wizard.CapturedChip | page.tsx:401-405 | The chip appears exactly once a step has been passed. It names the key of the row before the current one, from the steps table, followed by " Captured". |
| Wizard.SubmitAll | page.tsx:61-80 | Any sequence of submissions keeps the step within the table. It never starts or stops a generation and never touches the stored strategy. |
| Wizard.FiveSubmissionsFinish | page.tsx:42-80 | Five non-blank submissions from the first row finish the wizard on the last row, with the five trimmed inputs in the five slots, in order. |
| Wizard.FiveSubmissionsTranscript | page.tsx:25-80 | On the mounted page, five non-blank submissions leave 12 entries. The first is the greeting and the last is the ready message. |
| Wizard.AnsweredAsTyped | page.tsx:61-80 | Five inputs without surrounding white space are stored verbatim, and the wizard ends finished and idle. |
| Generation.Press | page.tsx:434-437 | While loading, the disabled button sends nothing and changes nothing. Otherwise loading starts and exactly one request, carrying the five answers, goes out. |
| Generation.Complete | page.tsx:82-101 | A fetched document replaces the stored strategy and raises no alert. A failure keeps the stored strategy and raises the API-key alert. Either way loading ends, and the transcript, answers, step, finished flag and text box are untouched. |
| Generation.Generate | page.tsx:82-101 | While loading, a whole generation does nothing and raises no alert. Otherwise loading is off afterwards. An alert appears only on failure, and it is the API-key alert. |
| Generation.GenerateIsAtomic | page.tsx:82-101 | From an idle session a whole generation either replaces the strategy with the fetched one, or leaves the session exactly as it was. An alert appears exactly on failure. |
| Generation.NoSecondRequest | page.tsx:434-437 | A second press before the response arrives sends no second request and changes nothing. |
| Generation.PressCarriesAllAnswers | page.tsx:409-446 | Where the page shows the generate button, after the wizard has finished and while idle, pressing it sends a request in which all five answers are filled. |
| Generation.GenerationPreservesInv | page.tsx:82-101 | Neither pressing nor the response disturbs the wizard invariant. |
| Text.Trim | page.tsx:62-64 | `trim()` gives the empty string exactly when the input is all white space, and its result neither starts nor ends with white space. |
| Text.TrimCutsWhitespace | page.tsx:64 | The trimmed text is one contiguous slice of the input, and only white space lies on either side of it. |
| Text.TrimmedIsFixed | page.tsx:64 | Text without surrounding white space trims to itself. |
| Text.TrimIdempotent | page.tsx:64 | Trimming twice is trimming once. |
| Text.RemoveFirst | page.tsx:311 | `replace('#', '')` leaves a text without '#' unchanged and otherwise removes exactly one character. It introduces no character that was not there. |
| Text.RemoveFirstAt | page.tsx:311 | The character removed is the first '#', wherever it stands, and the parts before and after it are kept in order. |
| Notepad.RenderTag | page.tsx:311 | Every rendered tag starts with '#'. A tag with no '#' gets one put in front. A tag with a '#' keeps its length, and no new characters appear. |
| Notepad.TagHashOptional | page.tsx:311 | A tag t with no '#' and the tag "#" + t render identically, as "#" + t. |
| Notepad.TagRenderIdempotent | page.tsx:311 | Rendering a rendered tag changes nothing. |
| Notepad.TagDropsInnerHash | page.tsx:311 | The '#' dropped is the first one anywhere in the tag, so "C#dev" renders as "#Cdev". |
| Notepad.TagLine | page.tsx:310-312 | A tag group renders to an empty line exactly when it has no tags, and otherwise starts with '#'. It holds no line feed when the tags hold none. |
| Notepad.TagLineIsConcat | page.tsx:310-312 | A tag line is every tag of the group, rendered and followed by one space, in order, and nothing else. |
| Notepad.TagLineSplits | page.tsx:310-312 | When no tag holds a space, splitting the line at its spaces gives the rendered tags back, in order, followed by one empty piece. |
| Notepad.RenderTags | page.tsx:310 | The rendered group has one entry per tag, and entry i is tag i rendered. |
| Notepad.HashtagLines | page.tsx:303-333 | Section [5] is its heading and divider, "BROAD REACH:" and the broad tag line, then "NICHE SPECIFIC:" and the niche tag line. "BRANDED:" and the branded tag line follow only when that group has tags. That makes 10 lines, or 12. |
| Notepad.HashtagBrandedIff | page.tsx:322-330 | Section [5] holds the BRANDED heading if and only if the branded group has tags. |
| Notepad.BrandedShownIffTags | page.tsx:230-342 | The whole document holds the BRANDED heading if and only if the branded group has tags, unless the overview or a caption body is itself "BRANDED:". |
| Notepad.CalendarLines | page.tsx:261-268 | The roadmap renders two lines per entry, in order: "day: theme", then "└─ Type: content type". |
| Notepad.IdeaLines | page.tsx:276-285 | The post ideas render three lines per idea, in order: the bulleted title, the quoted hook, and a blank line. |
| Notepad.CaptionLines | page.tsx:292-300 | The captions render three lines per caption, in order: the bracketed type, the content, and a blank line. |
| Text.ToUpperAscii | page.tsx:294 | Upper-casing keeps the length and maps each character through the ASCII a-z to A-Z map. |
| Text.UpperAsciiFacts | page.tsx:294 | An upper-cased caption type holds no lower-case ASCII letter and changes nothing else. Upper-casing twice is upper-casing once, and it adds no line feed. |
| Notepad.Render | page.tsx:230-342 | The document has 38 fixed lines, plus 2 per roadmap entry, 3 per post idea and 3 per caption, plus 2 more when the branded group has tags. |
| Notepad.RenderOpening | page.tsx:232-243 | The document opens with the three banner lines, then the timestamp line, "Brand: … \| Niche: …" and "Platform: … \| Goal: …". The audience is not shown. |
| Notepad.RenderOverview | page.tsx:249-253 | Section [1] comes right after the header, with the overview text under its heading. |
| Notepad.RenderClosing | page.tsx:335-341 | The document ends with the heavy divider, "END OF DOCUMENT", the count line and the heavy divider. |
| Notepad.FooterLine | page.tsx:338-340 | The count line starts with "Generated by AI Content Strategist \| Total Lines: ~" and has something after it. |
| Notepad.FooterCount | page.tsx:339 | The count line is the fixed prefix followed by decimal digits only, and those digits read back as roadmap entries + post ideas + 50. |
| Text.NatToDecimal | page.tsx:339 | A count prints as at least one decimal digit, with no leading zero. |
| Text.DecimalRoundTrip | page.tsx:339 | Reading a printed count back gives the count. |
| Text.Repeat | page.tsx:246 | `repeat(n)` gives n copies of the character. |
| Export.DownloadName | page.tsx:371 | The file name is the brand answer, verbatim, followed by "_Content_Strategy.txt". |
| Export.DownloadNameInjective | page.tsx:371 | Different brands give different file names. |
| Export.Document | page.tsx:165 | The notepad is shown exactly while a strategy is stored, and then has at least 38 lines. |
| Export.Download | page.tsx:363-374 | A file is offered exactly while a strategy is stored, named after the brand. Its lines are the document's lines whenever no shown text holds a line feed of its own. |
| Export.Copy | page.tsx:212-215 | The copy button hands over exactly the text the download would hold, and only while a strategy is stored. |
| Export.CopyAsWritten | page.tsx:212-215 | As written, the copy button has text to hand over exactly while a strategy is stored. That text is the bare concatenation of the document's lines, with nothing between them. |
| Export.CopyAsWrittenIsDownloadText | page.tsx:213 | As written, copy and download hand over the same text, the bare concatenation of the document's lines (through the content clauses of CopyAsWritten and DownloadAsWritten). That text is a single line whenever no shown text holds a line feed. |
| Export.DownloadAsWritten | page.tsx:364-373 | As written, the page offers a file named after the brand exactly while a strategy is stored. Its content is the bare concatenation of the document's lines: all of the text is there, and only the line breaks are lost. |
| Export.DownloadAsWrittenIsOneLine | page.tsx:365 | As written, the downloaded file is a single line, although the document it comes from has at least 38. |
| Export.RenderClean | page.tsx:230-342 | When no free text holds a line feed, no line of the document does. |
| Export.RenderSplitsBack | page.tsx:230-342 | Splitting the joined notepad text at its line feeds gives back the document, line for line. |
| Text.Split | page.tsx:365 | Splitting always gives at least one piece, and a text without the separator splits to itself alone. |
| Text.SplitAtFirst | page.tsx:365 | Splitting `a + c + b`, where a holds no c, gives a followed by the pieces of b. |
| Text.SplitJoin | page.tsx:365 | Joining lines with line feeds and splitting the result again gives the lines back, when no line holds a line feed. |
| Text.ConcatIsOneLine | page.tsx:365 | Concatenating lines with nothing between them leaves a single line. |
| Export.AcmeAnswered | page.tsx:61-80 | Answering "Acme", "Coffee", "Urban professionals", "Instagram" and "Awareness" finishes the wizard with exactly those answers. |
| Export.GeneratedDocument | page.tsx:82-101 | A successful generation from an idle session puts the rendered strategy on screen, keeps the answers and progress, and makes the document downloadable under the brand's name. |
| Export.AcmeWalkthrough | page.tsx:240 | With the Acme answers, a successful generation shows a document. Its metadata line is "Brand: Acme \| Niche: Coffee", its first section heading is "[1] STRATEGY OVERVIEW" and its download is named "Acme_Content_Strategy.txt". |

## Left out

- The request to `/api/generate`, JSON parsing, `alert` and `console.error` (page.tsx:85-95) are not modelled. They are a network and foreign boundary. The response is an abstract `Outcome`, and the alert is the `notice` text of `Complete`.
- The `setTimeout` pacing (page.tsx:50-55, 70-78, 98-100, 110-112) is not modelled: delayed appends happen immediately. Any races that depend on timer ordering therefore do not appear in this model. The source has them:
  - a second submission before a pending question arrives;
  - a reset while a question is still pending.
- `scrollIntoView` (page.tsx:57-59, 98-100) is left out. It only moves the viewport.
- The clipboard write and the Blob, object-URL and anchor-click mechanics (page.tsx:212-215, 364-373) are left out. They are DOM side effects. What is modelled is the text and the file name they are handed: as written (`CopyAsWritten`, `DownloadAsWritten`) and as evidently intended (`Copy`, `Download`).
- A success response that is JSON of another shape is outside the model: `Fetched` carries a well-typed `StrategyData`. The page stores whatever JSON it receives (page.tsx:91-92). A missing field then throws while the notepad renders (the `.map` calls at page.tsx:261, 276, 292 and 310, `.length` at 322, `.toUpperCase` at 294).
- `new Date().toLocaleString()` (page.tsx:237) depends on the clock and the locale. It is the `generated` parameter of the rendering.
- Text.ToUpperAscii: upper-cases ASCII letters only. JavaScript's `toUpperCase` also maps other scripts and can lengthen a string (ß to SS); the model does not cover this.
- Text.IsWhitespace: is the ECMAScript white-space set written out by code point. The Unicode data behind the Zs category is not part of this model.
- The CSS, the static markup (sidebar, header, icons, menus, status bar), the line-number gutter and the whole of `layout.tsx` are left out. They render nothing the logic depends on.
- `cost_optimization` and `reusable_prompts` are carried in `StrategyData` but never rendered, as in the source.
- The "Market Update" and "Top Gainers" chips and the attachment and voice buttons are left out. They have no behaviour.
- Behaviour of the code worth knowing:
  - On the last row the step index stays 4, so with five answers filled the number of filled slots is the step plus one (Wizard.FilledCountsSteps).
  - `resetChat` leaves the loading flag and the text box alone.
  - `replace('#', '')` drops the first '#' anywhere in a tag, not only a leading one (Notepad.TagDropsInnerHash). So "##x" renders with two leading '#'.
  - The metadata echoes four of the five answers: the audience is not shown.
  - The roadmap renders however many entries the response holds; nothing enforces 30.
  - After the fifth answer the step stays on the last row, so the chip still reads "platform Captured" (page.tsx:403).
- Wizard.Send and Generation.Press: do not check the wizard's finished flag. The page enforces this only by what it shows: the text box and Send button while `!isFinished`, and the generate button once `isFinished` (page.tsx:409-446). So `Send` on a finished session, or `Press` on an unfinished one, is a transition the page's markup never offers. Generation.PressCarriesAllAnswers states what the shown button sends.

## Findings

| source | as written | input that shows it | evidently intended | confidence | as-written member | corrected member |
|---|---|---|---|---|---|---|
| page.tsx:365 | The download (and the copy button at page.tsx:213) takes the notepad element's `textContent`. That is the bare concatenation of its text nodes: the `div` and `<br />` boundaries contribute no characters, so every line break of the document is lost. | Any stored strategy whose text holds no line feed: the downloaded file is a single line, although the document has at least 38. | A text file with one line per line of the notepad document. | high (not executed) | Export.DownloadAsWritten, Export.DownloadAsWrittenIsOneLine, Export.CopyAsWritten, Export.CopyAsWrittenIsDownloadText | Export.Download, Export.Copy, Export.RenderSplitsBack |
