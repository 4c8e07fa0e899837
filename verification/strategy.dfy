/** The structured document the generation endpoint returns (the
    `StrategyData` type of page.tsx), with each `any[]` element given the
    fields the page reads from it. */
module Strategy {

  /** One roadmap entry: its day label, its theme and its content type */
  datatype CalendarEntry = CalendarEntry(day: string, theme: string, contentType: string)

  datatype PostIdea = PostIdea(title: string, hook: string)

  /** A ready-to-use caption: its type tag (shown upper-cased) and its body */
  datatype Caption = Caption(kind: string, content: string)

  /** The three hashtag groups; `branded` may be empty */
  datatype HashtagPlan = HashtagPlan(broad: seq<string>, niche: seq<string>, branded: seq<string>)

  /** The strategy document. The cost notes and reusable prompts are carried
      through but never rendered. */
  datatype StrategyData = StrategyData(
    overview: string,
    calendar: seq<CalendarEntry>,
    ideas: seq<PostIdea>,
    captions: seq<Caption>,
    hashtags: HashtagPlan,
    costOptimization: seq<string>,
    reusablePrompts: seq<string>)
}
