/** The chat wizard of page.tsx: the fixed question table, the session state
    kept in the page's `useState` hooks, and the two user actions that drive
    it, submitting the text box (`handleSend`) and restarting (`resetChat`).
    The page delays the follow-up messages with `setTimeout`; here they are
    appended at once, in the same transition. */
module Wizard {
  import opened Wrappers
  import opened Strategy
  import Text

  /** One transcript entry */
  datatype Message = Message(text: string, isUser: bool)

  /** The five answer slots, in the order they are asked */
  datatype Key = Brand | Niche | Audience | Platform | Goal

  /** The key as the page spells it (also the field name of the request body) */
  function KeyName(k: Key): string {
    match k
    case Brand => "brand"
    case Niche => "niche"
    case Audience => "audience"
    case Platform => "platform"
    case Goal => "goal"
  }

  datatype Answers = Answers(brand: string, niche: string, audience: string, platform: string, goal: string)

  const NoAnswers := Answers("", "", "", "", "")

  function Get(a: Answers, k: Key): string {
    match k
    case Brand => a.brand
    case Niche => a.niche
    case Audience => a.audience
    case Platform => a.platform
    case Goal => a.goal
  }

  /** `{ ...prev, [key]: v }`: writes one slot and no other */
  function Put(a: Answers, k: Key, v: string): (r: Answers)
    ensures Get(r, k) == v
    ensures forall k' :: k' != k ==> Get(r, k') == Get(a, k')
  {
    match k
    case Brand => a.(brand := v)
    case Niche => a.(niche := v)
    case Audience => a.(audience := v)
    case Platform => a.(platform := v)
    case Goal => a.(goal := v)
  }

  /** One row of the `steps` table */
  datatype Question = Question(key: Key, question: string, icon: string)

  const Steps: seq<Question> := [
    Question(Brand, "What's your brand name?", "campaign"),
    Question(Niche, "What niche are you in?", "category"),
    Question(Audience, "Who is your target audience?", "groups"),
    Question(Platform, "Which platform are we focusing on?", "share"),
    Question(Goal, "What is your primary goal?", "flag")
  ]

  const LastStep: nat := |Steps| - 1

  /** The slot row i of Steps fills, spelled out by row (StepKeys shows it
      agrees with the table). The proofs use it instead of `Steps[i].key`
      because indexing the literal table is far more costly for the
      verifier. */
  function KeyAt(i: nat): Key
    requires i <= LastStep
  {
    if i == 0 then Brand else if i == 1 then Niche else if i == 2 then Audience
    else if i == 3 then Platform else Goal
  }

  lemma StepKeys(i: nat)
    requires i < |Steps|
    ensures Steps[i].key == KeyAt(i)
  {
  }

  const Greeting := "Hello! I'm your AI Content Strategist. Let's build your social media roadmap. \U{1F680}"

  const ReadyMessage := "Perfect! I have all the details. Ready to generate your strategy?"

  /** The transcript's last entry is the ready message */
  predicate EndsReady(messages: seq<Message>) {
    |messages| > 0 && messages[|messages| - 1] == Message(ReadyMessage, false)
  }

  /** Everything the page keeps in state: the transcript, the step index,
      the answers, the text box contents, the finished and loading flags and
      the stored strategy (`null` is None). */
  datatype Session = Session(
    messages: seq<Message>,
    step: nat,
    answers: Answers,
    draft: string,
    finished: bool,
    loading: bool,
    strategy: Option<StrategyData>)

  /** The page once it has mounted: the greeting, then the first question
      appended by the mount effect. */
  const Initial := Session([Message(Greeting, false), Message(Steps[0].question, false)],
                           0, NoAnswers, "", false, false, None)

  /** What every reachable session satisfies: the step is a row of the table;
      the slots of the steps already passed hold a trimmed, non-empty
      answer, the slots still ahead are empty, and the current step's slot
      is filled exactly when the wizard has finished, which happens only on
      the last step. */
  ghost predicate Inv(s: Session) {
    && s.step <= LastStep
    && (s.finished ==> s.step == LastStep)
    && (forall i :: 0 <= i < |Steps| ==>
          (Get(s.answers, KeyAt(i)) != "" <==> i < s.step || (i == s.step && s.finished)))
    && (forall i :: 0 <= i < |Steps| ==> Text.IsTrimmed(Get(s.answers, KeyAt(i))))
  }

  /** The text box's `onChange` */
  function Edit(s: Session, text: string): (r: Session)
    ensures r.draft == text
    ensures r.messages == s.messages && r.step == s.step && r.answers == s.answers
    ensures r.finished == s.finished && r.loading == s.loading && r.strategy == s.strategy
  {
    s.(draft := text)
  }

  /** `handleSend`. A blank text box changes nothing; whatever is sent, a
      generation in flight and a stored strategy are left alone. What a
      non-blank send does is stated by SendTranscript and SendRecords. */
  function Send(s: Session): (r: Session)
    requires s.step <= LastStep
    ensures Text.AllWhitespace(s.draft) ==> r == s
    ensures r.loading == s.loading && r.strategy == s.strategy
    ensures r.step <= LastStep
  {
    var value := Text.Trim(s.draft);
    if value == "" then s
    else
      var recorded := s.(messages := s.messages + [Message(value, true)],
                         answers := Put(s.answers, KeyAt(s.step), value),
                         draft := "");
      if s.step < LastStep then
        recorded.(messages := recorded.messages + [Message(Steps[s.step + 1].question, false)],
                  step := s.step + 1)
      else
        recorded.(messages := recorded.messages + [Message(ReadyMessage, false)],
                  finished := true)
  }

  /** A non-blank send echoes the trimmed text as a user entry and then
      either asks the next question or, on the last step, shows the ready
      message; nothing earlier in the transcript changes. */
  lemma SendTranscript(s: Session)
    requires s.step <= LastStep && !Text.AllWhitespace(s.draft)
    ensures var r := Send(s);
            var n := |s.messages|;
            && |r.messages| == n + 2
            && r.messages[..n] == s.messages
            && r.messages[n] == Message(Text.Trim(s.draft), true)
            && (s.step < LastStep ==> r.messages[n + 1] == Message(Steps[s.step + 1].question, false))
            && (s.step == LastStep ==> r.messages[n + 1] == Message(ReadyMessage, false))
  {
  }

  /** A non-blank send stores the trimmed, non-empty text under the current
      step's key and nowhere else, clears the text box, and either advances
      the step by one or, on the last step, finishes the wizard in place. */
  lemma SendRecords(s: Session)
    requires s.step <= LastStep && !Text.AllWhitespace(s.draft)
    ensures var r := Send(s);
            && Text.Trim(s.draft) != ""
            && Get(r.answers, KeyAt(s.step)) == Text.Trim(s.draft)
            && (forall k :: k != KeyAt(s.step) ==> Get(r.answers, k) == Get(s.answers, k))
            && r.draft == ""
            && (s.step < LastStep ==> r.step == s.step + 1 && r.finished == s.finished)
            && (s.step == LastStep ==> r.step == s.step && r.finished)
  {
  }

  /** `resetChat`: the transcript goes back to the greeting followed by the
      first question, the step to 0, the answers to empty, the stored
      strategy to none and the wizard to unfinished. The loading flag and the
      text box are not touched by the source. */
  function Reset(s: Session): (r: Session)
    ensures r.messages == [Message(Greeting, false), Message(Steps[0].question, false)]
    ensures r.step == 0 && !r.finished && r.strategy == None
    ensures forall k :: Get(r.answers, k) == ""
    ensures r.loading == s.loading && r.draft == s.draft
  {
    Initial.(loading := s.loading, draft := s.draft)
  }

  /** The "<key> Captured" chip above the text box, shown once a step is passed */
  function CapturedChip(s: Session): (r: Option<string>)
    requires s.step <= LastStep
    ensures r.Some? <==> s.step > 0
    ensures s.step > 0 ==> r == Some(KeyName(Steps[s.step - 1].key) + " Captured")
  {
    if s.step > 0 then Some(KeyName(KeyAt(s.step - 1)) + " Captured") else None
  }

  lemma InitialSatisfiesInv()
    ensures Inv(Initial)
  {
  }

  /** Reset lands on the mounted page, whatever the session was, as long as
      no generation is running and the text box is empty; doing it twice is
      doing it once. */
  lemma ResetIsInitial(s: Session)
    ensures !s.loading && s.draft == "" ==> Reset(s) == Initial
    ensures Reset(Reset(s)) == Reset(s)
    ensures Inv(Reset(s))
  {
  }

  /** Submitting preserves the invariant: in particular the step never
      passes the last row and exactly one slot is written per step. */
  lemma SendPreservesInv(s: Session)
    requires Inv(s)
    ensures Inv(Send(s))
  {
    var r := Send(s);
    if !Text.AllWhitespace(s.draft) {
      SendRecords(s);
      forall i | 0 <= i < |Steps|
        ensures Text.IsTrimmed(Get(r.answers, KeyAt(i)))
      {
        if i != s.step { KeysDistinct(i, s.step); }
      }
      forall i | 0 <= i < |Steps|
        ensures Get(r.answers, KeyAt(i)) != "" <==> i < r.step || (i == r.step && r.finished)
      {
        if i != s.step { KeysDistinct(i, s.step); }
      }
    }
  }

  /** After a real submission on a step before the last, the chip names the
      slot that submission just filled. */
  lemma ChipNamesLastAnswer(s: Session)
    requires Inv(s) && !s.finished && s.step < LastStep
    requires !Text.AllWhitespace(s.draft)
    ensures CapturedChip(Send(s)) == Some(KeyName(KeyAt(s.step)) + " Captured")
    ensures Get(Send(s).answers, KeyAt(s.step)) != ""
  {
    SendRecords(s);
  }

  /** How many of the five slots are filled */
  function Filled(a: Answers): (n: nat)
    ensures n <= 5
  {
    (if a.brand != "" then 1 else 0) + (if a.niche != "" then 1 else 0)
    + (if a.audience != "" then 1 else 0) + (if a.platform != "" then 1 else 0)
    + (if a.goal != "" then 1 else 0)
  }

  /** The filled slots count the steps passed, plus one once finished: the
      step index stops at the last row rather than moving past it. */
  lemma FilledCountsSteps(s: Session)
    requires Inv(s)
    ensures Filled(s.answers) == s.step + (if s.finished then 1 else 0)
  {
    assert KeyAt(0) == Brand && KeyAt(1) == Niche && KeyAt(2) == Audience;
    assert KeyAt(3) == Platform && KeyAt(4) == Goal;
  }

  /** None of the inputs is blank */
  predicate NonBlank(inputs: seq<string>) {
    forall j :: 0 <= j < |inputs| ==> !Text.AllWhitespace(inputs[j])
  }

  lemma NonBlankTail(inputs: seq<string>)
    requires |inputs| > 0 && NonBlank(inputs)
    ensures !Text.AllWhitespace(inputs[0]) && NonBlank(inputs[1..])
  {
    forall k | 0 <= k < |inputs| - 1 ensures !Text.AllWhitespace(inputs[1..][k]) {
      assert inputs[1..][k] == inputs[k + 1];
    }
  }

  /** Typing each input into the text box and submitting it, in turn */
  function SubmitAll(s: Session, inputs: seq<string>): (r: Session)
    requires s.step <= LastStep
    ensures r.step <= LastStep
    ensures r.loading == s.loading && r.strategy == s.strategy
    decreases |inputs|
  {
    if |inputs| == 0 then s
    else SubmitAll(Send(Edit(s, inputs[0])), inputs[1..])
  }

  /** One non-blank submission on an unfinished wizard moves the step on,
      or finishes on the last step, ... */
  lemma SendMovesOn(s: Session, x: string)
    requires s.step <= LastStep && !s.finished && !Text.AllWhitespace(x)
    ensures var t := Send(Edit(s, x));
            && (s.step < LastStep ==> t.step == s.step + 1 && !t.finished)
            && (s.step == LastStep ==> t.step == LastStep && t.finished)
  {
    SendRecords(Edit(s, x));
  }

  /** ... fills the current slot with the trimmed input, ... */
  lemma SendFills(s: Session, x: string)
    requires s.step <= LastStep && !Text.AllWhitespace(x)
    ensures Get(Send(Edit(s, x)).answers, KeyAt(s.step)) == Text.Trim(x)
  {
    SendRecords(Edit(s, x));
  }

  /** ... adds two entries after the existing transcript, ... */
  lemma SendGrows(s: Session, x: string)
    requires s.step <= LastStep && !Text.AllWhitespace(x)
    ensures var t := Send(Edit(s, x));
            && |t.messages| == |s.messages| + 2
            && t.messages[..|s.messages|] == s.messages
  {
    SendTranscript(Edit(s, x));
  }

  /** ... the last of them the ready message when it finishes. */
  lemma SendEndsReady(s: Session, x: string)
    requires s.step == LastStep && !Text.AllWhitespace(x)
    ensures EndsReady(Send(Edit(s, x)).messages)
  {
    SendTranscript(Edit(s, x));
  }

  /** Submitting non-blank inputs from step k on an unfinished wizard moves
      the step on by one per input, finishing exactly when the last row is
      answered, and adds two entries per input to the transcript. */
  lemma {:induction false} SubmitAllProgress(s: Session, inputs: seq<string>)
    requires s.step <= LastStep && !s.finished
    requires 0 < |inputs| <= |Steps| - s.step
    requires NonBlank(inputs)
    ensures var r := SubmitAll(s, inputs);
            && (s.step + |inputs| == |Steps| ==> r.finished && r.step == LastStep)
            && (s.step + |inputs| < |Steps| ==> !r.finished && r.step == s.step + |inputs|)
    decreases |inputs|
  {
    NonBlankTail(inputs);
    var t := Send(Edit(s, inputs[0]));
    SendMovesOn(s, inputs[0]);
    assert SubmitAll(s, inputs) == SubmitAll(t, inputs[1..]);
    if |inputs| > 1 {
      SubmitAllProgress(t, inputs[1..]);
    }
  }

  lemma {:induction false} SubmitAllTranscript(s: Session, inputs: seq<string>)
    requires s.step <= LastStep && !s.finished
    requires 0 < |inputs| <= |Steps| - s.step
    requires NonBlank(inputs)
    ensures var r := SubmitAll(s, inputs);
            && |r.messages| == |s.messages| + 2 * |inputs|
            && r.messages[..|s.messages|] == s.messages
    decreases |inputs|
  {
    NonBlankTail(inputs);
    var t := Send(Edit(s, inputs[0]));
    SendGrows(s, inputs[0]);
    assert SubmitAll(s, inputs) == SubmitAll(t, inputs[1..]);
    if |inputs| > 1 {
      SubmitAllTranscript(t, inputs[1..]);
      var r := SubmitAll(t, inputs[1..]);
      assert r.messages[..|s.messages|] == r.messages[..|t.messages|][..|s.messages|];
    }
  }

  /** Answering the last remaining question leaves the ready message at
      the end of the transcript. */
  lemma {:induction false} SubmitAllEndsReady(s: Session, inputs: seq<string>)
    requires s.step <= LastStep && !s.finished
    requires 0 < |inputs| == |Steps| - s.step
    requires NonBlank(inputs)
    ensures EndsReady(SubmitAll(s, inputs).messages)
    decreases |inputs|
  {
    NonBlankTail(inputs);
    var t := Send(Edit(s, inputs[0]));
    assert SubmitAll(s, inputs) == SubmitAll(t, inputs[1..]);
    if |inputs| > 1 {
      SendMovesOn(s, inputs[0]);
      SubmitAllEndsReady(t, inputs[1..]);
    } else {
      SendEndsReady(s, inputs[0]);
    }
  }

  /** Submitting non-blank inputs from step k on an unfinished wizard puts
      the first input, trimmed, in slot k, and later inputs leave it there. */
  lemma SubmitAllFirstSlot(s: Session, inputs: seq<string>)
    requires s.step <= LastStep && !s.finished
    requires 0 < |inputs| <= |Steps| - s.step
    requires NonBlank(inputs)
    ensures Get(SubmitAll(s, inputs).answers, KeyAt(s.step)) == Text.Trim(inputs[0])
  {
    NonBlankTail(inputs);
    var t := Send(Edit(s, inputs[0]));
    SendFills(s, inputs[0]);
    assert SubmitAll(s, inputs) == SubmitAll(t, inputs[1..]);
    if |inputs| > 1 {
      SendMovesOn(s, inputs[0]);
      PassedSlotKept(t, inputs[1..], s.step);
    }
  }

  /** ... and the j-th input, trimmed, in slot k + j. */
  lemma {:induction false} SubmitAllSlot(s: Session, inputs: seq<string>, j: nat)
    requires s.step <= LastStep && !s.finished
    requires j < |inputs| <= |Steps| - s.step
    requires NonBlank(inputs)
    ensures Get(SubmitAll(s, inputs).answers, KeyAt(s.step + j)) == Text.Trim(inputs[j])
    decreases j, 1
  {
    if j == 0 {
      SubmitAllFirstSlot(s, inputs);
    } else {
      SubmitAllLaterSlot(s, inputs, j);
    }
  }

  /** The inductive step: after the first submission the j-th input is the
      (j - 1)-th of the rest, and the step has moved on by one. */
  lemma {:induction false} SubmitAllLaterSlot(s: Session, inputs: seq<string>, j: nat)
    requires s.step <= LastStep && !s.finished
    requires 0 < j < |inputs| <= |Steps| - s.step
    requires NonBlank(inputs)
    ensures Get(SubmitAll(s, inputs).answers, KeyAt(s.step + j)) == Text.Trim(inputs[j])
    decreases j, 0
  {
    NonBlankTail(inputs);
    var t := Send(Edit(s, inputs[0]));
    SendMovesOn(s, inputs[0]);
    assert SubmitAll(s, inputs) == SubmitAll(t, inputs[1..]);
    assert inputs[1..][j - 1] == inputs[j];
    assert t.step + (j - 1) == s.step + j;
    SubmitAllSlot(t, inputs[1..], j - 1);
    var r := SubmitAll(t, inputs[1..]);
    assert Get(r.answers, KeyAt(s.step + j)) == Text.Trim(inputs[j]);
  }

  /** Five non-blank submissions from the first step finish the wizard with
      the five trimmed inputs in the five slots, in order, whatever the
      slots held before. */
  lemma FiveSubmissionsFinish(s: Session, inputs: seq<string>)
    requires s.step == 0 && !s.finished
    requires |inputs| == |Steps|
    requires NonBlank(inputs)
    ensures var r := SubmitAll(s, inputs);
            && r.finished && r.step == LastStep
            && forall j :: 0 <= j < |Steps| ==> Get(r.answers, KeyAt(j)) == Text.Trim(inputs[j])
  {
    SubmitAllProgress(s, inputs);
    forall j | 0 <= j < |Steps|
      ensures Get(SubmitAll(s, inputs).answers, KeyAt(j)) == Text.Trim(inputs[j])
    {
      SubmitAllSlot(s, inputs, j);
    }
  }

  /** Answers are determined by their five slots. */
  lemma SlotsDetermineAnswers(a: Answers, values: seq<string>)
    requires |values| == |Steps|
    requires forall j :: 0 <= j < |Steps| ==> Get(a, KeyAt(j)) == values[j]
    ensures a == Answers(values[0], values[1], values[2], values[3], values[4])
  {
    assert Get(a, KeyAt(0)) == values[0] && Get(a, KeyAt(1)) == values[1];
    assert Get(a, KeyAt(2)) == values[2] && Get(a, KeyAt(3)) == values[3];
    assert Get(a, KeyAt(4)) == values[4];
  }

  /** The transcript they leave on the freshly mounted page: the greeting,
      then five question/answer pairs, then the ready message. */
  lemma FiveSubmissionsTranscript(inputs: seq<string>)
    requires |inputs| == |Steps|
    requires NonBlank(inputs)
    ensures var r := SubmitAll(Initial, inputs);
            && |r.messages| == 12
            && r.messages[0] == Message(Greeting, false)
            && r.messages[11] == Message(ReadyMessage, false)
  {
    SubmitAllTranscript(Initial, inputs);
    SubmitAllEndsReady(Initial, inputs);
    var r := SubmitAll(Initial, inputs);
    assert r.messages[..2][0] == Message(Greeting, false);
  }

  /** Inputs typed without surrounding whitespace are stored verbatim: five
      of them finish the wizard with exactly those answers. */
  lemma AnsweredAsTyped(inputs: seq<string>)
    requires |inputs| == |Steps|
    requires forall j :: 0 <= j < |inputs| ==> inputs[j] != [] && Text.IsTrimmed(inputs[j])
    ensures var r := SubmitAll(Initial, inputs);
            && r.finished && !r.loading
            && r.answers == Answers(inputs[0], inputs[1], inputs[2], inputs[3], inputs[4])
  {
    forall j | 0 <= j < |inputs| ensures !Text.AllWhitespace(inputs[j]) && Text.Trim(inputs[j]) == inputs[j] {
      Text.TrimmedIsFixed(inputs[j]);
    }
    FiveSubmissionsFinish(Initial, inputs);
    SlotsDetermineAnswers(SubmitAll(Initial, inputs).answers, inputs);
  }

  /** The rows of the table ask for five different slots. */
  lemma KeysDistinct(i: nat, j: nat)
    requires i < |Steps| && j < |Steps| && i != j
    ensures KeyAt(i) != KeyAt(j)
  {
  }

  /** Later submissions never overwrite the slot of a step already passed. */
  lemma {:induction false} PassedSlotKept(s: Session, inputs: seq<string>, i: nat)
    requires s.step <= LastStep && i < s.step
    ensures Get(SubmitAll(s, inputs).answers, KeyAt(i)) == Get(s.answers, KeyAt(i))
    decreases |inputs|
  {
    if |inputs| > 0 {
      var s0 := Edit(s, inputs[0]);
      var t := Send(s0);
      if !Text.AllWhitespace(s0.draft) {
        SendRecords(s0);
      }
      KeysDistinct(i, s.step);
      assert t.step >= s.step;
      assert Get(t.answers, KeyAt(i)) == Get(s.answers, KeyAt(i));
      PassedSlotKept(t, inputs[1..], i);
      assert SubmitAll(s, inputs) == SubmitAll(t, inputs[1..]);
    }
  }
}
