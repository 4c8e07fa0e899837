/** `generateStrategy` of page.tsx, seen as two transitions of the session:
    pressing the generate button (disabled while a request is out), and the
    arrival of the response. The network call itself is not modelled: its
    result comes in as an Outcome, a parsed document or a failure (a non-ok
    status, a transport error or a body that is not JSON alike). */
module Generation {
  import opened Wrappers
  import opened Strategy
  import opened Wizard

  datatype Outcome = Fetched(data: StrategyData) | Failed

  /** The state after pressing the button, and the request body sent, if any */
  datatype Launch = Launch(session: Session, request: Option<Answers>)

  /** The state after the response is handled, and the alert shown, if any */
  datatype Settled = Settled(session: Session, notice: Option<string>)

  const FailureNotice := "Failed to generate strategy. Please check your API key."

  /** Pressing the generate button. The button is disabled while loading,
      so a second press before the response is ignored and sends nothing;
      otherwise loading starts and one request carrying the five answers
      goes out. Nothing else changes. */
  function Press(s: Session): (r: Launch)
    ensures s.loading ==> r.session == s && r.request == None
    ensures !s.loading ==> r.session == s.(loading := true) && r.request == Some(s.answers)
  {
    if s.loading then Launch(s, None) else Launch(s.(loading := true), Some(s.answers))
  }

  /** Handling the response. A document replaces the stored strategy
      wholesale; a failure leaves it as it was and raises exactly one alert.
      Either way loading ends, and the transcript, the answers and the
      wizard's progress are untouched. */
  function Complete(s: Session, o: Outcome): (r: Settled)
    ensures !r.session.loading
    ensures o.Fetched? ==> r.session.strategy == Some(o.data) && r.notice == None
    ensures o.Failed? ==> r.session.strategy == s.strategy && r.notice == Some(FailureNotice)
    ensures r.session.messages == s.messages && r.session.answers == s.answers
    ensures r.session.step == s.step && r.session.finished == s.finished && r.session.draft == s.draft
  {
    match o
    case Fetched(data) => Settled(s.(strategy := Some(data), loading := false), None)
    case Failed => Settled(s.(loading := false), Some(FailureNotice))
  }

  /** One whole generation seen from outside: press, then the response to
      the request, if one went out */
  function Generate(s: Session, o: Outcome): (r: Settled)
    ensures s.loading ==> r == Settled(s, None)
    ensures !r.session.loading || s.loading
    ensures r.notice.Some? ==> o.Failed? && r.notice == Some(FailureNotice)
  {
    var launch := Press(s);
    match launch.request
    case None => Settled(launch.session, None)
    case Some(_) => Complete(launch.session, o)
  }

  /** Generation is atomic: from an idle session it either replaces the
      stored document with the fetched one or leaves it exactly as it was;
      loading is off afterwards, and every other part of the session is as
      before, so a failed attempt can be retried without re-answering. */
  lemma GenerateIsAtomic(s: Session, o: Outcome)
    requires !s.loading
    ensures o.Fetched? ==> Generate(s, o).session == s.(strategy := Some(o.data))
    ensures o.Failed? ==> Generate(s, o).session == s
    ensures o.Failed? <==> Generate(s, o).notice.Some?
  {
  }

  /** At most one request is out at a time: pressing again before the
      response arrives sends nothing and changes nothing. */
  lemma NoSecondRequest(s: Session)
    requires !s.loading
    ensures Press(Press(s).session).request == None
    ensures Press(Press(s).session).session == Press(s).session
  {
  }

  /** The page shows the generate button only once the wizard has finished
      (the `isFinished` branch of the input area). Pressed there, on an idle
      session, it sends a request in which all five answers are filled. */
  lemma PressCarriesAllAnswers(s: Session)
    requires Inv(s) && s.finished && !s.loading
    ensures Press(s).request.Some?
    ensures forall k :: Get(Press(s).request.value, k) != ""
  {
    assert KeyAt(0) == Brand && KeyAt(1) == Niche && KeyAt(2) == Audience;
    assert KeyAt(3) == Platform && KeyAt(4) == Goal;
  }

  /** Neither the press nor the response disturbs the wizard's invariant. */
  lemma GenerationPreservesInv(s: Session, o: Outcome)
    requires Inv(s)
    ensures Inv(Press(s).session)
    ensures Inv(Complete(s, o).session)
  {
  }
}
