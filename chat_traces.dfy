/** Whole sessions: any sequence of the events `App` reacts to, applied one
    after the other, and what stays true along the way. */
module ChatTraces {
  import opened Js
  import opened Chat

  /** An event `App` reacts to. `Response` is the completion of the oldest
      or any other send still awaiting its outcome; the model does not need to
      know which, since the second half of `handleSend` reads nothing the
      first half left behind. */
  datatype Event =
    | GurusFetched(gurus: GurusOutcome)
    | CardClicked(guru: Persona)
    | Typed(text: string)
    | KeyPressed(key: string, shiftKey: bool)
    | SendClicked
    | Response(outcome: AskOutcome)

  /** The session after one event: the handler the page wires to it. A
      response while no send is awaiting cannot happen; it is ignored. Only a
      fetch or a card click touches the personas, only an ok response the
      conversation id, and no event removes a message. */
  function Step(s: Session, e: Event): (r: Session)
    ensures s.messages <= r.messages
    ensures !IsOkResponse(e) ==> r.conversationId == s.conversationId
    ensures !e.GurusFetched? && !e.CardClicked? ==>
      r.gurus == s.gurus && r.selectedGuru == s.selectedGuru
  {
    match e
    case GurusFetched(o) => AfterFetchGurus(s, o)
    case CardClicked(g) => AfterSelect(s, g)
    case Typed(text) => AfterInput(s, text)
    case KeyPressed(key, shiftKey) => AfterKeyDown(s, key, shiftKey).0
    case SendClicked => AfterClick(s).0
    case Response(o) => if s.inFlight > 0 then AfterComplete(s, o) else s
  }

  /** The session after all of `events`, in order. */
  function Run(s: Session, events: seq<Event>): Session
    decreases |events|
  {
    if events == [] then s else Run(Step(s, events[0]), events[1..])
  }

  /** Whether an event is an ok response. */
  predicate IsOkResponse(e: Event) {
    e.Response? && e.outcome.AskOk?
  }

  lemma StepKeepsConsistent(s: Session, e: Event)
    requires Consistent(s)
    ensures Consistent(Step(s, e))
  {
    match e
    case GurusFetched(o) => FetchKeepsConsistent(s, o);
    case CardClicked(g) =>
    case Typed(text) =>
    case KeyPressed(key, shiftKey) => SendKeepsConsistent(s);
    case SendClicked => SendKeepsConsistent(s);
    case Response(o) => if s.inFlight > 0 { CompleteKeepsConsistent(s, o); }
  }

  /** Every session reached from the initial state is consistent: `loading`
      is never set with nothing awaited, and the user messages outnumber the
      guru messages by exactly the sends still awaited. */
  lemma {:induction false} RunKeepsConsistent(s: Session, events: seq<Event>)
    requires Consistent(s)
    ensures Consistent(Run(s, events))
    decreases |events|
  {
    if events != [] {
      StepKeepsConsistent(s, events[0]);
      RunKeepsConsistent(Step(s, events[0]), events[1..]);
    }
  }

  /** With no send awaited, every user message has had its reply. */
  lemma {:induction false} IdleSessionsAreAnswered(events: seq<Event>)
    ensures var r := Run(InitialSession, events);
      r.inFlight == 0 ==> !r.loading && CountRole(r.messages, User) == CountRole(r.messages, Guru)
  {
    InitialConsistent();
    RunKeepsConsistent(InitialSession, events);
  }

  /** Messages are only ever appended: the messages before any events are a
      prefix of the messages after them. */
  lemma {:induction false} RunAppendsOnly(s: Session, events: seq<Event>)
    ensures s.messages <= Run(s, events).messages
    decreases |events|
  {
    if events != [] {
      RunAppendsOnly(Step(s, events[0]), events[1..]);
    }
  }

  /** Running two event sequences one after the other is running their
      concatenation. */
  lemma {:induction false} RunConcat(s: Session, a: seq<Event>, b: seq<Event>)
    ensures Run(s, a + b) == Run(Run(s, a), b)
    decreases |a|
  {
    if a == [] {
      assert a + b == b;
    } else {
      assert (a + b)[0] == a[0] && (a + b)[1..] == a[1..] + b;
      RunConcat(Step(s, a[0]), a[1..], b);
    }
  }

  /** The conversation id changes only through an ok response. */
  lemma {:induction false} ConversationIdOnlyFromOk(s: Session, events: seq<Event>)
    requires forall i :: 0 <= i < |events| ==> !IsOkResponse(events[i])
    ensures Run(s, events).conversationId == s.conversationId
    decreases |events|
  {
    if events != [] {
      assert !IsOkResponse(events[0]);
      ConversationIdOnlyFromOk(Step(s, events[0]), events[1..]);
    }
  }

  /** The persona list and the selection change only through a fetch or a
      card click, never through sending or a response. */
  lemma {:induction false} SelectionOnlyFromFetchOrClick(s: Session, events: seq<Event>)
    requires forall i :: 0 <= i < |events| ==> !events[i].GurusFetched? && !events[i].CardClicked?
    ensures Run(s, events).gurus == s.gurus && Run(s, events).selectedGuru == s.selectedGuru
    decreases |events|
  {
    if events != [] {
      assert !events[0].GurusFetched? && !events[0].CardClicked?;
      SelectionOnlyFromFetchOrClick(Step(s, events[0]), events[1..]);
    }
  }

  /** `loading` does not mean that exactly one request is pending: pressing
      Enter twice before the first reply posts two requests, and the first
      reply clears `loading` while the second is still awaited. */
  lemma OverlappingSendsClearLoadingEarly(s: Session, a: string, b: string, o: AskOutcome)
    requires s.selectedGuru.Some? && Trim(a) != [] && Trim(b) != []
    ensures var r := Run(s, [Typed(a), KeyPressed(EnterKey, false),
                             Typed(b), KeyPressed(EnterKey, false), Response(o)]);
      r.inFlight == s.inFlight + 1 && !r.loading &&
      r.messages == s.messages + [Message(User, Trim(a)), Message(User, Trim(b)), GuruReply(o)]
  {
    var enter := KeyPressed(EnterKey, false);
    var first, second, answer := [Typed(a), enter], [Typed(b), enter], [Response(o)];
    TypeThenEnter(s, a);
    var s2 := Run(s, first);
    TypeThenEnter(s2, b);
    var s4 := Run(s2, second);
    assert s4.messages == s.messages + [Message(User, Trim(a)), Message(User, Trim(b))];
    RunConcat(s, first, second);
    RunConcat(s, first + second, answer);
    assert first + second + answer == [Typed(a), enter, Typed(b), enter, Response(o)];
    assert Run(s4, answer) == Step(s4, Response(o)) by { assert answer[1..] == []; }
  }

  /** Typing a text that passes the guard and pressing Enter appends the
      trimmed text as a user message and starts one more send. */
  lemma TypeThenEnter(s: Session, t: string)
    requires s.selectedGuru.Some? && Trim(t) != []
    ensures var r := Run(s, [Typed(t), KeyPressed(EnterKey, false)]);
      r.messages == s.messages + [Message(User, Trim(t))] &&
      r.inFlight == s.inFlight + 1 && r.loading && r.selectedGuru == s.selectedGuru
  {
    var enter := KeyPressed(EnterKey, false);
    var typed := Step(s, Typed(t));
    assert CanSend(typed);
    assert Run(s, [Typed(t), enter]) == Run(typed, [enter]) by {
      assert [Typed(t), enter][1..] == [enter];
    }
    assert Run(typed, [enter]) == Step(typed, enter) by { assert [enter][1..] == []; }
  }
}
