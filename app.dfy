/** The `App` component's session controller: six state cells that its
    handlers overwrite one at a time, as `useState` setters do. The network
    is not here: each method that would wait on it is split at the wait, and
    what the server answered arrives as an outcome value. */
module AppSession {
  import opened Js
  import opened Chat

  class App {
    var gurus: seq<Persona>
    var selectedGuru: Option<Persona>
    var messages: seq<Message>
    var input: string
    var loading: bool
    var conversationId: Option<string>
    /** Sends started by `HandleSend` whose `CompleteSend` has not run yet. */
    ghost var inFlight: nat

    /** The cells as one session value. */
    ghost function State(): Session
      reads this
    {
      Session(gurus, selectedGuru, messages, input, loading, conversationId, inFlight)
    }

    ghost predicate Valid()
      reads this
    {
      Consistent(State())
    }

    /** The `useState` initial values. */
    constructor ()
      ensures Valid() && State() == InitialSession
    {
      gurus := [];
      selectedGuru := None;
      messages := [];
      input := "";
      loading := false;
      conversationId := None;
      inFlight := 0;
    }

    /** The body of `fetchGurus` once the fetch has ended with `outcome`. */
    method FetchGurus(outcome: GurusOutcome)
      requires Valid()
      modifies this
      ensures Valid() && State() == AfterFetchGurus(old(State()), outcome)
    {
      match outcome {
        case GurusLoaded(list) =>
          var fetched := if list.Some? then list.value else [];
          gurus := fetched;
          if |fetched| > 0 {
            selectedGuru := Some(fetched[0]);
          }
        case GurusThrew =>
          gurus := FallbackGurus;
          selectedGuru := Some(FallbackSelection);
      }
    }

    /** A card's `onSelect`. */
    method SetSelectedGuru(guru: Persona)
      requires Valid()
      modifies this
      ensures Valid() && State() == AfterSelect(old(State()), guru)
    {
      selectedGuru := Some(guru);
    }

    /** The text area's `onChange`. */
    method SetInput(text: string)
      requires Valid()
      modifies this
      ensures Valid() && State() == AfterInput(old(State()), text)
    {
      input := text;
    }

    /** `handleSend` up to the request it posts: nothing when the guard
      fails, otherwise the user message, the cleared input, `loading` and
      the request body. */
    method HandleSend() returns (request: Option<AskRequest>)
      requires Valid()
      modifies this
      ensures Valid() && (State(), request) == AfterSend(old(State()))
    {
      ghost var before := State();
      SendKeepsConsistent(before);
      var trimmed := Trim(input);
      if trimmed == [] || selectedGuru.None? {
        return None;
      }
      var userMsg := Message(User, trimmed);
      messages := messages + [userMsg];
      input := "";
      loading := true;
      inFlight := inFlight + 1;
      request := Some(AskRequest(conversationId, GuruKey(selectedGuru.value), trimmed));
    }

    /** `handleSend` after the request has ended with `outcome`: the branch
      of the `try`, then the `finally`. */
    method CompleteSend(outcome: AskOutcome)
      requires Valid() && inFlight > 0
      modifies this
      ensures Valid() && State() == AfterComplete(old(State()), outcome)
    {
      ghost var before := State();
      CompleteKeepsConsistent(before, outcome);
      match outcome {
        case AskOk(id, reply) =>
          conversationId := id;
          messages := messages + [Message(Guru, reply)];
        case AskNotOk(detail) =>
          messages := messages + [Message(Guru, ErrorPrefix + OrString(detail, UnknownError))];
        case AskThrew =>
          messages := messages + [Message(Guru, UnreachableReply)];
      }
      loading := false;
      inFlight := inFlight - 1;
    }

    /** `handleKeyDown`: Enter without Shift calls `handleSend`. */
    method HandleKeyDown(key: string, shiftKey: bool) returns (request: Option<AskRequest>)
      requires Valid()
      modifies this
      ensures Valid() && (State(), request) == AfterKeyDown(old(State()), key, shiftKey)
    {
      if key == EnterKey && !shiftKey {
        request := HandleSend();
      } else {
        request := None;
      }
    }

    /** A click on the Send button, which is `disabled` while loading or
      while the input is blank; a disabled button delivers no click. */
    method ClickSend() returns (request: Option<AskRequest>)
      requires Valid()
      modifies this
      ensures Valid() && (State(), request) == AfterClick(old(State()))
    {
      if SendEnabled(loading, input) {
        request := HandleSend();
      } else {
        request := None;
      }
    }
  }

  /** A client of `App`: a fetched persona, a question and its outcome. */
  method AskOnce(guru: Persona, question: string, outcome: AskOutcome)
    requires Trim(question) != []
  {
    var app := new App();
    app.FetchGurus(GurusLoaded(Some([guru])));
    assert app.selectedGuru == Some(guru);
    app.SetInput(question);
    var request := app.HandleSend();
    assert request == Some(AskRequest(None, GuruKey(guru), Trim(question)));
    assert app.loading && app.messages == [Message(User, Trim(question))];
    app.CompleteSend(outcome);
    assert app.messages == [Message(User, Trim(question)), GuruReply(outcome)];
    assert !app.loading && app.input == "";
    assert outcome.AskOk? ==> app.conversationId == outcome.conversationId;
    assert !outcome.AskOk? ==> app.conversationId == None;
  }

  /** A client of `App` that presses Enter twice before the first outcome:
      both requests are posted, and the first outcome clears `loading` while
      the second request is still awaited. */
  method EnterTwice(question: string, followUp: string, outcome: AskOutcome)
    requires Trim(question) != [] && Trim(followUp) != []
  {
    var app := new App();
    app.FetchGurus(GurusThrew);
    app.SetInput(question);
    ghost var typed := app.State();
    assert CanSend(typed);
    var first := app.HandleKeyDown(EnterKey, false);
    assert first.Some? && app.inFlight == 1;
    app.SetInput(followUp);
    ghost var typedAgain := app.State();
    assert typedAgain.loading && CanSend(typedAgain) && typedAgain.inFlight == 1;
    var clicked := app.ClickSend();
    assert clicked == None && app.State() == typedAgain;
    var second := app.HandleKeyDown(EnterKey, false);
    assert second.Some?;
    ghost var awaiting := app.State();
    assert awaiting.inFlight == 2;
    app.CompleteSend(outcome);
    assert app.State() == AfterComplete(awaiting, outcome);
    assert first.Some? && second.Some? && !app.loading && app.inFlight == 1;
  }
}
