/** The chat session of `App`: its six pieces of state, the personas and
    messages they hold, the outcomes the backend can deliver, and one
    function per transition. The class in `AppSession` performs these
    transitions step by step; the functions here are their specification. */
module Chat {
  import opened Js

  /** A persona ("guru") object as the backend or the built-in list gives it.
      Any of its string members may be missing; the page draws a default for
      a missing `name` or `avatar`. */
  datatype Persona = Persona(
    id: Option<string>,
    archetype: Option<string>,
    name: Option<string>,
    avatar: Option<string>,
    description: Option<string>)

  datatype Role = User | Guru

  datatype Message = Message(role: Role, content: string)

  /** The JSON body posted to `/api/ask`. An absent `conversation_id` or
      `guru_id` stands for a value that was `undefined` (the key is left out by
      `JSON.stringify`) or `null` (the key is written with `null`). */
  datatype AskRequest = AskRequest(
    conversationId: Option<string>,
    guruId: Option<string>,
    userMessage: string)

  /** What loading the persona list can end with: a parsed JSON body (whose
      `gurus` member may be absent), or an exception from `fetch` or from
      parsing the body. */
  datatype GurusOutcome = GurusLoaded(gurus: Option<seq<Persona>>) | GurusThrew

  /** What a posted message can end with: a response whose status is ok, a
      response whose status is not ok, or an exception from `fetch` or from
      parsing the body. */
  datatype AskOutcome =
    | AskOk(conversationId: Option<string>, reply: string)
    | AskNotOk(detail: Option<string>)
    | AskThrew

  /** The session state. `inFlight` is not a cell of `App`: it counts the
      sends that have started and not yet completed, so that the model can
      say what `loading` does and does not tell about them. */
  datatype Session = Session(
    gurus: seq<Persona>,
    selectedGuru: Option<Persona>,
    messages: seq<Message>,
    input: string,
    loading: bool,
    conversationId: Option<string>,
    inFlight: nat)

  /** The state `App` starts in. */
  const InitialSession := Session([], None, [], "", false, None, 0)

  const ZenTeacher := Persona(None, Some("zen"), Some("Zen Teacher"), Some("\U{1FAB7}"),
                              Some("Quiet clarity and koan-like reflections."))
  const YogiGuide := Persona(None, Some("yogi"), Some("Yogi Guide"), Some("\U{1F9D8}"),
                             Some("Breath, alignment, and daily practice."))
  const Astrologer := Persona(None, Some("astrologer"), Some("Astrologer"), Some("\U{2728}"),
                              Some("Patterns of time and temperament."))

  /** The built-in personas used when the list cannot be fetched. */
  const FallbackGurus := [ZenTeacher, YogiGuide, Astrologer]

  /** The persona selected when the list cannot be fetched: a separate
      object, like the Zen Teacher entry but without a description. */
  const FallbackSelection := Persona(None, Some("zen"), Some("Zen Teacher"), Some("\U{1FAB7}"), None)

  const ErrorPrefix := "Sorry, an error occurred: "
  const UnknownError := "Unknown error"
  const UnreachableReply := "Unable to reach the guidance service right now."

  /** The `key` of a keyboard event for the Enter key. */
  const EnterKey := "Enter"

  /** The key a persona is sent and compared by: `id || archetype`. */
  function GuruKey(p: Persona): (k: Option<string>)
    ensures k == p.id || k == p.archetype
    ensures Truthy(k) <==> Truthy(p.id) || Truthy(p.archetype)
    ensures Truthy(p.id) ==> k == p.id
    ensures !Truthy(p.id) ==> k == p.archetype
  {
    Or(p.id, p.archetype)
  }

  /** Whether the card of `g` is drawn as selected:
      `(selectedGuru?.id || selectedGuru?.archetype) === (g.id || g.archetype)`.
      With a selection the two keys are compared; with nothing selected the
      left key is absent, so only a card without a key is drawn as selected. */
  function IsSelectedCard(selected: Option<Persona>, g: Persona): (b: bool)
    ensures selected.Some? ==> (b <==> GuruKey(selected.value) == GuruKey(g))
    ensures selected.None? ==> (b <==> !Truthy(g.id) && g.archetype.None?)
  {
    (if selected.Some? then GuruKey(selected.value) else None) == GuruKey(g)
  }

  /** Number of messages of `role` in `ms`. */
  function CountRole(ms: seq<Message>, role: Role): nat {
    if ms == [] then 0
    else CountRole(ms[..|ms| - 1], role) + (if ms[|ms| - 1].role == role then 1 else 0)
  }

  lemma CountRoleAppend(ms: seq<Message>, m: Message, role: Role)
    ensures CountRole(ms + [m], role) == CountRole(ms, role) + (if m.role == role then 1 else 0)
  {
    assert (ms + [m])[..|ms|] == ms;
  }

  /** What the session keeps true: `loading` implies that some send is
      awaiting its outcome, and every user message is answered by one guru
      message except those of the sends still awaiting. */
  ghost predicate Consistent(s: Session) {
    (s.loading ==> s.inFlight > 0) &&
    CountRole(s.messages, User) == CountRole(s.messages, Guru) + s.inFlight
  }

  lemma InitialConsistent()
    ensures Consistent(InitialSession)
  {
  }

  /** The persona list once its fetch has ended. */
  function AfterFetchGurus(s: Session, o: GurusOutcome): (r: Session)
    ensures r.messages == s.messages && r.input == s.input && r.loading == s.loading
    ensures r.conversationId == s.conversationId && r.inFlight == s.inFlight
    ensures o.GurusLoaded? && o.gurus.Some? ==> r.gurus == o.gurus.value
    ensures o.GurusLoaded? && o.gurus.None? ==> r.gurus == []
    ensures o.GurusLoaded? ==>
      r.selectedGuru == if r.gurus != [] then Some(r.gurus[0]) else s.selectedGuru
    ensures o.GurusThrew? ==> r.gurus == FallbackGurus && r.selectedGuru == Some(FallbackSelection)
  {
    match o
    case GurusLoaded(list) =>
      var gs := if list.Some? then list.value else [];
      s.(gurus := gs, selectedGuru := if |gs| > 0 then Some(gs[0]) else s.selectedGuru)
    case GurusThrew =>
      s.(gurus := FallbackGurus, selectedGuru := Some(FallbackSelection))
  }

  /** After the fallback the Zen Teacher card is drawn as selected, and no
      other, although the selection is not the list's first object. */
  lemma FallbackSelectsZenCard(s: Session)
    ensures var r := AfterFetchGurus(s, GurusThrew);
      |r.gurus| == 3 &&
      r.selectedGuru != Some(r.gurus[0]) &&
      IsSelectedCard(r.selectedGuru, r.gurus[0]) &&
      !IsSelectedCard(r.selectedGuru, r.gurus[1]) &&
      !IsSelectedCard(r.selectedGuru, r.gurus[2]) &&
      GuruKey(r.gurus[0]) == Some("zen") && GuruKey(r.gurus[1]) == Some("yogi") &&
      GuruKey(r.gurus[2]) == Some("astrologer")
  {
  }

  /** A fetched list selects something exactly when it is non-empty or
      something was selected before, and then its first card is drawn as
      selected. */
  lemma FetchedListSelection(s: Session, list: Option<seq<Persona>>)
    ensures var r := AfterFetchGurus(s, GurusLoaded(list));
      (r.selectedGuru.Some? <==> r.gurus != [] || s.selectedGuru.Some?) &&
      (r.gurus != [] ==> IsSelectedCard(r.selectedGuru, r.gurus[0]))
  {
  }

  /** Clicking a card selects its persona and changes nothing else. */
  function AfterSelect(s: Session, g: Persona): (r: Session)
    ensures r.selectedGuru == Some(g) && IsSelectedCard(r.selectedGuru, g)
    ensures r.messages == s.messages && r.conversationId == s.conversationId
    ensures r.gurus == s.gurus && r.input == s.input && r.loading == s.loading
    ensures r.inFlight == s.inFlight
  {
    s.(selectedGuru := Some(g))
  }

  /** Typing into the text area replaces the pending input. */
  function AfterInput(s: Session, text: string): (r: Session)
    ensures r.input == text
    ensures r.messages == s.messages && r.conversationId == s.conversationId
    ensures r.gurus == s.gurus && r.selectedGuru == s.selectedGuru
    ensures r.loading == s.loading && r.inFlight == s.inFlight
  {
    s.(input := text)
  }

  /** The guard of `handleSend`: some non-whitespace input and a selection. */
  predicate CanSend(s: Session) {
    Trim(s.input) != [] && s.selectedGuru.Some?
  }

  /** The guard lets a send through exactly when a persona is selected and
      the input holds some character other than whitespace. */
  lemma CanSendIffNotBlank(s: Session)
    ensures CanSend(s) <==> s.selectedGuru.Some? && !IsBlank(s.input)
  {
    TrimEmptyIffBlank(s.input);
  }

  /** The first half of `handleSend`, up to the request it posts. */
  function AfterSend(s: Session): (r: (Session, Option<AskRequest>))
    ensures r.1.Some? <==> CanSend(s)
    ensures !CanSend(s) ==> r.0 == s
    ensures CanSend(s) ==>
      r.0.messages == s.messages + [Message(User, Trim(s.input))] &&
      r.0.input == "" && r.0.loading && r.0.inFlight == s.inFlight + 1
    ensures r.0.conversationId == s.conversationId
    ensures r.0.gurus == s.gurus && r.0.selectedGuru == s.selectedGuru
    ensures r.1.Some? ==>
      var req := r.1.value;
      req.conversationId == s.conversationId &&
      req.guruId == GuruKey(s.selectedGuru.value) &&
      req.userMessage == Trim(s.input) && req.userMessage != [] &&
      !IsWhitespace(req.userMessage[0]) && !IsWhitespace(req.userMessage[|req.userMessage| - 1])
  {
    var trimmed := Trim(s.input);
    if trimmed == [] || s.selectedGuru.None? then
      (s, None)
    else
      (s.(messages := s.messages + [Message(User, trimmed)], input := "",
          loading := true, inFlight := s.inFlight + 1),
       Some(AskRequest(s.conversationId, GuruKey(s.selectedGuru.value), trimmed)))
  }

  /** The request names the persona by its `id` when that is a non-empty
      string and by its `archetype` otherwise. */
  lemma RequestGuruId(s: Session)
    requires CanSend(s)
    ensures var p := s.selectedGuru.value;
      AfterSend(s).1.value.guruId == if Truthy(p.id) then p.id else p.archetype
  {
  }

  /** The guru message an outcome is turned into. */
  function GuruReply(o: AskOutcome): (m: Message)
    ensures m.role == Guru
    ensures o.AskOk? ==> m.content == o.reply
    ensures o.AskNotOk? ==>
      |ErrorPrefix| <= |m.content| && m.content[..|ErrorPrefix|] == ErrorPrefix &&
      m.content[|ErrorPrefix|..] == if Truthy(o.detail) then o.detail.value else UnknownError
    ensures o.AskThrew? ==> m.content == UnreachableReply
  {
    match o
    case AskOk(_, reply) => Message(Guru, reply)
    case AskNotOk(detail) => Message(Guru, ErrorPrefix + OrString(detail, UnknownError))
    case AskThrew => Message(Guru, UnreachableReply)
  }

  /** Different non-empty details give different guru messages, so the
      detail the server sent can be read back from the message. */
  lemma {:induction false} DetailReadable(d1: Option<string>, d2: Option<string>)
    requires Truthy(d1) && Truthy(d2)
    ensures GuruReply(AskNotOk(d1)) == GuruReply(AskNotOk(d2)) <==> d1 == d2
  {
    var c1, c2 := GuruReply(AskNotOk(d1)).content, GuruReply(AskNotOk(d2)).content;
    if c1 == c2 {
      assert d1.value == c1[|ErrorPrefix|..] == c2[|ErrorPrefix|..] == d2.value;
    }
  }

  /** The second half of `handleSend`: exactly one guru message for the
      outcome, the conversation id taken from an ok response only, and
      `loading` cleared whatever the outcome. */
  function AfterComplete(s: Session, o: AskOutcome): (r: Session)
    requires s.inFlight > 0
    ensures !r.loading && r.inFlight == s.inFlight - 1
    ensures r.messages == s.messages + [GuruReply(o)]
    ensures r.conversationId == if o.AskOk? then o.conversationId else s.conversationId
    ensures r.gurus == s.gurus && r.selectedGuru == s.selectedGuru && r.input == s.input
  {
    s.(messages := s.messages + [GuruReply(o)],
       conversationId := if o.AskOk? then o.conversationId else s.conversationId,
       loading := false, inFlight := s.inFlight - 1)
  }

  /** A send that is not overlapped by another adds exactly the user's
      trimmed text and then the guru's reply, and leaves the session idle. */
  lemma SendThenComplete(s: Session, o: AskOutcome)
    requires CanSend(s)
    ensures var r := AfterComplete(AfterSend(s).0, o);
      r.messages == s.messages + [Message(User, Trim(s.input)), GuruReply(o)] &&
      !r.loading && r.inFlight == s.inFlight && r.input == "" &&
      r.conversationId == (if o.AskOk? then o.conversationId else s.conversationId)
  {
  }

  /** `handleKeyDown`: Enter without Shift sends, whatever `loading` is. A
      key press posts exactly when it is Enter without Shift and the send
      guard holds; any other key press leaves the session as it was. */
  function AfterKeyDown(s: Session, key: string, shiftKey: bool): (r: (Session, Option<AskRequest>))
    ensures r.1.Some? <==> key == EnterKey && !shiftKey && CanSend(s)
    ensures r.1.None? ==> r.0 == s
    ensures r.1.Some? ==> r == AfterSend(s)
  {
    if key == EnterKey && !shiftKey then AfterSend(s) else (s, None)
  }

  /** The Send button is disabled while loading or while the input is blank. */
  predicate SendEnabled(loading: bool, input: string) {
    !(loading || Trim(input) == [])
  }

  /** The button is enabled exactly when no send is awaited by `loading` and
      the input holds some character other than whitespace. */
  lemma SendEnabledIffNotBlank(s: Session)
    ensures SendEnabled(s.loading, s.input) <==> !s.loading && !IsBlank(s.input)
  {
    TrimEmptyIffBlank(s.input);
  }

  /** A click on the Send button: a disabled button delivers no click. A
      click posts exactly when the session is not loading and the send guard
      holds; a click that posts nothing leaves the session as it was. */
  function AfterClick(s: Session): (r: (Session, Option<AskRequest>))
    ensures r.1.Some? <==> !s.loading && CanSend(s)
    ensures r.1.None? ==> r.0 == s
    ensures r.1.Some? ==> r == AfterSend(s)
  {
    if SendEnabled(s.loading, s.input) then AfterSend(s) else (s, None)
  }

  /** Only the button is gated on `loading`: while a send is awaited the
      button posts nothing, but Enter posts a second request. */
  lemma OnlyTheButtonWaits(s: Session)
    requires CanSend(s) && s.loading
    ensures AfterClick(s).1.None?
    ensures AfterKeyDown(s, EnterKey, false).1.Some?
  {
  }

  /** Every transition keeps the session consistent. */
  lemma FetchKeepsConsistent(s: Session, o: GurusOutcome)
    requires Consistent(s)
    ensures Consistent(AfterFetchGurus(s, o))
  {
  }

  lemma {:induction false} SendKeepsConsistent(s: Session)
    requires Consistent(s)
    ensures Consistent(AfterSend(s).0)
  {
    if CanSend(s) {
      CountRoleAppend(s.messages, Message(User, Trim(s.input)), User);
      CountRoleAppend(s.messages, Message(User, Trim(s.input)), Guru);
    }
  }

  lemma {:induction false} CompleteKeepsConsistent(s: Session, o: AskOutcome)
    requires Consistent(s) && s.inFlight > 0
    ensures Consistent(AfterComplete(s, o))
  {
    CountRoleAppend(s.messages, GuruReply(o), User);
    CountRoleAppend(s.messages, GuruReply(o), Guru);
  }
}
