/** The sign-in page: an email step that asks the identity provider to send a
    one-time code, a six-slot code entry that moves the keyboard focus as
    slots are filled or backspaced, and the step machine
    email -> code -> success with one way back from code to email.
    No identity provider call is made here: each call's outcome is a
    parameter of the handler that awaits it. */
module SignIn {
  import opened Optional

  /** A JavaScript string. Each element stands for one UTF-16 code unit, so
      `|s|` is the string's `length` and `s == ""` is its falsiness. */
  type JsString = seq<char>

  /** Number of code slots, and the index of the last one. */
  const SlotCount: nat := 6
  const LastSlot: nat := SlotCount - 1

  /** The index a code input's handlers receive: the inputs are rendered by
      mapping over the six slots, so no other index reaches a handler. */
  type SlotIndex = i: nat | i < SlotCount

  datatype Step = Email | Code | Success

  /** Page state: the current step, the six code slots, and the slot whose
      input holds the keyboard focus. */
  datatype SignInState = SignInState(step: Step, code: seq<JsString>, focus: nat)

  /** Six slots, each holding at most one code unit. */
  predicate ValidCode(code: seq<JsString>) {
    |code| == SlotCount && forall i :: 0 <= i < |code| ==> |code[i]| <= 1
  }

  predicate Valid(st: SignInState) {
    ValidCode(st.code) && st.focus < SlotCount
  }

  /** Six empty slots: the code before any input and after Back. */
  function EmptyCode(): (c: seq<JsString>)
    ensures ValidCode(c)
    ensures forall i :: 0 <= i < |c| ==> c[i] == ""
    ensures !ContinueEnabled(c)
  {
    var c := seq(SlotCount, _ => "");
    assert c[0] == "";
    c
  }

  /** The page as first rendered. */
  function Initial(): (st: SignInState)
    ensures Valid(st) && st.step == Email
    ensures st.code == EmptyCode() && st.focus == 0
    ensures forall i :: 0 <= i < |st.code| ==> st.code[i] == ""
    ensures !ContinueEnabled(st.code)
  {
    SignInState(Email, EmptyCode(), 0)
  }

  // ---------------------------------------------------------------------------
  // Email step
  // ---------------------------------------------------------------------------

  /** The first entry of a Clerk error's `errors` array. An absent `code` or
      `longMessage` is modelled as "", which `===` against a non-empty
      constant and `||` treat the same way as `undefined`. */
  datatype ErrorItem = ErrorItem(code: JsString, longMessage: JsString)

  /** What a failed provider call rejects with: a Clerk API error, whose
      `errors` array may be empty, or any other exception, which carries no
      `errors` array at all. */
  datatype ProviderError = ApiError(first: Option<ErrorItem>) | OtherError

  datatype CallOutcome = Resolved | Rejected(error: ProviderError)

  /** What the user is shown after the email form is submitted. */
  datatype Notice = NoNotice | AccountNotFoundAlert | ErrorAlert(message: JsString)

  const IdentifierNotFound: JsString := "form_identifier_not_found"
  const FallbackMessage: JsString := "An error occurred. Please try again."

  /** The catch block of the email step: an unknown identifier gets the
      account-not-found alert, any other API error an alert with its long
      message (or the fallback text when that is empty), and an exception
      without an `errors` array throws again inside the catch block, so
      nothing is shown. */
  function ReportError(e: ProviderError): (n: Notice)
    ensures n == AccountNotFoundAlert <==>
              e.ApiError? && e.first.Some? && e.first.value.code == IdentifierNotFound
    ensures n == NoNotice <==> e.OtherError?
    ensures n.ErrorAlert? ==> n.message != ""
    ensures n.ErrorAlert? && e.first.Some? && e.first.value.longMessage != "" ==>
              n.message == e.first.value.longMessage
    ensures n.ErrorAlert? && (e.first.None? || e.first.value.longMessage == "") ==>
              n.message == FallbackMessage
  {
    match e
    case OtherError => NoNotice
    case ApiError(None) => ErrorAlert(FallbackMessage)
    case ApiError(Some(item)) =>
      if item.code == IdentifierNotFound then AccountNotFoundAlert
      else if item.longMessage != "" then ErrorAlert(item.longMessage)
      else ErrorAlert(FallbackMessage)
  }

  datatype EmailResult = EmailResult(state: SignInState, notice: Notice)

  /** Submitting the email form. `create` is the outcome of starting the
      sign-in attempt and `prepare` that of asking for the emailed code;
      `prepare` is only awaited once `create` has resolved. The page moves
      to the code step, with the focus on the first slot, only when both
      resolve; a rejection keeps the whole state and reports the first
      rejection. */
  function SubmitEmail(st: SignInState, isLoaded: bool, create: CallOutcome, prepare: CallOutcome)
    : (r: EmailResult)
    ensures isLoaded && create.Resolved? && prepare.Resolved? ==>
              r.state == SignInState(Code, st.code, 0) && r.notice == NoNotice
    ensures !(isLoaded && create.Resolved? && prepare.Resolved?) ==> r.state == st
    ensures r.notice != NoNotice ==> isLoaded && (create.Rejected? || prepare.Rejected?)
    ensures isLoaded && create.Rejected? ==> r.notice == ReportError(create.error)
    ensures isLoaded && create.Resolved? && prepare.Rejected? ==> r.notice == ReportError(prepare.error)
  {
    if !isLoaded then EmailResult(st, NoNotice)
    else if create.Rejected? then EmailResult(st, ReportError(create.error))
    else if prepare.Rejected? then EmailResult(st, ReportError(prepare.error))
    else EmailResult(st.(step := Code, focus := 0), NoNotice)
  }

  // ---------------------------------------------------------------------------
  // Code step
  // ---------------------------------------------------------------------------

  /** Every slot holds exactly one code unit: the completion test. */
  predicate Complete(code: seq<JsString>) {
    forall i :: 0 <= i < |code| ==> |code[i]| == 1
  }

  /** Every slot is non-empty: the test that enables the Continue button. */
  predicate ContinueEnabled(code: seq<JsString>) {
    forall i :: 0 <= i < |code| ==> code[i] != ""
  }

  /** The slots concatenated in slot order, as `join("")` does. */
  function Join(code: seq<JsString>): JsString {
    if |code| == 0 then "" else code[0] + Join(code[1..])
  }

  /** The synchronous part of the code-change handler: the new state, and
      the code it submits for verification when the completion test passes. */
  datatype Change = Change(state: SignInState, submitted: Option<JsString>)

  /** A value typed into slot `index`. A value longer than one code unit is
      ignored altogether. Otherwise exactly slot `index` takes the value; a
      non-empty value moves the focus to the next slot unless this is the
      last one; and the code is submitted only when the value went into the
      last slot, is non-empty, and every slot now holds one code unit. */
  function CodeChange(st: SignInState, index: SlotIndex, value: JsString): (r: Change)
    requires |st.code| == SlotCount
    ensures |value| > 1 ==> r == Change(st, None)
    ensures |value| <= 1 ==>
              && r.state.step == st.step
              && |r.state.code| == SlotCount
              && r.state.code[index] == value
              && (forall j :: 0 <= j < SlotCount && j != index ==> r.state.code[j] == st.code[j])
    ensures |value| <= 1 && value != "" && index < LastSlot ==> r.state.focus == index + 1
    ensures value == "" || index == LastSlot ==> r.state.focus == st.focus
    ensures r.submitted.Some? <==>
              |value| <= 1 && value != "" && index == LastSlot && Complete(r.state.code)
    ensures r.submitted.Some? ==> r.submitted.value == Join(r.state.code)
  {
    if |value| > 1 then Change(st, None)
    else
      var code := st.code[index := value];
      var focus := if value != "" && index < LastSlot then index + 1 else st.focus;
      var submit := index == LastSlot && value != "" && Complete(code);
      Change(SignInState(st.step, code, focus), if submit then Some(Join(code)) else None)
  }

  /** Outcome of verifying the submitted code, and of activating the session
      it created. A missing `signIn` object makes the result `undefined`,
      which behaves like a resolved attempt whose status is not "complete". */
  datatype AttemptOutcome = AttemptRejected | AttemptResolved(status: JsString)
  datatype SessionOutcome = SessionRejected | SessionSet

  const CompleteStatus: JsString := "complete"

  /** The awaited part of the code-change handler once a code was submitted:
      the step becomes success only when the attempt resolves with status
      "complete" and the session is then activated. A rejection is only
      logged, and any other status is ignored. */
  function Settle(st: SignInState, attempt: AttemptOutcome, session: SessionOutcome): (r: SignInState)
    ensures r.code == st.code && r.focus == st.focus
    ensures r.step == Success <==>
              st.step == Success || (attempt == AttemptResolved(CompleteStatus) && session == SessionSet)
    ensures r.step != Success ==> r == st
  {
    if attempt == AttemptResolved(CompleteStatus) && session == SessionSet then st.(step := Success)
    else st
  }

  /** The whole code-change handler: the synchronous write, then, when a code
      was submitted, the provider's verdict on it. */
  function HandleCodeChange(st: SignInState, index: SlotIndex, value: JsString,
                            attempt: AttemptOutcome, session: SessionOutcome): (r: Change)
    requires |st.code| == SlotCount
    ensures r.submitted == CodeChange(st, index, value).submitted
    ensures r.state.code == CodeChange(st, index, value).state.code
    ensures r.state.focus == CodeChange(st, index, value).state.focus
    ensures r.state.step == Success <==>
              st.step == Success ||
              (r.submitted.Some? && attempt == AttemptResolved(CompleteStatus) && session == SessionSet)
    ensures r.state.step != Success ==> r.state.step == st.step
  {
    var c := CodeChange(st, index, value);
    if c.submitted.Some? then Change(Settle(c.state, attempt, session), c.submitted) else c
  }

  /** A key pressed in slot `index`. Backspace in an empty slot other than
      the first moves the focus one slot back without clearing that slot;
      every other key press changes nothing. */
  function KeyDown(st: SignInState, index: SlotIndex, key: JsString): (r: SignInState)
    requires |st.code| == SlotCount
    ensures r.code == st.code && r.step == st.step
    ensures key == "Backspace" && st.code[index] == "" && index > 0 ==> r.focus == index - 1
    ensures !(key == "Backspace" && st.code[index] == "" && index > 0) ==> r == st
  {
    if key == "Backspace" && st.code[index] == "" && index > 0 then st.(focus := index - 1)
    else st
  }

  /** The Back button: return to the email step with six empty slots. */
  function BackClick(st: SignInState): (r: SignInState)
    ensures r.step == Email && r.focus == st.focus
    ensures ValidCode(r.code) && forall i :: 0 <= i < SlotCount ==> r.code[i] == ""
    ensures !ContinueEnabled(r.code)
  {
    SignInState(Email, EmptyCode(), st.focus)
  }

  // ---------------------------------------------------------------------------
  // Properties of the code step
  // ---------------------------------------------------------------------------

  /** Writing a slot keeps every slot at most one code unit long. */
  lemma CodeChangePreservesValid(st: SignInState, index: SlotIndex, value: JsString,
                                 attempt: AttemptOutcome, session: SessionOutcome)
    requires Valid(st)
    ensures Valid(CodeChange(st, index, value).state)
    ensures Valid(HandleCodeChange(st, index, value, attempt, session).state)
  {
  }

  /** A complete code joins into a string of one code unit per slot, whose
      k-th code unit is the content of slot k. */
  lemma {:induction false} JoinSpellsSlots(code: seq<JsString>)
    requires Complete(code)
    ensures |Join(code)| == |code|
    ensures forall k :: 0 <= k < |code| ==> Join(code)[k] == code[k][0]
  {
    if |code| > 0 {
      assert Complete(code[1..]) by {
        forall i | 0 <= i < |code[1..]|
          ensures |code[1..][i]| == 1
        {
          assert code[1..][i] == code[i + 1];
        }
      }
      JoinSpellsSlots(code[1..]);
      forall k | 0 <= k < |code|
        ensures Join(code)[k] == code[k][0]
      {
        if k > 0 {
          assert Join(code)[k] == Join(code[1..])[k - 1];
          assert code[1..][k - 1] == code[k];
        }
      }
    }
  }

  /** The submitted code is six code units long, one per slot, in slot order. */
  lemma SubmittedCodeSpellsSlots(st: SignInState, index: SlotIndex, value: JsString)
    requires |st.code| == SlotCount
    requires CodeChange(st, index, value).submitted.Some?
    ensures var r := CodeChange(st, index, value);
            && |r.submitted.value| == SlotCount
            && forall k :: 0 <= k < SlotCount ==> r.submitted.value[k] == r.state.code[k][0]
  {
    JoinSpellsSlots(CodeChange(st, index, value).state.code);
  }

  /** Under the slot-length invariant, the Continue button is enabled exactly
      when the completion test would pass. */
  lemma ContinueMatchesCompletion(code: seq<JsString>)
    requires ValidCode(code)
    ensures ContinueEnabled(code) <==> Complete(code)
  {
  }

  /** Filling any slot but the last never submits, even when it completes
      the code: the completion test only runs for the last slot. */
  lemma EarlierSlotNeverSubmits(st: SignInState, index: SlotIndex, value: JsString)
    requires |st.code| == SlotCount
    requires index < LastSlot
    ensures CodeChange(st, index, value).submitted == None
  {
  }

  // ---------------------------------------------------------------------------
  // Event sequences
  // ---------------------------------------------------------------------------

  /** A user action together with the outcomes of the provider calls it awaits. */
  datatype Event =
    | SubmitEmailEvent(isLoaded: bool, create: CallOutcome, prepare: CallOutcome)
    | TypeEvent(index: SlotIndex, value: JsString, attempt: AttemptOutcome, session: SessionOutcome)
    | KeyEvent(index: SlotIndex, key: JsString)
    | BackEvent

  /** Whether the control an event comes from is on screen: the email form
      only in the email step, the code inputs and the Back button only in the
      code step, and no control at all in the success step. */
  predicate Available(st: SignInState, e: Event) {
    match e
    case SubmitEmailEvent(_, _, _) => st.step == Email
    case _ => st.step == Code
  }

  /** One event; an event whose control is not on screen cannot happen and
      leaves the state alone. */
  function Apply(st: SignInState, e: Event): (r: SignInState)
    requires Valid(st)
    ensures Valid(r)
    ensures !Available(st, e) ==> r == st
  {
    if !Available(st, e) then st
    else
      match e
      case SubmitEmailEvent(isLoaded, create, prepare) => SubmitEmail(st, isLoaded, create, prepare).state
      case TypeEvent(index, value, attempt, session) =>
        CodeChangePreservesValid(st, index, value, attempt, session);
        HandleCodeChange(st, index, value, attempt, session).state
      case KeyEvent(index, key) => KeyDown(st, index, key)
      case BackEvent => BackClick(st)
  }

  /** A sequence of events applied in order. */
  function Run(st: SignInState, events: seq<Event>): (r: SignInState)
    requires Valid(st)
    ensures Valid(r)
    decreases |events|
  {
    if |events| == 0 then st else Run(Apply(st, events[0]), events[1..])
  }

  /** The success step is final: no control is left on screen, so no event
      sequence changes anything. */
  lemma {:induction false} SuccessIsFinal(st: SignInState, events: seq<Event>)
    requires Valid(st) && st.step == Success
    ensures Run(st, events) == st
    decreases |events|
  {
    if |events| > 0 {
      assert Apply(st, events[0]) == st;
      SuccessIsFinal(st, events[1..]);
    }
  }

  /** One event moves the step only along email -> code, code -> success or
      the Back edge code -> email; success is reached only by a verified,
      complete code typed into the last slot. */
  lemma StepEdges(st: SignInState, e: Event)
    requires Valid(st)
    ensures var r := Apply(st, e);
            r.step != st.step ==>
              || (st.step == Email && r.step == Code && e.SubmitEmailEvent?)
              || (st.step == Code && r.step == Email && e.BackEvent?)
              || (st.step == Code && r.step == Success && e.TypeEvent? && e.index == LastSlot
                  && e.attempt == AttemptResolved(CompleteStatus) && e.session == SessionSet
                  && Complete(r.code))
  {
  }

  // ---------------------------------------------------------------------------
  // Scenarios
  // ---------------------------------------------------------------------------

  /** Typing 1, 2, 3, 4, 5 into the first five slots in order submits
      nothing and leaves the focus on the last slot. */
  lemma FirstFiveDigitsSubmitNothing()
    ensures
      var c1 := CodeChange(SignInState(Code, EmptyCode(), 0), 0, "1");
      var c2 := CodeChange(c1.state, 1, "2");
      var c3 := CodeChange(c2.state, 2, "3");
      var c4 := CodeChange(c3.state, 3, "4");
      var c5 := CodeChange(c4.state, 4, "5");
      && c1.submitted == None && c2.submitted == None && c3.submitted == None
      && c4.submitted == None && c5.submitted == None
      && c5.state == SignInState(Code, ["1", "2", "3", "4", "5", ""], 5)
  {
  }

  /** Typing 9 into the last slot after 1, 2, 3, 4, 5 submits "123459"; a
      verified code with an activated session reaches the success step. */
  lemma LastDigitSubmitsCode()
    ensures
      var c6 := HandleCodeChange(SignInState(Code, ["1", "2", "3", "4", "5", ""], 5), 5, "9",
                                 AttemptResolved(CompleteStatus), SessionSet);
      && c6.submitted == Some("123459")
      && c6.state.step == Success
  {
    var c6 := CodeChange(SignInState(Code, ["1", "2", "3", "4", "5", ""], 5), 5, "9");
    assert c6.state.code == ["1", "2", "3", "4", "5", "9"];
    JoinSpellsSlots(c6.state.code);
    var j := Join(c6.state.code);
    assert j[0] == '1' && j[1] == '2' && j[2] == '3' && j[3] == '4' && j[4] == '5' && j[5] == '9';
    assert j == "123459";
  }

  /** Backspace in the empty second slot after typing "1" in the first moves
      the focus back to the first slot, which still holds "1". */
  lemma BackspaceKeepsPreviousDigit()
    ensures
      var c1 := CodeChange(SignInState(Code, EmptyCode(), 0), 0, "1");
      var r := KeyDown(c1.state, 1, "Backspace");
      r.focus == 0 && r.code[0] == "1"
  {
  }

  /** Filling the last slot first and the others afterwards completes the
      code and enables Continue, yet nothing is ever submitted (and the
      Continue button has no click handler). */
  lemma LastSlotFirstNeverSubmits()
    ensures
      var c6 := CodeChange(SignInState(Code, EmptyCode(), 0), 5, "9");
      var c1 := CodeChange(c6.state, 0, "1");
      var c2 := CodeChange(c1.state, 1, "2");
      var c3 := CodeChange(c2.state, 2, "3");
      var c4 := CodeChange(c3.state, 3, "4");
      var c5 := CodeChange(c4.state, 4, "5");
      && c6.submitted == None && c1.submitted == None && c2.submitted == None
      && c3.submitted == None && c4.submitted == None && c5.submitted == None
      && Complete(c5.state.code) && ContinueEnabled(c5.state.code)
  {
  }
}
