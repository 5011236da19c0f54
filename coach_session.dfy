/**
 * The coaching session: one interview over the four WOOP stages. The
 * component's state hooks are the fields of `CoachSession`; its handlers are
 * the methods. The asynchronous submit handler is split at its `await` into
 * `Submit` (up to the call of the coach service) and one of `Complete`
 * (the service returned) or `Fail` (the service threw).
 */
module Coach {
  import opened Wrappers
  import opened JsBuiltins
  import opened Types
  import Constants

  /** Model turn shown when the service returns an empty or missing text. */
  const ThinkingReply: string := "教练正在整理思绪，请稍等..."
  /** Model turn shown when the service throws. */
  const Apology: string := "抱歉，教练刚才走神了，请再试一次。"

  /** The arguments of one `getCoachResponse(step, userInput, context)` call. */
  datatype CoachRequest = CoachRequest(step: Step, userText: string, context: string)

  /** What the awaiting submit handler captured when it started. */
  datatype Pending = Pending(step: Step, userText: string)

  /** The local `steps` array of `nextStep` and `prevStep`. */
  const Flow: seq<Step> := [WISH, OUTCOME, OBSTACLE, PLAN]

  /** The transcript a stage starts with: its opening prompt as a model turn. */
  function Opening(s: Step): (r: ChatMessage)
    requires s != SUMMARY
    ensures r.role == Model && r.text != ""
    ensures r.text == Constants.Lookup(s).value.prompt
  {
    ChatMessage(Model, Constants.Lookup(s).value.prompt)
  }

  /** The stage `nextStep` moves to, or None when it hands off instead: one
    * step forward in declaration order, and a hand-off exactly at PLAN. */
  function Advanced(s: Step): (r: Option<Step>)
    ensures r.None? <==> s == PLAN
    ensures r.Some? && s != SUMMARY ==> Ord(r.value) == Ord(s) + 1
    ensures s == SUMMARY ==> r == Some(WISH)
  {
    var i := IndexOf(Flow, s);
    if i < |Flow| - 1 then Some(Flow[i + 1]) else None
  }

  /** The stage `prevStep` moves to: one step back in declaration order,
    * and no move at WISH. */
  function Retreated(s: Step): (r: Step)
    ensures s == WISH || s == SUMMARY ==> r == s
    ensures s != WISH && s != SUMMARY ==> Ord(r) + 1 == Ord(s)
  {
    var i := IndexOf(Flow, s);
    if i > 0 then Flow[i - 1] else s
  }

  /** Going back undoes going forward, and going forward undoes going back. */
  lemma AdvanceRetreatInverse(s: Step)
    requires s != SUMMARY
    ensures s != PLAN ==> Retreated(Advanced(s).value) == s
    ensures s != WISH ==> Advanced(Retreated(s)) == Some(s)
  {
    if s != PLAN {
      var t := Advanced(s).value;
      assert t != SUMMARY && t != WISH;
      assert Ord(Retreated(t)) == Ord(s);
    }
    if s != WISH {
      var t := Retreated(s);
      assert t != PLAN && t != SUMMARY;
      assert Ord(Advanced(t).value) == Ord(s);
    }
  }

  /** Neighbouring turns have different roles: user and model alternate. */
  ghost predicate Alternates(ms: seq<ChatMessage>) {
    forall i :: 1 <= i < |ms| ==> ms[i].role != ms[i - 1].role
  }

  /** Appending a turn whose role differs from the last turn's keeps the
    * alternation. */
  lemma AlternatesAppend(ms: seq<ChatMessage>, m: ChatMessage)
    requires Alternates(ms) && ms != [] && m.role != ms[|ms| - 1].role
    ensures Alternates(ms + [m])
  {
    forall i | 1 <= i < |ms + [m]|
      ensures (ms + [m])[i].role != (ms + [m])[i - 1].role
    {
      if i < |ms| {
        assert (ms + [m])[i] == ms[i];
      }
      assert (ms + [m])[i - 1] == ms[i - 1];
    }
  }

  /** `${m.role}: ${m.text}`: the role's name and `: `, then the text; the
    * line holds a newline exactly when the text does. */
  function Serialize(m: ChatMessage): (r: string)
    ensures StartsWith(r, RoleName(m.role) + ": ")
    ensures EndsWith(r, m.text)
    ensures '\n' in r <==> '\n' in m.text
  {
    var head := RoleName(m.role) + ": ";
    assert '\n' !in head;
    assert (head + m.text)[..|head|] == head;
    head + m.text
  }

  /** The context string sent to the coach service: one `role: text` line
    * per turn, joined by newlines. It is empty exactly for an empty
    * transcript, and otherwise begins with the first turn and ends with the
    * last. */
  function Context(ms: seq<ChatMessage>): (r: string)
    ensures r == "" <==> ms == []
    ensures ms != [] ==> StartsWith(r, Serialize(ms[0]))
    ensures ms != [] ==> EndsWith(r, Serialize(ms[|ms| - 1]))
  {
    var lines := seq(|ms|, i requires 0 <= i < |ms| => Serialize(ms[i]));
    assert ms != [] ==> lines[0] == Serialize(ms[0]) && lines[|ms| - 1] == Serialize(ms[|ms| - 1]);
    JoinEnds(lines, "\n");
    Join(lines, "\n")
  }

  /** When no turn's text holds a newline, the context has one line per
    * turn, in transcript order, and line `i` is the serialization of turn `i`. */
  lemma ContextLines(ms: seq<ChatMessage>)
    requires |ms| >= 1
    requires forall i :: 0 <= i < |ms| ==> '\n' !in ms[i].text
    ensures |SplitLines(Context(ms))| == |ms|
    ensures forall i :: 0 <= i < |ms| ==> SplitLines(Context(ms))[i] == Serialize(ms[i])
  {
    var lines := seq(|ms|, i requires 0 <= i < |ms| => Serialize(ms[i]));
    forall i | 0 <= i < |ms| ensures '\n' !in lines[i] {
      assert lines[i] == Serialize(ms[i]);
    }
    SplitJoinLines(lines);
  }

  /** `coachReply || '教练正在整理思绪，请稍等...'`: the reply when it is a
    * non-empty text, otherwise the fixed placeholder; never empty. */
  function ReplyText(reply: Option<string>): (r: string)
    ensures r != ""
    ensures reply.Some? && reply.value != "" ==> r == reply.value
    ensures reply.None? || reply.value == "" ==> r == ThinkingReply
  {
    match reply
    case Some(t) => if t != "" then t else ThinkingReply
    case None => ThinkingReply
  }

  /** `((Object.values(WOOPStep).indexOf(step) + 1) / 5) * 100`, an integer
    * for every stage: 20 for WISH up to 100 for SUMMARY, rising by 20 with
    * each stage. */
  function ProgressPercent(s: Step): (r: nat)
    ensures r == 20 * (Ord(s) + 1)
    ensures 20 <= r <= 100
  {
    StepValuesInOrder(s);
    (IndexOf(StepValues, Name(s)) + 1) * 100 / 5
  }

  /** The label of the forward button. */
  function NextLabel(s: Step): (r: string)
    ensures r == "查看最终行动方案" <==> s == PLAN
    ensures s != PLAN ==> r == "我已准备好进入下一阶段"
  {
    if s == PLAN then "查看最终行动方案" else "我已准备好进入下一阶段"
  }

  /** `!inputValue.trim() || isTyping`: the submit guard. A submission is
    * refused exactly when the input is all whitespace or a reply is pending. */
  function Refuses(input: string, typing: bool): (r: bool)
    ensures r <==> AllWhitespace(input) || typing
  {
    TrimEmptyIff(input);
    Trim(input) == "" || typing
  }

  class CoachSession {
    var currentStep: Step
    var data: WoopData
    var inputValue: string
    var isTyping: bool
    var messages: seq<ChatMessage>
    /** The submit handler suspended at its `await`, if any. */
    var pending: Option<Pending>

    /** The session invariant: an interview stage is current, a reply is
      * pending exactly while `isTyping` and was requested for the current
      * stage, the transcript starts with the
      * current stage's opening prompt (a model turn) and then alternates
      * user and model turns, and it ends on a user turn exactly while a
      * reply is pending. */
    ghost predicate Valid()
      reads this
    {
      currentStep != SUMMARY
      && (isTyping <==> pending.Some?)
      && (pending.Some? ==> pending.value.step == currentStep)
      && |messages| >= 1 && messages[0] == Opening(currentStep)
      && Alternates(messages)
      && (isTyping <==> messages[|messages| - 1].role == User)
    }

    /** Mounting the component: the initial state, then the stage effect,
      * which seeds the transcript with WISH's opening prompt. */
    constructor ()
      ensures Valid()
      ensures currentStep == WISH && data == EmptyData && inputValue == ""
      ensures !isTyping && pending == None
      ensures messages == [Opening(WISH)]
    {
      currentStep := WISH;
      data := EmptyData;
      inputValue := "";
      isTyping := false;
      messages := [];
      pending := None;
      new;
      ResetTranscript();
    }

    /** The effect run whenever `currentStep` changes: the transcript becomes
      * the new stage's opening prompt alone, if the stage has a catalog entry. */
    method ResetTranscript()
      modifies this`messages
      ensures currentStep != SUMMARY ==> messages == [Opening(currentStep)]
      ensures currentStep == SUMMARY ==> messages == old(messages)
    {
      var info := Constants.Lookup(currentStep);
      if info.Some? {
        messages := [ChatMessage(Model, info.value.prompt)];
      }
    }

    /** The input box's change handler. */
    method SetInput(v: string)
      modifies this`inputValue
      ensures inputValue == v
    {
      inputValue := v;
    }

    /** Are the back/forward controls shown (`messages.length >= 2 && !isTyping`)?
      * In a valid session they are shown only once the current stage holds
      * a user turn answered by a model turn, and never while a reply is
      * pending. */
    function ControlsOffered(): (r: bool)
      reads this
      ensures r <==> |messages| >= 2 && !isTyping
      ensures Valid() && r ==>
        && |messages| >= 3 && messages[1].role == User && messages[2].role == Model
        && messages[|messages| - 1].role == Model && pending == None
    {
      |messages| >= 2 && !isTyping
    }

    /** The completion percentage shown in the header. */
    function Progress(): (r: nat)
      reads this
      requires Valid()
      ensures 20 <= r <= 80
    {
      ProgressPercent(currentStep)
    }

    /** `handleSubmit` up to the service call. A blank input or a pending
      * reply refuses the submission: nothing changes and no call is made.
      * Otherwise the input is cleared, the raw text is appended as a user
      * turn, a reply becomes pending, and the service is called with the
      * stage, the raw text and the transcript as it was before this turn. */
    method Submit() returns (request: Option<CoachRequest>)
      requires Valid()
      modifies this
      ensures Valid()
      ensures request.None? <==> AllWhitespace(old(inputValue)) || old(isTyping)
      ensures request.None? ==> unchanged(this)
      ensures request.Some? ==>
        && request.value == CoachRequest(old(currentStep), old(inputValue), Context(old(messages)))
        && inputValue == ""
        && messages == old(messages) + [ChatMessage(User, old(inputValue))]
        && isTyping && pending == Some(Pending(old(currentStep), old(inputValue)))
        && currentStep == old(currentStep) && data == old(data)
    {
      if Refuses(inputValue, isTyping) {
        return None;
      }
      var r := Accept();
      request := Some(r);
    }

    /** The part of `handleSubmit` after its guard, up to the service call.
      * Its contract is the accepting half of `Submit`'s; keeping it apart
      * keeps each of the two proofs small. */
    method Accept() returns (request: CoachRequest)
      requires Valid() && !isTyping
      modifies this
      ensures Valid()
      ensures request == CoachRequest(old(currentStep), old(inputValue), Context(old(messages)))
      ensures inputValue == ""
      ensures messages == old(messages) + [ChatMessage(User, old(inputValue))]
      ensures isTyping && pending == Some(Pending(old(currentStep), old(inputValue)))
      ensures currentStep == old(currentStep) && data == old(data)
    {
      var userText := inputValue;
      var context := Context(messages);
      inputValue := "";
      var turn := ChatMessage(User, userText);
      AlternatesAppend(messages, turn);
      assert (messages + [turn])[0] == messages[0];
      messages := messages + [turn];
      isTyping := true;
      pending := Some(Pending(currentStep, userText));
      request := CoachRequest(currentStep, userText, context);
    }

    /** The service returned `reply`: one model turn is appended (the reply,
      * or the placeholder when it is empty or missing), the captured text
      * overwrites the captured stage's answer slot and no other, and the
      * pending flag is cleared. */
    method Complete(reply: Option<string>)
      requires Valid() && isTyping
      modifies this
      ensures Valid()
      ensures messages == old(messages) + [ChatMessage(Model, ReplyText(reply))]
      ensures data == old(data).With(FieldOf(old(pending).value.step), old(pending).value.userText)
      ensures data == old(data).With(FieldOf(currentStep), old(pending).value.userText)
      ensures !isTyping && pending == None
      ensures currentStep == old(currentStep) && inputValue == old(inputValue)
    {
      var p := pending.value;
      AlternatesAppend(messages, ChatMessage(Model, ReplyText(reply)));
      messages := messages + [ChatMessage(Model, ReplyText(reply))];
      Record(p.step, p.userText);
      isTyping := false;
      pending := None;
    }

    /** The answer update `setWoopData(prev => ({ ...prev, [key]: text }))`
      * with `key` the lower-cased stage value: `text` lands in `step`'s slot
      * and the other three slots keep their text. */
    method Record(step: Step, text: string)
      requires step != SUMMARY
      modifies this`data
      ensures data == old(data).With(FieldOf(step), text)
    {
      var key := SlotOf(step);
      if key.Some? {
        data := data.With(key.value, text);
      }
    }

    /** The service threw: the apology is appended as a model turn, the
      * answers are left as they were, and the pending flag is cleared. */
    method Fail()
      requires Valid() && isTyping
      modifies this
      ensures Valid()
      ensures messages == old(messages) + [ChatMessage(Model, Apology)]
      ensures data == old(data)
      ensures !isTyping && pending == None
      ensures currentStep == old(currentStep) && inputValue == old(inputValue)
    {
      AlternatesAppend(messages, ChatMessage(Model, Apology));
      messages := messages + [ChatMessage(Model, Apology)];
      isTyping := false;
      pending := None;
    }

    /** `setCurrentStep(s)` and the stage-change effect it triggers: `s`
      * becomes current and the transcript restarts with its prompt alone. */
    method EnterStage(s: Step)
      requires s != SUMMARY && !isTyping && pending == None
      modifies this`currentStep, this`messages
      ensures Valid()
      ensures currentStep == s && messages == [Opening(s)]
    {
      currentStep := s;
      ResetTranscript();
    }

    /** `nextStep`, reachable only through the forward button, which is
      * shown when `ControlsOffered()`: at PLAN the stage stays and the
      * current answers are handed off (`onFinish(data)`); before PLAN the
      * stage moves one step forward and the transcript restarts with that
      * stage's prompt. */
    method NextStep() returns (finished: Option<WoopData>)
      requires Valid() && ControlsOffered()
      modifies this
      ensures Valid()
      ensures old(currentStep) == PLAN ==> finished == Some(old(data)) && unchanged(this)
      ensures old(currentStep) != PLAN ==>
        && finished == None
        && Ord(currentStep) == Ord(old(currentStep)) + 1
        && messages == [Opening(currentStep)]
        && data == old(data) && inputValue == old(inputValue)
        && isTyping == old(isTyping) && pending == old(pending)
    {
      var next := Advanced(currentStep);
      if next.Some? {
        EnterStage(next.value);
        finished := None;
      } else {
        finished := Some(data);
      }
    }

    /** `prevStep`, reachable only through the back button, which is shown
      * when `ControlsOffered()`: at WISH nothing changes; otherwise the stage
      * moves one step back and the transcript restarts with that stage's
      * prompt. */
    method PrevStep()
      requires Valid() && ControlsOffered()
      modifies this
      ensures Valid()
      ensures old(currentStep) == WISH ==> unchanged(this)
      ensures old(currentStep) != WISH ==>
        && Ord(currentStep) + 1 == Ord(old(currentStep))
        && messages == [Opening(currentStep)]
        && data == old(data) && inputValue == old(inputValue)
        && isTyping == old(isTyping) && pending == old(pending)
    {
      var previous := Retreated(currentStep);
      if previous != currentStep {
        EnterStage(previous);
      }
    }
  }
}
