/**
 * Walks through the app as a user would, proved from the contracts and the
 * function definitions of the session, summary and app models.
 */
module Scenarios {
  import opened Wrappers
  import opened JsBuiltins
  import opened Types
  import opened Coach
  import Summary
  import App

  /** One answered turn: type `text`, submit it, and receive `reply`. */
  method AnswerTurn(s: CoachSession, text: string, reply: string)
    requires s.Valid() && !s.isTyping && !AllWhitespace(text)
    modifies s
    ensures s.Valid() && !s.isTyping
    ensures s.currentStep == old(s.currentStep)
    ensures s.data == old(s.data).With(FieldOf(s.currentStep), text)
    ensures s.messages == old(s.messages) + [ChatMessage(User, text), ChatMessage(Model, ReplyText(Some(reply)))]
  {
    s.SetInput(text);
    var request := s.Submit();
    s.Complete(Some(reply));
  }

  /** A first answer at WISH, then moving on: the wish is recorded and the
    * transcript restarts with OUTCOME's prompt alone. */
  method WishThenAdvance() returns (wish: string, step: Step, transcript: seq<ChatMessage>, offered: bool)
    ensures wish == "Finish my dissertation chapter"
    ensures step == OUTCOME && transcript == [Opening(OUTCOME)]
    ensures !offered
  {
    var s := new CoachSession();
    var text := "Finish my dissertation chapter";
    assert text[0] == 'F';
    AnswerTurn(s, text, "Good, let's narrow that down");
    wish := s.data.wish;
    assert s.ControlsOffered();
    var handoff := s.NextStep();
    step, transcript := s.currentStep, s.messages;
    offered := s.ControlsOffered();
  }

  /** A submission that fails leaves the answers as they were and the session
    * ready for the next submission. */
  method FailedTurn(text: string) returns (data: WoopData, last: ChatMessage, typing: bool)
    requires !AllWhitespace(text)
    ensures data == EmptyData
    ensures last == ChatMessage(Model, Apology)
    ensures !typing
  {
    var s := new CoachSession();
    s.SetInput(text);
    var request := s.Submit();
    s.Fail();
    data, last, typing := s.data, s.messages[|s.messages| - 1], s.isTyping;
  }

  /** One stage answered with `text` and then left through "next": the
    * answer lands in that stage's slot and the session moves one stage on,
    * or, at PLAN, hands the answers over. */
  method AnswerAndAdvance(s: CoachSession, text: string) returns (handoff: Option<WoopData>)
    requires s.Valid() && !s.isTyping && !AllWhitespace(text)
    modifies s
    ensures s.Valid() && !s.isTyping
    ensures old(s.currentStep) == PLAN ==> handoff == Some(old(s.data).With(Field.Plan, text))
    ensures old(s.currentStep) != PLAN ==> handoff == None && Ord(s.currentStep) == Ord(old(s.currentStep)) + 1
    ensures old(s.currentStep) != PLAN ==> s.data == old(s.data).With(FieldOf(old(s.currentStep)), text)
  {
    AnswerTurn(s, text, "");
    handoff := s.NextStep();
  }

  /** The four stages answered in order with `w`, `o`, `b`, `p`: the hand-off
    * at PLAN carries exactly those four answers. */
  method Interview(w: string, o: string, b: string, p: string) returns (handoff: Option<WoopData>)
    requires !AllWhitespace(w) && !AllWhitespace(o) && !AllWhitespace(b) && !AllWhitespace(p)
    ensures handoff == Some(WoopData(w, o, b, p))
  {
    var s := new CoachSession();
    handoff := AnswerAndAdvance(s, w);
    assert s.currentStep == OUTCOME && s.data == WoopData(w, "", "", "");
    handoff := AnswerAndAdvance(s, o);
    assert s.currentStep == OBSTACLE && s.data == WoopData(w, o, "", "");
    handoff := AnswerAndAdvance(s, b);
    assert s.currentStep == PLAN && s.data == WoopData(w, o, b, "");
    handoff := AnswerAndAdvance(s, p);
  }

  /** A submission at WISH that fails, then "next": the apology is a model
    * turn, so the controls come back and the stage can be left although no
    * answer was recorded. */
  method FailThenAdvance(text: string) returns (wish: string, step: Step, offered: bool)
    requires !AllWhitespace(text)
    ensures offered
    ensures wish == "" && step == OUTCOME
  {
    var s := new CoachSession();
    s.SetInput(text);
    var request := s.Submit();
    s.Fail();
    offered := s.ControlsOffered();
    var handoff := s.NextStep();
    wish, step := s.data.wish, s.currentStep;
  }

  /** The whole interview followed by the summary: the app stores the
    * hand-off and shows the summary, whose cards show the answers and whose
    * report renders once the report service answers. */
  method FullInterview(w: string, o: string, b: string, p: string, report: string)
    returns (handoff: Option<WoopData>, stored: WoopData, view: App.View, cards: seq<Summary.Card>, blocks: seq<Summary.Block>)
    requires !AllWhitespace(w) && !AllWhitespace(o) && !AllWhitespace(b) && !AllWhitespace(p)
    ensures handoff == Some(WoopData(w, o, b, p))
    ensures stored == WoopData(w, o, b, p) && view == App.Summary
    ensures |cards| == 4 && cards[0].value == w && cards[1].value == o && cards[2].value == b
    ensures cards[3].value == "如果 " + b + "，那么 " + p
    ensures blocks == Summary.Classify(report)
  {
    handoff := Interview(w, o, b, p);
    var app := new App.AppState();
    app.StartCoaching();
    app.FinishCoaching(handoff.value);
    stored, view := app.woopData, app.view;
    var summary := new Summary.SummaryView(app.woopData);
    cards := Summary.Cards(summary.data);
    summary.ReportArrived(Some(report));
    blocks := summary.Blocks();
  }
}
