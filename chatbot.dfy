/** The simple chatbot page: ten fixed questions; every non-empty chat
    message is stored as the answer to the first question that has no
    answer yet, and the assistant's reply is appended to the transcript. */
module Chatbot {
  import opened Wrappers
  import opened Text
  import opened Chat
  import opened Questionnaire

  /** The questions of this page, in the order they are asked. */
  const ChatbotQuestions: seq<Question> := [
    Question("Location", "Which part of NYC is the school located in?"),
    Question("Grades", "How many grades will the school have?"),
    Question("StudentsPerClass", "What is the average number of students per class?"),
    Question("Timeline", "What is the expected construction timeline (in months)?"),
    Question("SpecialReqs", "Are there any special facilities or requirements needed?"),
    Question("SquareFootage", "What is the square footage of the construction?"),
    Question("Floors", "How many floors will the building have?"),
    Question("DemolitionNeeded", "Is demolition needed?"),
    Question("LotAvailable", "If a feature, is the lot already available?"),
    Question("Basement", "Is a basement needed?")
  ]

  /** The first position whose answer is absent. Unlike the guided flow, an
      empty-string answer counts as given here. */
  function FirstNone(answers: seq<Option<string>>): (r: Option<nat>)
    ensures r.Some? ==> r.value < |answers| && answers[r.value] == None
    ensures r.Some? ==> forall i :: 0 <= i < r.value ==> answers[i].Some?
    ensures r.None? <==> forall i :: 0 <= i < |answers| ==> answers[i].Some?
  {
    if answers == [] then None
    else if answers[0] == None then Some(0)
    else
      match FirstNone(answers[1..])
      case None => None
      case Some(k) => Some(k + 1)
  }

  /** The answers after one non-empty message: it fills the first absent
      answer, if any; answers already given are never overwritten. */
  function Assign(answers: seq<Option<string>>, input: string): (r: seq<Option<string>>)
    ensures |r| == |answers|
    ensures forall i :: 0 <= i < |answers| && answers[i].Some? ==> r[i] == answers[i]
    ensures FirstNone(answers).None? ==> r == answers
    ensures FirstNone(answers).Some? ==> var k := FirstNone(answers).value;
      r[k] == Some(input) && forall i :: 0 <= i < |r| && i != k ==> r[i] == answers[i]
  {
    match FirstNone(answers)
    case None => answers
    case Some(k) => answers[k := Some(input)]
  }

  /** The answers after a sequence of non-empty messages. */
  function AssignAll(answers: seq<Option<string>>, inputs: seq<string>): (r: seq<Option<string>>)
    ensures |r| == |answers|
    ensures forall i :: 0 <= i < |answers| && answers[i].Some? ==> r[i] == answers[i]
    decreases inputs
  {
    if inputs == [] then answers else AssignAll(Assign(answers, inputs[0]), inputs[1..])
  }

  /** When the first m answers are given and the rest are absent, further
      messages fill the following positions in order, one message each,
      until none is left. */
  lemma {:induction false} AssignAllFills(answers: seq<Option<string>>, inputs: seq<string>, m: nat)
    requires m <= |answers|
    requires forall i :: 0 <= i < |answers| ==> (answers[i].Some? <==> i < m)
    ensures var r := AssignAll(answers, inputs);
      && |r| == |answers|
      && forall i :: 0 <= i < |r| ==>
           r[i] == (if i < m then answers[i] else if i - m < |inputs| then Some(inputs[i - m]) else None)
    decreases inputs
  {
    if inputs != [] {
      var a := Assign(answers, inputs[0]);
      var r := AssignAll(a, inputs[1..]);
      assert AssignAll(answers, inputs) == r;
      if m == |answers| {
        assert a == answers;
        AssignAllFills(a, inputs[1..], m);
      } else {
        assert answers[m] == None;
        assert FirstNone(answers) == Some(m);
        assert a == answers[m := Some(inputs[0])];
        AssignAllFills(a, inputs[1..], m + 1);
        forall i | m < i < |r| && i - m < |inputs|
          ensures r[i] == Some(inputs[i - m])
        {
          assert inputs[1..][i - (m + 1)] == inputs[i - m];
        }
      }
    }
  }

  /** After n non-empty messages from a fresh session exactly the first
      min(n, 10) questions are answered, the i-th by the i-th message. */
  lemma FilledAfterMessages(inputs: seq<string>)
    ensures var r := AssignAll(seq(|ChatbotQuestions|, _ => None), inputs);
      && |r| == |ChatbotQuestions|
      && (forall i :: 0 <= i < |r| ==> (r[i].Some? <==> i < |inputs|))
      && (forall i :: 0 <= i < |r| && i < |inputs| ==> r[i] == Some(inputs[i]))
  {
    AssignAllFills(seq(|ChatbotQuestions|, _ => None), inputs, 0);
  }

  /** The chat session of the chatbot page. */
  class ChatbotSession {
    /** collected_info: the answer to ChatbotQuestions[i] is answers[i]. */
    var answers: seq<Option<string>>
    /** chat_history */
    var chat: seq<Message>
    /** final_plan */
    var finalPlan: Option<string>

    ghost predicate Valid()
      reads this
    {
      |answers| == |ChatbotQuestions|
    }

    constructor ()
      ensures Valid() && chat == [] && finalPlan == None
      ensures forall i :: 0 <= i < |answers| ==> answers[i] == None
    {
      answers := seq(|ChatbotQuestions|, _ => None);
      chat := [];
      finalPlan := None;
    }

    /** get_next_question: the first question whose answer is absent. */
    method NextQuestion() returns (next: Option<nat>)
      requires Valid()
      ensures next == FirstNone(answers)
      ensures next.Some? ==> next.value < |ChatbotQuestions|
    {
      var i := 0;
      while i < |ChatbotQuestions|
        invariant 0 <= i <= |ChatbotQuestions|
        invariant forall j :: 0 <= j < i ==> answers[j].Some?
      {
        if answers[i] == None {
          return Some(i);
        }
        i := i + 1;
      }
      return None;
    }

    /** One chat submission. An empty input does nothing. Otherwise the user
        message is appended, the input fills the first absent answer (if
        any), and the assistant's stripped reply is appended as a system
        message. */
    method Submit(input: string, reply: string)
      requires Valid()
      modifies this
      ensures Valid() && finalPlan == old(finalPlan)
      ensures input == "" ==> answers == old(answers) && chat == old(chat)
      ensures input != "" ==> answers == Assign(old(answers), input)
      ensures input != "" ==> chat == old(chat) + [Message(User, input), Message(System, Strip(reply))]
    {
      if input != "" {
        chat := chat + [Message(User, input)];
        var current := NextQuestion();
        ghost var before := answers;
        if current.Some? {
          answers := answers[current.value := Some(input)];
        }
        assert answers == Assign(before, input);
        chat := chat + [Message(System, Strip(reply))];
      }
    }

    /** The generate-plan button is shown exactly when every answer is given. */
    method PlanButtonShown() returns (shown: bool)
      requires Valid()
      ensures shown <==> forall i :: 0 <= i < |answers| ==> answers[i].Some?
    {
      var next := NextQuestion();
      shown := next.None?;
    }

    /** The generate button: when it is shown and pressed, the stripped reply
        of the plan request becomes the final plan; otherwise nothing
        changes. The answers and the transcript are never touched. */
    method GeneratePlan(pressed: bool, reply: string)
      requires Valid()
      modifies this
      ensures Valid() && answers == old(answers) && chat == old(chat)
      ensures pressed && (forall i :: 0 <= i < |answers| ==> answers[i].Some?) ==> finalPlan == Some(Strip(reply))
      ensures !(pressed && forall i :: 0 <= i < |answers| ==> answers[i].Some?) ==> finalPlan == old(finalPlan)
    {
      var shown := PlanButtonShown();
      if shown && pressed {
        finalPlan := Some(Strip(reply));
      }
    }
  }
}
