/** The guided questionnaire of the main page: a fixed list of questions is
    asked one at a time, the session remembers which key it asked last, and
    each non-empty chat message is stored as the answer to that key. */
module Questionnaire {
  import opened Wrappers
  import opened Text
  import opened Chat

  datatype Question = Question(key: string, prompt: string)

  /** The questions in the order they are asked. The answer to Questions[i]
      is kept at position i of the answer sequence. */
  const Questions: seq<Question> := [
    Question("ProjectDescription", "Please describe the project in a few sentences."),
    Question("Location", "Which part of NYC is the school located in?"),
    Question("Grades", "How many grades will the school have?"),
    Question("StudentsPerClass", "What is the average number of students per class?"),
    Question("Timeline", "What is the expected construction timeline (in months)?"),
    Question("SquareFootage", "What is the square footage of the construction?"),
    Question("SpecialReqs", "Are there any special facilities or requirements needed?")
  ]

  /** An answer is missing when it is absent or the empty string. */
  predicate Unanswered(a: Option<string>)
  {
    a == None || a == Some("")
  }

  /** The position of the first question, in declaration order, whose answer
      is missing; None exactly when every question is answered. */
  function FirstUnanswered(answers: seq<Option<string>>): (r: Option<nat>)
    ensures r.Some? ==> r.value < |answers| && Unanswered(answers[r.value])
    ensures r.Some? ==> forall i :: 0 <= i < r.value ==> !Unanswered(answers[i])
    ensures r.None? <==> forall i :: 0 <= i < |answers| ==> !Unanswered(answers[i])
  {
    if answers == [] then None
    else if Unanswered(answers[0]) then Some(0)
    else
      match FirstUnanswered(answers[1..])
      case None => None
      case Some(k) => Some(k + 1)
  }

  /** Answers are filled front to back: no stored empty string, and no
      answer after a missing one. */
  predicate InOrder(answers: seq<Option<string>>)
  {
    && (forall i :: 0 <= i < |answers| ==> answers[i] != Some(""))
    && (forall i, j :: 0 <= i < j < |answers| && answers[j].Some? ==> answers[i].Some?)
  }

  /** The answers after a submission: the input is stored under the pending
      key when there is one, and nothing else changes. */
  function Commit(answers: seq<Option<string>>, pending: Option<nat>, input: string): (r: seq<Option<string>>)
    requires pending.Some? ==> pending.value < |answers|
    ensures |r| == |answers|
    ensures forall i :: 0 <= i < |r| && pending != Some(i) ==> r[i] == answers[i]
    ensures pending.Some? ==> r[pending.value] == Some(input)
  {
    if pending.Some? then answers[pending.value := Some(input)] else answers
  }

  /** Storing a non-empty answer under the first missing key keeps the
      answers in order, moves the first missing key one step on, and leaves
      every answered key as it was. */
  lemma CommitAdvances(answers: seq<Option<string>>, k: nat, input: string)
    requires InOrder(answers) && input != ""
    requires FirstUnanswered(answers) == Some(k)
    ensures var r := Commit(answers, Some(k), input);
      && InOrder(r)
      && FirstUnanswered(r) == (if k + 1 < |answers| then Some(k + 1) else None)
      && forall i :: 0 <= i < |answers| && !Unanswered(answers[i]) ==> r[i] == answers[i]
  {
    var r := Commit(answers, Some(k), input);
    assert answers[k] == None;
    assert r == answers[k := Some(input)];
    forall i | 0 <= i < |r|
      ensures r[i] != Some("")
    {
    }
    forall i, j | 0 <= i < j < |r| && r[j].Some?
      ensures r[i].Some?
    {
      if j != k {
        assert answers[j].Some?;
        assert j < k;
      }
    }
    forall i | 0 <= i <= k
      ensures !Unanswered(r[i])
    {
    }
    if k + 1 < |answers| {
      assert answers[k + 1] == None;
      assert Unanswered(r[k + 1]);
      assert FirstUnanswered(r) == Some(k + 1);
    }
  }

  /** The chat session of the guided flow. */
  class GuidedSession {
    /** collected_info: the answer to Questions[i] is answers[i]. */
    var answers: seq<Option<string>>
    /** last_question_key, as a question position. */
    var lastAsked: Option<nat>
    /** chat_history */
    var chat: seq<Message>
    /** final_plan, as the reply text before it is parsed */
    var finalPlan: Option<string>

    /** Before the first message nothing is pending and nothing is answered;
        from then on the pending key is always the first missing one. */
    ghost predicate Valid()
      reads this
    {
      && |answers| == |Questions|
      && InOrder(answers)
      && (chat == [] ==> lastAsked == None && forall i :: 0 <= i < |answers| ==> answers[i] == None)
      && (chat != [] ==> lastAsked == FirstUnanswered(answers))
    }

    constructor ()
      ensures Valid()
      ensures chat == [] && lastAsked == None && finalPlan == None
      ensures |answers| == |Questions| && forall i :: 0 <= i < |answers| ==> answers[i] == None
    {
      answers := seq(|Questions|, _ => None);
      lastAsked := None;
      chat := [];
      finalPlan := None;
    }

    /** get_next_question: scan the questions in declaration order for the
        first missing answer. */
    method NextQuestion() returns (next: Option<nat>)
      requires |answers| == |Questions|
      ensures next == FirstUnanswered(answers)
      ensures next.Some? ==> next.value < |Questions|
    {
      var i := 0;
      while i < |Questions|
        invariant 0 <= i <= |Questions|
        invariant forall j :: 0 <= j < i ==> !Unanswered(answers[j])
      {
        if Unanswered(answers[i]) {
          return Some(i);
        }
        i := i + 1;
      }
      return None;
    }

    /** One chat submission. An empty input does nothing. Otherwise the input
        is stored under the key asked last (on the first message nothing was
        asked yet, so nothing is stored), the user message and the
        assistant's stripped reply are appended, and the pending key becomes
        the first missing one after the write. */
    method Submit(input: string, reply: string)
      requires Valid()
      modifies this
      ensures Valid() && finalPlan == old(finalPlan)
      ensures input == "" ==> answers == old(answers) && lastAsked == old(lastAsked) && chat == old(chat)
      ensures input != "" ==> answers == Commit(old(answers), old(lastAsked), input)
      ensures input != "" ==> lastAsked == FirstUnanswered(answers)
      ensures input != "" ==> chat == old(chat) + [Message(User, input), Message(Assistant, Strip(reply))]
    {
      if input != "" {
        if lastAsked.Some? {
          CommitAdvances(answers, lastAsked.value, input);
          answers := answers[lastAsked.value := Some(input)];
        }
        chat := chat + [Message(User, input)];
        var next := NextQuestion();
        lastAsked := next;
        chat := chat + [Message(Assistant, Strip(reply))];
      }
    }

    /** The generate-plan button is offered exactly when no answer is missing. */
    method PlanOffered() returns (offered: bool)
      requires Valid()
      ensures offered <==> forall i :: 0 <= i < |answers| ==> !Unanswered(answers[i])
    {
      var next := NextQuestion();
      offered := next.None?;
    }

    /** The generate button: when it is offered and pressed, the stripped
        reply of the plan request becomes the final plan; otherwise nothing
        changes. The answers, the pending key and the transcript are never
        touched. */
    method GeneratePlan(pressed: bool, reply: string)
      requires Valid()
      modifies this
      ensures Valid() && answers == old(answers) && lastAsked == old(lastAsked) && chat == old(chat)
      ensures pressed && (forall i :: 0 <= i < |answers| ==> !Unanswered(answers[i])) ==> finalPlan == Some(Strip(reply))
      ensures !(pressed && forall i :: 0 <= i < |answers| ==> !Unanswered(answers[i])) ==> finalPlan == old(finalPlan)
    {
      var offered := PlanOffered();
      if offered && pressed {
        finalPlan := Some(Strip(reply));
      }
    }
  }
}
