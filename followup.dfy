/** The follow-up assistant page: a four-stage flow. The user describes the
    project, the language model answers with follow-up questions (one per
    line), a form collects one answer per question, the description and the
    answers are combined into one text for the plan request, and the plan
    returned is shown. */
module FollowUp {
  import opened Text
  import opened Chat

  datatype Stage = InitialInput | CollectingAnswers | GeneratingPlan | DisplayPlan

  /** Position of a stage in the flow; stages only move to higher ranks. */
  function Rank(s: Stage): nat
  {
    match s
    case InitialInput => 0
    case CollectingAnswers => 1
    case GeneratingPlan => 2
    case DisplayPlan => 3
  }

  /** The contents of the user's messages, in transcript order. */
  function UserContents(chat: seq<Message>): (r: seq<string>)
    ensures |r| <= |chat|
    ensures chat != [] && chat[0].role == User ==> |r| >= 1 && r[0] == chat[0].content
  {
    if chat == [] then []
    else if chat[0].role == User then [chat[0].content] + UserContents(chat[1..])
    else UserContents(chat[1..])
  }

  function Header(original: string): string
  {
    "User description: " + original + "\n\nFollow-up Answers:\n"
  }

  /** One combined line for a question and its answer, both stripped. */
  function AnswerLine(q: string, a: string): string
  {
    "- " + Strip(q) + ": " + Strip(a)
  }

  function Min(a: nat, b: nat): nat
  {
    if a <= b then a else b
  }

  /** The lines, each followed by a newline, as built by repeated +=. */
  function Terminated(lines: seq<string>): string
  {
    if lines == [] then "" else Terminated(lines[..|lines| - 1]) + lines[|lines| - 1] + "\n"
  }

  /** The "- q: a" lines of the first n pairs, without newlines. */
  function Lines(qs: seq<string>, answers: seq<string>, n: nat): (r: seq<string>)
    requires n <= |qs| && n <= |answers|
    ensures |r| == n
    ensures forall i :: 0 <= i < n ==> r[i] == AnswerLine(qs[i], answers[i])
  {
    if n == 0 then [] else Lines(qs, answers, n - 1) + [AnswerLine(qs[n - 1], answers[n - 1])]
  }

  /** combined_info: the header with the user's description, then one line
      per pair of zip(questions, answers); zip stops at the shorter list. */
  function CombinedInfo(original: string, qs: seq<string>, answers: seq<string>): (info: string)
    ensures StartsWith(info, Header(original))
  {
    Header(original) + Terminated(Lines(qs, answers, Min(|qs|, |answers|)))
  }

  /** A line without newline, its newline, and whatever follows split into
      that line and the pieces of the rest. */
  lemma SplitLine(line: string, rest: string)
    requires '\n' !in line
    ensures Split(line + "\n" + rest, '\n') == [line] + Split(rest, '\n')
  {
    SplitConcat(line, rest, '\n');
    SplitNoSep(line, '\n');
  }

  lemma AnswerLineSingle(q: string, a: string)
    requires '\n' !in q && '\n' !in a
    ensures '\n' !in AnswerLine(q, a)
  {
    StripKeepsOut(q, '\n');
    StripKeepsOut(a, '\n');
  }

  /** Splitting newline-terminated lines, followed by any text, gives back
      the lines and then the pieces of that text. */
  lemma {:induction false} TerminatedSplit(lines: seq<string>, rest: string)
    requires forall k :: 0 <= k < |lines| ==> '\n' !in lines[k]
    ensures Split(Terminated(lines) + rest, '\n') == lines + Split(rest, '\n')
    decreases |lines|
  {
    if lines == [] {
      assert Terminated(lines) + rest == rest;
    } else {
      var init, last := lines[..|lines| - 1], lines[|lines| - 1];
      var tail := last + "\n" + rest;
      assert Terminated(lines) == Terminated(init) + last + "\n";
      AppendAssoc(Terminated(init) + last, "\n", rest);
      AppendAssoc(Terminated(init), last, "\n" + rest);
      AppendAssoc(last, "\n", rest);
      TerminatedSplit(init, tail);
      SplitLine(last, rest);
      assert lines == init + [last];
    }
  }

  /** A prefix of a concatenation. */
  lemma PrefixOfConcat(a: string, b: string)
    ensures StartsWith(a + b, a)
  {
    assert (a + b)[..|a|] == a;
  }

  /** The combined text starts with the user's description and continues
      with exactly one line per zipped pair, in question order, when no
      question or answer spans several lines. */
  lemma CombinedInfoLines(original: string, qs: seq<string>, answers: seq<string>)
    requires forall i :: 0 <= i < |qs| ==> '\n' !in qs[i]
    requires forall i :: 0 <= i < |answers| ==> '\n' !in answers[i]
    ensures var info := CombinedInfo(original, qs, answers);
      && StartsWith(info, "User description: " + original)
      && Split(info[|Header(original)|..], '\n') == Lines(qs, answers, Min(|qs|, |answers|)) + [""]
  {
    var n := Min(|qs|, |answers|);
    var lines := Lines(qs, answers, n);
    var body := Terminated(lines);
    forall k | 0 <= k < n
      ensures '\n' !in lines[k]
    {
      AnswerLineSingle(qs[k], answers[k]);
    }
    TerminatedSplit(lines, "");
    assert body + "" == body;
    var intro, tail := "User description: " + original, "\n\nFollow-up Answers:\n";
    AppendAssoc(intro, tail, body);
    PrefixOfConcat(intro, tail + body);
    assert (Header(original) + body)[|Header(original)|..] == body;
  }

  lemma AppendAssoc(a: string, b: string, c: string)
    ensures (a + b) + c == a + (b + c)
  {
  }

  /** One more line, one more newline-terminated piece. */
  lemma AppendLine(head: string, lines: seq<string>, line: string)
    ensures head + Terminated(lines + [line]) == (head + Terminated(lines)) + (line + "\n")
  {
    assert (lines + [line])[..|lines|] == lines;
    AppendAssoc(Terminated(lines), line, "\n");
    AppendAssoc(head, Terminated(lines), line + "\n");
  }

  /** Builds combined_info with += over the zipped pairs. */
  method BuildCombinedInfo(original: string, qs: seq<string>, answers: seq<string>) returns (info: string)
    ensures info == CombinedInfo(original, qs, answers)
  {
    info := Header(original);
    var i := 0;
    while i < |qs| && i < |answers|
      invariant 0 <= i <= Min(|qs|, |answers|)
      invariant info == Header(original) + Terminated(Lines(qs, answers, i))
    {
      var line := AnswerLine(qs[i], answers[i]);
      assert Lines(qs, answers, i + 1) == Lines(qs, answers, i) + [line];
      AppendLine(Header(original), Lines(qs, answers, i), line);
      info := info + (line + "\n");
      i := i + 1;
    }
    assert i == Min(|qs|, |answers|);
  }

  /** The answers are the form's fields, one per question, in order. */
  predicate FormFilled(answers: seq<string>, qs: seq<string>, field: nat -> string)
  {
    |answers| == |qs| && forall i :: 0 <= i < |answers| ==> answers[i] == field(i)
  }

  /** The answer form: one text field per follow-up question, read in
      question order; field(i) is the text typed into the i-th field. */
  method ReadForm(qs: seq<string>, field: nat -> string) returns (inputs: seq<string>)
    ensures |inputs| == |qs|
    ensures forall i :: 0 <= i < |qs| ==> inputs[i] == field(i)
  {
    inputs := [];
    var i := 0;
    while i < |qs|
      invariant 0 <= i <= |qs|
      invariant |inputs| == i
      invariant forall j :: 0 <= j < i ==> inputs[j] == field(j)
    {
      inputs := inputs + [field(i)];
      i := i + 1;
    }
  }

  /** The session state of the page. */
  class PlannerSession {
    var stage: Stage
    /** chat_history */
    var chat: seq<Message>
    /** follow_up_questions */
    var followUps: seq<string>
    var answers: seq<string>

    ghost predicate Valid()
      reads this
    {
      && (stage == InitialInput ==> chat == [] && followUps == [] && answers == [])
      && (stage != InitialInput ==> chat != [] && chat[0].role == User)
      && (Rank(stage) >= 2 ==> |answers| == |followUps|)
      && (stage == DisplayPlan ==> chat[|chat| - 1].role == Assistant)
    }

    constructor ()
      ensures Valid()
      ensures stage == InitialInput && chat == [] && followUps == [] && answers == []
    {
      stage := InitialInput;
      chat := [];
      followUps := [];
      answers := [];
    }

    /** Stage 1: a non-empty description is appended as a user message, the
        model's reply is stripped and split into one question per line, and
        the flow moves on to collecting answers. */
    method Describe(input: string, reply: string)
      requires Valid()
      modifies this
      ensures Valid() && Rank(stage) >= Rank(old(stage))
      ensures old(stage) == InitialInput && input != "" ==>
        && stage == CollectingAnswers
        && chat == old(chat) + [Message(User, input)]
        && followUps == Split(Strip(reply), '\n')
        && answers == old(answers)
      ensures !(old(stage) == InitialInput && input != "") ==>
        stage == old(stage) && chat == old(chat) && followUps == old(followUps) && answers == old(answers)
    {
      if stage == InitialInput && input != "" {
        chat := chat + [Message(User, input)];
        followUps := Split(Strip(reply), '\n');
        stage := CollectingAnswers;
      }
    }

    /** Stage 2: the form is drawn with one field per question; on submit
        the answers are stored and the plan is generated next. */
    method Collect(submitted: bool, field: nat -> string)
      requires Valid()
      modifies this
      ensures Valid() && Rank(stage) >= Rank(old(stage))
      ensures old(stage) == CollectingAnswers && submitted ==>
        && stage == GeneratingPlan
        && FormFilled(answers, followUps, field)
        && chat == old(chat) && followUps == old(followUps)
      ensures !(old(stage) == CollectingAnswers && submitted) ==>
        stage == old(stage) && chat == old(chat) && followUps == old(followUps) && answers == old(answers)
    {
      if stage == CollectingAnswers {
        var inputs := ReadForm(followUps, field);
        if submitted {
          answers := inputs;
          stage := GeneratingPlan;
        }
      }
    }

    /** Stage 3: the first user message and the zipped answers are combined
        for the plan request; the model's plan is appended as an assistant
        message and the flow moves on to display. */
    method Generate(plan: string) returns (combined: string)
      requires Valid()
      modifies this
      ensures Valid() && Rank(stage) >= Rank(old(stage))
      ensures old(stage) == GeneratingPlan ==>
        && stage == DisplayPlan
        && combined == CombinedInfo(old(chat)[0].content, followUps, answers)
        && chat == old(chat) + [Message(Assistant, plan)]
        && followUps == old(followUps) && answers == old(answers)
      ensures old(stage) != GeneratingPlan ==>
        stage == old(stage) && chat == old(chat) && followUps == old(followUps) && answers == old(answers)
    {
      combined := "";
      if stage == GeneratingPlan {
        var original := UserContents(chat)[0];
        combined := BuildCombinedInfo(original, followUps, answers);
        chat := chat + [Message(Assistant, plan)];
        stage := DisplayPlan;
      }
    }

    /** Stage 4: the text displayed is the last transcript entry. */
    function Displayed(): (plan: string)
      reads this
      requires Valid() && stage == DisplayPlan
      ensures chat[|chat| - 1] == Message(Assistant, plan)
    {
      chat[|chat| - 1].content
    }

    /** The form and generation blocks of one run, in order. */
    method Continue(submitted: bool, field: nat -> string, plan: string)
      requires Valid()
      modifies this
      ensures Valid() && Rank(stage) >= Rank(old(stage))
      ensures old(stage) == CollectingAnswers && submitted ==>
        && stage == DisplayPlan && Displayed() == plan
        && chat == old(chat) + [Message(Assistant, plan)]
        && followUps == old(followUps)
        && FormFilled(answers, followUps, field)
      ensures old(stage) == GeneratingPlan ==>
        && stage == DisplayPlan && Displayed() == plan
        && chat == old(chat) + [Message(Assistant, plan)]
        && followUps == old(followUps) && answers == old(answers)
      ensures !(old(stage) == CollectingAnswers && submitted) && old(stage) != GeneratingPlan ==>
        stage == old(stage) && chat == old(chat) && followUps == old(followUps) && answers == old(answers)
    {
      Collect(submitted, field);
      var _ := Generate(plan);
    }

    /** One run of the page script: the four stage blocks in order, each
        acting only when the stage is its own. No run moves the stage back.
        A run that starts at InitialInput cannot have the form submitted in
        Streamlit, since the form is first drawn in that run; the contract
        still states what the blocks in order would do then. */
    method Rerun(input: string, questionsReply: string, submitted: bool, field: nat -> string, plan: string)
      requires Valid()
      modifies this
      ensures Valid() && Rank(stage) >= Rank(old(stage))
      // an empty description: nothing happens
      ensures old(stage) == InitialInput && input == "" ==>
        stage == old(stage) && chat == old(chat) && followUps == old(followUps) && answers == old(answers)
      // a description: the questions are stored and the form waits
      ensures old(stage) == InitialInput && input != "" && !submitted ==>
        && stage == CollectingAnswers
        && chat == old(chat) + [Message(User, input)]
        && followUps == Split(Strip(questionsReply), '\n')
        && answers == old(answers)
      ensures old(stage) == InitialInput && input != "" && submitted ==>
        && stage == DisplayPlan && Displayed() == plan
        && chat == old(chat) + [Message(User, input), Message(Assistant, plan)]
        && followUps == Split(Strip(questionsReply), '\n')
        && FormFilled(answers, followUps, field)
      // the form without a submit: nothing changes
      ensures old(stage) == CollectingAnswers && !submitted ==>
        stage == old(stage) && chat == old(chat) && followUps == old(followUps) && answers == old(answers)
      // the form submitted: the answers are stored and the plan is shown
      ensures old(stage) == CollectingAnswers && submitted ==>
        && stage == DisplayPlan && Displayed() == plan
        && chat == old(chat) + [Message(Assistant, plan)]
        && followUps == old(followUps)
        && FormFilled(answers, followUps, field)
      ensures old(stage) == GeneratingPlan ==>
        && stage == DisplayPlan && Displayed() == plan
        && chat == old(chat) + [Message(Assistant, plan)]
        && followUps == old(followUps) && answers == old(answers)
      ensures old(stage) == DisplayPlan ==>
        stage == old(stage) && chat == old(chat) && followUps == old(followUps) && answers == old(answers)
    {
      ghost var chat0 := chat;
      Describe(input, questionsReply);
      Continue(submitted, field, plan);
      assert chat0 + [Message(User, input)] + [Message(Assistant, plan)]
        == chat0 + [Message(User, input), Message(Assistant, plan)];
    }
  }
}
