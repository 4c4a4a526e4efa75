/** The chatbot widget: a transcript of turns and a loading flag. A
    submission appends the question at once, then on the server action's
    answer either appends the reply or takes the question back out. */
module Chatbot {
  import opened Common
  import opened Actions

  datatype Role = UserRole | AssistantRole

  /** One turn of the transcript. */
  datatype Message = Message(role: Role, content: string)

  /** The error the form shows for a rejected question. */
  const QuestionRequired: string := "Please enter a question."

  /** The form schema `z.string().min(1)`: any question of at least one
      character passes; there is no trimming, so blanks count. */
  function ValidateQuestion(question: string): (error: Option<string>)
    ensures error.None? <==> |question| >= 1
    ensures error.Some? ==> error.value == QuestionRequired
  {
    if |question| < 1 then Some(QuestionRequired) else None
  }

  /** A question made only of a blank is accepted as it is. */
  lemma BlankQuestionAccepted()
    ensures ValidateQuestion(" ").None?
    ensures ValidateQuestion("").Some?
  {
  }

  /** A submission reaches `onSubmit` only when the controls are enabled
      (not loading) and the form schema accepts the question. */
  predicate CanSubmit(isLoading: bool, question: string)
  {
    !isLoading && ValidateQuestion(question).None?
  }

  /** `prev.slice(0, prev.length - 1)`: the transcript without its last turn;
      on an empty transcript the end index is -1, which slice clamps to 0. */
  function DropLast(s: seq<Message>): (r: seq<Message>)
    ensures |r| == if s == [] then 0 else |s| - 1
    ensures r <= s
  {
    if s == [] then [] else s[..|s| - 1]
  }

  /** Dropping the last turn undoes appending one. */
  lemma DropLastUndoesAppend(s: seq<Message>, m: Message)
    ensures DropLast(s + [m]) == s
  {
  }

  /** The destructive toast raised when the answer fails. */
  function ErrorToast(error: string): Toast
  {
    Toast(true, "Error", error)
  }

  /** Turns strictly alternate, starting with a question and ending with
      its answer: every assistant turn follows the question it answers. */
  ghost predicate Paired(s: seq<Message>)
  {
    |s| % 2 == 0 &&
    forall i :: 0 <= i < |s| ==> s[i].role == (if i % 2 == 0 then UserRole else AssistantRole)
  }

  /** The question turn and the answer turn of one successful submission. */
  function Exchange(question: string, answer: string): seq<Message>
  {
    [Message(UserRole, question), Message(AssistantRole, answer)]
  }

  /** A submission that ends with an answer in the transcript. */
  predicate Answered(question: string, outcome: FlowOutcome)
  {
    ValidateQuestion(question).None? && outcome.Returned?
  }

  /** What one complete submission (controls enabled) leaves in the
      transcript: the old turns, followed by the question and its answer
      when the question passes the schema and the flow returns. */
  function AfterSubmit(prev: seq<Message>, question: string, outcome: FlowOutcome): (r: seq<Message>)
    ensures prev <= r
    ensures |r| == |prev| + (if Answered(question, outcome) then 2 else 0)
    ensures Answered(question, outcome) ==> r[|prev|..] == Exchange(question, outcome.output.answer)
  {
    if ValidateQuestion(question).Some? then prev
    else
      match GetChatbotResponse(outcome)
      case Success(data) => prev + Exchange(question, data.answer)
      case Failure(_) => prev
  }

  /** A submission is stateless: what it adds does not depend on earlier turns. */
  lemma SubmitIsStateless(prev: seq<Message>, question: string, outcome: FlowOutcome)
    ensures AfterSubmit(prev, question, outcome) == prev + AfterSubmit([], question, outcome)
  {
  }

  /** The server-action call as the client awaits it: its result reaches
      the client, or the call itself rejects (the network fails, the
      platform times out, or the server fails outside the action's try). */
  datatype Delivery = Delivered | Rejected

  /** One user-initiated submission: the question typed and what the flow did. */
  datatype Submission = Submission(question: string, outcome: FlowOutcome)

  /** The transcript after a series of submissions, one at a time. */
  function Run(prev: seq<Message>, subs: seq<Submission>): seq<Message>
    decreases |subs|
  {
    if subs == [] then prev
    else Run(AfterSubmit(prev, subs[0].question, subs[0].outcome), subs[1..])
  }

  /** The turns one submission adds: its exchange when answered, else none. */
  function Added(sub: Submission): seq<Message>
  {
    if Answered(sub.question, sub.outcome) then Exchange(sub.question, sub.outcome.output.answer) else []
  }

  /** The exchanges of the answered submissions, in submission order. */
  function Exchanges(subs: seq<Submission>): seq<Message>
    decreases |subs|
  {
    if subs == [] then [] else Added(subs[0]) + Exchanges(subs[1..])
  }

  /** One submission appends exactly its added turns. */
  lemma AfterSubmitAppends(prev: seq<Message>, sub: Submission)
    ensures AfterSubmit(prev, sub.question, sub.outcome) == prev + Added(sub)
  {
  }

  /** The transcript only grows at its end: a series of submissions leaves
      every earlier turn in place and adds exactly the answered exchanges. */
  lemma {:induction false} RunAppendsExchanges(prev: seq<Message>, subs: seq<Submission>)
    ensures Run(prev, subs) == prev + Exchanges(subs)
    decreases |subs|
  {
    if subs != [] {
      var next := AfterSubmit(prev, subs[0].question, subs[0].outcome);
      AfterSubmitAppends(prev, subs[0]);
      RunAppendsExchanges(next, subs[1..]);
      assert (prev + Added(subs[0])) + Exchanges(subs[1..]) == prev + (Added(subs[0]) + Exchanges(subs[1..]));
    }
  }

  /** Two alternating transcripts placed one after the other still alternate. */
  lemma PairedAppend(a: seq<Message>, b: seq<Message>)
    requires Paired(a) && Paired(b)
    ensures Paired(a + b)
  {
    forall i | |a| <= i < |a + b|
      ensures (a + b)[i].role == (if i % 2 == 0 then UserRole else AssistantRole)
    {
      assert (a + b)[i] == b[i - |a|];
      assert (i - |a|) % 2 == i % 2;
    }
  }

  /** The answered exchanges alternate question, answer, question, answer. */
  lemma {:induction false} ExchangesPaired(subs: seq<Submission>)
    ensures Paired(Exchanges(subs))
    decreases |subs|
  {
    if subs != [] {
      ExchangesPaired(subs[1..]);
      assert Paired(Added(subs[0]));
      PairedAppend(Added(subs[0]), Exchanges(subs[1..]));
    }
  }

  /** From an empty or alternating transcript, any series of submissions
      keeps the earlier turns as a prefix and keeps the alternation. */
  lemma RunPreservesPairing(prev: seq<Message>, subs: seq<Submission>)
    requires Paired(prev)
    ensures prev <= Run(prev, subs)
    ensures Paired(Run(prev, subs))
  {
    RunAppendsExchanges(prev, subs);
    ExchangesPaired(subs);
    PairedAppend(prev, Exchanges(subs));
  }

  /** The widget's state: the transcript and the loading flag that disables
      the input and the send button. */
  class Conversation {
    var messages: seq<Message>
    var isLoading: bool

    /** At rest the transcript alternates; while a call is in flight it is
        an alternating transcript followed by the pending question. */
    ghost predicate Valid()
      reads this
    {
      if isLoading then
        |messages| > 0 && messages[|messages| - 1].role == UserRole && Paired(messages[..|messages| - 1])
      else
        Paired(messages)
    }

    /** The widget mounts with an empty transcript, not loading. */
    constructor ()
      ensures Valid() && messages == [] && !isLoading
    {
      messages := [];
      isLoading := false;
    }

    /** The first half of `onSubmit`: when the controls are enabled and the
        question passes the schema, set the flag and append the question.
        Otherwise nothing happens. */
    method Begin(question: string) returns (dispatched: bool)
      requires Valid()
      modifies this
      ensures Valid()
      ensures dispatched == CanSubmit(old(isLoading), question)
      ensures dispatched ==> isLoading && messages == old(messages) + [Message(UserRole, question)]
      ensures !dispatched ==> isLoading == old(isLoading) && messages == old(messages)
    {
      dispatched := CanSubmit(isLoading, question);
      if dispatched {
        isLoading := true;
        messages := messages + [Message(UserRole, question)];
        assert messages[..|messages| - 1] == old(messages);
      }
    }

    /** The second half of `onSubmit`, once the server action has answered:
        append the reply, or raise the error toast and drop the last turn;
        clear the flag either way. */
    method Finish(response: ChatbotResponse) returns (toast: Option<Toast>)
      requires Valid() && isLoading
      modifies this
      ensures Valid() && !isLoading
      ensures response.Success? ==>
        messages == old(messages) + [Message(AssistantRole, response.data.answer)] && toast.None?
      ensures response.Failure? ==>
        messages == old(messages)[..|old(messages)| - 1] && toast == Some(ErrorToast(response.error))
    {
      if response.Success? {
        var pending := messages[..|messages| - 1];
        assert messages == pending + [messages[|messages| - 1]];
        messages := messages + [Message(AssistantRole, response.data.answer)];
        assert messages == pending + [messages[|messages| - 2], messages[|messages| - 1]];
        PairedAppend(pending, [messages[|messages| - 2], messages[|messages| - 1]]);
        toast := None;
      } else {
        toast := Some(ErrorToast(response.error));
        messages := DropLast(messages);
      }
      isLoading := false;
    }

    /** The whole of `onSubmit`, with the flow's outcome and the fate of the
        server-action call given. While a call is in flight nothing can be
        submitted, and a question the schema rejects shows its field error
        and changes nothing. When the action's result reaches the client,
        the transcript ends as `AfterSubmit` says, the flag is clear again,
        and a toast carrying the fixed failure message is raised exactly
        when the flow threw. When the call itself rejects, the rest of the
        handler never runs: the question stays and the flag stays set. */
    method Submit(question: string, outcome: FlowOutcome, delivery: Delivery)
      returns (fieldError: Option<string>, toast: Option<Toast>)
      requires Valid()
      modifies this
      ensures Valid()
      ensures old(isLoading) ==> isLoading && messages == old(messages) && fieldError.None? && toast.None?
      ensures !old(isLoading) ==> fieldError == ValidateQuestion(question)
      ensures !old(isLoading) && (fieldError.Some? || delivery.Delivered?) ==>
        !isLoading && messages == AfterSubmit(old(messages), question, outcome)
      ensures !old(isLoading) && fieldError.None? && delivery.Rejected? ==>
        isLoading && messages == old(messages) + [Message(UserRole, question)] && toast.None?
      ensures !old(isLoading) && (fieldError.Some? || delivery.Delivered?) ==>
        (toast.Some? <==> ValidateQuestion(question).None? && outcome.Threw?)
      ensures toast.Some? ==> toast.value == ErrorToast(UnableToAnswer)
    {
      fieldError := if isLoading then None else ValidateQuestion(question);
      var dispatched := Begin(question);
      if !dispatched || delivery.Rejected? {
        toast := None;
        return;
      }
      var response := GetChatbotResponse(outcome);
      toast := Finish(response);
      if response.Failure? {
        DropLastUndoesAppend(old(messages), Message(UserRole, question));
      }
    }
  }

  /** After a call that rejected, the controls stay disabled: every later
      submission is blocked until the widget is mounted again. */
  method StuckAfterRejectedCall(question: string, outcome: FlowOutcome, later: string, laterOutcome: FlowOutcome)
    requires |question| >= 1
  {
    var c := new Conversation();
    var e1, t1 := c.Submit(question, outcome, Rejected);
    assert c.isLoading && c.messages == [Message(UserRole, question)];
    var e2, t2 := c.Submit(later, laterOutcome, Delivered);
    assert c.isLoading && c.messages == [Message(UserRole, question)] && t2.None?;
  }

  /** A successful exchange, as the widget shows it. */
  lemma AdmissionExample()
    ensures AfterSubmit([], "What are the admission requirements?",
                        Returned(ChatbotOutput("Admissions require transcripts, recommendations, and an application form.")))
         == [Message(UserRole, "What are the admission requirements?"),
             Message(AssistantRole, "Admissions require transcripts, recommendations, and an application form.")]
  {
  }

  /** A failed call leaves an empty transcript empty. */
  lemma FailureExample(error: string)
    ensures AfterSubmit([], "Hello", Threw(error)) == []
  {
  }
}
