/** The client's session state and its ask handler (the `Index` page).

    `handleAsk` is one asynchronous function: a guard, a synchronous prefix
    that marks the session busy and builds the request, an `await` on the
    network, then a success or failure update and a `finally`. The model
    splits it at the `await` into `Begin` and `Settle`; what the network
    returns is the `Outcome` handed to `Settle`. */
module Session {
  import opened Wrappers
  import opened Text
  import opened Conversation

  /** The four configuration strings the user types in. */
  datatype Config = Config(mondayApiKey: string, geminiApiKey: string,
                           dealsBoardId: string, workOrdersBoardId: string)
  {
    /** The configuration with one field replaced. */
    function With(field: ConfigField, value: string): (c: Config)
      ensures c.Get(field) == value
      ensures forall f :: f != field ==> c.Get(f) == Get(f)
    {
      match field
      case MondayApiKey => this.(mondayApiKey := value)
      case GeminiApiKey => this.(geminiApiKey := value)
      case DealsBoardId => this.(dealsBoardId := value)
      case WorkOrdersBoardId => this.(workOrdersBoardId := value)
    }

    function Get(field: ConfigField): string {
      match field
      case MondayApiKey => mondayApiKey
      case GeminiApiKey => geminiApiKey
      case DealsBoardId => dealsBoardId
      case WorkOrdersBoardId => workOrdersBoardId
    }
  }

  datatype ConfigField = MondayApiKey | GeminiApiKey | DealsBoardId | WorkOrdersBoardId

  /** The JSON body POSTed to the agent: the question, the four
      configuration strings and the history, as flat fields. */
  datatype Request = Request(question: string, config: Config, history: seq<Message>)

  /** The two fields of a parsed 2xx body the client reads. `None` stands
      for a field that is absent or falsy (`null`, `""`, ...): both take the
      fallback of the `||` that reads them. */
  datatype Body<T> = Body(answer: Option<string>, trace: Option<T>)

  /** How the awaited part of `handleAsk` ended: `fetch` resolved with a
      status and, for a 2xx status, a body that parsed; or something threw
      (`fetch` itself, or `res.json()`). A thrown `Error` carries its
      `message`; any other thrown value has none. */
  datatype Outcome<T> = Responded(status: nat, body: Body<T>) | Threw(message: Option<string>)

  const NoAnswer: string := "No answer returned."
  const UnexpectedError: string := "An unexpected error occurred."
  const StatusFailurePrefix: string := "Request failed with status "

  /** `Response.ok`: the status is in the range 200-299. */
  predicate IsOk(status: nat) {
    200 <= status <= 299
  }

  /** The message of the error thrown for a response that is not ok. */
  function StatusFailure(status: nat): string {
    StatusFailurePrefix + Decimal(status)
  }

  /** Reads a status code back out of a status-failure message. */
  function ParseStatusFailure(m: string): Option<nat> {
    if StartsWith(m, StatusFailurePrefix) &&
       (forall i :: |StatusFailurePrefix| <= i < |m| ==> IsAsciiDigit(m[i]))
    then Some(DigitsValue(m[|StatusFailurePrefix|..]))
    else None
  }

  /** A status-failure message names its status code exactly, so two
      different codes never produce the same message. */
  lemma StatusFailureRoundTrip(status: nat)
    ensures ParseStatusFailure(StatusFailure(status)) == Some(status)
  {
    var m := StatusFailure(status);
    assert m[..|StatusFailurePrefix|] == StatusFailurePrefix;
    assert m[|StatusFailurePrefix|..] == Decimal(status);
    DecimalRoundTrip(status);
  }

  /** What `handleAsk` makes of an outcome: an answer and a trace to show,
      or an error message. */
  datatype Settlement<T> = Answered(answer: string, trace: Option<T>) | Failed(message: string)

  /** The try/catch of `handleAsk`: a non-ok status is thrown as an `Error`
      and caught with the rest; a 2xx body yields its answer (or the fixed
      placeholder) and its trace (or none). */
  function SettlementOf<T>(o: Outcome<T>): (s: Settlement<T>)
    ensures s.Answered? <==> o.Responded? && IsOk(o.status)
    ensures s.Answered? ==> s.answer != "" && s.trace == o.body.trace
    ensures s.Answered? && o.body.answer.Some? && o.body.answer.value != "" ==>
      s.answer == o.body.answer.value
    ensures s.Failed? && o.Responded? ==> ParseStatusFailure(s.message) == Some(o.status)
    ensures o.Threw? ==> s.Failed?
    ensures o == Threw(None) ==> s.message == UnexpectedError
    ensures o.Threw? && o.message.Some? ==> s.message == o.message.value
  {
    match o
    case Responded(status, body) =>
      if !IsOk(status) then
        StatusFailureRoundTrip(status);
        Failed(StatusFailure(status))
      else
        var answer := if body.answer.Some? && body.answer.value != "" then body.answer.value else NoAnswer;
        Answered(answer, body.trace)
    case Threw(message) =>
      Failed(message.GetOr(UnexpectedError))
  }

  /** A failed turn leaves an empty error message (which the page does not
      display) exactly when what was thrown was an `Error` whose message is
      empty. */
  lemma EmptyErrorIff<T>(o: Outcome<T>)
    requires SettlementOf(o).Failed?
    ensures SettlementOf(o).message == "" <==> o == Threw(Some(""))
  {
    if o.Responded? {
      assert |StatusFailure(o.status)| > 0;
    }
  }

  /** The three answer cases of the success path: a non-empty answer is
      shown as is, and a missing or empty one becomes the placeholder. */
  lemma AnsweredText<T>(status: nat, answer: Option<string>, trace: Option<T>)
    requires IsOk(status)
    ensures SettlementOf(Responded(status, Body(answer, trace))).answer ==
      if answer == None || answer == Some("") then NoAnswer else answer.value
  {
  }

  /** What was thrown becomes the error: an `Error`'s own message, or the
      generic text for anything else. */
  lemma ThrownMessage<T>(m: string)
    ensures SettlementOf<T>(Threw(Some(m))) == Failed(m)
    ensures SettlementOf<T>(Threw(None)) == Failed(UnexpectedError)
    ensures UnexpectedError == "An unexpected error occurred."
  {
  }

  /** A 500 response reads "Request failed with status 500". */
  lemma Status500Message<T>(body: Body<T>)
    ensures SettlementOf(Responded(500, body)) == Failed("Request failed with status 500")
  {
    assert Decimal(5) == "5";
    assert Decimal(50) == "50";
    assert Decimal(500) == "500";
  }

  /** The session state of the page: ten `useState` fields. The trace is
      opaque to the client and is kept as a value of type `T`. */
  class Session<T> {
    var mondayApiKey: string
    var geminiApiKey: string
    var dealsBoardId: string
    var workOrdersBoardId: string
    var question: string
    var answer: string
    var trace: Option<T>
    var loading: bool
    var error: string
    var history: seq<Message>

    /** The history only ever holds whole user/assistant exchanges. */
    ghost predicate Valid()
      reads this
    {
      Paired(history)
    }

    function CurrentConfig(): Config
      reads this
    {
      Config(mondayApiKey, geminiApiKey, dealsBoardId, workOrdersBoardId)
    }

    /** A fresh page: every string empty, no trace, idle, no history. */
    constructor ()
      ensures Valid()
      ensures CurrentConfig() == Config("", "", "", "")
      ensures question == "" && answer == "" && trace == None
      ensures !loading && error == "" && history == []
    {
      mondayApiKey, geminiApiKey, dealsBoardId, workOrdersBoardId := "", "", "", "";
      question, answer, trace := "", "", None;
      loading, error, history := false, "", [];
    }

    /** An edit in the configuration panel: one field changes, at any time,
      also while a request is in flight. */
    method SetConfigField(field: ConfigField, value: string)
      requires Valid()
      modifies this
      ensures Valid()
      ensures CurrentConfig() == old(CurrentConfig()).With(field, value)
      ensures question == old(question) && answer == old(answer) && trace == old(trace)
      ensures loading == old(loading) && error == old(error) && history == old(history)
    {
      match field
      case MondayApiKey => mondayApiKey := value;
      case GeminiApiKey => geminiApiKey := value;
      case DealsBoardId => dealsBoardId := value;
      case WorkOrdersBoardId => workOrdersBoardId := value;
    }

    /** An edit of the question text area. */
    method SetQuestion(text: string)
      requires Valid()
      modifies this
      ensures Valid()
      ensures question == text
      ensures CurrentConfig() == old(CurrentConfig()) && answer == old(answer) && trace == old(trace)
      ensures loading == old(loading) && error == old(error) && history == old(history)
    {
      question := text;
    }

    /** The synchronous part of `handleAsk`, up to the `await`. A question
        that trims to nothing returns at once: no state change and no
        request. Otherwise the session is marked loading, the error and
        trace are cleared, and the request carries the trimmed question,
        the current configuration and the history as it was before this
        turn. There is no check of `loading`: a second ask while one is in
        flight is let through. The previous answer and the typed question
        are left in place. */
    method Begin() returns (request: Option<Request>)
      requires Valid()
      modifies this
      ensures Valid()
      ensures request.None? <==> JsTrim(old(question)) == ""
      ensures request.None? ==> unchanged(this)
      ensures request.Some? ==>
        request.value == Request(JsTrim(old(question)), old(CurrentConfig()), old(history)) &&
        loading && error == "" && trace == None &&
        answer == old(answer) && question == old(question) && history == old(history) &&
        CurrentConfig() == old(CurrentConfig())
    {
      if JsTrim(question) == "" {
        return None;
      }
      var currentQuestion := JsTrim(question);
      loading := true;
      error := "";
      trace := None;
      request := Some(Request(currentQuestion, CurrentConfig(), history));
    }

    /** The part of `handleAsk` after the `await`, for the trimmed question
        `currentQuestion` that `Begin` sent. On success the answer and trace
        are shown, the exchange is appended to the history and the question
        box is cleared; on failure only the error is set. Either way the
        session stops loading. */
    method Settle(currentQuestion: string, outcome: Outcome<T>)
      requires Valid()
      modifies this
      ensures Valid()
      ensures !loading
      ensures CurrentConfig() == old(CurrentConfig())
      ensures match SettlementOf(outcome)
        case Answered(a, t) =>
          answer == a && trace == t && error == old(error) && question == "" &&
          history == old(history) + Entries(Exchange(currentQuestion, a))
        case Failed(m) =>
          error == m && answer == old(answer) && trace == old(trace) &&
          question == old(question) && history == old(history)
    {
      match SettlementOf(outcome) {
        case Answered(newAnswer, newTrace) =>
          answer := newAnswer;
          trace := newTrace;
          PairedExtend(history, Exchange(currentQuestion, newAnswer));
          history := history + Entries(Exchange(currentQuestion, newAnswer));
          question := "";
        case Failed(message) =>
          error := message;
      }
      loading := false;
    }

    /** One whole `handleAsk`, with the network's outcome given. A blank
        question changes nothing and sends nothing. Otherwise the request
        carries the pre-turn history, and afterwards the session is idle
        with either the new answer, its trace, no error, an empty question
        box and one more exchange in the history; or the error message, no
        trace, and the answer, question and history it had before. */
    method HandleAsk(outcome: Outcome<T>) returns (sent: Option<Request>)
      requires Valid()
      modifies this
      ensures Valid()
      ensures sent.None? <==> JsTrim(old(question)) == ""
      ensures sent.None? ==> unchanged(this)
      ensures sent.Some? ==>
        sent.value == Request(JsTrim(old(question)), old(CurrentConfig()), old(history)) &&
        !loading && CurrentConfig() == old(CurrentConfig()) &&
        match SettlementOf(outcome)
        case Answered(a, t) =>
          answer == a && trace == t && error == "" && question == "" &&
          history == old(history) + Entries(Exchange(sent.value.question, a))
        case Failed(m) =>
          error == m && trace == None && answer == old(answer) &&
          question == old(question) && history == old(history)
    {
      sent := Begin();
      if sent.Some? {
        Settle(sent.value.question, outcome);
      }
    }
  }

  /** Three turns whose outcomes the verifier checks against the contracts:
      a successful answer with a trace, a server error, and a 2xx body
      without an answer. */
  method ConversationScenario<T>(rows: T)
  {
    var s := new Session<T>();
    var q := "What is our pipeline value?";
    s.SetQuestion(q);
    assert JsTrim(q) == q;
    var sent := s.HandleAsk(Responded(200, Body(Some("$1.2M across 14 deals"), Some(rows))));
    assert sent == Some(Request(q, Config("", "", "", ""), []));
    assert s.history == [Message(UserRole, q), Message(AssistantRole, "$1.2M across 14 deals")];
    assert s.answer == "$1.2M across 14 deals" && s.trace == Some(rows);
    assert !s.loading && s.question == "" && s.error == "";

    var follow := "And by region?";
    s.SetQuestion(follow);
    assert JsTrim(follow) == follow;
    Status500Message<T>(Body(None, None));
    sent := s.HandleAsk(Responded(500, Body(None, None)));
    assert sent.value.history == [Message(UserRole, q), Message(AssistantRole, "$1.2M across 14 deals")];
    assert s.error == "Request failed with status 500";
    assert |s.history| == 2 && s.question == follow && s.trace == None;
    assert s.answer == "$1.2M across 14 deals" && !s.loading;

    sent := s.HandleAsk(Responded(200, Body(None, None)));
    assert s.answer == NoAnswer && s.error == "" && s.question == "";
    assert s.history[2..] == [Message(UserRole, follow), Message(AssistantRole, NoAnswer)];
  }
}
