/**
 * The error record shared between an image build or push and its event listener
 * (`DockerArtifactHandler.DockerError`), the listener's effect on it, and the check
 * made once the operation has completed (`handleError`).
 */
module DockerErrors {
  import opened Wrappers

  /** The two engine operations; each listener writes its own message prefix. */
  datatype Operation = Build | Push

  function FailurePrefix(op: Operation): string {
    match op
    case Build => "Unable to build Docker image: "
    case Push => "Unable to push Docker image: "
  }

  /** An exception passed to the listener; `getMessage()` may be null. */
  datatype Throwable = Throwable(message: Option<string>)

  /** Java's string concatenation renders a null string as "null". */
  function StringOf(text: Option<string>): string {
    match text
    case None => "null"
    case Some(chars) => chars
  }

  /** The four listener callbacks (their strings may be null); all but `OnEvent` end the operation. */
  datatype Event =
    | OnSuccess(message: Option<string>)
    | OnError(message: Option<string>)
    | OnThrowable(cause: Throwable)
    | OnEvent(event: string)

  predicate IsTerminal(e: Event) {
    !e.OnEvent?
  }

  predicate IsFailure(e: Event) {
    e.OnError? || e.OnThrowable?
  }

  /** The message an error callback stores: the operation's prefix and the engine's text. */
  function FailureMessage(op: Operation, e: Event): string
    requires IsFailure(e)
  {
    FailurePrefix(op) + StringOf(if e.OnError? then e.message else e.cause.message)
  }

  /** The value of a `DockerError`: the flag and the message (absent until one is set). */
  datatype ErrorState = ErrorState(error: bool, errorMsg: Option<string>)

  const Clear := ErrorState(false, None)

  /**
   * The effect of one listener callback on the error record: an error callback sets
   * the flag and stores its message, and the flag stays in step with the message.
   */
  function Step(op: Operation, s: ErrorState, e: Event): (r: ErrorState)
    ensures (s.error <==> s.errorMsg.Some?) ==> (r.error <==> r.errorMsg.Some?)
    ensures IsFailure(e) ==> r.error && r.errorMsg == Some(FailureMessage(op, e))
    ensures !IsFailure(e) ==> r == s
  {
    if IsFailure(e) then ErrorState(true, Some(FailureMessage(op, e))) else s
  }

  /** The effect of a sequence of callbacks, in order. */
  function Run(op: Operation, s: ErrorState, events: seq<Event>): ErrorState {
    if events == [] then s else Step(op, Run(op, s, events[..|events| - 1]), events[|events| - 1])
  }

  /** The outcome of `handleError`: return normally, or raise with the stored message. */
  datatype Outcome = Completed | Raised(message: Option<string>)

  class DockerError {
    var error: bool
    var errorMsg: Option<string>

    ghost predicate Valid()
      reads this
    {
      error <==> errorMsg.Some?
    }

    function State(): ErrorState
      reads this
    {
      ErrorState(error, errorMsg)
    }

    constructor ()
      ensures Valid() && State() == Clear
    {
      error := false;
      errorMsg := None;
    }

    /** Whether an error was recorded; for a valid record, exactly when a message is held. */
    function IsError(): (r: bool)
      reads this
      ensures Valid() ==> (r <==> GetErrorMsg().Some?)
    {
      error
    }

    /** The stored message; for a valid record, present exactly when the flag is set. */
    function GetErrorMsg(): (r: Option<string>)
      reads this
      ensures Valid() ==> (r.Some? <==> error)
    {
      errorMsg
    }

    method SetErrorMsg(msg: string)
      modifies this
      ensures Valid()
      ensures IsError() && GetErrorMsg() == Some(msg)
    {
      error := true;
      errorMsg := Some(msg);
    }
  }

  /** The listener: error callbacks store a message, the others leave the record alone. */
  method Listen(op: Operation, record: DockerError, e: Event)
    requires record.Valid()
    modifies record
    ensures record.Valid()
    ensures record.State() == Step(op, old(record.State()), e)
  {
    match e
    case OnSuccess(_) =>
    case OnError(message) =>
      record.SetErrorMsg(FailurePrefix(op) + StringOf(message));
    case OnThrowable(t) =>
      record.SetErrorMsg(FailurePrefix(op) + StringOf(t.message));
    case OnEvent(_) =>
  }

  /** Raises with exactly the stored message when the flag is set, and returns otherwise. */
  method HandleError(record: DockerError) returns (outcome: Outcome)
    ensures outcome.Raised? <==> record.IsError()
    ensures outcome.Raised? ==> outcome.message == record.GetErrorMsg()
  {
    if record.IsError() {
      outcome := Raised(record.GetErrorMsg());
    } else {
      outcome := Completed;
    }
  }

  /** The position of the first terminal callback. */
  function FirstTerminal(events: seq<Event>): (k: nat)
    requires exists i :: 0 <= i < |events| && IsTerminal(events[i])
    ensures k < |events| && IsTerminal(events[k])
    ensures forall j :: 0 <= j < k ==> !IsTerminal(events[j])
  {
    if IsTerminal(events[0]) then 0
    else
      assert exists i :: 0 <= i < |events[1..]| && IsTerminal(events[1..][i]) by {
        var i :| 0 <= i < |events| && IsTerminal(events[i]);
        assert i > 0 && events[1..][i - 1] == events[i];
      }
      1 + FirstTerminal(events[1..])
  }

  /**
   * A build or push seen sequentially: a fresh record, the callbacks up to the first
   * terminal one (when the wait is released), then `handleError`. The outcome is
   * normal exactly when that callback is `onSuccess`; otherwise it raises with the
   * operation's prefix and the engine's message.
   */
  method AwaitOperation(op: Operation, events: seq<Event>) returns (outcome: Outcome)
    requires exists i :: 0 <= i < |events| && IsTerminal(events[i])
    ensures var e := events[FirstTerminal(events)];
      && (e.OnSuccess? ==> outcome == Completed)
      && (e.OnError? ==> outcome == Raised(Some(FailurePrefix(op) + StringOf(e.message))))
      && (e.OnThrowable? ==> outcome == Raised(Some(FailurePrefix(op) + StringOf(e.cause.message))))
  {
    var record := new DockerError();
    var k := FirstTerminal(events);
    var i := 0;
    while !IsTerminal(events[i])
      invariant 0 <= i <= k
      invariant record.Valid() && record.State() == Clear
      decreases k - i
    {
      Listen(op, record, events[i]);
      i := i + 1;
    }
    assert i == k;
    var last := events[i];
    Listen(op, record, last);
    outcome := HandleError(record);
  }

  // ----- the error record over several callbacks -----

  lemma {:induction false} RunSnoc(op: Operation, s: ErrorState, events: seq<Event>, e: Event)
    ensures Run(op, s, events + [e]) == Step(op, Run(op, s, events), e)
  {
    assert (events + [e])[..|events|] == events;
  }

  /** Callbacks that are not errors (`onSuccess`, `onEvent`) leave the record as it is. */
  lemma {:induction false} QuietCallbacksKeepRecord(op: Operation, s: ErrorState, events: seq<Event>)
    requires forall j :: 0 <= j < |events| ==> !IsFailure(events[j])
    ensures Run(op, s, events) == s
    decreases |events|
  {
    if events != [] {
      QuietCallbacksKeepRecord(op, s, events[..|events| - 1]);
    }
  }

  /**
   * The record keeps the last message written: after an error callback followed only
   * by callbacks that are not errors, it holds that callback's message.
   */
  lemma {:induction false} LastErrorWins(op: Operation, s: ErrorState, events: seq<Event>, i: nat)
    requires i < |events| && IsFailure(events[i])
    requires forall j :: i < j < |events| ==> !IsFailure(events[j])
    ensures Run(op, s, events) == ErrorState(true, Some(FailureMessage(op, events[i])))
  {
    var before, after := events[..i + 1], events[i + 1..];
    assert events == before + after;
    assert before == events[..i] + [events[i]];
    RunSnoc(op, s, events[..i], events[i]);
    RunAppend(op, s, before, after);
    QuietCallbacksKeepRecord(op, Run(op, s, before), after);
  }

  lemma {:induction false} RunAppend(op: Operation, s: ErrorState, xs: seq<Event>, ys: seq<Event>)
    ensures Run(op, s, xs + ys) == Run(op, Run(op, s, xs), ys)
    decreases |ys|
  {
    if ys == [] {
      assert xs + ys == xs;
    } else {
      var init := ys[..|ys| - 1];
      assert (xs + ys)[..|xs + ys| - 1] == xs + init;
      RunAppend(op, s, xs, init);
    }
  }
}
