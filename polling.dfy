/**
  The poll loop of the bot: one cycle fetches the review API's answer for the
  fixed timestamp, looks at the first homework record, and notifies only when
  its sentence differs from the last one stored.
 */
module Polling {
  import opened Results
  import opened Json
  import opened Homework

  /** The poll timestamp the bot starts from and never advances. */
  const InitialTimestamp: int := 1656890433

  /**
    What the outside world does during one cycle: `api` answers the request
    made for a given `from_date` (a decoded body, or whatever the request
    raised), and `delivered` says whether the chat transport accepts a message.
   */
  datatype Env = Env(api: int -> Result<Value, PyError>, delivered: bool)

  /** The new stored sentence, the sentence handed to the chat transport, and the exception that ended the cycle. */
  datatype CycleResult = CycleResult(stored: string, sent: Option<string>, failure: Option<PyError>)

  /**
    The first part of a cycle: the sentence for the first homework record,
    `None` when `homeworks` has length zero, or the exception raised on the way.
    The list is measured with `len` before check_response sees the answer.
   */
  function Examine(answer: Result<Value, PyError>): (r: Result<Option<string>, PyError>)
    ensures answer.Err? ==> r == Err(answer.error)
    ensures answer.Ok? && !answer.value.Obj? ==> r == Err(TypeError)
    ensures answer.Ok? && answer.value.Obj? && "homeworks" !in answer.value.fields ==> r == Err(KeyError)
    ensures answer.Ok? && answer.value.Obj? && "homeworks" in answer.value.fields ==>
      var homeworks := answer.value.fields["homeworks"];
      && (Len(homeworks).Err? ==> r == Err(TypeError))
      && (Len(homeworks) == Ok(0) ==> r == Ok(None))
      && (Len(homeworks).Ok? && Len(homeworks).value > 0 && !homeworks.Arr? ==> r == Err(TypeError))
      && (homeworks.Arr? && |homeworks.items| > 0 ==>
            r == match ParseStatus(homeworks.items[0]) case Ok(m) => Ok(Some(m)) case Err(e) => Err(e))
  {
    var response :- answer;
    var homeworks :- Subscript(response, "homeworks");
    var n :- Len(homeworks);
    if n == 0 then Ok(None)
    else
      var records :- CheckResponse(response);
      var message :- ParseStatus(records[0]);
      Ok(Some(message))
  }

  /** What one cycle saw: the examined answer, and whether the chat transport accepted a message. */
  datatype Observation = Observation(examined: Result<Option<string>, PyError>, delivered: bool)

  /** What each of a run of cycles sees when every request is made for `timestamp`. */
  function Observe(timestamp: int, envs: seq<Env>): (r: seq<Observation>)
    ensures |r| == |envs|
    ensures forall i :: 0 <= i < |envs| ==> r[i] == Observation(Examine(envs[i].api(timestamp)), envs[i].delivered)
  {
    seq(|envs|, i requires 0 <= i < |envs| => Observation(Examine(envs[i].api(timestamp)), envs[i].delivered))
  }

  /**
    The rest of a cycle, against the stored sentence `stored`: a sentence is
    sent exactly when it differs from the stored one, and it is stored before
    the send is attempted, so a failed send still counts as sent.
   */
  function Cycle(stored: string, examined: Result<Option<string>, PyError>, delivered: bool): (r: CycleResult)
    ensures r.sent.Some? <==> examined.Ok? && examined.value.Some? && examined.value.value != stored
    ensures r.sent.Some? ==> r.sent.value == examined.value.value
    ensures r.stored == (if r.sent.Some? then r.sent.value else stored)
    ensures r.failure.Some? <==> examined.Err? || (r.sent.Some? && !delivered)
    ensures examined.Err? ==> r.failure == Some(examined.error)
  {
    match examined
    case Err(e) => CycleResult(stored, None, Some(e))
    case Ok(None) => CycleResult(stored, None, None)
    case Ok(Some(message)) =>
      if message == stored then CycleResult(stored, None, None)
      else CycleResult(message, Some(message), if delivered then None else Some(SendError))
  }

  /** A finite run of cycles: the final stored sentence and every sentence sent, in order. */
  function Run(stored: string, observations: seq<Observation>): (r: (string, seq<string>))
    ensures |r.1| <= |observations|
    ensures forall m :: m in r.1 ==> exists o :: o in observations && o.examined == Ok(Some(m))
    decreases |observations|
  {
    if observations == [] then (stored, [])
    else
      var c := Cycle(stored, observations[0].examined, observations[0].delivered);
      var rest := Run(c.stored, observations[1..]);
      (rest.0, (if c.sent.Some? then [c.sent.value] else []) + rest.1)
  }

  // ---------------------------------------------------------------- single-cycle properties

  /** Feeding the same answer twice sends at most once: the second cycle is always suppressed, even after a failed send. */
  lemma RepeatSuppressed(stored: string, answer: Result<Value, PyError>, first: bool, second: bool)
    ensures Cycle(Cycle(stored, Examine(answer), first).stored, Examine(answer), second).sent.None?
    ensures Cycle(Cycle(stored, Examine(answer), first).stored, Examine(answer), second).stored == Cycle(stored, Examine(answer), first).stored
  {
  }

  /** No sentence is empty, so a freshly started bot sends the first record it can format. */
  lemma FreshBotNotifiesFirstRecord(answer: Result<Value, PyError>, delivered: bool)
    requires Examine(answer).Ok? && Examine(answer).value.Some?
    ensures Cycle("", Examine(answer), delivered).sent == Examine(answer).value
  {
  }

  /** An empty `homeworks` list sends nothing and keeps the stored sentence. */
  lemma EmptyListIsQuiet(stored: string, fields: map<string, Value>, delivered: bool)
    requires "homeworks" in fields && fields["homeworks"] == Arr([])
    ensures Cycle(stored, Examine(Ok(Obj(fields))), delivered) == CycleResult(stored, None, None)
  {
  }

  /** Only the first record of the list is looked at: the rest never changes the outcome. */
  lemma OnlyFirstRecordMatters(fields: map<string, Value>, first: Value, rest: seq<Value>)
    ensures Examine(Ok(Obj(fields["homeworks" := Arr([first] + rest)])))
         == match ParseStatus(first) case Ok(m) => Ok(Some(m)) case Err(e) => Err(e)
  {
  }

  /** main reads `homeworks` itself before validating, so a missing key fails the cycle with a KeyError. */
  lemma MissingHomeworksFailsCycle(stored: string, fields: map<string, Value>, delivered: bool)
    requires "homeworks" !in fields
    ensures Cycle(stored, Examine(Ok(Obj(fields))), delivered) == CycleResult(stored, None, Some(KeyError))
  {
  }

  /** A `homeworks` value of length zero that is not a list (an empty string or object) passes unnoticed. */
  lemma EmptyNonListIsQuiet(stored: string, fields: map<string, Value>, delivered: bool)
    requires "homeworks" in fields && fields["homeworks"] in {Str(""), Obj(map[])}
    ensures Cycle(stored, Examine(Ok(Obj(fields))), delivered) == CycleResult(stored, None, None)
  {
  }

  // ---------------------------------------------------------------- runs of cycles

  /** Across a run, no sentence is sent twice in a row, and the stored sentence is the last one sent. */
  lemma {:induction false} RunSuppressesRepeats(stored: string, observations: seq<Observation>)
    ensures var (final, sent) := Run(stored, observations);
      && (|sent| > 0 ==> sent[0] != stored && final == sent[|sent| - 1])
      && (|sent| == 0 ==> final == stored)
      && forall i :: 0 < i < |sent| ==> sent[i - 1] != sent[i]
    decreases |observations|
  {
    if observations != [] {
      var c := Cycle(stored, observations[0].examined, observations[0].delivered);
      RunSuppressesRepeats(c.stored, observations[1..]);
      var sent := Run(stored, observations).1;
      var rest := Run(c.stored, observations[1..]).1;
      if c.sent.Some? {
        assert sent == [c.sent.value] + rest;
        forall i | 1 < i < |sent| ensures sent[i - 1] != sent[i] {
          assert sent[i - 1] == rest[i - 2] && sent[i] == rest[i - 1];
        }
      } else {
        assert sent == rest;
      }
    }
  }

  /** Running one more cycle extends a run by that cycle alone. */
  lemma {:induction false} RunExtend(stored: string, observations: seq<Observation>, last: Observation)
    ensures var (before, sent) := Run(stored, observations);
      var c := Cycle(before, last.examined, last.delivered);
      Run(stored, observations + [last]) == (c.stored, sent + (if c.sent.Some? then [c.sent.value] else []))
    decreases |observations|
  {
    if observations == [] {
      assert [] + [last] == [last];
      var c := Cycle(stored, last.examined, last.delivered);
      var tail: seq<string> := if c.sent.Some? then [c.sent.value] else [];
      assert tail + [] == tail && [] + tail == tail;
    } else {
      var c := Cycle(stored, observations[0].examined, observations[0].delivered);
      assert (observations + [last])[0] == observations[0];
      assert (observations + [last])[1..] == observations[1..] + [last];
      RunExtend(c.stored, observations[1..], last);
      var head: seq<string> := if c.sent.Some? then [c.sent.value] else [];
      var rest := Run(c.stored, observations[1..]).1;
      var d := Cycle(Run(c.stored, observations[1..]).0, last.examined, last.delivered);
      var tail: seq<string> := if d.sent.Some? then [d.sent.value] else [];
      assert head + (rest + tail) == (head + rest) + tail;
    }
  }

  /** The run over the first `i + 1` observations is the run over the first `i` followed by one more cycle. */
  lemma RunPrefixExtend(stored: string, observations: seq<Observation>, i: nat)
    requires i < |observations|
    ensures var (before, sent) := Run(stored, observations[..i]);
      var c := Cycle(before, observations[i].examined, observations[i].delivered);
      Run(stored, observations[..i + 1]) == (c.stored, sent + (if c.sent.Some? then [c.sent.value] else []))
  {
    RunExtend(stored, observations[..i], observations[i]);
    assert observations[..i] + [observations[i]] == observations[..i + 1];
  }

  /**
    A run sends nothing exactly when every one of its cycles, taken against
    the initial stored sentence, sends nothing; the stored sentence then stays.
   */
  lemma {:induction false} SettledRunIsQuiet(stored: string, observations: seq<Observation>)
    ensures Run(stored, observations).1 == [] <==>
      forall i :: 0 <= i < |observations| ==> Cycle(stored, observations[i].examined, observations[i].delivered).sent.None?
    ensures Run(stored, observations).1 == [] ==> Run(stored, observations).0 == stored
    decreases |observations|
  {
    if observations != [] {
      var c := Cycle(stored, observations[0].examined, observations[0].delivered);
      if c.sent.Some? {
        assert Run(stored, observations).1 != [];
      } else {
        var tail := observations[1..];
        SettledRunIsQuiet(stored, tail);
        assert forall i :: 0 < i < |observations| ==> observations[i] == tail[i - 1];
        var rest := Run(stored, tail);
        var none: seq<string> := [];
        assert c.stored == stored && none + rest.1 == rest.1;
        assert Run(stored, observations) == (rest.0, none + rest.1);
        if forall i :: 0 <= i < |tail| ==> Cycle(stored, tail[i].examined, tail[i].delivered).sent.None? {
          forall i | 0 <= i < |observations|
            ensures Cycle(stored, observations[i].examined, observations[i].delivered).sent.None?
          {
            if i > 0 {
              assert observations[i] == tail[i - 1];
            }
          }
        }
      }
    }
  }

  /** Polling the same answer any number of times sends at most one sentence, whatever the transport does. */
  lemma SteadyAnswerNotifiesAtMostOnce(timestamp: int, stored: string, answer: Result<Value, PyError>, envs: seq<Env>)
    requires forall i :: 0 <= i < |envs| ==> envs[i].api(timestamp) == answer
    ensures |Run(stored, Observe(timestamp, envs)).1| <= 1
    ensures |envs| > 0 ==>
      (Run(stored, Observe(timestamp, envs)).1
        == var c := Cycle(stored, Examine(answer), true); if c.sent.Some? then [c.sent.value] else [])
  {
    var observations := Observe(timestamp, envs);
    if envs != [] {
      var c := Cycle(stored, Examine(answer), observations[0].delivered);
      var tail := observations[1..];
      forall i | 0 <= i < |tail|
        ensures Cycle(c.stored, tail[i].examined, tail[i].delivered).sent.None?
      {
        assert tail[i] == observations[i + 1];
      }
      SettledRunIsQuiet(c.stored, tail);
      var empty: seq<string> := [];
      assert empty + empty == empty;
    }
  }

  // ---------------------------------------------------------------- the bot

  /** The state main keeps across iterations of its loop. */
  class StatusBot {
    /** The `from_date` of every request; never updated. */
    const timestamp: int := InitialTimestamp
    /** The last sentence sent; `''` before the first. */
    var oldStatus: string

    constructor ()
      ensures oldStatus == ""
    {
      oldStatus := "";
    }

    /** One iteration of main's loop, minus the sleep and the logging. */
    method Step(env: Env) returns (sent: Option<string>, failure: Option<PyError>)
      modifies this
      ensures Cycle(old(oldStatus), Examine(env.api(timestamp)), env.delivered) == CycleResult(oldStatus, sent, failure)
    {
      var answer := env.api(timestamp);
      sent, failure := None, None;
      match Examine(answer)
      case Err(e) =>
        failure := Some(e);
      case Ok(None) =>
      case Ok(Some(message)) =>
        if message != oldStatus {
          oldStatus := message;
          sent := Some(message);
          if !env.delivered {
            failure := Some(SendError);
          }
        }
    }

    /** A finite prefix of main's endless loop: one Step per environment, collecting what was sent. */
    method RunCycles(envs: seq<Env>) returns (sent: seq<string>)
      modifies this
      ensures Run(old(oldStatus), Observe(timestamp, envs)) == (oldStatus, sent)
    {
      ghost var observations := Observe(timestamp, envs);
      sent := [];
      var i := 0;
      while i < |envs|
        invariant 0 <= i <= |envs|
        invariant Run(old(oldStatus), observations[..i]) == (oldStatus, sent)
      {
        RunPrefixExtend(old(oldStatus), observations, i);
        ghost var seen := observations[i];
        ghost var before := oldStatus;
        var s, f := Step(envs[i]);
        assert Cycle(before, seen.examined, seen.delivered) == CycleResult(oldStatus, s, f);
        if s.Some? {
          sent := sent + [s.value];
        } else {
          assert sent + [] == sent;
        }
        i := i + 1;
      }
      assert observations[..i] == observations;
    }
  }

  /** main's start-up: the bot runs only when all three tokens are present. */
  method Launch(telegramToken: Option<string>, practicumToken: Option<string>, chatId: Option<string>)
    returns (r: Result<StatusBot, PyError>)
    ensures r.Ok? <==> CheckTokens(telegramToken, practicumToken, chatId)
    ensures r.Err? ==> r.error == ConfigError
    ensures r.Ok? ==> fresh(r.value) && r.value.oldStatus == "" && r.value.timestamp == InitialTimestamp
  {
    if !CheckTokens(telegramToken, practicumToken, chatId) {
      return Err(ConfigError);
    }
    var bot := new StatusBot();
    r := Ok(bot);
  }
}
