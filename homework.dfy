/**
  The pure decision functions of the homework-status bot: the start-up token
  check, the response validator and the status formatter, together with the
  verdict table they share.
 */
module Homework {
  import opened Results
  import opened Json

  const ApprovedVerdict := "Работа проверена: ревьюеру всё понравилось. Ура!"
  const ReviewingVerdict := "Работа взята на проверку ревьюером."
  const RejectedVerdict := "Работа проверена: у ревьюера есть замечания."

  /** The fixed verdict table, one sentence per status code. */
  const Verdicts: map<string, string> :=
    map["approved" := ApprovedVerdict, "reviewing" := ReviewingVerdict, "rejected" := RejectedVerdict]

  /** The verdict table has exactly the three statuses, each with its own sentence. */
  lemma VerdictTable()
    ensures Verdicts.Keys == {"approved", "reviewing", "rejected"}
    ensures Verdicts["approved"] != Verdicts["reviewing"] && Verdicts["approved"] != Verdicts["rejected"]
      && Verdicts["reviewing"] != Verdicts["rejected"]
  {
  }

  /** The text around the homework name in every notification. */
  const Lead := "Изменился статус проверки работы \""
  const Close := "\". "

  // ---------------------------------------------------------------- tokens

  /** Python truthiness of a value read from the environment: absent (`None`) and `''` are false. */
  predicate Truthy(v: Option<string>) {
    v.Some? && v.value != ""
  }

  /** Python's `all(xs)`. */
  function All(xs: seq<Option<string>>): (r: bool)
    ensures r <==> forall i :: 0 <= i < |xs| ==> Truthy(xs[i])
  {
    xs == [] || (Truthy(xs[0]) && All(xs[1..]))
  }

  /** `check_tokens`: the bot may start only when the bot token, the API token and the chat id are all set. */
  function CheckTokens(telegramToken: Option<string>, practicumToken: Option<string>, chatId: Option<string>): (r: bool)
    ensures r <==> Truthy(telegramToken) && Truthy(practicumToken) && Truthy(chatId)
    ensures r ==> telegramToken.Some? && practicumToken.Some? && chatId.Some?
  {
    var xs := [telegramToken, practicumToken, chatId];
    assert xs[0] == telegramToken && xs[1] == practicumToken && xs[2] == chatId;
    All(xs)
  }

  // ---------------------------------------------------------------- validator

  /**
    `check_response`: the value under `homeworks`, which must be a list. A
    missing key is only logged, so the later read of the unbound local fails.
   */
  function CheckResponse(response: Value): (r: Result<seq<Value>, PyError>)
    ensures r.Ok? <==> response.Obj? && "homeworks" in response.fields && response.fields["homeworks"].Arr?
    ensures r.Ok? ==> r.value == response.fields["homeworks"].items
    ensures response.Obj? && "homeworks" !in response.fields ==> r == Err(UnboundLocalError)
    ensures !response.Obj? ==> r == Err(TypeError)
    ensures response.Obj? && "homeworks" in response.fields && !response.fields["homeworks"].Arr? ==> r == Err(TypeError)
  {
    var homework := Subscript(response, "homeworks");
    if homework == Err(KeyError) then Err(UnboundLocalError)
    else if homework.Err? then Err(homework.error)
    else if !homework.value.Arr? then Err(TypeError)
    else Ok(homework.value.items)
  }

  // ---------------------------------------------------------------- formatter

  /** The statuses parse_status lets through. */
  predicate Accepted(status: Value) {
    status == Str("approved") || status == Str("rejected")
  }

  /** The notification sentence for a rendered name and a status of the verdict table. */
  function Notification(name: string, status: string): string
    requires status in Verdicts
  {
    Lead + name + Close + Verdicts[status]
  }

  /**
    `parse_status`: the notification for one homework record. Only `approved`
    and `rejected` pass; a missing name is only logged, so the f-string then
    fails on the unbound local.
   */
  function ParseStatus(homework: Value): (r: Result<string, PyError>)
    ensures r.Ok? <==> homework.Obj? && "homework_name" in homework.fields && Accepted(Get(homework.fields, "status"))
    ensures r.Ok? ==> (Get(homework.fields, "status").s in Verdicts &&
      r.value == Notification(Render(homework.fields["homework_name"]), Get(homework.fields, "status").s))
    ensures r.Ok? ==> ReadNotification(r.value) == Some((Render(homework.fields["homework_name"]), Get(homework.fields, "status").s))
    ensures !homework.Obj? ==> r == Err(TypeError)
    ensures homework.Obj? && !Accepted(Get(homework.fields, "status")) ==> r == Err(KeyError)
    ensures homework.Obj? && Accepted(Get(homework.fields, "status")) && "homework_name" !in homework.fields
      ==> r == Err(UnboundLocalError)
  {
    if !homework.Obj? then Err(TypeError)
    else
      var name := Subscript(homework, "homework_name");
      var status := Get(homework.fields, "status");
      if status.Null? || status == Str("") || (status != Str("approved") && status != Str("rejected")) then
        Err(KeyError)
      else
        var verdict :=
          if status == Str("rejected") then Verdicts["rejected"]
          else if status == Str("approved") then Verdicts["approved"]
          else "";
        if name.Err? then Err(UnboundLocalError)
        else
          ReadNotificationInverts(Render(name.value), status.s);
          Ok(Lead + Render(name.value) + Close + verdict)
  }

  // ---------------------------------------------------------------- reading a notification back

  /** True when `s` ends with `suffix`. */
  predicate EndsWith(s: string, suffix: string) {
    |suffix| <= |s| && s[|s| - |suffix|..] == suffix
  }

  /** Recovers the rendered name and the status from a notification sentence, if it is one. */
  function ReadNotification(msg: string): (r: Option<(string, string)>)
    ensures r.Some? ==> r.value.1 in {"approved", "rejected"}
  {
    if |msg| < |Lead| || msg[..|Lead|] != Lead then None
    else
      var rest := msg[|Lead|..];
      var approved := Close + ApprovedVerdict;
      var rejected := Close + RejectedVerdict;
      if EndsWith(rest, approved) then Some((rest[..|rest| - |approved|], "approved"))
      else if EndsWith(rest, rejected) then Some((rest[..|rest| - |rejected|], "rejected"))
      else None
  }

  /** Cutting a known lead and a known tail off `lead + middle + tail` gives back the middle. */
  lemma SplitAround(lead: string, middle: string, tail: string)
    ensures (lead + middle + tail)[..|lead|] == lead
    ensures (lead + middle + tail)[|lead|..] == middle + tail
    ensures EndsWith(middle + tail, tail)
    ensures (middle + tail)[..|middle + tail| - |tail|] == middle
  {
  }

  /** A string cannot end with a suffix whose last character differs from its own. */
  lemma LastCharDiffers(s: string, suffix: string)
    requires |s| > 0 && |suffix| > 0 && s[|s| - 1] != suffix[|suffix| - 1]
    ensures !EndsWith(s, suffix)
  {
  }

  /** The notification determines both the name and the status it was made from. */
  lemma ReadNotificationInverts(name: string, status: string)
    requires status == "approved" || status == "rejected"
    ensures ReadNotification(Notification(name, status)) == Some((name, status))
  {
    var approved := Close + ApprovedVerdict;
    var rejected := Close + RejectedVerdict;
    var tail := if status == "approved" then approved else rejected;
    assert Notification(name, status) == Lead + name + tail;
    SplitAround(Lead, name, tail);
    if status == "rejected" {
      assert approved[|approved| - 1] == '!';
      assert (name + rejected)[|name + rejected| - 1] == rejected[|rejected| - 1] == '.';
      LastCharDiffers(name + rejected, approved);
    }
  }

  /** For the same name, the two accepted statuses give different notifications. */
  lemma DistinctStatusesDistinctMessages(name: string)
    ensures Notification(name, "approved") != Notification(name, "rejected")
  {
    ReadNotificationInverts(name, "approved");
    ReadNotificationInverts(name, "rejected");
  }

  /** `reviewing` has a verdict in the table, yet parse_status refuses it. */
  lemma ReviewingIsRefused(name: string)
    ensures "reviewing" in Verdicts
    ensures ParseStatus(Obj(map["homework_name" := Str(name), "status" := Str("reviewing")])) == Err(KeyError)
  {
  }
}
