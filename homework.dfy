/** The decision logic of the homework-status bot: the credential check, the
    classification of what the review API answered, the validation of the
    decoded answer and the formatting of a status message from the verdict
    table. */
module Homework {
  import opened PyValues

  // ---------------------------------------------------------------------
  // Credentials
  // ---------------------------------------------------------------------

  /** Python truthiness of an environment variable read with `os.getenv`:
      unset (`None`) and the empty string are false. */
  predicate Truthy(v: Option<string>) {
    v.Some? && v.value != ""
  }

  /** Python's `all` over a list of environment values. */
  function All(vs: seq<Option<string>>): bool {
    if |vs| == 0 then true else Truthy(vs[0]) && All(vs[1..])
  }

  lemma {:induction false} AllMeansEveryTruthy(vs: seq<Option<string>>)
    ensures All(vs) <==> forall i | 0 <= i < |vs| :: Truthy(vs[i])
  {
    if |vs| > 0 {
      AllMeansEveryTruthy(vs[1..]);
      assert forall i | 1 <= i < |vs| :: vs[1..][i - 1] == vs[i];
    }
  }

  /** `check_tokens`: the bot may start only when the API token, the
      messenger token and the chat id are all set and non-empty. */
  function CheckTokens(practicumToken: Option<string>, telegramToken: Option<string>,
                       telegramChatId: Option<string>): (ok: bool)
    ensures ok <==> practicumToken.Some? && practicumToken.value != ""
                    && telegramToken.Some? && telegramToken.value != ""
                    && telegramChatId.Some? && telegramChatId.value != ""
  {
    var vs := [practicumToken, telegramToken, telegramChatId];
    AllMeansEveryTruthy(vs);
    assert Truthy(vs[0]) && Truthy(vs[1]) && Truthy(vs[2]) ==> forall i | 0 <= i < 3 :: Truthy(vs[i]);
    All(vs)
  }

  // ---------------------------------------------------------------------
  // Failures raised during one cycle
  // ---------------------------------------------------------------------

  /** The exceptions a cycle can raise before it reaches `send_message`. */
  datatype Failure =
    | Escaped(text: string)          // an exception raised out of `get_api_answer`, with its str()
    | NotSubscriptable(typeName: string)  // TypeError: `obj[key]` on something that is not a dict
    | MissingHomeworks               // ValueError raised by `check_response`
    | HomeworksNotList               // TypeError raised by `check_response`
    | Unhashable(typeName: string)   // TypeError: a list or dict used as a verdict-table key
    | StatusKeyError                 // the bare KeyError re-raised by `parse_status`

  const MissingHomeworksText: string := "Данные не соответствуют ожидаемым"
  const HomeworksNotListText: string := "Значение \"homeworks\" не является списком"

  /** `str(error)` of each failure; the interpreter's own messages use
      CPython 3.11 wording. The two errors `check_response` raises carry its
      own texts, the bare KeyError of `parse_status` has no text at all, and a
      subscript or hashing TypeError names the offending type. */
  function FailureText(f: Failure): (r: string)
    ensures f == MissingHomeworks ==> r == MissingHomeworksText
    ensures f == HomeworksNotList ==> r == HomeworksNotListText
    ensures f == StatusKeyError ==> r == ""
    ensures f.Escaped? ==> r == f.text
    ensures f.NotSubscriptable? && f.typeName != "list" && f.typeName != "str" ==>
              StartsWith(r, "'" + f.typeName + "'")
    ensures f.Unhashable? ==> EndsWith(r, "'" + f.typeName + "'")
  {
    match f
    case Escaped(t) => t
    case NotSubscriptable(t) =>
      if t == "list" then "list indices must be integers or slices, not str"
      else if t == "str" then "string indices must be integers, not 'str'"
      else
        var quoted := "'" + t + "'";
        assert (quoted + " object is not subscriptable")[..|quoted|] == quoted;
        quoted + " object is not subscriptable"
    case MissingHomeworks => MissingHomeworksText
    case HomeworksNotList => HomeworksNotListText
    case Unhashable(t) =>
      var quoted := "'" + t + "'";
      assert ("unhashable type: " + quoted)[|"unhashable type: " + quoted| - |quoted|..] == quoted;
      "unhashable type: " + quoted
    case StatusKeyError => ""
  }

  /** The texts of the failures the code raises itself differ, so the report
      tells which check failed; only the KeyError's is empty. */
  lemma CodeFailureTextsDiffer()
    ensures FailureText(MissingHomeworks) != FailureText(HomeworksNotList)
    ensures FailureText(MissingHomeworks) != "" && FailureText(HomeworksNotList) != ""
    ensures FailureText(StatusKeyError) == ""
  {
  }

  // ---------------------------------------------------------------------
  // get_api_answer
  // ---------------------------------------------------------------------

  /** The body of an HTTP reply, as `response.json()` sees it. */
  datatype Body = Parsed(json: Json) | Unparsable(errorText: string)

  /** What the transport did with the request for one `from_date`. */
  datatype HttpOutcome =
    | RequestFailed(className: string)   // `requests.get` raised a RequestException of that class
    | Reply(status: int, body: Body)

  /** What `get_api_answer` does: it returns an object, or an exception
      escapes from it. */
  datatype Answer = Returned(obj: PyObject) | Raised(failure: Failure)

  /** `raise_for_status` raises for client and server error codes. */
  predicate ErrorStatus(status: int) {
    400 <= status < 600
  }

  /** `get_api_answer`: a transport failure and an error status are caught and
      the exception object is RETURNED; a 204 reply and an unreadable body
      raise; any other reply returns its decoded body. */
  function GetApiAnswer(h: HttpOutcome): (a: Answer)
    ensures a.Returned? && a.obj.ExceptionObject? <==> h.RequestFailed? || ErrorStatus(h.status)
    ensures a.Raised? <==> h.Reply? && !ErrorStatus(h.status) && (h.status == 204 || h.body.Unparsable?)
    ensures h.RequestFailed? ==> a == Returned(ExceptionObject(h.className))
    ensures h.Reply? && ErrorStatus(h.status) ==> a == Returned(ExceptionObject("HTTPError"))
    ensures h.Reply? && h.status == 204 ==> a.Raised? && a.failure == Escaped("")
    ensures h.Reply? && !ErrorStatus(h.status) && h.status != 204 && h.body.Unparsable? ==>
              a == Raised(Escaped(h.body.errorText))
    ensures a.Returned? && a.obj.Document? <==>
            h.Reply? && !ErrorStatus(h.status) && h.status != 204 && h.body.Parsed?
    ensures a.Returned? && a.obj.Document? ==> a.obj.json == h.body.json
  {
    match h
    case RequestFailed(c) => Returned(ExceptionObject(c))
    case Reply(status, body) =>
      if ErrorStatus(status) then Returned(ExceptionObject("HTTPError"))
      else if status == 204 then Raised(Escaped(""))
      else match body
        case Unparsable(t) => Raised(Escaped(t))
        case Parsed(j) => Returned(Document(j))
  }

  // ---------------------------------------------------------------------
  // check_response
  // ---------------------------------------------------------------------

  /** `check_response`: the `homeworks` value of a dict answer when it is a
      list, returned unchanged. A missing key is the ValueError, a value of
      another type the TypeError of the function itself; an answer that is not
      a dict fails on the subscript, before either of those. */
  function CheckResponse(response: PyObject): (r: Result<seq<Json>, Failure>)
    ensures r.Ok? <==> response.Document? && response.json.Dict?
                       && Get(response.json.entries, "homeworks").Some?
                       && Get(response.json.entries, "homeworks").value.List?
    ensures r.Ok? ==> r.value == Get(response.json.entries, "homeworks").value.items
    ensures response.ExceptionObject? ==> r == Err(NotSubscriptable(response.className))
    ensures response.Document? && !response.json.Dict? ==>
              r == Err(NotSubscriptable(TypeName(response.json)))
    ensures response.Document? && response.json.Dict? && !HasKey(response.json.entries, "homeworks") ==>
              r == Err(MissingHomeworks)
    ensures response.Document? && response.json.Dict? && HasKey(response.json.entries, "homeworks")
            && !Get(response.json.entries, "homeworks").value.List? ==>
              r == Err(HomeworksNotList)
  {
    match SubscriptObject(response, "homeworks")
    case NotAMapping(t) => Err(NotSubscriptable(t))
    case KeyMissing => Err(MissingHomeworks)
    case Found(homeworks) =>
      if homeworks.List? then Ok(homeworks.items) else Err(HomeworksNotList)
  }

  // ---------------------------------------------------------------------
  // The verdict table and parse_status
  // ---------------------------------------------------------------------

  const ApprovedVerdict: string := "Работа проверена: ревьюеру всё понравилось. Ура!"
  const ReviewingVerdict: string := "Работа взята на проверку ревьюером."
  const RejectedVerdict: string := "Работа проверена: у ревьюера есть замечания."

  /** `HOMEWORK_VERDICTS`: the status codes the bot understands. */
  const HomeworkVerdicts: map<string, string> :=
    map["approved" := ApprovedVerdict, "reviewing" := ReviewingVerdict, "rejected" := RejectedVerdict]

  const StatusPrefix: string := "Изменился статус проверки работы "

  /** The f-string of `parse_status`, for the text of the name and a known
      status: the prefix and an opening quote, the name, then the closing
      quote, ". " and the status's verdict. */
  function StatusMessage(name: string, status: string): (r: string)
    requires status in HomeworkVerdicts
    ensures StartsWith(r, Head()) && EndsWith(r, Tail(status))
    ensures |Head()| + |Tail(status)| <= |r| && r[|Head()|..|r| - |Tail(status)|] == name
  {
    var r := StatusPrefix + "\"" + name + "\". " + HomeworkVerdicts[status];
    assert r == Head() + name + Tail(status);
    SplitAround(r, Head(), name, Tail(status));
    r
  }

  /** `HOMEWORK_VERDICTS[status]`: a list or dict key cannot be hashed; any
      other value is looked up and only the three status strings are found. */
  function VerdictLookup(status: Json): (r: Result<string, Failure>)
    ensures r.Ok? <==> status.Str? && status.s in HomeworkVerdicts
    ensures r.Ok? ==> r.value == HomeworkVerdicts[status.s]
    ensures (status.List? || status.Dict?) ==> r == Err(Unhashable(TypeName(status)))
    ensures !(status.List? || status.Dict?) && r.Err? ==> r.error == StatusKeyError
  {
    if status.List? || status.Dict? then Err(Unhashable(TypeName(status)))
    else if status.Str? && status.s in HomeworkVerdicts then Ok(HomeworkVerdicts[status.s])
    else Err(StatusKeyError)
  }

  /** `parse_status`: the message for one homework record. It succeeds exactly
      when the record is a dict with a name and a known status string; a
      missing key or an unknown status is the bare KeyError, while a record that
      is not a dict and a status that cannot be hashed are TypeErrors that the
      function's `except KeyError` does not catch. */
  function ParseStatus(homework: Json): (r: Result<string, Failure>)
    ensures r.Ok? <==> homework.Dict? && HasKey(homework.entries, "homework_name")
                       && HasKey(homework.entries, "status")
                       && Get(homework.entries, "status").value.Str?
                       && Get(homework.entries, "status").value.s in HomeworkVerdicts
    ensures r.Ok? ==> r.value == StatusMessage(Display(Get(homework.entries, "homework_name").value),
                                               Get(homework.entries, "status").value.s)
    ensures !homework.Dict? ==> r == Err(NotSubscriptable(TypeName(homework)))
    ensures homework.Dict? && !HasKey(homework.entries, "homework_name") ==> r == Err(StatusKeyError)
    ensures homework.Dict? && HasKey(homework.entries, "homework_name") && !HasKey(homework.entries, "status")
            ==> r == Err(StatusKeyError)
    ensures homework.Dict? && HasKey(homework.entries, "homework_name") && HasKey(homework.entries, "status")
            && r.Err? && !r.error.StatusKeyError? ==>
              var status := Get(homework.entries, "status").value;
              (status.List? || status.Dict?) && r.error == Unhashable(TypeName(status))
  {
    match Subscript(homework, "homework_name")
    case NotAMapping(t) => Err(NotSubscriptable(t))
    case KeyMissing => Err(StatusKeyError)
    case Found(name) =>
      match Subscript(homework, "status")
      case Found(status) =>
        (match VerdictLookup(status)
         case Ok(_) => Ok(StatusMessage(Display(name), status.s))
         case Err(e) => Err(e))
      case _ => Err(StatusKeyError)
  }

  // ---------------------------------------------------------------------
  // Reading a status message back
  // ---------------------------------------------------------------------

  /** The status codes in a fixed order. */
  const Statuses: seq<string> := ["approved", "reviewing", "rejected"]

  predicate StartsWith(msg: string, prefix: string) {
    |prefix| <= |msg| && msg[..|prefix|] == prefix
  }

  predicate EndsWith(msg: string, suffix: string) {
    |suffix| <= |msg| && msg[|msg| - |suffix|..] == suffix
  }

  /** The part of a status message that precedes the name. */
  function Head(): string { StatusPrefix + "\"" }

  /** The part of a status message that follows the name. */
  function Tail(status: string): string
    requires status in HomeworkVerdicts
  {
    "\". " + HomeworkVerdicts[status]
  }

  /** Recovers the name text and the status code from a status message: the
      reader a chat user applies to what the bot sends. */
  function ReadStatusMessage(msg: string): (r: Option<(string, string)>)
    ensures r.Some? ==> r.value.1 in HomeworkVerdicts
  {
    ReadWith(msg, Statuses)
  }

  function ReadWith(msg: string, candidates: seq<string>): (r: Option<(string, string)>)
    requires forall i | 0 <= i < |candidates| :: candidates[i] in HomeworkVerdicts
    ensures r.Some? ==> r.value.1 in HomeworkVerdicts
  {
    if |candidates| == 0 then None
    else
      var status := candidates[0];
      if StartsWith(msg, Head()) && EndsWith(msg, Tail(status)) && |Head()| + |Tail(status)| <= |msg|
      then Some((msg[|Head()|..|msg| - |Tail(status)|], status))
      else ReadWith(msg, candidates[1..])
  }

  /** The three verdicts end differently, so a message ends with the tail of
      at most one status. */
  lemma TailsDistinct(msg: string, s: string, t: string)
    requires s in HomeworkVerdicts && t in HomeworkVerdicts
    requires EndsWith(msg, Tail(s)) && EndsWith(msg, Tail(t))
    ensures s == t
  {
    var n := |msg|;
    forall u | u in HomeworkVerdicts && EndsWith(msg, Tail(u))
      ensures msg[n - 1] == Tail(u)[|Tail(u)| - 1] && msg[n - 2] == Tail(u)[|Tail(u)| - 2]
    {
      assert msg[n - |Tail(u)|..][|Tail(u)| - 1] == msg[n - 1];
      assert msg[n - |Tail(u)|..][|Tail(u)| - 2] == msg[n - 2];
    }
    assert Tail("approved")[|Tail("approved")| - 1] == '!';
    assert Tail("reviewing")[|Tail("reviewing")| - 1] == '.';
    assert Tail("rejected")[|Tail("rejected")| - 1] == '.';
    assert Tail("reviewing")[|Tail("reviewing")| - 2] == 'м';
    assert Tail("rejected")[|Tail("rejected")| - 2] == 'я';
  }

  /** Every status message can be read back: the name and the status code are
      recovered, so different records with known statuses never give the same
      message. */
  lemma {:induction false} ReadStatusMessageInverts(name: string, status: string)
    requires status in HomeworkVerdicts
    ensures ReadStatusMessage(StatusMessage(name, status)) == Some((name, status))
  {
    var msg := StatusMessage(name, status);
    var k := if status == "approved" then 0 else if status == "reviewing" then 1 else 2;
    assert Statuses[k] == status;
    ReadWithFinds(msg, Statuses, k, name, status);
  }

  /** A string built as head, middle and tail starts with the head, ends with
      the tail and has the middle between them. */
  lemma SplitAround(msg: string, head: string, middle: string, tail: string)
    requires msg == head + middle + tail
    ensures StartsWith(msg, head) && EndsWith(msg, tail)
    ensures |head| + |tail| <= |msg| && msg[|head|..|msg| - |tail|] == middle
  {
  }

  lemma {:induction false} ReadWithFinds(msg: string, candidates: seq<string>, k: nat,
                                          name: string, status: string)
    requires forall i | 0 <= i < |candidates| :: candidates[i] in HomeworkVerdicts
    requires k < |candidates| && candidates[k] == status && status in HomeworkVerdicts
    requires StartsWith(msg, Head()) && EndsWith(msg, Tail(status))
    requires |Head()| + |Tail(status)| <= |msg| && msg[|Head()|..|msg| - |Tail(status)|] == name
    ensures ReadWith(msg, candidates) == Some((name, status))
    decreases k
  {
    var first := candidates[0];
    if k == 0 {
    } else {
      if EndsWith(msg, Tail(first)) {
        TailsDistinct(msg, first, status);
      }
      assert candidates[1..][k - 1] == status;
      ReadWithFinds(msg, candidates[1..], k - 1, name, status);
    }
  }
}
