/** The polling loop of `main`: each cycle fetches the answer for the current
    cursor, validates it, formats the newest homework and sends it, and moves
    the cursor to the server's `current_date`; any exception in those stages
    is reported to the same chat instead. */
module Polling {
  import opened PyValues
  import opened Homework

  const FailurePrefix: string := "Сбой в работе программы: "

  /** What `bot.send_message` did; an `ApiException` is caught and logged by
      `send_message`, so it never reaches the loop. */
  datatype Delivery = Delivered | ApiException

  /** The new cursor and the message handed to `send_message` by one cycle. */
  datatype CycleResult = CycleResult(cursor: Json, message: Option<string>)

  /** What the chat receives when `send_message` is called with `message`. */
  function Received(message: string, delivery: Delivery): (r: seq<string>)
    ensures delivery == Delivered ==> r == [message]
    ensures delivery == ApiException ==> r == []
  {
    if delivery == Delivered then [message] else []
  }

  // ---------------------------------------------------------------------
  // A reference description of a well-shaped answer
  // ---------------------------------------------------------------------

  /** The decoded body of a reply that `get_api_answer` hands on as it is. */
  function ReplyDocument(h: HttpOutcome): Option<Json> {
    if h.Reply? && !ErrorStatus(h.status) && h.status != 204 && h.body.Parsed?
    then Some(h.body.json) else None
  }

  /** The homework list of a reply whose body is an object with a list under
      `homeworks`. */
  function ListedHomeworks(h: HttpOutcome): Option<seq<Json>> {
    match ReplyDocument(h)
    case Some(Dict(entries)) =>
      (match Get(entries, "homeworks")
       case Some(List(items)) => Some(items)
       case _ => None)
    case _ => None
  }

  /** The `current_date` a well-shaped reply supplies, if it has one. */
  function SuppliedDate(h: HttpOutcome): Option<Json> {
    match ReplyDocument(h)
    case Some(Dict(entries)) => if ListedHomeworks(h).Some? then Get(entries, "current_date") else None
    case _ => None
  }

  /** The newest homework of a well-shaped reply formats without error. */
  predicate Reportable(h: HttpOutcome) {
    ListedHomeworks(h).Some? && |ListedHomeworks(h).value| > 0
    && ParseStatus(ListedHomeworks(h).value[0]).Ok?
  }

  // ---------------------------------------------------------------------
  // One cycle
  // ---------------------------------------------------------------------

  /** One pass of the `while True` body, up to the `send_message` call. A
      well-shaped reply with an empty list sends nothing and keeps the cursor;
      one with homeworks sends the message for element 0 and moves the cursor
      to `current_date` when the reply has it; in every other case the cursor
      stays and one failure report is sent. */
  function Cycle(cursor: Json, h: HttpOutcome): (r: CycleResult)
    ensures ListedHomeworks(h) == Some([]) ==> r == CycleResult(cursor, None)
    ensures Reportable(h) ==>
              r.message == Some(ParseStatus(ListedHomeworks(h).value[0]).value)
              && r.cursor == (if SuppliedDate(h).Some? then SuppliedDate(h).value else cursor)
    ensures !Reportable(h) && ListedHomeworks(h) != Some([]) ==>
              r.cursor == cursor && r.message.Some? && StartsWith(r.message.value, FailurePrefix)
    ensures r.message.None? <==> ListedHomeworks(h) == Some([])
    ensures r.cursor != cursor ==> Reportable(h) && SuppliedDate(h) == Some(r.cursor)
  {
    match GetApiAnswer(h)
    case Raised(f) => Failed(cursor, f)
    case Returned(obj) =>
      match CheckResponse(obj)
      case Err(f) => Failed(cursor, f)
      case Ok(homework) =>
        if |homework| == 0 then CycleResult(cursor, None)
        else
          match ParseStatus(homework[0])
          case Err(f) => Failed(cursor, f)
          case Ok(message) => CycleResult(GetOr(obj.json, "current_date", cursor), Some(message))
  }

  /** The `except Exception` branch: the cursor stays and the failure is reported. */
  function Failed(cursor: Json, f: Failure): (r: CycleResult)
    ensures r.cursor == cursor
    ensures r.message.Some? && StartsWith(r.message.value, FailurePrefix)
    ensures r.message.value[|FailurePrefix|..] == FailureText(f)
  {
    var message := FailurePrefix + FailureText(f);
    assert message[..|FailurePrefix|] == FailurePrefix;
    CycleResult(cursor, Some(message))
  }

  /** A transport failure is never reported as itself: `get_api_answer`
      returns the exception object, and the cycle fails on the subscript in
      `check_response`, reporting the interpreter's TypeError about that
      object's class. The cursor stays. */
  lemma TransportFailureReported(cursor: Json, className: string)
    ensures Cycle(cursor, RequestFailed(className))
              == CycleResult(cursor, Some(FailurePrefix + FailureText(NotSubscriptable(className))))
  {
  }

  /** Likewise a 4xx or 5xx reply: whatever its body, the report is the
      subscript TypeError about the returned `HTTPError` object. */
  lemma ErrorStatusReported(cursor: Json, status: int, body: Body)
    requires 400 <= status < 600
    ensures Cycle(cursor, Reply(status, body))
              == CycleResult(cursor, Some(FailurePrefix + ("'" + "HTTPError" + "'" + " object is not subscriptable")))
  {
  }

  /** What one cycle sends does not depend on the cursor: the bot keeps no
      record of what it already reported, so the same reply reports again. */
  lemma CycleMessageIgnoresCursor(c1: Json, c2: Json, h: HttpOutcome)
    ensures Cycle(c1, h).message == Cycle(c2, h).message
  {
  }

  // ---------------------------------------------------------------------
  // The bot's state
  // ---------------------------------------------------------------------

  /** The state `main` keeps across cycles: the `timestamp` cursor, together
      with what the outside world observes of the bot, the `from_date` of
      each request it made and the messages its chat received. */
  class Bot {
    var timestamp: Json
    var requests: seq<Json>
    var chat: seq<string>

    /** Start-up after the credential check: the cursor is the current time. */
    constructor (now: int)
      ensures timestamp == Int(now) && requests == [] && chat == []
    {
      timestamp := Int(now);
      requests := [];
      chat := [];
    }

    /** `send_message`: a delivery failure is swallowed. */
    method SendMessage(message: string, delivery: Delivery)
      modifies this`chat
      ensures chat == old(chat) + Received(message, delivery)
    {
      if delivery == Delivered {
        chat := chat + [message];
      }
    }

    /** One iteration of the `while True` loop of `main`. */
    method Step(h: HttpOutcome, delivery: Delivery)
      modifies this
      ensures timestamp == Cycle(old(timestamp), h).cursor
      ensures requests == old(requests) + [old(timestamp)]
      ensures chat == old(chat) + (match Cycle(old(timestamp), h).message
                                   case Some(m) => Received(m, delivery)
                                   case None => [])
    {
      ghost var cursor := timestamp;
      requests := requests + [timestamp];
      var failure: Option<Failure> := None;
      match GetApiAnswer(h) {
        case Raised(f) =>
          assert Cycle(cursor, h) == Failed(cursor, f);
          failure := Some(f);
        case Returned(response) =>
          match CheckResponse(response) {
            case Err(f) =>
              assert Cycle(cursor, h) == Failed(cursor, f);
              failure := Some(f);
            case Ok(homework) =>
              if |homework| > 0 {
                match ParseStatus(homework[0]) {
                  case Err(f) =>
                    assert Cycle(cursor, h) == Failed(cursor, f);
                    failure := Some(f);
                  case Ok(message) =>
                    SendMessage(message, delivery);
                    timestamp := GetOr(response.json, "current_date", timestamp);
                }
              }
          }
      }
      if failure.Some? {
        SendMessage(FailurePrefix + FailureText(failure.value), delivery);
      }
    }
  }

  // ---------------------------------------------------------------------
  // A run of several cycles
  // ---------------------------------------------------------------------

  /** The cursor, the requests made and the messages received after a run. */
  datatype Trace = Trace(cursor: Json, requests: seq<Json>, chat: seq<string>)

  /** The state after one cycle per reply, each with its delivery outcome. */
  function Run(start: Json, replies: seq<HttpOutcome>, deliveries: seq<Delivery>): (t: Trace)
    requires |replies| == |deliveries|
    ensures |t.requests| == |replies|
    decreases |replies|
  {
    if |replies| == 0 then Trace(start, [], [])
    else
      var n := |replies| - 1;
      var before := Run(start, replies[..n], deliveries[..n]);
      var o := Cycle(before.cursor, replies[n]);
      Trace(o.cursor, before.requests + [before.cursor],
            before.chat + match o.message case Some(m) => Received(m, deliveries[n]) case None => [])
  }

  /** `main` for a bounded number of cycles: nothing happens without all
      three credentials; otherwise the cursor starts at `now` and the bot
      steps once per reply. */
  method RunBot(practicumToken: Option<string>, telegramToken: Option<string>,
                telegramChatId: Option<string>, now: int,
                replies: seq<HttpOutcome>, deliveries: seq<Delivery>)
    returns (started: bool, cursor: Json, requests: seq<Json>, chat: seq<string>)
    requires |replies| == |deliveries|
    ensures started <==> CheckTokens(practicumToken, telegramToken, telegramChatId)
    ensures !started ==> requests == [] && chat == []
    ensures started ==> Trace(cursor, requests, chat) == Run(Int(now), replies, deliveries)
  {
    started := CheckTokens(practicumToken, telegramToken, telegramChatId);
    if !started {
      return false, Null, [], [];
    }
    var bot := new Bot(now);
    var i := 0;
    while i < |replies|
      invariant 0 <= i <= |replies|
      invariant Trace(bot.timestamp, bot.requests, bot.chat) == Run(Int(now), replies[..i], deliveries[..i])
    {
      assert replies[..i + 1][..i] == replies[..i];
      assert deliveries[..i + 1][..i] == deliveries[..i];
      bot.Step(replies[i], deliveries[i]);
      i := i + 1;
    }
    assert replies[..i] == replies && deliveries[..i] == deliveries;
    cursor, requests, chat := bot.timestamp, bot.requests, bot.chat;
  }

  // ---------------------------------------------------------------------
  // Properties of a run
  // ---------------------------------------------------------------------

  /** The cursor only ever holds the start time or a `current_date` that one
      of the replies supplied. */
  lemma {:induction false} RunCursorOrigin(start: Json, replies: seq<HttpOutcome>, deliveries: seq<Delivery>)
    requires |replies| == |deliveries|
    ensures var c := Run(start, replies, deliveries).cursor;
            c == start || exists i :: 0 <= i < |replies| && SuppliedDate(replies[i]) == Some(c)
  {
    if |replies| > 0 {
      var n := |replies| - 1;
      RunCursorOrigin(start, replies[..n], deliveries[..n]);
      var before := Run(start, replies[..n], deliveries[..n]).cursor;
      var c := Run(start, replies, deliveries).cursor;
      if c != before {
        assert SuppliedDate(replies[n]) == Some(c);
      } else if before != start {
        var i :| 0 <= i < n && SuppliedDate(replies[..n][i]) == Some(before);
        assert replies[..n][i] == replies[i];
      }
    }
  }

  /** The cursor stays an integer as long as every `current_date` the server
      supplies is one; the code itself stores whatever value it is given. */
  lemma {:induction false} RunCursorStaysInt(now: int, replies: seq<HttpOutcome>, deliveries: seq<Delivery>)
    requires |replies| == |deliveries|
    requires forall i | 0 <= i < |replies| :: SuppliedDate(replies[i]).Some? ==> SuppliedDate(replies[i]).value.Int?
    ensures Run(Int(now), replies, deliveries).cursor.Int?
  {
    RunCursorOrigin(Int(now), replies, deliveries);
  }

  /** A delivery failure never changes where the cursor goes or which windows
      are requested. */
  lemma {:induction false} RunCursorIgnoresDelivery(start: Json, replies: seq<HttpOutcome>,
                                                     d1: seq<Delivery>, d2: seq<Delivery>)
    requires |replies| == |d1| == |d2|
    ensures Run(start, replies, d1).cursor == Run(start, replies, d2).cursor
    ensures Run(start, replies, d1).requests == Run(start, replies, d2).requests
  {
    if |replies| > 0 {
      var n := |replies| - 1;
      RunCursorIgnoresDelivery(start, replies[..n], d1[..n], d2[..n]);
    }
  }

  /** While no reply is well-shaped, every request reuses the start window
      and the cursor never moves. */
  lemma {:induction false} RunFailingKeepsWindow(start: Json, replies: seq<HttpOutcome>, deliveries: seq<Delivery>)
    requires |replies| == |deliveries|
    requires forall i | 0 <= i < |replies| :: ListedHomeworks(replies[i]).None?
    ensures Run(start, replies, deliveries).cursor == start
    ensures forall i | 0 <= i < |replies| :: Run(start, replies, deliveries).requests[i] == start
  {
    if |replies| > 0 {
      var n := |replies| - 1;
      assert forall i | 0 <= i < n :: replies[..n][i] == replies[i];
      RunFailingKeepsWindow(start, replies[..n], deliveries[..n]);
    }
  }

  /** Each cycle sends at most one message, so the chat never holds more
      messages than there were cycles; with every delivery succeeding, it
      holds one per cycle that was not a well-shaped empty reply. */
  lemma {:induction false} RunChatCount(start: Json, replies: seq<HttpOutcome>, deliveries: seq<Delivery>)
    requires |replies| == |deliveries|
    ensures |Run(start, replies, deliveries).chat| <= |replies|
    ensures (forall i | 0 <= i < |deliveries| :: deliveries[i] == Delivered)
            && (forall i | 0 <= i < |replies| :: ListedHomeworks(replies[i]) != Some([]))
            ==> |Run(start, replies, deliveries).chat| == |replies|
  {
    if |replies| > 0 {
      var n := |replies| - 1;
      assert forall i | 0 <= i < n :: replies[..n][i] == replies[i] && deliveries[..n][i] == deliveries[i];
      RunChatCount(start, replies[..n], deliveries[..n]);
    }
  }

  /** The same well-shaped reply, polled twice, reports its homework twice. */
  lemma RepeatedReplyReportsTwice(start: Json, h: HttpOutcome)
    requires Reportable(h)
    ensures var t := Run(start, [h, h], [Delivered, Delivered]);
            var m := ParseStatus(ListedHomeworks(h).value[0]).value;
            t.chat == [m, m]
  {
    var m := ParseStatus(ListedHomeworks(h).value[0]).value;
    assert [h][..0] == [] && [Delivered][..0] == [];
    assert Run(start, [], []) == Trace(start, [], []);
    var first := Run(start, [h], [Delivered]);
    assert Cycle(start, h).message == Some(m);
    assert first.chat == [m];
    assert [h, h][..1] == [h] && [Delivered, Delivered][..1] == [Delivered];
    CycleMessageIgnoresCursor(start, first.cursor, h);
    assert Cycle(first.cursor, h).message == Some(m);
  }

  // ---------------------------------------------------------------------
  // Scenarios
  // ---------------------------------------------------------------------

  /** An approved homework moves the cursor from 500 to the supplied 1000
      and names the homework and the approved verdict. */
  lemma ApprovedScenario()
    ensures var record := Dict([("homework_name", Str("proj1")), ("status", Str("approved"))]);
            var body := Dict([("homeworks", List([record])), ("current_date", Int(1000))]);
            Cycle(Int(500), Reply(200, Parsed(body)))
              == CycleResult(Int(1000), Some(StatusMessage("proj1", "approved")))
  {
  }

  /** An unknown status is the bare KeyError: the report is the prefix
      alone and the cursor stays. */
  lemma UnknownStatusScenario()
    ensures var record := Dict([("homework_name", Str("proj1")), ("status", Str("pending"))]);
            var body := Dict([("homeworks", List([record]))]);
            Cycle(Int(500), Reply(200, Parsed(body))) == CycleResult(Int(500), Some(FailurePrefix))
  {
    var record := Dict([("homework_name", Str("proj1")), ("status", Str("pending"))]);
    assert "pending" !in HomeworkVerdicts;
    assert ParseStatus(record) == Err(StatusKeyError);
    assert FailurePrefix + FailureText(StatusKeyError) == FailurePrefix;
  }

  /** A 204 reply is a failure, not "no updates". */
  lemma NoContentScenario(b: Body)
    ensures Cycle(Int(500), Reply(204, b)) == CycleResult(Int(500), Some(FailurePrefix))
  {
    assert FailurePrefix + FailureText(Escaped("")) == FailurePrefix;
  }

  /** A connection failure is returned as an exception object, and it is the
      subscript in `check_response` that fails. */
  lemma ConnectionFailureScenario()
    ensures Cycle(Int(500), RequestFailed("ConnectionError"))
              == CycleResult(Int(500), Some(FailurePrefix + ("'" + "ConnectionError" + "'" + " object is not subscriptable")))
  {
  }

  /** A well-shaped reply with no homeworks sends nothing, even when it
      carries a `current_date`. */
  lemma EmptyListScenario()
    ensures Cycle(Int(500), Reply(200, Parsed(Dict([("homeworks", List([])), ("current_date", Int(1000))]))))
              == CycleResult(Int(500), None)
  {
  }
}
