/** The transport the client talks through, modelled as a script: the
    `requests` calls become `Network.Send`, which records what was sent and
    hands back the next scripted reply, and `time.time()`/`time.sleep()`
    become the `now` field and `Network.Sleep`. */
module Http {
  import opened Wrappers
  import opened Colours

  /** Response headers relevant to rate limiting, already parsed as numbers. */
  type Headers = map<string, real>

  /** The JSON values the service's bodies carry. */
  datatype Json = JStr(s: string) | JInt(i: int)

  /** A response: status, headers, raw body, and the body's JSON object when
      it parses as one. */
  datatype Response = Response(
    status: int,
    headers: Headers,
    content: seq<Byte>,
    json: Option<map<string, Json>>)

  /** `requests.Response.ok`: false exactly for 4xx and 5xx statuses. */
  predicate IsOk(status: int) {
    !(400 <= status < 600)
  }

  /** Too Many Requests, section 4 of RFC 6585. */
  const TooManyRequests: int := 429

  /** One transport call's result. */
  datatype Reply = Delivered(response: Response) | ConnectionError

  /** The keyword arguments the client passes besides headers. */
  datatype Payload =
    | NoPayload
    | Query(x: int, y: int)                   // params={"x": x, "y": y}
    | JsonBody(x: int, y: int, rgb: string)   // json={"x": x, "y": y, "rgb": rgb}
    | FormBody(x: int, y: int, rgb: string)   // data={"x": x, "y": y, "rgb": rgb}

  /** One request as it left the client, stamped with the time it was sent. */
  datatype Request = Request(
    verb: string,
    url: string,
    headers: Option<map<string, string>>,
    payload: Payload,
    at: real)

  /** The scripted replies answer calls in order; once they run out, every
      further call fails to connect. */
  function Next(replies: seq<Reply>): Reply {
    if replies == [] then ConnectionError else replies[0]
  }

  function Rest(replies: seq<Reply>): (rest: seq<Reply>)
    ensures replies != [] ==> rest == replies[1..]
  {
    if replies == [] then [] else replies[1..]
  }

  /** Appending to the request log in two steps is appending once. */
  lemma AppendAssoc<T>(a: seq<T>, b: seq<T>, c: seq<T>)
    ensures (a + b) + c == a + (b + c)
  {
  }

  /** The clock and the remaining script, as one value. */
  datatype Wire = Wire(now: real, replies: seq<Reply>)

  class Network {
    var now: real
    var replies: seq<Reply>
    var sent: seq<Request>

    constructor (now: real, replies: seq<Reply>)
      ensures this.now == now && this.replies == replies && sent == []
    {
      this.now := now;
      this.replies := replies;
      sent := [];
    }

    function View(): Wire
      reads this
    {
      Wire(now, replies)
    }

    /** One transport call; it takes no time. */
    method Send(verb: string, url: string, headers: Option<map<string, string>>, payload: Payload)
      returns (reply: Reply)
      modifies this
      ensures reply == Next(old(replies)) && replies == Rest(old(replies))
      ensures sent == old(sent) + [Request(verb, url, headers, payload, old(now))]
      ensures now == old(now)
    {
      reply := Next(replies);
      replies := Rest(replies);
      sent := sent + [Request(verb, url, headers, payload, now)];
    }

    /** `time.sleep(duration)`. */
    method Sleep(duration: real)
      requires duration >= 0.0
      modifies this
      ensures now == old(now) + duration
      ensures replies == old(replies) && sent == old(sent)
    {
      now := now + duration;
    }
  }
}
