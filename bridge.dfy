/**
 * The request bridge `anki_request`: one POST of the envelope
 * {action, version: 6, params} to the local AnkiConnect endpoint, whose
 * `"result"` field is handed back. The transport is a stub: a log of every
 * envelope posted so far and a scripted reply for each call.
 */
module Bridge {
  import opened Wrappers
  import opened Json

  /** The AnkiConnect protocol version every envelope carries. */
  const Version: int := 6

  type Params = map<string, Value>

  /** Why a bridge call (or a tool built on it) fails. */
  datatype Error =
    | TransportError  // endpoint unreachable, or `raise_for_status` rejected the status
    | ProtocolError   // body not JSON, not an object, or without a "result" key
    | ShapeError      // a tool got a result it cannot work on (`.sort` on a non-list)

  datatype Result<+T> = Ok(value: T) | Err(error: Error)

  /** What the endpoint does with one POST: no connection, or a status and a body (None when unparseable). */
  datatype Reply = Unreachable | Http(status: int, body: Option<Value>)

  /** The observable transport: envelopes posted so far, and the reply scripted for the k-th call overall. */
  datatype Stub = Stub(log: seq<Value>, replies: seq<Reply>)

  /** A tool's result together with the transport after it. */
  datatype Outcome<+T> = Outcome(result: Result<T>, after: Stub)

  /** The reply the stub gives to the k-th call from now; past the script, the endpoint is unreachable. */
  function ReplyAt(s: Stub, k: nat): Reply
  {
    if |s.log| + k < |s.replies| then s.replies[|s.log| + k] else Unreachable
  }

  /** `raise_for_status`: client (4xx) and server (5xx) error statuses raise. */
  predicate StatusRaises(status: int)
  {
    400 <= status < 600
  }

  predicate TransportFails(reply: Reply)
  {
    reply.Unreachable? || StatusRaises(reply.status)
  }

  /** `params or {}`: an absent or empty mapping is sent as `{}`. */
  function OrEmpty(params: Option<Params>): (p: Params)
    ensures params.None? ==> p == map[]
    ensures params.Some? ==> p == params.value
  {
    match params
    case None => map[]
    case Some(q) => if |q| == 0 then map[] else q
  }

  /** The JSON body posted for one call. */
  function Envelope(action: string, params: Option<Params>): (e: Value)
    ensures e.Obj? && e.fields.Keys == {"action", "version", "params"}
    ensures e.fields["action"] == Str(action)
    ensures e.fields["version"] == Int(6)
    ensures params.None? || params.value == map[] ==> e.fields["params"] == Obj(map[])
    ensures params.Some? ==> e.fields["params"] == Obj(params.value)
  {
    Obj(map["action" := Str(action), "version" := Int(Version), "params" := Obj(OrEmpty(params))])
  }

  /** What `anki_request` returns, or the error it raises, for one reply. */
  function Answer(reply: Reply): (r: Result<Value>)
    ensures TransportFails(reply) ==> r == Err(TransportError)
    ensures !TransportFails(reply) ==>
      (r.Ok? <==> reply.body.Some? && reply.body.value.Obj? && "result" in reply.body.value.fields)
    ensures r.Ok? ==> r.value == reply.body.value.fields["result"]
    ensures r.Err? && !TransportFails(reply) ==> r.error == ProtocolError
  {
    if reply.Unreachable? || StatusRaises(reply.status) then
      Err(TransportError)
    else
      match reply.body
      case Some(Obj(fields)) => if "result" in fields then Ok(fields["result"]) else Err(ProtocolError)
      case _ => Err(ProtocolError)
  }

  /** The answer the k-th call from now will get. */
  function Pending(s: Stub, k: nat): Result<Value>
  {
    Answer(ReplyAt(s, k))
  }

  /** `t` is `s` after exactly the posts `envs`, in that order, and nothing else changed. */
  predicate Sent(s: Stub, t: Stub, envs: seq<Value>)
  {
    t.replies == s.replies && t.log == s.log + envs
  }

  /** `anki_request(action, params)`: posts one envelope and returns its reply's "result". */
  function Invoke(s: Stub, action: string, params: Option<Params> := None): (out: Outcome<Value>)
    ensures Sent(s, out.after, [Envelope(action, params)])
    ensures out.result == Pending(s, 0)
    ensures forall k: nat :: ReplyAt(out.after, k) == ReplyAt(s, k + 1)
  {
    Outcome(Answer(ReplyAt(s, 0)), Stub(s.log + [Envelope(action, params)], s.replies))
  }

  /** A successful AnkiConnect reply carrying `v` decodes to `v`, whatever its "error" field holds. */
  lemma AnswerRoundTrip(v: Value, status: int, error: Value)
    requires 200 <= status < 300
    ensures Answer(Http(status, Some(Obj(map["result" := v, "error" := error])))) == Ok(v)
  {
  }

  /** The "error" field of the reply envelope is never consulted. */
  lemma AnswerIgnoresErrorField(status: int, fields: map<string, Value>, error: Value)
    ensures Answer(Http(status, Some(Obj(fields["error" := error])))) == Answer(Http(status, Some(Obj(fields))))
  {
  }
}
