/** The provider executor: what is sent to a provider, how its error answers are
    classified, and the loop that forwards the body of a successful answer. */
module Executor {
  import opened Types

  // ---------------------------------------------------------------------------
  // Outbound body
  // ---------------------------------------------------------------------------

  /** The body sent to a provider: the request without its four control fields,
      with the provider's own model name in `model`. */
  datatype Payload = Payload(model: string, messages: seq<Message>, stream: Option<bool>, extra: map<string, Json>)

  /** The payload as the JSON object that is serialised. */
  function PayloadFields(p: Payload): map<string, Json> {
    var m0 := (p.extra - {"model", "messages", "stream"})
                + map["model" := JStr(p.model), "messages" := MessagesJson(p.messages)];
    if p.stream.Some? then m0["stream" := JBool(p.stream.value)] else m0
  }

  function OutboundPayload(req: ChatRequest, targetModel: string): Payload {
    Payload(targetModel, req.messages, req.stream, req.extra - DeclaredKeys)
  }

  /** The outbound body is the request object with the four control fields removed
      and `model` overwritten by the target model; every other field is kept. */
  lemma OutboundPayloadFields(req: ChatRequest, targetModel: string)
    ensures PayloadFields(OutboundPayload(req, targetModel))
            == (Fields(req) - ControlKeys)["model" := JStr(targetModel)]
  {
    var p := PayloadFields(OutboundPayload(req, targetModel));
    var q := (Fields(req) - ControlKeys)["model" := JStr(targetModel)];
    forall k
      ensures (k in p <==> k in q) && (k in p ==> p[k] == q[k])
    {
      OutboundPayloadField(req, targetModel, k);
    }
    assert p == q;
  }

  /** One key of the outbound body, compared with the request object. */
  lemma OutboundPayloadField(req: ChatRequest, targetModel: string, k: string)
    ensures var p := PayloadFields(OutboundPayload(req, targetModel));
      var q := (Fields(req) - ControlKeys)["model" := JStr(targetModel)];
      (k in p <==> k in q) && (k in p ==> p[k] == q[k])
  {
    var d := Declared(req);
    if k !in DeclaredKeys {
      assert k !in d;
    } else if k == "messages" {
      assert d[k] == MessagesJson(req.messages);
    } else if k == "stream" {
      assert k in d <==> req.stream.Some?;
    }
  }

  /** Corollary: none of the control fields reaches a provider, and the target model
      replaces the caller's. */
  lemma OutboundPayloadHasNoControlField(req: ChatRequest, targetModel: string)
    ensures PayloadFields(OutboundPayload(req, targetModel)).Keys !! ControlKeys
    ensures PayloadFields(OutboundPayload(req, targetModel))["model"] == JStr(targetModel)
    ensures forall k :: k in Fields(req) && k !in ControlKeys && k != "model" ==>
              k in PayloadFields(OutboundPayload(req, targetModel))
              && PayloadFields(OutboundPayload(req, targetModel))[k] == Fields(req)[k]
  {
    OutboundPayloadFields(req, targetModel);
  }

  // ---------------------------------------------------------------------------
  // Outbound headers (names are kept lower-cased, as the Headers class stores them)
  // ---------------------------------------------------------------------------

  const AUTHORIZATION := "authorization"
  const CONTENT_TYPE := "content-type"
  const HOST := "host"
  const CONTENT_LENGTH := "content-length"

  /** Copies the inbound headers, sets the bearer credential and the JSON content type,
      and drops the two headers that no longer describe the re-serialised body. */
  method BuildHeaders(inbound: map<string, string>, key: string) returns (headers: map<string, string>)
    ensures AUTHORIZATION in headers && headers[AUTHORIZATION] == "Bearer " + key
    ensures CONTENT_TYPE in headers && headers[CONTENT_TYPE] == "application/json"
    ensures HOST !in headers && CONTENT_LENGTH !in headers
    ensures forall n :: n !in {AUTHORIZATION, CONTENT_TYPE, HOST, CONTENT_LENGTH} ==>
              (n in headers <==> n in inbound) && (n in headers ==> headers[n] == inbound[n])
  {
    headers := inbound;
    headers := headers[AUTHORIZATION := "Bearer " + key];
    headers := headers[CONTENT_TYPE := "application/json"];
    headers := headers - {HOST};
    headers := headers - {CONTENT_LENGTH};
  }

  // ---------------------------------------------------------------------------
  // Classification of the provider's answer
  // ---------------------------------------------------------------------------

  /** What the provider did with the request: it answered with a status and a body
      text, or the connection failed with a message. */
  datatype Upstream = Responded(status: nat, text: string) | Unreachable(message: string)

  /** The executor's verdict: a successful answer to stream back, a rate-limit
      failure, or any other failure. */
  datatype ExecResult = Delivered(status: nat) | RateLimited(message: string) | UpstreamError(message: string)

  predicate IsOk(status: nat) {
    200 <= status <= 299
  }

  function LowerChar(c: char): char {
    if 'A' <= c <= 'Z' then (c as int + 32) as char else c
  }

  /** ASCII lower-casing, character by character. */
  function Lower(s: string): (r: string)
    ensures |r| == |s|
    ensures forall i :: 0 <= i < |s| ==> r[i] == LowerChar(s[i])
  {
    seq(|s|, i requires 0 <= i < |s| => LowerChar(s[i]))
  }

  lemma LowerAppend(a: string, b: string)
    ensures Lower(a + b) == Lower(a) + Lower(b)
  {
    var l, r := Lower(a + b), Lower(a) + Lower(b);
    forall k | 0 <= k < |l|
      ensures l[k] == r[k]
    {
      if k < |a| {
        assert (a + b)[k] == a[k];
      } else {
        assert (a + b)[k] == b[k - |a|];
      }
    }
  }

  lemma LowerSlice(s: string, i: nat, j: nat)
    requires i <= j <= |s|
    ensures Lower(s)[i..j] == Lower(s[i..j])
  {
    var l, r := Lower(s)[i..j], Lower(s[i..j]);
    forall k | 0 <= k < j - i
      ensures l[k] == r[k]
    {
      assert s[i..j][k] == s[i + k];
    }
  }

  /** `pat` occurs in `s` at index `i`. */
  predicate OccursAt(s: string, pat: string, i: nat) {
    i + |pat| <= |s| && s[i..i + |pat|] == pat
  }

  /** An occurrence in the tail is an occurrence one place later in the whole. */
  lemma OccursShift(s: string, pat: string, i: nat)
    requires s != []
    ensures OccursAt(s[1..], pat, i) <==> OccursAt(s, pat, i + 1)
  {
    if i + 1 + |pat| <= |s| {
      assert s[1..][i..i + |pat|] == s[i + 1..i + 1 + |pat|];
    }
  }

  /** Substring search. */
  function Contains(s: string, pat: string): (r: bool)
    ensures r <==> exists i: nat :: OccursAt(s, pat, i)
    decreases |s|
  {
    if |pat| > |s| then false
    else if s[..|pat|] == pat then assert OccursAt(s, pat, 0); true
    else if s == [] then false
    else
      var r := Contains(s[1..], pat);
      assert r ==> exists i: nat :: OccursAt(s, pat, i) by {
        if r {
          var i: nat :| OccursAt(s[1..], pat, i);
          OccursShift(s, pat, i);
        }
      }
      assert (exists i: nat :: OccursAt(s, pat, i)) ==> r by {
        if exists i: nat :: OccursAt(s, pat, i) {
          var i: nat :| OccursAt(s, pat, i);
          assert i != 0;
          OccursShift(s, pat, i - 1);
        }
      }
      r
  }

  /** A non-success answer counts as a rate limit when its status is 429 or 402, or its
      body mentions a rate limit or an exceeded quota in any letter case. */
  predicate RateLimitSignal(status: nat, text: string) {
    || status == 429
    || status == 402
    || Contains(Lower(text), "rate limit")
    || Contains(Lower(text), "quota exceeded")
  }

  function DigitChar(d: nat): char
    requires d < 10
  {
    "0123456789"[d]
  }

  /** Decimal rendering of a status code. */
  function DecimalString(n: nat): (r: string)
    ensures |r| > 0
  {
    if n < 10 then [DigitChar(n)] else DecimalString(n / 10) + [DigitChar(n % 10)]
  }

  /** Classifies the provider's answer as the executor does. */
  function Execute(config: ProviderConfig, answer: Upstream): (r: ExecResult)
    ensures r.Delivered? <==> answer.Responded? && IsOk(answer.status)
    ensures r.Delivered? ==> r.status == answer.status
    ensures r.RateLimited? <==>
              answer.Responded? && !IsOk(answer.status) && RateLimitSignal(answer.status, answer.text)
    ensures r.RateLimited? ==>
              r.message == "[" + config.name + "] Limit Exceeded: " + answer.text
    ensures r.UpstreamError? && answer.Responded? ==>
              r.message == "[" + config.name + "] HTTP " + DecimalString(answer.status) + ": " + answer.text
    ensures answer.Unreachable? ==> r == UpstreamError(answer.message)
  {
    match answer
    case Unreachable(m) => UpstreamError(m)
    case Responded(status, text) =>
      if IsOk(status) then Delivered(status)
      else if RateLimitSignal(status, text) then
        RateLimited("[" + config.name + "] Limit Exceeded: " + text)
      else
        UpstreamError("[" + config.name + "] HTTP " + DecimalString(status) + ": " + text)
  }

  /** The text markers are matched in any letter case: a failed answer whose body holds
      a marker written with any capitalisation is a rate limit. */
  lemma MarkerInAnyCase(config: ProviderConfig, status: nat, text: string, marker: string, i: nat)
    requires marker == "rate limit" || marker == "quota exceeded"
    requires !IsOk(status)
    requires i + |marker| <= |text| && Lower(text[i..i + |marker|]) == marker
    ensures Execute(config, Responded(status, text)).RateLimited?
  {
    LowerSlice(text, i, i + |marker|);
    assert OccursAt(Lower(text), marker, i);
  }

  /** The executor's call of one provider: what it would send, and how it reads the
      answer. The network call itself is the `answer` parameter. */
  datatype Outbound = Outbound(url: string, headers: map<string, string>, body: Payload)

  method ExecuteRequest(config: ProviderConfig, targetModel: string, req: ChatRequest,
                        inbound: map<string, string>, answer: Upstream)
    returns (sent: Outbound, result: ExecResult)
    ensures sent.url == config.url
    ensures sent.body == OutboundPayload(req, targetModel)
    ensures AUTHORIZATION in sent.headers && sent.headers[AUTHORIZATION] == "Bearer " + config.key
    ensures CONTENT_TYPE in sent.headers && sent.headers[CONTENT_TYPE] == "application/json"
    ensures HOST !in sent.headers && CONTENT_LENGTH !in sent.headers
    ensures forall n :: n != AUTHORIZATION && n != CONTENT_TYPE && n != HOST && n != CONTENT_LENGTH ==>
              (n in sent.headers <==> n in inbound) && (n in sent.headers ==> sent.headers[n] == inbound[n])
    ensures result.Delivered? <==> answer.Responded? && IsOk(answer.status)
    ensures result.RateLimited? <==>
              answer.Responded? && !IsOk(answer.status) && RateLimitSignal(answer.status, answer.text)
    ensures result == Execute(config, answer)
  {
    var headers := BuildHeaders(inbound, config.key);
    sent := Outbound(config.url, headers, OutboundPayload(req, targetModel));
    result := Execute(config, answer);
  }

  // ---------------------------------------------------------------------------
  // Forwarding the body of a successful answer
  // ---------------------------------------------------------------------------

  type Chunk = seq<bv8>

  /** One read of the upstream body: a chunk (possibly absent) or the end marker,
      or a failure of the connection. */
  datatype ReadResult = Read(done: bool, value: Option<Chunk>) | ReadFailed(message: string)

  /** How the forwarding loop ended. */
  datatype StreamEnd = Finished | Cancelled | Failed(message: string) | NoBody | NotStarted

  /** The reader lock over the upstream body. A read past the recorded results reports
      the end of the body. */
  class Reader {
    const results: seq<ReadResult>
    var position: nat
    var releases: nat

    constructor (results: seq<ReadResult>)
      ensures this.results == results && position == 0 && releases == 0
    {
      this.results := results;
      position := 0;
      releases := 0;
    }

    method ReadNext() returns (r: ReadResult)
      modifies this`position
      ensures r == (if old(position) < |results| then results[old(position)] else Read(true, None))
      ensures position == old(position) + 1
    {
      r := if position < |results| then results[position] else Read(true, None);
      position := position + 1;
    }

    method ReleaseLock()
      modifies this`releases
      ensures releases == old(releases) + 1
    {
      releases := releases + 1;
    }
  }

  /** What the forwarding loop yields from read `i` on, having yielded `taken` chunks,
      when the consumer cancels after `limit` chunks (never, if None). */
  function Drain(rs: seq<ReadResult>, i: nat, taken: nat, limit: Option<nat>): (seq<Chunk>, StreamEnd)
    decreases |rs| - i
  {
    if i >= |rs| then ([], Finished)
    else match rs[i]
      case ReadFailed(m) => ([], Failed(m))
      case Read(done, v) =>
        if done then ([], Finished)
        else if v.None? then Drain(rs, i + 1, taken, limit)
        else if limit == Some(taken + 1) then ([v.value], Cancelled)
        else
          var rest := Drain(rs, i + 1, taken + 1, limit);
          ([v.value] + rest.0, rest.1)
  }

  /** Index of the first read that ends the body (end marker or failure), or the number
      of reads when none does. */
  function Stop(rs: seq<ReadResult>): (n: nat)
    ensures n <= |rs|
    ensures forall j :: 0 <= j < n ==> rs[j].Read? && !rs[j].done
    ensures n < |rs| ==> rs[n].ReadFailed? || rs[n].done
  {
    if rs == [] then 0
    else if rs[0].ReadFailed? || rs[0].done then 0
    else 1 + Stop(rs[1..])
  }

  /** The chunks that are present, in order. */
  function Present(rs: seq<ReadResult>): seq<Chunk> {
    if rs == [] then []
    else if rs[0].Read? && rs[0].value.Some? then [rs[0].value.value] + Present(rs[1..])
    else Present(rs[1..])
  }

  /** A consumer that never cancels receives every present chunk before the first end
      marker or failure, in order, and the loop ends as that read says. */
  lemma {:induction false} DrainAll(rs: seq<ReadResult>, i: nat, taken: nat)
    requires i <= |rs|
    ensures Drain(rs, i, taken, None).0 == Present(rs[i..][..Stop(rs[i..])])
    ensures Drain(rs, i, taken, None).1 ==
              if Stop(rs[i..]) < |rs[i..]| && rs[i + Stop(rs[i..])].ReadFailed?
              then Failed(rs[i + Stop(rs[i..])].message) else Finished
    decreases |rs| - i
  {
    if i < |rs| {
      var t := rs[i..];
      assert t[1..] == rs[i + 1..];
      match rs[i]
      case ReadFailed(m) =>
      case Read(done, v) =>
        if !done {
          DrainAll(rs, i + 1, if v.None? then taken else taken + 1);
          assert t[..Stop(t)] == [rs[i]] + t[1..][..Stop(t[1..])];
        }
    }
  }

  /** A consumer that cancels after k chunks receives a prefix of what an unhurried
      consumer would receive, of length at most k. */
  lemma {:induction false} DrainLimited(rs: seq<ReadResult>, i: nat, taken: nat, k: nat)
    requires i <= |rs| && taken < k
    ensures |Drain(rs, i, taken, Some(k)).0| <= k - taken
    ensures Drain(rs, i, taken, Some(k)).0 <= Drain(rs, i, taken, None).0
    ensures Drain(rs, i, taken, Some(k)).1 == Cancelled ==> |Drain(rs, i, taken, Some(k)).0| == k - taken
    decreases |rs| - i
  {
    if i < |rs| {
      match rs[i]
      case ReadFailed(m) =>
      case Read(done, v) =>
        if !done {
          if v.None? {
            DrainLimited(rs, i + 1, taken, k);
          } else if k != taken + 1 {
            DrainLimited(rs, i + 1, taken + 1, k);
            DrainTakenIrrelevant(rs, i + 1, taken, taken + 1);
          }
        }
    }
  }

  /** Without cancellation the count of chunks already yielded does not matter. */
  lemma {:induction false} DrainTakenIrrelevant(rs: seq<ReadResult>, i: nat, a: nat, b: nat)
    requires i <= |rs|
    ensures Drain(rs, i, a, None) == Drain(rs, i, b, None)
    decreases |rs| - i
  {
    if i < |rs| && rs[i].Read? && !rs[i].done {
      if rs[i].value.None? {
        DrainTakenIrrelevant(rs, i + 1, a, b);
      } else {
        DrainTakenIrrelevant(rs, i + 1, a + 1, b + 1);
      }
    }
  }

  /** The forwarding loop of a successful answer: reads until the end marker, passes on
      every chunk that is present, and releases the reader lock exactly once whichever
      way the loop ends (end of body, failed read, or the consumer cancelling). The loop
      only starts when the consumer asks for a first chunk. */
  method StreamResponse(body: Option<Reader>, limit: Option<nat>) returns (chunks: seq<Chunk>, end: StreamEnd)
    requires body.Some? ==> body.value.position == 0
    modifies if body.Some? then {body.value} else {}
    ensures limit == Some(0) ==> chunks == [] && end == NotStarted
    ensures limit != Some(0) && body.None? ==> chunks == [] && end == NoBody
    ensures limit != Some(0) && body.Some? ==>
              chunks == Drain(body.value.results, 0, 0, limit).0 && end == Drain(body.value.results, 0, 0, limit).1
    ensures body.Some? ==>
              body.value.releases == old(body.value.releases) + (if limit == Some(0) then 0 else 1)
  {
    chunks := [];
    if limit == Some(0) {
      end := NotStarted;
      return;
    }
    if body.None? {
      end := NoBody;
      return;
    }
    chunks, end := Pump(body.value, limit);
  }

  /** The loop itself, over a reader positioned at the start of the body. */
  method Pump(reader: Reader, limit: Option<nat>) returns (chunks: seq<Chunk>, end: StreamEnd)
    requires reader.position == 0 && limit != Some(0)
    modifies reader
    ensures chunks == Drain(reader.results, 0, 0, limit).0 && end == Drain(reader.results, 0, 0, limit).1
    ensures reader.releases == old(reader.releases) + 1
  {
    chunks := [];
    ghost var rs := reader.results;
    assert chunks + Drain(rs, 0, 0, limit).0 == Drain(rs, 0, 0, limit).0;
    while true
      invariant reader.position <= |rs|
      invariant reader.releases == old(reader.releases)
      invariant limit.Some? ==> |chunks| < limit.value
      invariant Drain(rs, 0, 0, limit).0 == chunks + Drain(rs, reader.position, |chunks|, limit).0
      invariant Drain(rs, 0, 0, limit).1 == Drain(rs, reader.position, |chunks|, limit).1
      decreases |rs| - reader.position
    {
      var p := reader.position;
      ghost var n := |chunks|;
      var r := reader.ReadNext();
      if r.ReadFailed? {
        assert Drain(rs, p, n, limit) == ([], Failed(r.message));
        end := Failed(r.message);
        break;
      }
      if r.done {
        assert Drain(rs, p, n, limit) == ([], Finished);
        end := Finished;
        break;
      }
      if r.value.Some? {
        chunks := chunks + [r.value.value];
        if limit == Some(|chunks|) {
          assert Drain(rs, p, n, limit) == ([r.value.value], Cancelled);
          end := Cancelled;
          break;
        }
        ghost var rest := Drain(rs, p + 1, n + 1, limit);
        assert Drain(rs, p, n, limit) == ([r.value.value] + rest.0, rest.1);
      } else {
        assert Drain(rs, p, n, limit) == Drain(rs, p + 1, n, limit);
      }
    }
    reader.ReleaseLock();
  }
}
