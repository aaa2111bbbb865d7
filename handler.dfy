/**
 * The event service: `post` turns one event into one sink entry, PostEvent
 * posts a single event, PostEventList posts a batch in order and stops at the
 * first failure. The pure functions below say what the sink sees and what is
 * returned; the Handler's methods are proved to do exactly that.
 */
module Service {
  import opened Wrappers
  import opened Errors
  import opened Timestamps
  import opened Events
  import opened Fluent

  datatype PostEventRequest = PostEventRequest(
    event: Event, client: Client,
    browserUuid: string, requestUuid: string, userAgent: string, referer: string)

  datatype PostEventListRequest = PostEventListRequest(
    events: seq<Event>, client: Client,
    browserUuid: string, requestUuid: string, userAgent: string, referer: string)

  /** Both services answer success with an empty message. */
  datatype PostEventResponse = PostEventResponse
  datatype PostEventListResponse = PostEventListResponse

  /** What a handler fixes for all its calls: its tag, the timestamp conversion, the sink's answers. */
  datatype Env = Env(tag: string, convert: Converter, accept: Oracle)

  /**
   * The entry `post` hands to the sink for one event: the handler's tag, the
   * normalised record and the resolved UTC time; or the timestamp error that
   * stops `post` before the sink is called.
   */
  function EntryFor(
    env: Env, event: Event, client: Client,
    browserUuid: string, requestUuid: string, userAgent: string, referer: string,
    now: Time): (r: Result<Entry, Error>)
  {
    match DeliveryTime(env.convert, event.timestamp, now)
    case Err(e) => Err(e)
    case Ok(t) => Ok(Entry(env.tag, Normalize(event, client, browserUuid, requestUuid, userAgent, referer), t))
  }

  /**
   * The entry for an event exists exactly when its timestamp resolves. It is
   * sent under the handler's tag; its record carries the event's body, the
   * client and the correlation strings unchanged; its time is in UTC and is
   * the converted client timestamp when there is one, the clock reading
   * otherwise. Otherwise the error is the conversion's.
   */
  lemma EntryForSpec(
    env: Env, event: Event, client: Client,
    browserUuid: string, requestUuid: string, userAgent: string, referer: string,
    now: Time)
    ensures var r := EntryFor(env, event, client, browserUuid, requestUuid, userAgent, referer, now);
      && (r.Err? <==> event.timestamp.Some? && env.convert(event.timestamp.value).Err?)
      && (r.Err? ==> r.error == TimestampError(env.convert(event.timestamp.value).error))
      && (r.Ok? ==>
            && r.value.tag == env.tag
            && Denormalize(r.value.record)
               == Some(Fields(Body(event), client, browserUuid, requestUuid, userAgent, referer))
            && r.value.time.zone == UTC
            && SameInstant(r.value.time,
                           if event.timestamp.Some? then env.convert(event.timestamp.value).value else now))
  {
    NormalizeRoundTrip(event, client, browserUuid, requestUuid, userAgent, referer);
  }

  /**
   * One `post`: a timestamp that does not convert returns its error and leaves
   * the sink untouched; otherwise the entry is posted once, and `post` returns
   * whatever the sink answered.
   */
  function PostSpec(
    env: Env, log: SinkLog, event: Event, client: Client,
    browserUuid: string, requestUuid: string, userAgent: string, referer: string,
    now: Time): (s: Step)
  {
    match EntryFor(env, event, client, browserUuid, requestUuid, userAgent, referer, now)
    case Err(e) => Step(log, Some(e))
    case Ok(entry) => Deliver(env.accept, log, entry)
  }

  /**
   * `post` leaves the sink untouched when the timestamp does not convert and
   * returns that error; otherwise it tries the sink exactly once with the
   * event's entry, which is appended exactly when the sink accepts it, and
   * returns the sink's error otherwise.
   */
  lemma PostSpecOutcome(
    env: Env, log: SinkLog, event: Event, client: Client,
    browserUuid: string, requestUuid: string, userAgent: string, referer: string,
    now: Time)
    ensures var s := PostSpec(env, log, event, client, browserUuid, requestUuid, userAgent, referer, now);
      var entry := EntryFor(env, event, client, browserUuid, requestUuid, userAgent, referer, now);
      && (entry.Err? ==> s == Step(log, Some(entry.error)) && s.err.value.TimestampError?)
      && (entry.Ok? ==>
            && s.log.attempted == log.attempted + [entry.value]
            && (s.err.None? <==> env.accept(|log.attempted|, entry.value).None?)
            && (s.err.None? ==> s.log.posted == log.posted + [entry.value])
            && (s.err.Some? ==> s.log.posted == log.posted && s.err.value.DeliveryError?))
  {
  }

  /** PostEvent's answer to `post`'s outcome: an empty success, or `post`'s error unchanged. */
  function EventReply(err: Option<Error>): (r: Result<PostEventResponse, Error>)
    ensures r.Ok? <==> err.None?
    ensures r.Err? ==> err == Some(r.error)
  {
    match err
    case None => Ok(PostEventResponse)
    case Some(e) => Err(e)
  }

  /**
   * The batch from event `i` on, starting from sink state `log`: each event is
   * posted with the request's shared client and correlation fields and its own
   * clock reading; the first error ends the batch.
   */
  function ListFrom(env: Env, log: SinkLog, req: PostEventListRequest, nows: seq<Time>, i: nat): (s: Step)
    requires |nows| == |req.events| && i <= |req.events|
    decreases |req.events| - i
  {
    if i == |req.events| then Step(log, None)
    else
      var s := PostSpec(env, log, req.events[i], req.client,
                        req.browserUuid, req.requestUuid, req.userAgent, req.referer, nows[i]);
      if s.err.Some? then s else ListFrom(env, s.log, req, nows, i + 1)
  }

  /** The whole batch. */
  function ListSpec(env: Env, log: SinkLog, req: PostEventListRequest, nows: seq<Time>): (s: Step)
    requires |nows| == |req.events|
  {
    ListFrom(env, log, req, nows, 0)
  }

  /** The entry (or timestamp error) for the batch's event `i`. */
  function EntryAt(env: Env, req: PostEventListRequest, nows: seq<Time>, i: nat): (r: Result<Entry, Error>)
    requires |nows| == |req.events| && i < |req.events|
  {
    EntryFor(env, req.events[i], req.client,
             req.browserUuid, req.requestUuid, req.userAgent, req.referer, nows[i])
  }

  /**
   * Event `i` goes through when it is reached as the sink's call number
   * `base + i`: its timestamp resolves and the sink accepts its entry.
   */
  predicate AcceptedAt(env: Env, base: nat, req: PostEventListRequest, nows: seq<Time>, i: nat)
    requires |nows| == |req.events| && i < |req.events|
  {
    EntryAt(env, req, nows, i).Ok? && env.accept(base + i, EntryAt(env, req, nows, i).value).None?
  }

  /** The error event `k` fails with when it is reached as the sink's call number `base + k`. */
  function FailureAt(env: Env, base: nat, req: PostEventListRequest, nows: seq<Time>, k: nat): (e: Error)
    requires |nows| == |req.events| && k < |req.events|
    requires !AcceptedAt(env, base, req, nows, k)
  {
    var entry := EntryAt(env, req, nows, k);
    if entry.Err? then entry.error else DeliveryError(env.accept(base + k, entry.value).value)
  }

  /** `after` is `before` followed by the entries of events `from` .. `to - 1`, in order. */
  ghost predicate Appended(
    before: seq<Entry>, after: seq<Entry>,
    env: Env, req: PostEventListRequest, nows: seq<Time>, from: nat, to: nat)
    requires |nows| == |req.events| && from <= to <= |req.events|
  {
    && |after| == |before| + (to - from)
    && after[..|before|] == before
    && forall i :: from <= i < to ==>
         EntryAt(env, req, nows, i).Ok? && after[|before| + (i - from)] == EntryAt(env, req, nows, i).value
  }

  /** `a` is a prefix of `b`. */
  predicate IsPrefix<T(==)>(a: seq<T>, b: seq<T>) {
    |a| <= |b| && b[..|a|] == a
  }

  lemma PrefixTransitive<T>(a: seq<T>, b: seq<T>, c: seq<T>)
    requires IsPrefix(a, b) && IsPrefix(b, c)
    ensures IsPrefix(a, c)
  {
    assert c[..|b|][..|a|] == c[..|a|];
  }

  /** Appending the entry of event `from` first and then those of `from + 1` .. `to - 1`. */
  lemma AppendedStep(
    before: seq<Entry>, after: seq<Entry>,
    env: Env, req: PostEventListRequest, nows: seq<Time>, from: nat, to: nat)
    requires |nows| == |req.events| && from < to <= |req.events|
    requires EntryAt(env, req, nows, from).Ok?
    requires Appended(before + [EntryAt(env, req, nows, from).value], after, env, req, nows, from + 1, to)
    ensures Appended(before, after, env, req, nows, from, to)
  {
    var b1 := before + [EntryAt(env, req, nows, from).value];
    assert after[..|before|] == after[..|b1|][..|before|];
    forall i | from < i < to
      ensures EntryAt(env, req, nows, i).Ok? && after[|before| + (i - from)] == EntryAt(env, req, nows, i).value
    {
      assert |b1| + (i - (from + 1)) == |before| + (i - from);
    }
  }

  /** From event `j` on, when every event goes through, the batch succeeds and appends every entry. */
  lemma {:induction false} ListFromAllAccepted(
    env: Env, log: SinkLog, req: PostEventListRequest, nows: seq<Time>, base: nat, j: nat)
    requires |nows| == |req.events| && j <= |req.events| && |log.attempted| == base + j
    requires forall i :: j <= i < |req.events| ==> AcceptedAt(env, base, req, nows, i)
    ensures var s := ListFrom(env, log, req, nows, j);
      && s.err.None?
      && Appended(log.posted, s.log.posted, env, req, nows, j, |req.events|)
      && Appended(log.attempted, s.log.attempted, env, req, nows, j, |req.events|)
    decreases |req.events| - j
  {
    if j < |req.events| {
      assert AcceptedAt(env, base, req, nows, j);
      var entry := EntryAt(env, req, nows, j).value;
      var s1 := PostSpec(env, log, req.events[j], req.client,
                         req.browserUuid, req.requestUuid, req.userAgent, req.referer, nows[j]);
      assert s1.log == SinkLog(log.attempted + [entry], log.posted + [entry]) && s1.err.None?;
      ListFromAllAccepted(env, s1.log, req, nows, base, j + 1);
      var s := ListFrom(env, s1.log, req, nows, j + 1);
      AppendedStep(log.posted, s.log.posted, env, req, nows, j, |req.events|);
      AppendedStep(log.attempted, s.log.attempted, env, req, nows, j, |req.events|);
    }
  }

  /**
   * From event `j` on, when event `k` is the first that does not go through,
   * the batch returns that event's error; the entries of `j` .. `k - 1` have
   * been appended in order, and only event `k` was tried after them (and only
   * when its timestamp resolved).
   */
  lemma {:induction false} ListFromFirstFailure(
    env: Env, log: SinkLog, req: PostEventListRequest, nows: seq<Time>, base: nat, j: nat, k: nat)
    requires |nows| == |req.events| && j <= k < |req.events| && |log.attempted| == base + j
    requires forall i :: j <= i < k ==> AcceptedAt(env, base, req, nows, i)
    requires !AcceptedAt(env, base, req, nows, k)
    ensures var s := ListFrom(env, log, req, nows, j);
      && s.err == Some(FailureAt(env, base, req, nows, k))
      && Appended(log.posted, s.log.posted, env, req, nows, j, k)
      && |s.log.attempted| == base + k + (if EntryAt(env, req, nows, k).Ok? then 1 else 0)
      && Appended(log.attempted, s.log.attempted[..base + k], env, req, nows, j, k)
      && (EntryAt(env, req, nows, k).Ok? ==> s.log.attempted[base + k] == EntryAt(env, req, nows, k).value)
    decreases k - j
  {
    var s1 := PostSpec(env, log, req.events[j], req.client,
                       req.browserUuid, req.requestUuid, req.userAgent, req.referer, nows[j]);
    if j == k {
      var s := ListFrom(env, log, req, nows, j);
      assert s == s1;
      assert s.log.attempted[..base + k] == log.attempted;
    } else {
      assert AcceptedAt(env, base, req, nows, j);
      var entry := EntryAt(env, req, nows, j).value;
      assert s1.log == SinkLog(log.attempted + [entry], log.posted + [entry]) && s1.err.None?;
      ListFromFirstFailure(env, s1.log, req, nows, base, j + 1, k);
      var s := ListFrom(env, s1.log, req, nows, j + 1);
      AppendedStep(log.posted, s.log.posted, env, req, nows, j, k);
      AppendedStep(log.attempted, s.log.attempted[..base + k], env, req, nows, j, k);
    }
  }

  /** The batch's event `j`, reached as call number `base + j`, goes through exactly when its `post` succeeds. */
  lemma PostAtAccepted(env: Env, log: SinkLog, req: PostEventListRequest, nows: seq<Time>, base: nat, j: nat)
    requires |nows| == |req.events| && j < |req.events| && |log.attempted| == base + j
    ensures var s := PostSpec(env, log, req.events[j], req.client,
                              req.browserUuid, req.requestUuid, req.userAgent, req.referer, nows[j]);
      && (s.err.None? <==> AcceptedAt(env, base, req, nows, j))
      && (s.err.None? ==> s.log == SinkLog(log.attempted + [EntryAt(env, req, nows, j).value],
                                           log.posted + [EntryAt(env, req, nows, j).value]))
      && (s.err.Some? ==> s.err.value == FailureAt(env, base, req, nows, j))
  {
  }

  /** From event `j` on, the batch succeeds exactly when every remaining event goes through. */
  lemma ListFromSucceedsIff(
    env: Env, log: SinkLog, req: PostEventListRequest, nows: seq<Time>, base: nat, j: nat)
    requires |nows| == |req.events| && j <= |req.events| && |log.attempted| == base + j
    ensures ListFrom(env, log, req, nows, j).err.None?
        <==> forall i :: j <= i < |req.events| ==> AcceptedAt(env, base, req, nows, i)
  {
    if forall i :: j <= i < |req.events| ==> AcceptedAt(env, base, req, nows, i) {
      ListFromAllAccepted(env, log, req, nows, base, j);
    } else if ListFrom(env, log, req, nows, j).err.None? {
      ListFromSucceedsOnlyIfAccepted(env, log, req, nows, base, j);
    }
  }

  /** From event `j` on, a batch that succeeds has had every remaining event go through. */
  lemma {:induction false} ListFromSucceedsOnlyIfAccepted(
    env: Env, log: SinkLog, req: PostEventListRequest, nows: seq<Time>, base: nat, j: nat)
    requires |nows| == |req.events| && j <= |req.events| && |log.attempted| == base + j
    requires ListFrom(env, log, req, nows, j).err.None?
    ensures forall i :: j <= i < |req.events| ==> AcceptedAt(env, base, req, nows, i)
    decreases |req.events| - j
  {
    if j < |req.events| {
      var s1 := PostSpec(env, log, req.events[j], req.client,
                         req.browserUuid, req.requestUuid, req.userAgent, req.referer, nows[j]);
      PostAtAccepted(env, log, req, nows, base, j);
      ListFromSucceedsOnlyIfAccepted(env, s1.log, req, nows, base, j + 1);
    }
  }

  /** From event `j` on, the sink sees only appends, each under the handler's tag. */
  lemma {:induction false} ListFromKeepsTag(
    env: Env, log: SinkLog, req: PostEventListRequest, nows: seq<Time>, j: nat)
    requires |nows| == |req.events| && j <= |req.events|
    ensures var s := ListFrom(env, log, req, nows, j);
      && IsPrefix(log.attempted, s.log.attempted)
      && IsPrefix(log.posted, s.log.posted)
      && forall x :: |log.attempted| <= x < |s.log.attempted| ==> s.log.attempted[x].tag == env.tag
    decreases |req.events| - j
  {
    if j < |req.events| {
      var s1 := PostSpec(env, log, req.events[j], req.client,
                         req.browserUuid, req.requestUuid, req.userAgent, req.referer, nows[j]);
      var entry := EntryAt(env, req, nows, j);
      assert IsPrefix(log.attempted, s1.log.attempted) && IsPrefix(log.posted, s1.log.posted);
      assert forall x :: |log.attempted| <= x < |s1.log.attempted| ==> s1.log.attempted[x] == entry.value;
      if s1.err.None? {
        var s := ListFrom(env, s1.log, req, nows, j + 1);
        assert ListFrom(env, log, req, nows, j) == s;
        ListFromKeepsTag(env, s1.log, req, nows, j + 1);
        PrefixTransitive(log.attempted, s1.log.attempted, s.log.attempted);
        PrefixTransitive(log.posted, s1.log.posted, s.log.posted);
        forall x | |log.attempted| <= x < |s.log.attempted|
          ensures s.log.attempted[x].tag == env.tag
        {
          if x < |s1.log.attempted| {
            assert s.log.attempted[x] == s1.log.attempted[x];
          }
        }
      } else {
        assert ListFrom(env, log, req, nows, j) == s1;
      }
    }
  }

  /** A batch whose every event goes through succeeds and appends one entry per event, in order. */
  lemma BatchAllAccepted(env: Env, log: SinkLog, req: PostEventListRequest, nows: seq<Time>)
    requires |nows| == |req.events|
    requires forall i :: 0 <= i < |req.events| ==> AcceptedAt(env, |log.attempted|, req, nows, i)
    ensures var s := ListSpec(env, log, req, nows);
      && s.err.None?
      && Appended(log.posted, s.log.posted, env, req, nows, 0, |req.events|)
      && Appended(log.attempted, s.log.attempted, env, req, nows, 0, |req.events|)
  {
    ListFromAllAccepted(env, log, req, nows, |log.attempted|, 0);
  }

  /**
   * A batch whose event `k` is the first that does not go through returns
   * that event's error, has appended the entries of events 0 .. k-1 in order,
   * and has tried nothing after event k.
   */
  lemma BatchFirstFailure(env: Env, log: SinkLog, req: PostEventListRequest, nows: seq<Time>, k: nat)
    requires |nows| == |req.events| && k < |req.events|
    requires forall i :: 0 <= i < k ==> AcceptedAt(env, |log.attempted|, req, nows, i)
    requires !AcceptedAt(env, |log.attempted|, req, nows, k)
    ensures ListSpec(env, log, req, nows).err == Some(FailureAt(env, |log.attempted|, req, nows, k))
    ensures Appended(log.posted, ListSpec(env, log, req, nows).log.posted, env, req, nows, 0, k)
    ensures |ListSpec(env, log, req, nows).log.attempted|
         == |log.attempted| + k + (if EntryAt(env, req, nows, k).Ok? then 1 else 0)
    ensures Appended(log.attempted, ListSpec(env, log, req, nows).log.attempted[..|log.attempted| + k],
                     env, req, nows, 0, k)
    ensures EntryAt(env, req, nows, k).Ok? ==>
      ListSpec(env, log, req, nows).log.attempted[|log.attempted| + k] == EntryAt(env, req, nows, k).value
  {
    var s := ListFrom(env, log, req, nows, 0);
    ListFromFirstFailure(env, log, req, nows, |log.attempted|, 0, k);
    assert ListSpec(env, log, req, nows) == s;
  }

  /** A batch succeeds exactly when every one of its events goes through. */
  lemma BatchSucceedsIff(env: Env, log: SinkLog, req: PostEventListRequest, nows: seq<Time>)
    requires |nows| == |req.events|
    ensures ListSpec(env, log, req, nows).err.None?
        <==> forall i :: 0 <= i < |req.events| ==> AcceptedAt(env, |log.attempted|, req, nows, i)
  {
    ListFromSucceedsIff(env, log, req, nows, |log.attempted|, 0);
  }

  /** A batch only appends to the sink, and every entry it hands over carries the handler's tag. */
  lemma BatchKeepsTag(env: Env, log: SinkLog, req: PostEventListRequest, nows: seq<Time>)
    requires |nows| == |req.events|
    ensures var s := ListSpec(env, log, req, nows);
      && IsPrefix(log.attempted, s.log.attempted)
      && IsPrefix(log.posted, s.log.posted)
      && forall x :: |log.attempted| <= x < |s.log.attempted| ==> s.log.attempted[x].tag == env.tag
  {
    ListFromKeepsTag(env, log, req, nows, 0);
  }

  /** A batch of one event does to the sink what PostEvent does, and fails or succeeds with it. */
  lemma SingletonBatchIsPostEvent(env: Env, log: SinkLog, req: PostEventRequest, now: Time)
    ensures ListSpec(env, log,
                     PostEventListRequest([req.event], req.client, req.browserUuid,
                                          req.requestUuid, req.userAgent, req.referer),
                     [now])
         == PostSpec(env, log, req.event, req.client,
                     req.browserUuid, req.requestUuid, req.userAgent, req.referer, now)
  {
    var lreq := PostEventListRequest([req.event], req.client, req.browserUuid,
                                     req.requestUuid, req.userAgent, req.referer);
    var s := PostSpec(env, log, req.event, req.client,
                      req.browserUuid, req.requestUuid, req.userAgent, req.referer, now);
    assert ListFrom(env, s.log, lreq, [now], 1) == Step(s.log, None);
  }

  /** The service handler: a sink shared by all calls and the tag every record is posted under. */
  class Handler {
    const fl: Sink
    const tag: string
    const convert: Converter

    /** The handler's fixed configuration, as the pure specifications take it. */
    function Config(): Env {
      Env(tag, convert, fl.accept)
    }

    constructor (fl: Sink, tag: string, convert: Converter)
      ensures this.fl == fl && this.tag == tag && this.convert == convert
    {
      this.fl := fl;
      this.tag := tag;
      this.convert := convert;
    }

    /** `post`: builds the record, resolves the time, and posts the entry to the sink. */
    method Post(
      event: Event, client: Client,
      browserUuid: string, requestUuid: string, userAgent: string, referer: string,
      now: Time) returns (err: Option<Error>)
      modifies fl
      ensures Step(fl.Log(), err)
           == PostSpec(Config(), old(fl.Log()), event, client, browserUuid, requestUuid, userAgent, referer, now)
    {
      var m := Normalize(event, client, browserUuid, requestUuid, userAgent, referer);
      var t: Time;
      if event.timestamp.Some? {
        var converted := convert(event.timestamp.value);
        if converted.Err? {
          return Some(TimestampError(converted.error));
        }
        t := converted.value;
      } else {
        t := now;
      }
      err := fl.Post(tag, m, InUTC(t));
    }

    /** Posts a single event: an empty response on success, `post`'s error otherwise. */
    method PostEvent(req: PostEventRequest, now: Time) returns (res: Result<PostEventResponse, Error>)
      modifies fl
      ensures var s := PostSpec(Config(), old(fl.Log()), req.event, req.client,
                                req.browserUuid, req.requestUuid, req.userAgent, req.referer, now);
        fl.Log() == s.log && res == EventReply(s.err)
    {
      var err := Post(req.event, req.client, req.browserUuid, req.requestUuid, req.userAgent, req.referer, now);
      if err.Some? {
        return Err(err.value);
      } else {
        return Ok(PostEventResponse);
      }
    }

    /**
     * Posts the events of a batch one at a time, in order, each with the
     * request's client and correlation fields and its own clock reading
     * `nows[i]`; returns the first error and attempts nothing after it.
     */
    method PostEventList(req: PostEventListRequest, nows: seq<Time>)
      returns (res: Result<PostEventListResponse, Error>)
      requires |nows| == |req.events|
      modifies fl
      ensures var s := ListSpec(Config(), old(fl.Log()), req, nows);
        && fl.Log() == s.log
        && (res.Ok? <==> s.err.None?)
        && (res.Err? ==> s.err == Some(res.error))
      ensures req.events == [] ==> res.Ok? && fl.Log() == old(fl.Log())
    {
      var i := 0;
      while i < |req.events|
        invariant 0 <= i <= |req.events|
        invariant ListSpec(Config(), old(fl.Log()), req, nows) == ListFrom(Config(), fl.Log(), req, nows, i)
      {
        var err := Post(req.events[i], req.client,
                        req.browserUuid, req.requestUuid, req.userAgent, req.referer, nows[i]);
        if err.Some? {
          return Err(err.value);
        }
        i := i + 1;
      }
      return Ok(PostEventListResponse);
    }
  }
}
