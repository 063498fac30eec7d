/** The server as the pages see it: each request is answered, in the order it is sent, by the
    next reply of a script fixed in advance. What the server stores is not modelled; only the
    ids it hands back and whether a request fails. Every request here goes through the
    authenticated client, so a reply is the final outcome after the 401 handling in
    `Interceptor`. */
module Server {
  import opened Base
  import opened Entities
  import opened Drafts
  import opened Api

  /** The settled answer to one request: its response data, or a rejection carrying the
      error's `message`. */
  datatype Reply<T> = Ok(value: T) | Failed(message: string)

  /** The `k`-th reply of a script; past its end the request fails. Its message is a
      placeholder: what a missing response turns into on the authenticated client is
      modelled in `Interceptor`. */
  function ReplyAt<T>(replies: seq<Reply<T>>, k: nat): (r: Reply<T>)
    ensures k < |replies| ==> r == replies[k]
    ensures k >= |replies| ==> r.Failed?
  {
    if k < |replies| then replies[k] else Failed("Network Error")
  }

  /** A cache key of the query client: a list (`'technologies'`, `'screenshots'`, `'projects'`)
      or one project (`['project', id]`, keyed by the route's raw id string). */
  datatype QueryKey = ListKey(name: string) | ProjectKey(id: string)

  /** How a sequence of awaited requests ended: all answered, a request that threw before it
      was sent, or a rejected reply. The last two reject the whole submit handler. */
  datatype Stop = Finished | Threw(error: ClientError) | Rejected(message: string)

  /** The requests a batch sent and the ids it collected. */
  datatype Batch<Id> = Batch(sent: seq<Request<Id>>, ids: seq<Id>, stop: Stop)

  /** `for (const x of xs) { const { data } = await create(x); ids.push(data.id); }`, where
      `prepared[i]` is the request the `i`-th call would send, or the error it throws first.
      The loop stops at the first throw or rejection; nothing sent before it is undone. */
  function CreateEach<Id>(prepared: seq<Result<Request<Id>, ClientError>>, replies: seq<Reply<Id>>): (b: Batch<Id>)
    ensures |b.ids| <= |b.sent| <= |prepared|
    ensures forall i :: 0 <= i < |b.sent| ==> prepared[i] == Success(b.sent[i])
    ensures forall i :: 0 <= i < |b.ids| ==> ReplyAt(replies, i) == Ok(b.ids[i])
    ensures b.stop.Finished? ==> |b.sent| == |b.ids| == |prepared|
    ensures b.stop.Threw? ==> |b.sent| == |b.ids| < |prepared| && prepared[|b.sent|] == Failure(b.stop.error)
    ensures b.stop.Rejected? ==> |b.sent| == |b.ids| + 1 && ReplyAt(replies, |b.ids|) == Failed(b.stop.message)
    decreases |prepared|
  {
    if prepared == [] then Batch([], [], Finished)
    else
      match prepared[0]
      case Failure(e) => Batch([], [], Threw(e))
      case Success(request) =>
        match ReplyAt(replies, 0)
        case Failed(m) => Batch([request], [], Rejected(m))
        case Ok(id) =>
          var later := if replies == [] then [] else replies[1..];
          var rest := CreateEach(prepared[1..], later);
          assert forall i :: 0 <= i < |rest.ids| ==> ReplyAt(replies, i + 1) == ReplyAt(later, i);
          Batch([request] + rest.sent, [id] + rest.ids, rest.stop)
  }

  /** The ids the first `n` replies carry, when each of them succeeds. */
  function Answers<T>(replies: seq<Reply<T>>, n: nat): (ids: seq<T>)
    requires forall i :: 0 <= i < n ==> ReplyAt(replies, i).Ok?
    ensures |ids| == n
    ensures forall i :: 0 <= i < n ==> ReplyAt(replies, i) == Ok(ids[i])
  {
    seq(n, i requires 0 <= i < n && ReplyAt(replies, i).Ok? => ReplyAt(replies, i).value)
  }

  /** A batch whose every request can be sent and is answered sends them all, in order, and
      collects the answers in order. */
  lemma CreateEachAllAnswered<Id>(prepared: seq<Result<Request<Id>, ClientError>>, replies: seq<Reply<Id>>)
    requires forall i :: 0 <= i < |prepared| ==> prepared[i].Success?
    requires forall i :: 0 <= i < |prepared| ==> ReplyAt(replies, i).Ok?
    ensures CreateEach(prepared, replies).stop.Finished?
    ensures forall i :: 0 <= i < |prepared| ==> CreateEach(prepared, replies).sent[i] == prepared[i].value
    ensures CreateEach(prepared, replies).ids == Answers(replies, |prepared|)
  {
  }

  /** The first request that cannot be sent ends the batch there: the requests before it are
      sent (and stay created), it and everything after it are not. */
  lemma CreateEachStopsAtThrow<Id>(prepared: seq<Result<Request<Id>, ClientError>>, replies: seq<Reply<Id>>, k: nat)
    requires k < |prepared| && prepared[k].Failure?
    requires forall i :: 0 <= i < k ==> prepared[i].Success? && ReplyAt(replies, i).Ok?
    ensures CreateEach(prepared, replies).stop == Threw(prepared[k].error)
    ensures |CreateEach(prepared, replies).sent| == k
  {
  }

  /** The create request for each technology draft, in draft order; these never throw. */
  function TechnologyRequests<Id>(drafts: seq<TechnologyDraft>): (r: seq<Result<Request<Id>, ClientError>>)
    ensures |r| == |drafts|
    ensures forall i :: 0 <= i < |r| ==> r[i] == Success(CreateTechnology(drafts[i].name))
  {
    seq(|drafts|, i requires 0 <= i < |drafts| => Success(CreateTechnology(drafts[i].name)))
  }

  /** `newProject[key] = newProject[key].concat(ids)`. */
  function Attach<Id>(project: Inputs<Id>, key: string, ids: seq<Id>): (r: Inputs<Id>)
    requires IsList(project, key)
    ensures IsList(r, key) && r[key].ids == project[key].ids + ids
    ensures forall k :: k != key ==> (k in r <==> k in project) && (k in r ==> r[k] == project[k])
  {
    project[key := Refs(project[key].ids + ids)]
  }

  lemma AttachNothing<Id>(project: Inputs<Id>, key: string)
    requires IsList(project, key)
    ensures Attach(project, key, []) == project
  {
    assert project[key].ids + [] == project[key].ids;
    assert project[key] == Refs(project[key].ids);
  }
}
