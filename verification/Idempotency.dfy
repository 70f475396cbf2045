/** Replaying stored responses: a retried request is answered from the store and does nothing else. */
module Idempotency {
  import opened Domain

  datatype Response = Response(status: nat, body: string)

  predicate IsSuccess(r: Response) { 200 <= r.status < 300 }

  /** A request with its Idempotency-Key header, if it has one. */
  datatype Request<R> = Request(key: Option<string>, payload: R)

  type Handler<!S, !R> = (S, R) -> (S, Response)

  /** The service behind the middleware, and the response store. */
  datatype Server<S> = Server(service: S, store: map<string, Response>)

  function Handle<S, R>(h: Handler<S, R>, server: Server<S>, q: Request<R>): (Server<S>, Response) {
    if q.key.Some? && q.key.value in server.store then (server, server.store[q.key.value])
    else
      var (service, response) := h(server.service, q.payload);
      (Server(service,
              if q.key.Some? && IsSuccess(response) then server.store[q.key.value := response] else server.store),
       response)
  }

  /** An answer is kept exactly if its request has a key that is not known yet and its status is 200 to 299. */
  lemma KeptExactly<S, R>(h: Handler<S, R>, server: Server<S>, q: Request<R>)
    ensures var (after, response) := Handle(h, server, q);
            if q.key.Some? && q.key.value in server.store then after == server && response == server.store[q.key.value]
            else
              && (after.service, response) == h(server.service, q.payload)
              && after.store == if q.key.Some? && 200 <= response.status <= 299
                                then server.store[q.key.value := response] else server.store
  {
  }

  /** The middleware as it runs: it answers, or hands the request on and keeps a 2xx answer. */
  class Middleware<S, R> {
    var service: S
    var store: map<string, Response>
    const handler: Handler<S, R>

    constructor (initial: S, handler: Handler<S, R>)
      ensures service == initial && store == map[] && this.handler == handler
    {
      service, store := initial, map[];
      this.handler := handler;
    }

    method Serve(q: Request<R>) returns (response: Response)
      modifies this
      ensures (Server(service, store), response) == Handle(handler, old(Server(service, store)), q)
    {
      if q.key.Some? && q.key.value in store {
        return store[q.key.value];
      }
      var (next, answer) := handler(service, q.payload);
      service := next;
      if q.key.Some? && IsSuccess(answer) {
        store := store[q.key.value := answer];
      }
      response := answer;
    }
  }

  function Serve<S, R>(h: Handler<S, R>, server: Server<S>, qs: seq<Request<R>>): (r: (Server<S>, seq<Response>))
    ensures |r.1| == |qs|
  {
    if |qs| == 0 then (server, [])
    else
      var (before, responses) := Serve(h, server, qs[..|qs| - 1]);
      var (after, response) := Handle(h, before, qs[|qs| - 1]);
      (after, responses + [response])
  }

  /** The bare service, without the middleware. */
  function Bare<S, R>(h: Handler<S, R>, service: S, qs: seq<Request<R>>): (r: (S, seq<Response>))
    ensures |r.1| == |qs|
  {
    if |qs| == 0 then (service, [])
    else
      var (before, responses) := Bare(h, service, qs[..|qs| - 1]);
      var (after, response) := h(before, qs[|qs| - 1].payload);
      (after, responses + [response])
  }

  /** The last of the requests carries a key that an earlier kept request answered with a 2xx under. */
  predicate Repeats<R>(kept: seq<Request<R>>, answers: seq<Response>, key: Option<string>)
    requires |answers| == |kept|
  {
    key.Some? && exists i :: 0 <= i < |kept| && kept[i].key == key && IsSuccess(answers[i])
  }

  /** The requests left when every request is dropped whose key has already got a 2xx. */
  function Kept<S, R>(h: Handler<S, R>, service: S, qs: seq<Request<R>>): seq<Request<R>> {
    if |qs| == 0 then []
    else
      var kept, last := Kept(h, service, qs[..|qs| - 1]), qs[|qs| - 1];
      if Repeats(kept, Bare(h, service, kept).1, last.key) then kept else kept + [last]
  }

  /** The store holds exactly the 2xx answers of the kept requests that have a key. */
  ghost predicate Remembers<R>(store: map<string, Response>, kept: seq<Request<R>>, answers: seq<Response>)
    requires |answers| == |kept|
  {
    && (forall i :: 0 <= i < |kept| && kept[i].key.Some? && IsSuccess(answers[i]) ==>
          kept[i].key.value in store && store[kept[i].key.value] == answers[i])
    && (forall k :: k in store ==> Repeats(kept, answers, Some(k)))
  }

  lemma BareAppend<S, R>(h: Handler<S, R>, service: S, kept: seq<Request<R>>, q: Request<R>)
    ensures var (before, answers) := Bare(h, service, kept);
            Bare(h, service, kept + [q]) == (h(before, q.payload).0, answers + [h(before, q.payload).1])
  {
    assert (kept + [q])[..|kept|] == kept;
  }

  /** A fresh request keeps the store in step. */
  lemma RemembersMore<R>(
    store: map<string, Response>, kept: seq<Request<R>>, answers: seq<Response>, q: Request<R>, answer: Response)
    requires |answers| == |kept| && Remembers(store, kept, answers) && !Repeats(kept, answers, q.key)
    ensures Remembers(if q.key.Some? && IsSuccess(answer) then store[q.key.value := answer] else store,
                      kept + [q], answers + [answer])
  {
    var after := if q.key.Some? && IsSuccess(answer) then store[q.key.value := answer] else store;
    var kept', answers' := kept + [q], answers + [answer];
    forall k | k in after ensures Repeats(kept', answers', Some(k)) {
      if k in store {
        assert Repeats(kept, answers, Some(k));
        var i :| 0 <= i < |kept| && kept[i].key == Some(k) && IsSuccess(answers[i]);
        assert kept'[i].key == Some(k) && IsSuccess(answers'[i]);
      } else {
        assert kept'[|kept|].key == Some(k) && IsSuccess(answers'[|kept|]);
      }
    }
    forall i | 0 <= i < |kept'| && kept'[i].key.Some? && IsSuccess(answers'[i])
      ensures kept'[i].key.value in after && after[kept'[i].key.value] == answers'[i]
    {
      if i < |kept| {
        assert kept[i].key == kept'[i].key && answers[i] == answers'[i];
      }
    }
  }

  /**
   * With the middleware in front, the service ends in the state that the kept requests alone
   * lead to, and a dropped request is answered with the stored response of its key.
   */
  lemma {:induction false} ReplayIsDropping<S, R>(h: Handler<S, R>, service: S, qs: seq<Request<R>>)
    ensures var server := Serve(h, Server(service, map[]), qs).0;
            var kept := Kept(h, service, qs);
            && server.service == Bare(h, service, kept).0
            && Remembers(server.store, kept, Bare(h, service, kept).1)
  {
    if |qs| > 0 {
      var earlier, last := qs[..|qs| - 1], qs[|qs| - 1];
      ReplayIsDropping(h, service, earlier);
      var kept := Kept(h, service, earlier);
      var before := Serve(h, Server(service, map[]), earlier).0;
      var answers := Bare(h, service, kept).1;
      if Repeats(kept, answers, last.key) {
        assert last.key.value in before.store;
      } else {
        assert last.key.Some? ==> last.key.value !in before.store;
        BareAppend(h, service, kept, last);
        RemembersMore(before.store, kept, answers, last, h(before.service, last.payload).1);
      }
    }
  }

  /** The answer to the last request: replayed if its key succeeded before, fresh otherwise. */
  lemma {:induction false} RetryGetsStoredAnswer<S, R>(h: Handler<S, R>, service: S, qs: seq<Request<R>>, q: Request<R>, i: nat)
    requires var kept := Kept(h, service, qs);
             i < |kept| && kept[i].key == q.key && q.key.Some? && IsSuccess(Bare(h, service, kept).1[i])
    ensures var (server, _) := Serve(h, Server(service, map[]), qs);
            Handle(h, server, q) == (server, Bare(h, service, Kept(h, service, qs)).1[i])
  {
    ReplayIsDropping(h, service, qs);
  }
}
