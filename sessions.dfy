/** Properties that span more than one request: what a read sees straight after
    a write, and what holds of the `users` collection after any sequence of
    handler calls, each handled atomically. */
module Sessions {
  import opened Users
  import opened Http
  import opened Handlers

  /** A request that carries only `?userId=id`. */
  function ById(verb: string, id: string): Request {
    Request(verb, Some(id), None, None)
  }

  /** A request whose body is `{ name, email }`. */
  function WithBody(verb: string, userId: Option<string>, name: string, email: string): Request {
    Request(verb, userId, Some(name), Some(email))
  }

  /** A created user is read back as the record `createUser` answered with,
      with `createdAt == updatedAt`; if the generated id was not taken, the
      collection gained exactly that one document. */
  lemma CreateThenGet(docs: map<string, Doc>, newId: string, name: string, email: string, now: Timestamp, post: string, get: string)
    requires newId != "" && name != "" && email != ""
    requires post != "OPTIONS" && get != "OPTIONS"
    ensures var e := CreateUserEffect(docs, WithBody(post, None, name, email), newId, now, NoFault);
      && e.response == Json(Record(UserRecord(newId, name, email, now, now)))
      && GetUserByIdResponse(e.store, ById(get, newId), NoFault) == e.response
      && (newId !in docs ==> e.store.Keys == docs.Keys + {newId} && |e.store| == |docs| + 1)
      && (forall k | k in docs && k != newId :: e.store[k] == docs[k])
  {
  }

  /** An update is read back with the new name and email and the update's
      time, the creation time kept. */
  lemma UpdateThenGet(docs: map<string, Doc>, id: string, name: string, email: string, now: Timestamp, put: string, get: string)
    requires id in docs && id != "" && name != "" && email != ""
    requires put != "OPTIONS" && get != "OPTIONS"
    ensures var e := UpdateUserEffect(docs, WithBody(put, Some(id), name, email), now, NoFault);
      && GetUserByIdResponse(e.store, ById(get, id), NoFault) == e.response
      && e.response == Json(Record(UserRecord(id, name, email, docs[id].createdAt, now)))
      && |e.store| == |docs|
  {
  }

  /** After a successful delete the id reads as not found, and deleting it
      again is answered 404 rather than succeeding a second time. */
  lemma DeleteThenGet(docs: map<string, Doc>, id: string, del: string, get: string)
    requires id in docs && id != ""
    requires del != "OPTIONS" && get != "OPTIONS"
    ensures var e := DeleteUserEffect(docs, ById(del, id), NoFault);
      && e.response == Response(204, NoBody, map[])
      && |e.store| == |docs| - 1
      && GetUserByIdResponse(e.store, ById(get, id), NoFault) == Send(404, UserNotFound)
      && DeleteUserEffect(e.store, ById(del, id), NoFault) == Effect(e.store, Send(404, UserNotFound))
  {
  }

  /** When the store read succeeds, an id that is not stored gives 404, not
      500, on every handler that takes one, and nothing is written. */
  lemma MissingIdIsNotFound(docs: map<string, Doc>, id: string, name: string, email: string, now: Timestamp, verb: string)
    requires id !in docs && id != "" && name != "" && email != ""
    requires verb != "OPTIONS"
    ensures GetUserByIdResponse(docs, ById(verb, id), NoFault) == Send(404, UserNotFound)
    ensures UpdateUserEffect(docs, WithBody(verb, Some(id), name, email), now, NoFault) == Effect(docs, Send(404, UserNotFound))
    ensures DeleteUserEffect(docs, ById(verb, id), NoFault) == Effect(docs, Send(404, UserNotFound))
  {
  }

  /** The preflight gate answers before any store access: for an `OPTIONS`
      request every handler gives the same 204 whatever the collection holds
      and whichever store call would fail, and writes nothing. */
  lemma PreflightTouchesNoStore(docs: map<string, Doc>, other: map<string, Doc>, req: Request, newId: string, now: Timestamp, f: Fault, g: Fault)
    requires req.httpMethod == "OPTIONS"
    ensures var pre := Preflight("OPTIONS").value;
      && GetUserByIdResponse(docs, req, f) == GetUserByIdResponse(other, req, g) == pre
      && CreateUserEffect(docs, req, newId, now, f) == Effect(docs, pre)
      && UpdateUserEffect(docs, req, now, f) == Effect(docs, pre)
      && DeleteUserEffect(docs, req, f) == Effect(docs, pre)
      && CreateUserEffect(other, req, newId, now, g).response == pre
  {
  }

  /** The handlers never look at the HTTP method beyond `OPTIONS`: a `DELETE`
      sent to `updateUser` is an update. */
  lemma MethodIsIgnored(docs: map<string, Doc>, req: Request, verb: string, newId: string, now: Timestamp, f: Fault)
    requires req.httpMethod != "OPTIONS" && verb != "OPTIONS"
    ensures GetUserByIdResponse(docs, req.(httpMethod := verb), f) == GetUserByIdResponse(docs, req, f)
    ensures CreateUserEffect(docs, req.(httpMethod := verb), newId, now, f) == CreateUserEffect(docs, req, newId, now, f)
    ensures UpdateUserEffect(docs, req.(httpMethod := verb), now, f) == UpdateUserEffect(docs, req, now, f)
    ensures DeleteUserEffect(docs, req.(httpMethod := verb), f) == DeleteUserEffect(docs, req, f)
  {
  }

  /** Which handler a request is sent to; `CreateUser` carries the id that
      `doc()` generates for it. */
  datatype Handler = ListUsers | GetUser | CreateUser(newId: string) | UpdateUser | DeleteUser

  /** One request: the handler, the request, the time a write it makes would
      commit at, and which store call (if any) throws. */
  datatype Call = Call(handler: Handler, req: Request, now: Timestamp, fault: Fault)

  /** The collection after one call. The two read handlers write nothing. */
  function StoreAfter(docs: map<string, Doc>, c: Call): map<string, Doc> {
    match c.handler
    case ListUsers => docs
    case GetUser => docs
    case CreateUser(newId) => CreateUserEffect(docs, c.req, newId, c.now, c.fault).store
    case UpdateUser => UpdateUserEffect(docs, c.req, c.now, c.fault).store
    case DeleteUser => DeleteUserEffect(docs, c.req, c.fault).store
  }

  /** The collection after the calls, one after the other. */
  function Run(docs: map<string, Doc>, calls: seq<Call>): map<string, Doc>
    decreases |calls|
  {
    if calls == [] then docs else Run(StoreAfter(docs, calls[0]), calls[1..])
  }

  /** Every stored user has a non-empty name and email. */
  ghost predicate WellFormed(docs: map<string, Doc>) {
    forall k | k in docs :: docs[k].name != "" && docs[k].email != ""
  }

  /** Every stored user was created no later than its last update, and both
      are no later than `t`. */
  ghost predicate Chronological(docs: map<string, Doc>, t: Timestamp) {
    forall k | k in docs :: docs[k].createdAt <= docs[k].updatedAt <= t
  }

  /** The commit times of successive calls never go back, and start at `t` or later. */
  ghost predicate ClockFrom(calls: seq<Call>, t: Timestamp) {
    && (forall i | 0 <= i < |calls| :: t <= calls[i].now)
    && (forall i, j | 0 <= i < j < |calls| :: calls[i].now <= calls[j].now)
  }

  /** One call keeps every stored name and email non-empty. */
  lemma StepKeepsWellFormed(docs: map<string, Doc>, c: Call)
    requires WellFormed(docs)
    ensures WellFormed(StoreAfter(docs, c))
  {
  }

  /** Whatever the requests and store failures, a collection written only by
      these handlers never holds a user without a name or an email. */
  lemma {:induction false} RunKeepsWellFormed(docs: map<string, Doc>, calls: seq<Call>)
    requires WellFormed(docs)
    ensures WellFormed(Run(docs, calls))
    decreases |calls|
  {
    if calls != [] {
      StepKeepsWellFormed(docs, calls[0]);
      RunKeepsWellFormed(StoreAfter(docs, calls[0]), calls[1..]);
    }
  }

  /** One call at a time not before every stored timestamp keeps them in order. */
  lemma StepKeepsChronological(docs: map<string, Doc>, c: Call, t: Timestamp)
    requires Chronological(docs, t) && t <= c.now
    ensures Chronological(StoreAfter(docs, c), c.now)
  {
  }

  /** With a clock that never runs backwards, `createdAt <= updatedAt` holds of
      every stored user after any sequence of calls. The handlers never compare
      the two: the order comes from the clock alone. */
  lemma {:induction false} RunKeepsChronological(docs: map<string, Doc>, calls: seq<Call>, t: Timestamp)
    requires Chronological(docs, t) && ClockFrom(calls, t)
    ensures forall k | k in Run(docs, calls) :: Run(docs, calls)[k].createdAt <= Run(docs, calls)[k].updatedAt
    decreases |calls|
  {
    if calls != [] {
      StepKeepsChronological(docs, calls[0], t);
      assert ClockFrom(calls[1..], calls[0].now) by {
        forall i | 0 <= i < |calls[1..]| ensures calls[0].now <= calls[1..][i].now {
          assert calls[1..][i] == calls[i + 1];
        }
        forall i, j | 0 <= i < j < |calls[1..]| ensures calls[1..][i].now <= calls[1..][j].now {
          assert calls[1..][i] == calls[i + 1] && calls[1..][j] == calls[j + 1];
        }
      }
      RunKeepsChronological(StoreAfter(docs, calls[0]), calls[1..], calls[0].now);
    }
  }
}
