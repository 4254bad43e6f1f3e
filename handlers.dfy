/** Reference definitions of the handlers `getUserById`, `createUser`,
    `updateUser` and `deleteUser`: what each one answers and what the `users`
    collection holds afterwards, as a function of the collection before, the
    request, and which store call (if any) throws. Their ensures clauses are
    the promises the handlers keep; `UserStore` in store.dfy is proved to
    behave exactly as these functions say. */
module Handlers {
  import opened Users
  import opened Http

  /** Which store call throws, counting from 0 in the order a handler issues
      them; `NoFault` when none does. A call that throws writes nothing. */
  datatype Fault = NoFault | FailsOnCall(call: nat)

  /** The first `calls` store calls of a handler all succeed. */
  predicate Survives(fault: Fault, calls: nat) {
    !(fault.FailsOnCall? && fault.call < calls)
  }

  predicate Throws(fault: Fault, call: nat) {
    fault.FailsOnCall? && fault.call == call
  }

  /** The collection after a handler ran, and what it answered. */
  datatype Effect = Effect(store: map<string, Doc>, response: Response)

  /** The preflight gate answers this request. */
  predicate IsPreflight(req: Request) {
    Preflight(req.httpMethod).Some?
  }

  /** `!name || !email` is false. */
  function HasNameAndEmail(req: Request): (b: bool)
    ensures b <==> req.name.Some? && req.name.value != "" && req.email.Some? && req.email.value != ""
  {
    Truthy(req.name) && Truthy(req.email)
  }

  /** `getUserById`. Store calls: 0 reads the document. */
  function GetUserByIdResponse(docs: map<string, Doc>, req: Request, fault: Fault): (r: Response)
    ensures IsPreflight(req) ==> Some(r) == Preflight(req.httpMethod)
    ensures !IsPreflight(req) && !Truthy(req.userId) ==> r == Send(400, UserIdRequired)
    ensures r.status == 404 <==> !IsPreflight(req) && Truthy(req.userId) && Survives(fault, 1) && req.userId.value !in docs
    ensures r.status == 404 ==> r == Send(404, UserNotFound)
    ensures r.status == 200 <==> !IsPreflight(req) && Truthy(req.userId) && Survives(fault, 1) && req.userId.value in docs
    ensures r.status == 200 ==> r == Json(Record(WithId(req.userId.value, docs[req.userId.value])))
    ensures r.status == 200 ==> r.body.user.id == req.userId.value && DataOf(r.body.user) == docs[req.userId.value]
    ensures !IsPreflight(req) && Truthy(req.userId) && Throws(fault, 0) ==> r == ServerError()
    ensures r.status == 500 ==> r == ServerError()
    ensures r.status in {200, 204, 400, 404, 500}
  {
    if IsPreflight(req) then Preflight(req.httpMethod).value
    else if !Truthy(req.userId) then Send(400, UserIdRequired)
    else if Throws(fault, 0) then ServerError()
    else if req.userId.value !in docs then Send(404, UserNotFound)
    else Json(Record(WithId(req.userId.value, docs[req.userId.value])))
  }

  /** `createUser`, with `newId` the id that `doc()` generates and `now` the
      commit time that the single `timestamp` sentinel resolves to. Store calls:
      0 writes the document with `set`, 1 reads it back. */
  function CreateUserEffect(docs: map<string, Doc>, req: Request, newId: string, now: Timestamp, fault: Fault): (e: Effect)
    ensures IsPreflight(req) ==> e.store == docs && Some(e.response) == Preflight(req.httpMethod)
    ensures e.response.status == 400 <==> !IsPreflight(req) && !HasNameAndEmail(req)
    ensures e.response.status == 400 ==> e.response == Send(400, NameAndEmailRequired)
    ensures e.response.status in {204, 400} ==> e.store == docs
    ensures e.store != docs ==> HasNameAndEmail(req) && e.store == docs[newId := Doc(req.name.value, req.email.value, now, now)]
    ensures e.response.status == 200 <==> !IsPreflight(req) && HasNameAndEmail(req) && Survives(fault, 2)
    ensures e.response.status == 200 ==>
      && e.store == docs[newId := Doc(req.name.value, req.email.value, now, now)]
      && e.response == Json(Record(UserRecord(newId, req.name.value, req.email.value, now, now)))
    ensures !IsPreflight(req) && HasNameAndEmail(req) && Throws(fault, 0) ==> e == Effect(docs, ServerError())
    ensures !IsPreflight(req) && HasNameAndEmail(req) && Throws(fault, 1) ==>
      e == Effect(docs[newId := Doc(req.name.value, req.email.value, now, now)], ServerError())
    ensures e.response.status == 500 ==> e.response == ServerError()
    ensures e.response.status in {200, 204, 400, 500}
  {
    if IsPreflight(req) then Effect(docs, Preflight(req.httpMethod).value)
    else if !HasNameAndEmail(req) then Effect(docs, Send(400, NameAndEmailRequired))
    else if Throws(fault, 0) then Effect(docs, ServerError())
    else
      var stored := docs[newId := Doc(req.name.value, req.email.value, now, now)];
      if Throws(fault, 1) then Effect(stored, ServerError())
      else Effect(stored, Json(Record(WithId(newId, stored[newId]))))
  }

  /** `updateUser`, with `now` the commit time of the `updatedAt` sentinel.
      Store calls: 0 reads the document, 1 updates it, 2 reads it back. */
  function UpdateUserEffect(docs: map<string, Doc>, req: Request, now: Timestamp, fault: Fault): (e: Effect)
    ensures IsPreflight(req) ==> e.store == docs && Some(e.response) == Preflight(req.httpMethod)
    ensures !IsPreflight(req) && !Truthy(req.userId) ==> e == Effect(docs, Send(400, UserIdRequired))
    ensures !IsPreflight(req) && Truthy(req.userId) && !HasNameAndEmail(req) ==> e == Effect(docs, Send(400, NameAndEmailRequired))
    ensures e.response.status == 404 <==>
      !IsPreflight(req) && Truthy(req.userId) && HasNameAndEmail(req) && Survives(fault, 1) && req.userId.value !in docs
    ensures e.response.status == 404 ==> e.response == Send(404, UserNotFound)
    ensures e.response.status in {204, 400, 404} ==> e.store == docs
    ensures e.store != docs ==>
      && Truthy(req.userId) && HasNameAndEmail(req) && req.userId.value in docs
      && e.store == docs[req.userId.value := docs[req.userId.value].(name := req.name.value, email := req.email.value, updatedAt := now)]
    ensures e.response.status == 200 <==>
      !IsPreflight(req) && Truthy(req.userId) && HasNameAndEmail(req) && Survives(fault, 3) && req.userId.value in docs
    ensures e.response.status == 200 ==>
      var id := req.userId.value;
      && e.store.Keys == docs.Keys
      && (forall k | k in docs && k != id :: e.store[k] == docs[k])
      && e.store[id] == Doc(req.name.value, req.email.value, docs[id].createdAt, now)
      && e.response == Json(Record(WithId(id, e.store[id])))
    ensures !IsPreflight(req) && Truthy(req.userId) && HasNameAndEmail(req) ==>
      var id := req.userId.value;
      && (Throws(fault, 0) ==> e == Effect(docs, ServerError()))
      && (id in docs && Throws(fault, 1) ==> e == Effect(docs, ServerError()))
      && (id in docs && Throws(fault, 2) ==>
            e == Effect(docs[id := docs[id].(name := req.name.value, email := req.email.value, updatedAt := now)], ServerError()))
    ensures e.response.status == 500 ==> e.response == ServerError()
    ensures e.response.status in {200, 204, 400, 404, 500}
  {
    if IsPreflight(req) then Effect(docs, Preflight(req.httpMethod).value)
    else if !Truthy(req.userId) then Effect(docs, Send(400, UserIdRequired))
    else if !HasNameAndEmail(req) then Effect(docs, Send(400, NameAndEmailRequired))
    else if Throws(fault, 0) then Effect(docs, ServerError())
    else
      var id := req.userId.value;
      if id !in docs then Effect(docs, Send(404, UserNotFound))
      else if Throws(fault, 1) then Effect(docs, ServerError())
      else
        var stored := docs[id := docs[id].(name := req.name.value, email := req.email.value, updatedAt := now)];
        if Throws(fault, 2) then Effect(stored, ServerError())
        else Effect(stored, Json(Record(WithId(id, stored[id]))))
  }

  /** `deleteUser`. Store calls: 0 reads the document, 1 deletes it. */
  function DeleteUserEffect(docs: map<string, Doc>, req: Request, fault: Fault): (e: Effect)
    ensures IsPreflight(req) ==> e.store == docs && Some(e.response) == Preflight(req.httpMethod)
    ensures !IsPreflight(req) && !Truthy(req.userId) ==> e == Effect(docs, Send(400, UserIdRequired))
    ensures e.response.status == 404 <==> !IsPreflight(req) && Truthy(req.userId) && Survives(fault, 1) && req.userId.value !in docs
    ensures e.response.status == 404 ==> e.response == Send(404, UserNotFound)
    ensures e.response.status in {400, 404, 500} ==> e.store == docs
    ensures e.store != docs ==> Truthy(req.userId) && req.userId.value in docs && e.store == docs - {req.userId.value}
    ensures !IsPreflight(req) && e.response.status == 204 <==>
      !IsPreflight(req) && Truthy(req.userId) && Survives(fault, 2) && req.userId.value in docs
    ensures !IsPreflight(req) && e.response.status == 204 ==>
      && e.store.Keys == docs.Keys - {req.userId.value}
      && (forall k | k in e.store :: e.store[k] == docs[k])
      && e.response == Response(204, NoBody, map[])
    ensures !IsPreflight(req) && Truthy(req.userId) ==>
      && (Throws(fault, 0) ==> e == Effect(docs, ServerError()))
      && (req.userId.value in docs && Throws(fault, 1) ==> e == Effect(docs, ServerError()))
    ensures e.response.status == 500 ==> e.response == ServerError()
    ensures e.response.status in {204, 400, 404, 500}
  {
    if IsPreflight(req) then Effect(docs, Preflight(req.httpMethod).value)
    else if !Truthy(req.userId) then Effect(docs, Send(400, UserIdRequired))
    else if Throws(fault, 0) then Effect(docs, ServerError())
    else
      var id := req.userId.value;
      if id !in docs then Effect(docs, Send(404, UserNotFound))
      else if Throws(fault, 1) then Effect(docs, ServerError())
      else Effect(docs - {id}, Response(204, NoBody, map[]))
  }
}
