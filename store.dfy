/** The five cloud functions over the `users` collection. The collection is a
    map from document id to document, held by a `UserStore` object whose
    methods are the handlers. Each handler runs as one atomic step: it first
    gives the CORS preflight gate a chance to answer, then checks its inputs
    and touches the store, returning at the first check that fails. */
module CloudFunctions {
  import opened Users
  import opened Http
  import opened Handlers

  class UserStore {
    /** The `users` collection: document id to document. */
    var docs: map<string, Doc>

    constructor (initial: map<string, Doc>)
      ensures docs == initial
    {
      docs := initial;
    }

    /** `db.collection('users').get()`: every stored document once, under its
        key, in an order the store chooses. */
    method Snapshot() returns (entries: seq<(string, Doc)>)
      ensures IsSnapshotOf(entries, docs)
    {
      entries := [];
      var pending := docs.Keys;
      while pending != {}
        invariant pending <= docs.Keys
        invariant forall i | 0 <= i < |entries| :: entries[i].0 in docs && entries[i].0 !in pending && docs[entries[i].0] == entries[i].1
        invariant DistinctIds(entries)
        invariant forall k | k in docs && k !in pending :: exists i | 0 <= i < |entries| :: entries[i].0 == k
        decreases pending
      {
        var k :| k in pending;
        ghost var before := entries;
        entries := entries + [(k, docs[k])];
        assert forall i | 0 <= i < |before| :: entries[i] == before[i];
        assert entries[|entries| - 1].0 == k;
        pending := pending - {k};
      }
    }

    /** `getUsers`. Store calls: 0 reads the whole collection. */
    method GetUsers(req: Request, fault: Fault) returns (resp: Response)
      ensures IsPreflight(req) ==> Some(resp) == Preflight(req.httpMethod)
      ensures !IsPreflight(req) && Throws(fault, 0) ==> resp == ServerError()
      ensures !IsPreflight(req) && !Throws(fault, 0) ==>
        resp.status == 200 && resp.body.Records? && resp.headers == map[] && Lists(resp.body.users, docs)
    {
      var gate := Preflight(req.httpMethod);
      if gate.Some? {
        return gate.value;
      }
      if Throws(fault, 0) {
        return ServerError();
      }
      var entries := Snapshot();
      ShapedSnapshotLists(entries, docs);
      resp := Json(Records(ShapeAll(entries)));
    }

    /** `getUserById`. */
    method GetUserById(req: Request, fault: Fault) returns (resp: Response)
      ensures resp == GetUserByIdResponse(docs, req, fault)
    {
      var gate := Preflight(req.httpMethod);
      if gate.Some? {
        return gate.value;
      }
      if !Truthy(req.userId) {
        return Send(400, UserIdRequired);
      }
      var userId := req.userId.value;
      if Throws(fault, 0) {
        return ServerError();
      }
      if userId !in docs {
        return Send(404, UserNotFound);
      }
      resp := Json(Record(WithId(userId, docs[userId])));
    }

    /** `createUser`; `newId` is the id `doc()` generates, `now` the commit
        time of the write. */
    method CreateUser(req: Request, newId: string, now: Timestamp, fault: Fault) returns (resp: Response)
      modifies this
      ensures Effect(docs, resp) == CreateUserEffect(old(docs), req, newId, now, fault)
    {
      var gate := Preflight(req.httpMethod);
      if gate.Some? {
        return gate.value;
      }
      if !HasNameAndEmail(req) {
        return Send(400, NameAndEmailRequired);
      }
      var name, email := req.name.value, req.email.value;
      var timestamp := now;
      if Throws(fault, 0) {
        return ServerError();
      }
      docs := docs[newId := Doc(name, email, timestamp, timestamp)];
      if Throws(fault, 1) {
        return ServerError();
      }
      var data := docs[newId];
      resp := Json(Record(WithId(newId, data)));
    }

    /** `updateUser`; `now` is the commit time of the update. */
    method UpdateUser(req: Request, now: Timestamp, fault: Fault) returns (resp: Response)
      modifies this
      ensures Effect(docs, resp) == UpdateUserEffect(old(docs), req, now, fault)
    {
      var gate := Preflight(req.httpMethod);
      if gate.Some? {
        return gate.value;
      }
      if !Truthy(req.userId) {
        return Send(400, UserIdRequired);
      }
      var userId := req.userId.value;
      if !HasNameAndEmail(req) {
        return Send(400, NameAndEmailRequired);
      }
      var name, email := req.name.value, req.email.value;
      if Throws(fault, 0) {
        return ServerError();
      }
      if userId !in docs {
        return Send(404, UserNotFound);
      }
      if Throws(fault, 1) {
        return ServerError();
      }
      docs := docs[userId := docs[userId].(name := name, email := email, updatedAt := now)];
      if Throws(fault, 2) {
        return ServerError();
      }
      var updated := docs[userId];
      resp := Json(Record(WithId(userId, updated)));
    }

    /** `deleteUser`. */
    method DeleteUser(req: Request, fault: Fault) returns (resp: Response)
      modifies this
      ensures Effect(docs, resp) == DeleteUserEffect(old(docs), req, fault)
    {
      var gate := Preflight(req.httpMethod);
      if gate.Some? {
        return gate.value;
      }
      if !Truthy(req.userId) {
        return Send(400, UserIdRequired);
      }
      var userId := req.userId.value;
      if Throws(fault, 0) {
        return ServerError();
      }
      if userId !in docs {
        return Send(404, UserNotFound);
      }
      if Throws(fault, 1) {
        return ServerError();
      }
      docs := docs - {userId};
      resp := Response(204, NoBody, map[]);
    }
  }
}
