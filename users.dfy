/** The `users` collection: what a stored document holds, and how a handler turns
    a document into the JSON record it answers with. */
module Users {

  /** The value a server timestamp resolves to when the store commits a write.
      The handlers never compare two of them; only the lemmas about a clock that
      does not run backwards do. */
  type Timestamp = int

  /** The fields of one document, as `createUser` writes them. */
  datatype Doc = Doc(name: string, email: string, createdAt: Timestamp, updatedAt: Timestamp)

  /** The JSON shape of a user in a response: the document's id next to its fields. */
  datatype UserRecord = UserRecord(id: string, name: string, email: string, createdAt: Timestamp, updatedAt: Timestamp)

  /** The fields of a record without its id (`doc.data()`). */
  function DataOf(r: UserRecord): Doc {
    Doc(r.name, r.email, r.createdAt, r.updatedAt)
  }

  /** `{ id: doc.id, ...doc.data() }`: the document under its key. Stored
      documents have no `id` field of their own, so the spread cannot overwrite it. */
  function WithId(id: string, d: Doc): (r: UserRecord)
    ensures r.id == id && DataOf(r) == d
  {
    UserRecord(id, d.name, d.email, d.createdAt, d.updatedAt)
  }

  /** Splitting a record into its id and its fields loses nothing. */
  lemma RecordRoundTrip(r: UserRecord)
    ensures WithId(r.id, DataOf(r)) == r
  {
  }

  /** `snapshot.docs.map(doc => ({ id: doc.id, ...doc.data() }))`, entry by entry. */
  function ShapeAll(entries: seq<(string, Doc)>): (rs: seq<UserRecord>)
    ensures |rs| == |entries|
    ensures forall i | 0 <= i < |rs| :: rs[i].id == entries[i].0 && DataOf(rs[i]) == entries[i].1
  {
    if entries == [] then [] else [WithId(entries[0].0, entries[0].1)] + ShapeAll(entries[1..])
  }

  /** The ids that occur in a snapshot. */
  ghost function IdSet(entries: seq<(string, Doc)>): set<string> {
    if entries == [] then {} else {entries[0].0} + IdSet(entries[1..])
  }

  ghost predicate DistinctIds(entries: seq<(string, Doc)>) {
    forall i, j | 0 <= i < j < |entries| :: entries[i].0 != entries[j].0
  }

  /** `entries` is a full read of the collection `docs`, in some order: every
      entry is a stored document under its own key, no key occurs twice, and
      every key occurs. */
  ghost predicate IsSnapshotOf(entries: seq<(string, Doc)>, docs: map<string, Doc>) {
    && (forall i | 0 <= i < |entries| :: entries[i].0 in docs && docs[entries[i].0] == entries[i].1)
    && DistinctIds(entries)
    && (forall k | k in docs :: exists i | 0 <= i < |entries| :: entries[i].0 == k)
  }

  /** `rs` lists the collection `docs`: one record per stored document, whose id
      is the document's key and whose fields are the document's fields. */
  ghost predicate Lists(rs: seq<UserRecord>, docs: map<string, Doc>) {
    && |rs| == |docs|
    && (forall i | 0 <= i < |rs| :: rs[i].id in docs && DataOf(rs[i]) == docs[rs[i].id])
    && (forall i, j | 0 <= i < j < |rs| :: rs[i].id != rs[j].id)
    && (forall k | k in docs :: exists i | 0 <= i < |rs| :: rs[i].id == k)
  }

  lemma {:induction false} IdSetMembers(entries: seq<(string, Doc)>, k: string)
    ensures k in IdSet(entries) <==> exists i | 0 <= i < |entries| :: entries[i].0 == k
  {
    if entries != [] {
      IdSetMembers(entries[1..], k);
      if k in IdSet(entries[1..]) {
        var i :| 0 <= i < |entries[1..]| && entries[1..][i].0 == k;
        assert entries[i + 1].0 == k;
      }
      if exists i | 0 <= i < |entries| :: entries[i].0 == k {
        var i :| 0 <= i < |entries| && entries[i].0 == k;
        if i > 0 {
          assert entries[1..][i - 1].0 == k;
        }
      }
    }
  }

  /** Distinct ids: the snapshot has as many entries as it has ids. */
  lemma {:induction false} DistinctIdsCount(entries: seq<(string, Doc)>)
    requires DistinctIds(entries)
    ensures |IdSet(entries)| == |entries|
  {
    if entries != [] {
      var tail := entries[1..];
      assert DistinctIds(tail) by {
        forall i, j | 0 <= i < j < |tail| ensures tail[i].0 != tail[j].0 {
          assert tail[i] == entries[i + 1] && tail[j] == entries[j + 1];
        }
      }
      DistinctIdsCount(tail);
      forall i | 0 <= i < |tail| ensures tail[i].0 != entries[0].0 {
        assert tail[i] == entries[i + 1];
      }
      IdSetMembers(tail, entries[0].0);
    }
  }

  /** A full read of the collection has exactly one entry per stored document. */
  lemma SnapshotSize(entries: seq<(string, Doc)>, docs: map<string, Doc>)
    requires IsSnapshotOf(entries, docs)
    ensures |entries| == |docs|
  {
    forall k ensures k in IdSet(entries) <==> k in docs {
      IdSetMembers(entries, k);
    }
    assert IdSet(entries) == docs.Keys;
    DistinctIdsCount(entries);
  }

  /** Shaping a full read of the collection lists the collection: the `getUsers`
      body has one `{id, ...data}` per document, so an empty collection gives `[]`. */
  lemma ShapedSnapshotLists(entries: seq<(string, Doc)>, docs: map<string, Doc>)
    requires IsSnapshotOf(entries, docs)
    ensures Lists(ShapeAll(entries), docs)
    ensures docs == map[] ==> ShapeAll(entries) == []
  {
    SnapshotSize(entries, docs);
    var rs := ShapeAll(entries);
    forall k | k in docs ensures exists i | 0 <= i < |rs| :: rs[i].id == k {
      var i :| 0 <= i < |entries| && entries[i].0 == k;
      assert rs[i].id == k;
    }
  }
}
