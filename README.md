# User dashboard cloud functions in Dafny

This project models the server side of a small user-management app: five HTTP
cloud functions over a `users` document collection. They are `getUsers`,
`getUserById`, `createUser`, `updateUser` and `deleteUser`, plus the
hand-written CORS preflight gate that each one runs first. The TypeScript source
`functions/src/index.ts` and its compiled JavaScript `functions/lib/index.js`
match line for line, so the model follows both. The section "Compiled form" below
maps each member to the lines of the JavaScript file.

The model makes these choices:

- **The collection.** It is a `map<string, Doc>` from document id to the fields
  `name`, `email`, `createdAt` and `updatedAt`. A `UserStore` object holds it
  (`store.dfy`), and the five handlers are its methods. Each method follows the
  source's early returns step by step:
  1. the preflight gate;
  2. the `userId` check;
  3. the `name`/`email` check;
  4. the existence read;
  5. the single write.
- **Reference functions.** Each handler that is not a full-collection read has one
  in `handlers.dfy`. The function gives the response and the collection afterwards
  for every input. Its `ensures` clauses state what the handler promises, and the
  method is proved to produce exactly that result.
- **Requests.** A request is a record of the HTTP method (`httpMethod`, because
  `method` is a Dafny keyword), `?userId=` and the body's `name` and `email`. Each
  of the last three is `None` when missing. JavaScript's `!v` on these fields is
  `Truthy`: a field fails it when it is missing or is the empty string.
- **Responses.** A response is a status, a body and the headers set by the
  handler's own code. The body is `send('')`, `send(text)`, `send()` with no
  argument, `res.json(record)` or `res.json(list)`.
- **Server timestamps.** `FieldValue.serverTimestamp()` becomes a parameter
  `now`: the time the write commits at. `createUser` uses one `timestamp` value
  for both fields, so the stored `createdAt` and `updatedAt` are the same value.
- **Generated ids.** The id that `doc()` generates is a parameter `newId`. `set`
  overwrites, so the model puts no freshness condition on it. The lemmas that need
  a fresh id say so.
- **Store failures.** A store failure is a `Fault` input: `FailsOnCall(n)` means
  the handler's store call number `n` throws and writes nothing, counting from 0.
  That drives the `catch` block, which answers 500 with the fixed text
  `Internal server error`. The source does not roll back. So if the re-read after
  a successful write fails, the write stays and the answer is still 500. Each
  reference function's `ensures` clauses state, for every store call that can
  throw, both the 500 answer and the collection afterwards. The store either holds
  the whole write or none of it, and a 500 never carries a record.
- **Listing order.** `getUsers` reads the whole collection in an order the store
  chooses. `Snapshot` picks the keys one at a time and is proved to list each
  stored document exactly once under its key. `GetUsers` is then proved to answer
  with one `{id, ...data}` record per document.
- **Multi-request properties.** These are in `sessions.dfy`:
  - create, update and delete each read back as expected;
  - when the store read succeeds, an id not in the store gives 404, not 500;
  - an `OPTIONS` request never reaches the store;
  - handlers ignore the HTTP method other than `OPTIONS`;
  - over any sequence of calls, every stored user keeps a non-empty name and
    email;
  - `createdAt <= updatedAt` holds when the clock does not run backwards.

Some of the code's behaviour is easy to misread:

- The id is read from the query string only, never from the path.
- A failed validation is a fixed text body, not a structured error.
- An `updatedAt > createdAt` ordering is not something the code checks. It is
  proved only as `<=`, and only under a monotone clock.
- Ids are not guaranteed unique. A generated id that collided would overwrite the
  existing document.

## Model

| member | source | states |
|---|---|---|
| `Users.WithId` | functions/src/index.ts:56 | the record `{id, ...data}` carries the document's key as `id` and the document's fields unchanged |
| `Users.RecordRoundTrip` | functions/lib/index.js:54 | splitting a response record into its id and its fields and reassembling them gives the same record |
| `Users.ShapeAll` | functions/src/index.ts:30 | the mapped list has one record per snapshot entry, in order, each with the entry's id and fields |
| `Users.SnapshotSize` | functions/src/index.ts:29 | a full read of the collection, each key once, has exactly as many entries as the collection has documents |
| `Users.ShapedSnapshotLists` | functions/src/index.ts:29-31 | the `getUsers` body lists the collection: length equals store size, every id is a stored key with its stored fields, no id twice, every key present; an empty store gives `[]` |
| `Http.Truthy` | functions/src/index.ts:46 | `!v` on a request field holds exactly when the field is missing or the empty string |
| `Handlers.HasNameAndEmail` | functions/src/index.ts:71 | the body passes validation exactly when both `name` and `email` are present and non-empty; no other check is made |
| `Http.ServerError` | functions/src/index.ts:57-60 | every `catch` block answers 500 with the fixed text `Internal server error`, no headers and no record |
| `Http.Preflight` | functions/src/index.ts:12-21 | the gate answers if and only if the method is `OPTIONS`, with 204, body `''` and exactly the three CORS headers and their values; otherwise it returns false and sets nothing |
| `Handlers.GetUserByIdResponse` | functions/src/index.ts:40-62 | preflight first; missing or empty id gives 400 `User ID is required`; 404 `User not found` iff the read succeeds and the key is absent; 200 iff it is present, answering exactly `{id, ...data}` of the stored document; a failing read gives the generic 500 |
| `Handlers.CreateUserEffect` | functions/src/index.ts:65-87 | 400 `Name and email are required` iff name or email is missing or empty; no write on 204/400; the only possible write puts `{name, email, now, now}` under the generated id; 200 iff both store calls succeed, answering that record with `createdAt == updatedAt`; a throwing `set` answers the generic 500 with no write, a throwing re-read answers it with the write kept |
| `Handlers.UpdateUserEffect` | functions/src/index.ts:90-122 | checks run id (400), then body (400), then existence (404), first failure decides; no write on 204/400/404; the only possible write changes the target's name, email and updatedAt, keeping createdAt, keys and every other document; 200 iff all three store calls succeed, answering the post-update record; a throwing read or update answers the generic 500 with no write, a throwing re-read answers it with the update kept |
| `Handlers.DeleteUserEffect` | functions/src/index.ts:125-150 | missing id gives 400, absent key 404, both without a write; the only possible write removes that one key; success is 204 with no body, other keys and documents unchanged; a throwing read or delete answers the generic 500 with no write |
| `CloudFunctions.UserStore.Snapshot` | functions/lib/index.js:28 | the read of the whole collection returns every stored document once, under its key, in some order |
| `CloudFunctions.UserStore.GetUsers` | functions/src/index.ts:24-37 | preflight answers OPTIONS; a failing read gives the generic 500; otherwise 200 with a list that lists the collection |
| `CloudFunctions.UserStore.GetUserById` | functions/lib/index.js:39-61 | answers exactly as `GetUserByIdResponse` of the current collection and leaves it unchanged |
| `CloudFunctions.UserStore.CreateUser` | functions/lib/index.js:63-84 | the new collection and the response are exactly `CreateUserEffect` of the old collection |
| `CloudFunctions.UserStore.UpdateUser` | functions/lib/index.js:86-116 | the new collection and the response are exactly `UpdateUserEffect` of the old collection |
| `CloudFunctions.UserStore.DeleteUser` | functions/lib/index.js:118-142 | the new collection and the response are exactly `DeleteUserEffect` of the old collection |
| `Sessions.CreateThenGet` | functions/src/index.ts:76-81 | a create answers `{newId, name, email, now, now}`, a following `getUserById` of that id returns the same record, other documents are untouched, and a fresh id adds exactly one key |
| `Sessions.UpdateThenGet` | functions/src/index.ts:107-116 | after an update, `getUserById` returns the update's answer: new name and email, `updatedAt` the update time, `createdAt` kept, store size unchanged |
| `Sessions.DeleteThenGet` | functions/src/index.ts:136-144 | a delete answers 204 without a body and shrinks the store by one; straight afterwards `getUserById` gives 404 and deleting again gives 404 with no write |
| `Sessions.MissingIdIsNotFound` | functions/src/index.ts:51-55 | when the store read succeeds, an id not in the store gives 404, not 500, from get, update and delete, with no write |
| `Sessions.PreflightTouchesNoStore` | functions/src/index.ts:12-25 | for OPTIONS every handler gives the same 204 whatever the store holds and whichever store call would fail, and writes nothing |
| `Sessions.MethodIsIgnored` | functions/src/index.ts:13 | any two methods other than OPTIONS give each handler the same effect |
| `Sessions.StepKeepsWellFormed` | functions/src/index.ts:71-78 | one handler call of any kind keeps every stored name and email non-empty |
| `Sessions.RunKeepsWellFormed` | functions/src/index.ts:102-114 | after any sequence of calls, with any store failures, every stored user has a non-empty name and email |
| `Sessions.StepKeepsChronological` | functions/src/index.ts:76-78 | a call whose commit time is not before the stored timestamps keeps `createdAt <= updatedAt <= now` for every document |
| `Sessions.RunKeepsChronological` | functions/src/index.ts:114 | with commit times that never decrease, every stored user has `createdAt <= updatedAt` after any sequence of calls |

## Compiled form

`functions/lib/index.js` matches the TypeScript line for line. The same members
model it:

- `Http.Preflight`: lines 12-21.
- `CloudFunctions.UserStore.GetUsers`: lines 23-37, with `Users.ShapeAll` at line 29.
- `Handlers.GetUserByIdResponse`: lines 39-61.
- `Handlers.CreateUserEffect`: lines 63-84. `timestamp` at line 73 is the one value
  used for both fields at line 75.
- `Handlers.UpdateUserEffect`: lines 86-116.
- `Handlers.DeleteUserEffect`: lines 118-142.
- The generic 500 (`Http.ServerError`): lines 32-35, 56-59, 79-82, 111-114 and
  137-140.

## Left out

- Firestore itself (`admin.firestore()` and its `collection/doc/get/set/update/delete` calls) is modelled as a map, with each handler taking effect atomically. The race between the existence read and `update`/`delete` is not modelled.
- A store call that throws is assumed to have written nothing. A write that commits but reports failure is not modelled.
- `FieldValue.serverTimestamp()` is a caller-supplied commit time, and `doc()`'s random id is a caller-supplied string. Neither the ids' randomness nor their uniqueness is modelled.
- The `cors` middleware (functions/src/index.ts:9) is a library that is not part of this model. The headers it adds to non-preflight responses are not modelled, and it is modelled as always passing control to the handler body. Express's and `res.json`'s own headers are left out too.
- `CloudFunctions.UserStore.GetUsers`: the store returns documents ordered by id. The model leaves the order unspecified and proves only that each document appears once.
- Ids are any non-empty string here. A Firestore document path is slash-separated, so an id containing `/` would make `doc(userId)` throw (which answers 500) or address a subcollection. The model covers such an id only through a `Fault`, and `Sessions.MissingIdIsNotFound` speaks of keys of the modelled map.
- Request fields are strings or missing. Non-string JSON values (numbers, booleans, arrays from repeated query keys) are not modelled, and neither is a missing `req.body`, whose destructuring would throw into the `catch` block.
- `console.error` logging is left out, because it does not affect the response or the store.
- No email format check is modelled, because the handlers perform none.
- The React pages and components (`src/pages/index.tsx`, `src/components/*`, `src/app/page.tsx`) and their direct-SDK create, update and delete are UI glue, so they are left out.
- The axios client `src/services/api.ts` is left out. It puts the id in the path (`/getUserById/${id}`), while the handlers read `?userId=`. Such a request would get 400 `User ID is required`. The model does not treat client and server as agreeing.
