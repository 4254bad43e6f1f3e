/** Requests and responses as the five handlers see them, the hand-written CORS
    preflight gate that runs first in every handler, and JavaScript's falsiness
    test on request fields. */
module Http {
  import opened Users

  datatype Option<+T> = None | Some(value: T)

  /** What a handler reads from a request: the method, `req.query.userId`, and
      `name` and `email` from `req.body`. A field that is missing is `None`. */
  datatype Request = Request(httpMethod: string, userId: Option<string>, name: Option<string>, email: Option<string>)

  /** What a handler sends: `send('')` or an error text, `send()` with no
      argument, or `res.json` of one record or of a list of records. */
  datatype Body = NoBody | Text(text: string) | Record(user: UserRecord) | Records(users: seq<UserRecord>)

  /** The status, the body, and the headers that the handler's own code sets. */
  datatype Response = Response(status: int, body: Body, headers: map<string, string>)

  const UserIdRequired := "User ID is required"
  const NameAndEmailRequired := "Name and email are required"
  const UserNotFound := "User not found"
  const InternalServerError := "Internal server error"

  /** The three headers `handleCorsPreflight` sets before answering. */
  function CorsHeaders(): map<string, string> {
    map[
      "Access-Control-Allow-Origin" := "http://localhost:3000",
      "Access-Control-Allow-Methods" := "GET, POST, PUT, DELETE, OPTIONS",
      "Access-Control-Allow-Headers" := "Content-Type"
    ]
  }

  /** `res.status(status).send(text)`. */
  function Send(status: int, text: string): Response {
    Response(status, Text(text), map[])
  }

  /** `res.json(body)`: Express answers 200 unless a status was set. */
  function Json(body: Body): Response {
    Response(200, body, map[])
  }

  /** The answer of every `catch` block: a fixed text that says nothing about
      what failed. */
  function ServerError(): (r: Response)
    ensures r.status == 500 && r.body == Text("Internal server error") && r.headers == map[]
  {
    Send(500, InternalServerError)
  }

  /** JavaScript truthiness of a request field that is a string or missing:
      `!v` holds exactly when `v` is missing or the empty string. */
  function Truthy(v: Option<string>): (b: bool)
    ensures !b <==> v == None || v == Some("")
  {
    v.Some? && v.value != ""
  }

  /** `handleCorsPreflight(req, res)`: `Some` of the answer it sends when it
      returns true, `None` when it returns false and leaves `res` alone. */
  function Preflight(httpMethod: string): (r: Option<Response>)
    ensures r.Some? <==> httpMethod == "OPTIONS"
    ensures r.Some? ==> r.value.status == 204 && r.value.body == Text("")
    ensures r.Some? ==> r.value.headers.Keys == {"Access-Control-Allow-Origin", "Access-Control-Allow-Methods", "Access-Control-Allow-Headers"}
    ensures r.Some? ==> r.value.headers["Access-Control-Allow-Origin"] == "http://localhost:3000"
    ensures r.Some? ==> r.value.headers["Access-Control-Allow-Methods"] == "GET, POST, PUT, DELETE, OPTIONS"
    ensures r.Some? ==> r.value.headers["Access-Control-Allow-Headers"] == "Content-Type"
  {
    if httpMethod == "OPTIONS" then Some(Response(204, Text(""), CorsHeaders())) else None
  }
}
