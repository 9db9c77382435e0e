/** What the core sees of HTTP: the outcome of a fetch and the reply a route handler sends. */
module Http {
  import opened Json
  import Wrappers

  /** A status for which `response.ok` is false: any status outside 200-299. */
  type FailStatus = s: int | !(200 <= s < 300) witness 500

  /** The outcome of a `fetch`: `response.ok`, a non-2xx status, or a thrown error. */
  datatype Outcome = Ok | NotOk(status: FailStatus) | Throws

  datatype ReplyBody =
    | Page(file: string)      // res.sendFile
    | Text(text: string)      // res.send
    | JsonBody(value: Json)   // res.json

  datatype Reply = Reply(status: int, body: ReplyBody)

  /** A request as the code hands it to `fetch`: URL, method (`verb`), headers (in insertion order) and body. */
  datatype Request = Request(url: string, verb: string, headers: seq<(string, string)>, body: Wrappers.Option<string>)
}
