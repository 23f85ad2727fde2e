/**
 * The transport envelope every method converts into: the remote method's
 * name and a body that is empty, a JSON object or a multipart form. The
 * HTTP verb follows from the body: GET for an empty body, POST otherwise.
 */
module Requests {
  import opened Common
  import opened Decimal
  import opened Json
  import opened Primitives

  datatype RequestMethod = Get | Post

  /** A named form field holds inline text or a file. */
  datatype FormValue = Text(text: string) | File(file: InputFile)

  /** Field names are unique: inserting a name again replaces its value. */
  type Form = map<string, FormValue>

  datatype Body = NoBody | JsonBody(payload: JsonObject) | FormBody(fields: Form)

  datatype Request = Request(methodName: string, body: Body) {
    /** The verb follows from the body: GET for an empty body, POST otherwise. */
    function GetMethod(): RequestMethod {
      if body.NoBody? then Get else Post
    }
  }

  function JsonRequest(name: string, payload: JsonObject): (r: Request)
    ensures r.GetMethod() == Post && r.methodName == name && r.body == JsonBody(payload)
  {
    Request(name, JsonBody(payload))
  }

  function FormRequest(name: string, form: Form): (r: Request)
    ensures r.GetMethod() == Post && r.methodName == name && r.body == FormBody(form)
  {
    Request(name, FormBody(form))
  }

  function EmptyRequest(name: string): (r: Request)
    ensures r.GetMethod() == Get && r.methodName == name && r.body == NoBody
  {
    Request(name, NoBody)
  }

  /** Form text of an integer: its decimal text. */
  function IntegerText(i: Integer): string {
    IntToString(i)
  }

  /** Form text of a boolean, as Rust's `to_string` writes it. */
  function BoolText(b: bool): string {
    if b then "true" else "false"
  }

  function ChatIdText(c: ChatId): string {
    match c
    case Id(i) => IntegerText(i)
    case Username(u) => u
  }
}
