/** The responses the handlers build with `NextResponse.json(body, { status })`. */
module Http {
  import opened Json

  datatype Response = Response(status: int, body: Value)

  /** `{ success, message }`, the body most admin handlers answer with. */
  function Message(success: bool, text: string): Value
  {
    Obj(map["success" := Bool(success), "message" := Str(text)])
  }

  /** `{ error }`, the body of the products list/create and upload failures. */
  function ErrorBody(text: string): Value
  {
    Obj(map["error" := Str(text)])
  }
}
