/** The responses a Django view hands back, reduced to status code and body. */
module Http {
  import opened Json
  import opened Faults

  datatype Body =
    | Text(text: string)                     // HttpResponse with a plain message
    | Page(template: string, context: Json)  // render(request, template, context)
    | Fields(fields: map<string, string>)    // JsonResponse over a flat dict of strings
    | ErrorReport(fault: Fault)              // JsonResponse({"status": "error", "message": str(e)})
    | Crash(fault: Fault)                    // an exception escaped the view

  datatype Response = Response(code: int, body: Body)

  /** JsonResponse({key: value}, status=code). */
  function JsonReply(code: int, key: string, value: string): Response
  {
    Response(code, Fields(map[key := value]))
  }

  /** What Django produces when a view raises. */
  function ServerError(f: Fault): Response
  {
    Response(500, Crash(f))
  }
}
