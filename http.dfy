/** The HTTP responses of the two API routes, and their JSON bodies. */
module Http {
  import opened JsValues

  /** The JSON bodies the routes send. */
  datatype Body =
    | ErrorBody(error: string)
    | PinnedBody(metadataUrl: string, metadataGateway: string, imageIpfs: string, imageGateway: string)
    | ProfileBody(fid: string, displayName: string, pfpUrl: string)

  /** `res.status(status).json(body)`. */
  datatype Response = Response(status: int, body: Body)

  /** `Response.ok`: the status is in the 2xx range. */
  predicate HttpOk(status: int) {
    200 <= status <= 299
  }

  /** A 500 response carrying the message of the error caught by the route. */
  function ServerError(message: string): (r: Response)
    ensures r.status == 500 && !HttpOk(r.status)
  {
    Response(500, ErrorBody(message))
  }

  /** The body as the JavaScript object a client obtains from `res.json()`. */
  function BodyJson(b: Body): (v: JsVal)
    ensures v.Obj?
  {
    match b
    case ErrorBody(e) => Obj(map["error" := Str(e)])
    case PinnedBody(mu, mg, ii, ig) =>
      Obj(map["metadataUrl" := Str(mu), "metadataGateway" := Str(mg), "imageIpfs" := Str(ii), "imageGateway" := Str(ig)])
    case ProfileBody(f, d, p) => Obj(map["fid" := Str(f), "displayName" := Str(d), "pfp_url" := Str(p)])
  }
}
