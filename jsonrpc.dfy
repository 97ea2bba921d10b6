/**
 * JSON-RPC 2.0 envelopes for the league's HTTP transport: request and
 * response dictionaries as `model_dump(exclude_none=True)` produces them,
 * and the error codes of section 5.1 of the JSON-RPC 2.0 specification.
 */
module JsonRpc {
  import opened Wrappers
  import opened JsonValue

  const ParseError: int := -32700
  const InvalidRequest: int := -32600
  const MethodNotFound: int := -32601
  const InvalidParams: int := -32602
  const InternalError: int := -32603

  /** A request id is an integer or a string. */
  datatype RequestId = IntId(n: int) | StrId(s: string)

  function IdJson(id: RequestId): Json
  {
    match id
    case IntId(n) => JInt(n)
    case StrId(s) => JStr(s)
  }

  /** A `JsonRpcError`; a `data` of None is `JNull`. */
  datatype RpcError = RpcError(code: int, message: string, data: Json)

  /** `error.model_dump()`: all three fields, `data` included even when it is None. */
  function ErrorObject(e: RpcError): (m: map<string, Json>)
    ensures m.Keys == {"code", "message", "data"}
    ensures m["code"] == JInt(e.code) && m["message"] == JStr(e.message) && m["data"] == e.data
  {
    map["code" := JInt(e.code), "message" := JStr(e.message), "data" := e.data]
  }

  /** `create_jsonrpc_request`: "id" is dropped when it is None. */
  function CreateRequest(methodName: string, params: map<string, Json>, requestId: Option<RequestId>): (r: map<string, Json>)
    ensures r.Keys == {"jsonrpc", "method", "params"} + (if requestId.Some? then {"id"} else {})
    ensures r["jsonrpc"] == JStr("2.0")
    ensures r["method"] == JStr(methodName) && r["params"] == JObj(params)
    ensures requestId.Some? ==> r["id"] == IdJson(requestId.value)
  {
    var base := map["jsonrpc" := JStr("2.0"), "method" := JStr(methodName), "params" := JObj(params)];
    match requestId
    case None => base
    case Some(id) => base["id" := IdJson(id)]
  }

  /** `create_jsonrpc_response`: each of result, error and id appears only when it is not None. */
  function CreateResponse(result: Option<map<string, Json>>, error: Option<RpcError>, requestId: Option<RequestId>): (r: map<string, Json>)
    ensures "jsonrpc" in r && r["jsonrpc"] == JStr("2.0")
    ensures ("result" in r <==> result.Some?) && (result.Some? ==> r["result"] == JObj(result.value))
    ensures ("error" in r <==> error.Some?) && (error.Some? ==> r["error"] == JObj(ErrorObject(error.value)))
    ensures ("id" in r <==> requestId.Some?) && (requestId.Some? ==> r["id"] == IdJson(requestId.value))
    ensures r.Keys <= {"jsonrpc", "result", "error", "id"}
  {
    var m0 := map["jsonrpc" := JStr("2.0")];
    var m1 := if result.Some? then m0["result" := JObj(result.value)] else m0;
    var m2 := if error.Some? then m1["error" := JObj(ErrorObject(error.value))] else m1;
    if requestId.Some? then m2["id" := IdJson(requestId.value)] else m2
  }

  /** `create_error_response`: an error object with the given code, message and data, and no result. */
  function CreateErrorResponse(code: int, message: string, data: Json, requestId: Option<RequestId>): (r: map<string, Json>)
    ensures "result" !in r
    ensures "error" in r && r["error"].JObj?
    ensures var e := r["error"].fields;
      "code" in e && e["code"] == JInt(code) && "message" in e && e["message"] == JStr(message)
      && "data" in e && e["data"] == data
    ensures "id" in r <==> requestId.Some?
  {
    CreateResponse(None, Some(RpcError(code, message, data)), requestId)
  }

  /** A request and a success response with the same id carry that same "id" value. */
  lemma IdEchoed(methodName: string, params: map<string, Json>, result: map<string, Json>, id: RequestId)
    ensures CreateRequest(methodName, params, Some(id))["id"] == CreateResponse(Some(result), None, Some(id))["id"]
    ensures "error" !in CreateResponse(Some(result), None, Some(id))
  {
  }
}
