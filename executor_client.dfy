/** `CodeExecutorClient` (service/code_executor/client.py): one remote
    execution as seen by the caller. The gRPC transport is a parameter. */
module ExecutorClient {
  import opened Protocol

  /** What the remote `ExecuteCode` call did: answered, failed with an
      `RpcError` (whose `str(e)` is `text`), or raised something else. */
  datatype Rpc =
    | Response(output: string, error: string, exitCode: int)
    | RpcError(text: string)
    | OtherFailure(raised: Exception)

  /** `CodeExecutorClient.__call__`: the reply's three fields, with an
      `RpcError` turned into `("", str(e), 1)`. */
  function Call(rpc: Rpc): (r: ExecOutcome)
    ensures r.Executed? <==> !rpc.OtherFailure?
    ensures rpc.Response? ==> r.output == rpc.output && r.error == rpc.error && r.exitCode == rpc.exitCode
    ensures rpc.RpcError? ==> r.output == "" && r.error == rpc.text && r.exitCode == 1
    ensures rpc.OtherFailure? ==> r.raised == rpc.raised
  {
    match rpc
    case Response(output, error, exitCode) => Executed(output, error, exitCode)
    case RpcError(text) => Executed("", text, 1)
    case OtherFailure(e) => ExecFailed(e)
  }

  /** The client has no `execute_code` attribute: calling it raises
      `AttributeError` with this text. */
  const MissingAttributeMessage: string := "'CodeExecutorClient' object has no attribute 'execute_code'"

  /** `self.code_executor.execute_code(code)` as written: the attribute
      lookup fails before anything is sent. */
  function ExecuteCodeAsWritten(code: string): (r: ExecOutcome)
    ensures r.ExecFailed? && r.raised == AttributeError(MissingAttributeMessage)
  {
    ExecFailed(AttributeError(MissingAttributeMessage))
  }
}
