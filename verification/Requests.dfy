/** The check results that agents submit to the aggregator. */
module Requests {

  /** The network perspective of an agent. */
  datatype NetworkMode = Unspecified | Pod | Host

  datatype Result = Result(
    namespace: string, name: string, kind: string, node: string, mode: NetworkMode,
    success: bool, code: string, layer: string)
  {
    /** The key under which every component of the aggregator files the target. */
    function Key(): string { namespace + "/" + name }
  }
}
