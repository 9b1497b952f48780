/** The two ports of the reducer. */
module Ports {
  import opened Wrappers
  import opened JsonTree
  import opened Events
  import Reducer
  import TsReducer

  datatype Port = Rust | TypeScript

  function PortApply(port: Port, s: Json, ev: Event): Result<Json, Code> {
    match port
    case Rust => Reducer.Apply(s, ev)
    case TypeScript => TsReducer.TsApply(s, ev)
  }
}
