/** Small shared definitions. */
module Prelude {

  datatype Option<+T> = None | Some(value: T) {
    /** The value, or `d` when there is none. */
    function GetOr(d: T): T {
      if Some? then value else d
    }
  }

  /** A Go `(value, error)` pair. */
  datatype Result<+T> = Ok(value: T) | Err(message: string)

  /** A Kubernetes taint; also the form taints take in the UpCloud API. */
  datatype Taint = Taint(key: string, value: string, effect: string)

  /** The well-known node label that names the plan. */
  const INSTANCE_TYPE := "node.kubernetes.io/instance-type"

  /** A Go map read: the zero value "" when the key is missing. */
  function Lookup(m: map<string, string>, key: string): string {
    if key in m then m[key] else ""
  }
}
