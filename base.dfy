/** Values and failures shared by the configuration resolver and the lifecycle
    orchestrator of the websocket server's entry point (src/cbws/run.py). */
module Base {

  /** A value as the entry point sees it: what `json.load` produces for one
      key of the configuration file, or a string from the environment.
      JSON numbers are split into integers and reals as Python does. */
  datatype Value =
    | Null
    | Bool(b: bool)
    | Int(i: int)
    | Float(x: real)
    | Str(s: string)
    | Array(items: seq<Value>)
    | Object(fields: map<string, Value>)

  /** Python truthiness of a value: what decides the operand `a or b` returns. */
  predicate Truthy(v: Value) {
    match v
    case Null => false
    case Bool(b) => b
    case Int(i) => i != 0
    case Float(x) => x != 0.0
    case Str(s) => s != ""
    case Array(items) => items != []
    case Object(fields) => fields != map[]
  }

  datatype Option<+T> = None | Some(value: T)

  /** The exceptions the entry point can raise, each named after its cause. */
  datatype Failure =
    | MissingKey(key: string)  // KeyError from indexing the configuration map
    | NoLogLevel               // AttributeError: `_Options.log_level` was never assigned
    | ConstructFailed          // the server's constructor raised
    | StartFailed              // `server.start()` raised
    | StopFailed               // `server.stop()` raised

  datatype Result<+T> = Ok(value: T) | Err(error: Failure) {
    predicate IsFailure() {
      Err?
    }

    function PropagateFailure<U>(): Result<U>
      requires Err?
    {
      Err(error)
    }

    function Extract(): T
      requires Ok?
    {
      value
    }
  }
}
