/** An optional value: `undefined`/`null` in the dashboard's TypeScript is `None`. */
module Options {
  datatype Option<+T> = None | Some(value: T) {
    function GetOr(default: T): T {
      match this
      case Some(v) => v
      case None => default
    }
  }
}
