/** JavaScript values the engine leans on that Dafny has no direct word for:
    an optional value (a property that may be `undefined`) and the text a
    missing value turns into when it is concatenated onto a string. */
module Values {

  datatype Option<+T> = None | Some(value: T) {

    /** The value, or a default when it is missing (JavaScript's `x || d`
        for values that are never falsy when present). */
    function GetOr(default: T): T {
      match this
      case Some(v) => v
      case None => default
    }
  }

  /** `String.prototype.concat` and template strings render `undefined` as the
      nine letters "undefined"; a present string renders as itself. */
  function JsText(s: Option<string>): string {
    match s
    case Some(v) => v
    case None => "undefined"
  }
}
