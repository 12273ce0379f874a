/**
 * The record a specification plugin hands back to the converter for one
 * line, and the small records it may carry. Fields the JavaScript code may
 * leave undefined are `Option`s where undefined and a present value are
 * treated differently; `blockType` and `message` use "" for undefined,
 * because every reader of those two fields treats the two alike.
 */
module Results {
  import opened JsNumber

  datatype Option<T> = None | Some(value: T)

  /** The `var` record of a data-definition line. */
  datatype VarDecl = VarDecl(standalone: bool, name: string, vtype: string, len: Num)

  /** A decoded MOVE/MOVEL: operands, direction keyword, padding flag and format attribute. */
  datatype MoveOp = MoveOp(source: string, target: string, dir: string, padded: bool, attr: string)

  /** A loop-step patch: `name` is null when there is nothing to patch. */
  datatype IncrementReplacement = IncrementReplacement(name: Option<string>, value: string)

  datatype ParseResult = ParseResult(
    value: string,
    change: bool,
    remove: bool,
    beforeSpaces: int,
    nextSpaces: int,
    arrayoutput: seq<string>,
    isSub: Option<bool>,
    isHead: bool,
    isLIKEDS: bool,
    blockType: string,
    decl: Option<VarDecl>,
    message: string,
    move: Option<MoveOp>,
    aboveKeywords: Option<string>,
    incrementReplacement: Option<IncrementReplacement>,
    ignore: bool)

  /** The `initOutput()` shape shared by the plugins: nothing to write, nothing flagged. */
  function EmptyOutput(): (r: ParseResult)
    ensures r.value == "" && !r.change && !r.remove && r.arrayoutput == []
    ensures r.beforeSpaces == 0 && r.nextSpaces == 0 && r.isSub == None && r.decl == None
  {
    ParseResult("", false, false, 0, 0, [], None, false, false, "", None, "", None, None, None, false)
  }

  /** An advisory message and the index of the line it was raised on. */
  datatype Message = Message(line: int, text: string)
}
