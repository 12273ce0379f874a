/**
 * The calculation (C), file (F) and procedure (P) plugins, seen only
 * through the interface the converter uses: `init`, `parse` and `final`.
 * What they answer is not modelled; each one is a fixed response function
 * of the calls made to it since its last `init`, so that the converter's
 * handling of any result they may give is covered.
 */
module Plugins {
  import opened Results

  /** One call the converter made to a plugin. */
  datatype Call =
    | ParseCall(line: string, indent: int, wasSub: bool, wasLIKEDS: bool)
    | FinalCall(indent: int, wasSub: bool, wasLIKEDS: bool)

  class ExternalSpec {
    /** The calls made since the last `init`, oldest first. */
    var history: seq<Call>
    /** The plugin's behaviour: its answer, given the earlier calls and the current one. */
    const respond: (seq<Call>, Call) -> ParseResult

    constructor (respond: (seq<Call>, Call) -> ParseResult)
      ensures history == [] && this.respond == respond
    {
      history := [];
      this.respond := respond;
    }

    method Init()
      modifies this
      ensures history == []
    {
      history := [];
    }

    method Parse(line: string, indent: int, wasSub: bool, wasLIKEDS: bool) returns (r: ParseResult)
      modifies this
      ensures history == old(history) + [ParseCall(line, indent, wasSub, wasLIKEDS)]
      ensures r == respond(old(history), ParseCall(line, indent, wasSub, wasLIKEDS))
    {
      r := respond(history, ParseCall(line, indent, wasSub, wasLIKEDS));
      history := history + [ParseCall(line, indent, wasSub, wasLIKEDS)];
    }

    method Final(indent: int, wasSub: bool, wasLIKEDS: bool) returns (r: ParseResult)
      modifies this
      ensures history == old(history) + [FinalCall(indent, wasSub, wasLIKEDS)]
      ensures r == respond(old(history), FinalCall(indent, wasSub, wasLIKEDS))
    {
      r := respond(history, FinalCall(indent, wasSub, wasLIKEDS));
      history := history + [FinalCall(indent, wasSub, wasLIKEDS)];
    }
  }
}
