/** The few string operations the runtime's decisions depend on. */
module Texts {
  predicate IsSpace(c: char) {
    c == ' ' || '\t' <= c <= '\r'
  }

  function LeftStrip(s: string): (t: string)
    ensures |t| <= |s|
  {
    if s != "" && IsSpace(s[0]) then LeftStrip(s[1..]) else s
  }

  function RightStrip(s: string): (t: string)
    ensures |t| <= |s|
  {
    if s != "" && IsSpace(s[|s| - 1]) then RightStrip(s[..|s| - 1]) else s
  }

  function Strip(s: string): string {
    RightStrip(LeftStrip(s))
  }

  predicate Blank(s: string) {
    Strip(s) == ""
  }

  function Join(parts: seq<string>, separator: string): string {
    if parts == [] then ""
    else if |parts| == 1 then parts[0]
    else Join(parts[..|parts| - 1], separator) + separator + parts[|parts| - 1]
  }

  /** The fixed texts that take the place of something missing. */
  datatype Notice = NoToolResult | NoMessage | NotPersisted | ToolInterrupted | TurnInterrupted | NoAnswer

  function Wording(notice: Notice): (text: string)
    ensures text != ""
  {
    match notice
    case NoToolResult => "[Tool result unavailable — " + "call was interrupted or lost]"
    case NoMessage => "[Previous assistant message omitted.]"
    case NotPersisted => "[tool result omitted during persistence]"
    case ToolInterrupted => "Error: Task interrupted before " + "this tool finished."
    case TurnInterrupted => "Error: Task interrupted before " + "a response was generated."
    case NoAnswer =>
      "I completed the tool steps " + "but couldn't produce a final answer. " + "Please try again or narrow the task."
  }

  function Concat(parts: seq<string>): string {
    if parts == [] then "" else Concat(parts[..|parts| - 1]) + parts[|parts| - 1]
  }
}
