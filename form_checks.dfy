/** The two kinds of form-field check the client schemas use, with the
    issue each failed check reports: a minimum text length, and membership
    in a fixed list of options. */
module FormChecks {
  import opened JsText

  /** A validation issue: the field it is reported on and its message. */
  datatype Issue = Issue(path: string, message: string)

  /** `z.string().min(n, message)` on field `path`; zod compares the
      text's `length`, in UTF-16 code units. */
  function MinLength(path: string, s: string, n: nat, message: string): (issues: seq<Issue>)
    ensures issues == [] <==> JsLength(s) >= n
    ensures issues != [] ==> issues == [Issue(path, message)]
  {
    if JsLength(s) < n then [Issue(path, message)] else []
  }

  /** The options as a failed `z.enum` lists them: `'a' | 'b'`. */
  function QuotedOptions(options: seq<string>): string {
    if |options| == 0 then ""
    else if |options| == 1 then "'" + options[0] + "'"
    else "'" + options[0] + "' | " + QuotedOptions(options[1..])
  }

  /** `z.enum(options)` on field `path`, given a text value. */
  function OneOf(path: string, s: string, options: seq<string>): (issues: seq<Issue>)
    ensures issues == [] <==> s in options
    ensures issues != [] ==> |issues| == 1 && issues[0].path == path
  {
    if s in options then []
    else [Issue(path, "Invalid enum value. Expected " + QuotedOptions(options) + ", received '" + s + "'")]
  }

  /** The field names the issues mention. */
  function Paths(issues: seq<Issue>): (paths: seq<string>)
    ensures |paths| == |issues|
    ensures forall i :: 0 <= i < |issues| ==> paths[i] == issues[i].path
  {
    seq(|issues|, i requires 0 <= i < |issues| => issues[i].path)
  }
}
