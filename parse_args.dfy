/** The command line of a judge or debug script: `<node> <script> <cwd> [<params JSON>]`. */
module CommandLine {
  import opened Wrappers
  import opened JsonValues

  datatype Args = Args(cwd: string, params: Json)

  datatype ArgsError = CwdArgumentRequired | BadParamsArgument

  /**
   * `parseArgs`: the working directory is the third argument and must be
   * non-empty; the fourth, when present and non-empty, is JSON text (parsed
   * by `jsonParse`) and otherwise the parameters are the empty object.
   * Later arguments are ignored.
   */
  function ParseArgs(argv: seq<string>, jsonParse: string -> Option<Json>): (r: Result<Args, ArgsError>)
    ensures r == Err(CwdArgumentRequired) <==> |argv| <= 2 || argv[2] == ""
    ensures r == Err(BadParamsArgument) <==>
              |argv| > 3 && argv[2] != "" && argv[3] != "" && jsonParse(argv[3]).None?
    ensures r.Ok? ==> r.value.cwd == argv[2] && r.value.cwd != ""
    ensures r.Ok? && (|argv| <= 3 || argv[3] == "") ==> r.value.params == JObject(map[])
    ensures r.Ok? && |argv| > 3 && argv[3] != "" ==> jsonParse(argv[3]) == Some(r.value.params)
  {
    var cwd := if |argv| > 2 then argv[2] else "";
    if cwd == "" then Err(CwdArgumentRequired)
    else
      var paramsJson := if |argv| > 3 then argv[3] else "";
      if paramsJson == "" then Ok(Args(cwd, JObject(map[])))
      else match jsonParse(paramsJson)
        case None => Err(BadParamsArgument)
        case Some(params) => Ok(Args(cwd, params))
  }

  /** Arguments after the fourth never change the outcome. */
  lemma TrailingArgumentsIgnored(argv: seq<string>, extra: seq<string>, jsonParse: string -> Option<Json>)
    requires |argv| >= 4
    ensures ParseArgs(argv + extra, jsonParse) == ParseArgs(argv, jsonParse)
  {
    assert (argv + extra)[2] == argv[2] && (argv + extra)[3] == argv[3];
  }

  /** A caller that passes a directory and serialised parameters gets both back. */
  lemma ParamsRoundTrip(node: string, script: string, cwd: string, params: Json,
                        stringify: Json -> string, jsonParse: string -> Option<Json>)
    requires cwd != "" && stringify(params) != ""
    requires jsonParse(stringify(params)) == Some(params)
    ensures ParseArgs([node, script, cwd, stringify(params)], jsonParse) == Ok(Args(cwd, params))
  {
  }
}
