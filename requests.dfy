/** The servlet request, reduced to what the controller reads from it: its parameters. */
module Requests {

  import opened Wrappers

  const ParamQuery: string := "term"
  const ParamRdfType: string := "type"
  const ParamTokenize: string := "tokenize"
  const ParamStem: string := "stem"

  /** A request maps each parameter it carries to that parameter's (first) value. */
  datatype Request = Request(params: map<string, string>) {

    /** `getParameter`: the value, or `None` where the servlet API answers `null`. */
    function Param(name: string): Option<string>
    {
      if name in params then Some(params[name]) else None
    }

    /** `"true".equals(getParameter(name))`: only the exact text `true` switches a flag on. */
    predicate Flag(name: string)
    {
      Param(name) == Some("true")
    }
  }
}
