/** `XCTFail(...)` becomes `Issue.record(...)`: only the called expression changes. */
module XCTFailConverter {
  import opened Syntax

  const XCTFailName := "XCTFail"

  /** `Issue.record`, carrying the trivia of the callee it replaces. */
  function IssueRecord(callee: Expr): (r: Expr)
    ensures r.Member? && r.member == "record" && Tokens(r) == ["Issue", ".", "record"]
    ensures r.lead == callee.lead && r.trail == callee.trail
  {
    Member(callee.lead, Ref("", "Issue", ""), "record", callee.trail)
  }

  /**
   * `buildExpr(from:)`: the call with its callee replaced by `Issue.record`; its arguments
   * (including `file:` and `line:`), parentheses, closures and trivia stay as they are.
   */
  function ReplaceCallee(call: Expr): (r: Expr)
    requires call.Call?
    ensures r.Call? && r.callee == IssueRecord(call.callee)
    ensures r.(callee := call.callee) == call
  {
    call.(callee := IssueRecord(call.callee))
  }
}
