/** `XCTUnwrap(...)` becomes `#require(...)`, with its arguments kept and the location packed. */
module XCTUnwrapConverter {
  const XCTUnwrapName := "XCTUnwrap"
  const RequireMacroName := "require"
}
