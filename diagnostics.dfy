/**
 * Spans and the diagnostics sink shared by the lexer and the parser
 * (`RecoveredError` and `ParseState` of diaparser/src/recovery_err.rs).
 */
module Diag {

  /** A half-open range `start..end` of character offsets (Rust's `Range<usize>`). */
  datatype Range = Range(start: nat, end: nat)

  /** `RecoveredError(span, message)`: one reported problem. */
  datatype Diagnostic = Diagnostic(span: Range, message: string)

  /**
   * The append-only diagnostics collection. The source reaches it through a
   * `RefCell` carried in every span; here it is one object passed explicitly.
   */
  class Sink {
    var diags: seq<Diagnostic>

    constructor ()
      ensures diags == []
    {
      diags := [];
    }

    /** `ParseState::report_error`: append exactly one diagnostic at the end. */
    method ReportError(d: Diagnostic)
      modifies this
      ensures diags == old(diags) + [d]
    {
      diags := diags + [d];
    }
  }
}
