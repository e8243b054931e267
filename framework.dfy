/** The parts of the Terraform plugin framework that the resources touch:
    attribute values that may be null or unknown, diagnostics, and the
    request/response pair of a lifecycle call. */
module Framework {
  import opened Wrappers

  /** types.String, types.Int64, types.Bool, types.Map, types.List and
      types.Object: null, unknown (not known until apply) or a known value. */
  datatype Value<T> = Null | Unknown | Known(v: T) {

    /** ValueString, ValueInt64, ValueBool: the Go zero value unless known. */
    function ValueOr(zero: T): T
    {
      if Known? then v else zero
    }
  }

  datatype Severity = SeverityError | SeverityWarning

  datatype Diagnostic = Diagnostic(severity: Severity, summary: string, detail: string)

  function ErrorDiagnostic(summary: string, detail: string): Diagnostic
  {
    Diagnostic(SeverityError, summary, detail)
  }

  /** diag.Diagnostics.HasError. */
  predicate HasError(ds: seq<Diagnostic>)
  {
    exists i :: 0 <= i < |ds| && ds[i].severity == SeverityError
  }

  /** A list has an error exactly when one of its two halves has. */
  lemma HasErrorConcat(a: seq<Diagnostic>, b: seq<Diagnostic>)
    ensures HasError(a + b) <==> HasError(a) || HasError(b)
  {
    if HasError(a + b) {
      var i :| 0 <= i < |a + b| && (a + b)[i].severity == SeverityError;
      if i >= |a| {
        assert b[i - |a|] == (a + b)[i];
      }
    }
    if HasError(a) {
      var j :| 0 <= j < |a| && a[j].severity == SeverityError;
      assert (a + b)[j] == a[j];
    }
    if HasError(b) {
      var j :| 0 <= j < |b| && b[j].severity == SeverityError;
      assert (a + b)[|a| + j] == b[j];
    }
  }

  /** The diagnostics a lifecycle call appends to, shared by reference with
      the code that reports into it. */
  class Diagnostics {
    var items: seq<Diagnostic>

    constructor (initial: seq<Diagnostic>)
      ensures items == initial
    {
      items := initial;
    }

    method AddError(summary: string, detail: string)
      modifies this
      ensures items == old(items) + [ErrorDiagnostic(summary, detail)]
      ensures HasError(items)
    {
      items := items + [ErrorDiagnostic(summary, detail)];
      assert items[|items| - 1].severity == SeverityError;
    }

    method AddWarning(summary: string, detail: string)
      modifies this
      ensures items == old(items) + [Diagnostic(SeverityWarning, summary, detail)]
      ensures HasError(items) == HasError(old(items))
    {
      HasErrorConcat(items, [Diagnostic(SeverityWarning, summary, detail)]);
      items := items + [Diagnostic(SeverityWarning, summary, detail)];
    }

    method Append(ds: seq<Diagnostic>)
      modifies this
      ensures items == old(items) + ds
      ensures HasError(items) == (HasError(old(items)) || HasError(ds))
    {
      HasErrorConcat(items, ds);
      items := items + ds;
    }
  }

  /** What Config.Get or State.Get hands back: its diagnostics and the
      decoded value (meaningful only when the diagnostics hold no error). */
  datatype Loaded<S> = Loaded(diags: seq<Diagnostic>, value: S)

  /** The response of a lifecycle call: its diagnostics and the state it sets. */
  class ResourceResponse<S> {
    const diagnostics: Diagnostics
    var state: Option<S>

    constructor (diagnostics: Diagnostics, state: Option<S>)
      ensures this.diagnostics == diagnostics && this.state == state
    {
      this.diagnostics := diagnostics;
      this.state := state;
    }
  }
}
