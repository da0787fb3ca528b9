/**
 * Failure-compatible wrappers and the assembler's diagnostics.
 *
 * Every failure of the facPU assembler is an `AssemblyError`: a kind, the
 * zero-based index of the source line it concerns and, optionally, the
 * offending token. Rendering it (colours, underlining, surrounding lines)
 * belongs to the presentation layer and is not modelled.
 */
module Diagnostics {

  datatype Option<+T> = None | Some(value: T)

  datatype Result<+T, +E> = Ok(value: T) | Err(error: E) {
    predicate IsFailure() {
      Err?
    }

    function PropagateFailure<U>(): Result<U, E>
      requires Err?
    {
      Err(error)
    }

    function Extract(): T
      requires Ok?
    {
      value
    }
  }

  /** Which operand parser rejected a token. */
  datatype Operand = Register | Immediate | Address | DataValue

  /** The failure taxonomy of the assembler. */
  datatype ErrorKind =
    | UnknownInstruction
    | ParamCount(expected: nat, got: nat)
    | InvalidSyntax(operand: Operand)
    | OutOfRange(operand: Operand, max: nat)
    | DuplicateLabel
    | NoAliasVariant(candidates: seq<string>)
    | MacroParamCount(expected: nat, got: nat)

  datatype AssemblyError = AssemblyError(kind: ErrorKind, line: nat, token: Option<string>)

  /** Attaches the source line and the offending token to an operand failure. */
  function Located<T>(r: Result<T, ErrorKind>, line: nat, token: string): (located: Result<T, AssemblyError>)
    ensures located.Ok? <==> r.Ok?
    ensures r.Ok? ==> located.value == r.value
    ensures r.Err? ==> located.error == AssemblyError(r.error, line, Some(token))
  {
    match r
    case Ok(v) => Ok(v)
    case Err(k) => Err(AssemblyError(k, line, Some(token)))
  }

  /** Result `k` is the first failure of a sequence of results. */
  predicate FirstFailure<T, E>(results: seq<Result<T, E>>, k: int) {
    && 0 <= k < |results|
    && results[k].Err?
    && forall j :: 0 <= j < k ==> results[j].Ok?
  }

  /**
   * A loop that stops at the first failure: the values of a sequence of
   * results when every one succeeds, else the first error.
   */
  function AllOk<T, E>(results: seq<Result<T, E>>): (r: Result<seq<T>, E>)
    ensures r.Ok? <==> forall k :: 0 <= k < |results| ==> results[k].Ok?
    ensures r.Ok? ==> |r.value| == |results| && forall k :: 0 <= k < |results| ==> r.value[k] == results[k].value
    ensures r.Err? ==> exists k :: FirstFailure(results, k) && r.error == results[k].error
  {
    if |results| == 0 then Ok([])
    else
      var n := |results| - 1;
      var init := AllOk(results[..n]);
      if init.Err? then
        PrefixFailure(results, n, init.error);
        Err(init.error)
      else if results[n].Err? then
        assert FirstFailure(results, n);
        Err(results[n].error)
      else
        Ok(init.value + [results[n].value])
  }

  /** The first failure of a prefix is the first failure of the whole sequence. */
  lemma PrefixFailure<T, E>(results: seq<Result<T, E>>, n: nat, e: E)
    requires n <= |results|
    requires exists k :: FirstFailure(results[..n], k) && e == results[..n][k].error
    ensures exists k :: FirstFailure(results, k) && e == results[k].error
  {
    var k :| FirstFailure(results[..n], k) && e == results[..n][k].error;
    assert FirstFailure(results, k);
  }

  /** Taking one more result: its value is appended, or its failure is the outcome. */
  lemma AllOkStep<T, E>(results: seq<Result<T, E>>, k: nat)
    requires k < |results| && AllOk(results[..k]).Ok?
    ensures AllOk(results[..k + 1]) ==
      if results[k].Ok? then Ok(AllOk(results[..k]).value + [results[k].value]) else Err(results[k].error)
  {
    assert results[..k + 1][..k] == results[..k];
  }

  /** One step of a loop collecting the values in order: a failure at `k` is the outcome, a value extends the prefix. */
  lemma AllOkNext<T, E>(results: seq<Result<T, E>>, k: nat, values: seq<T>)
    requires k < |results| && AllOk(results[..k]) == Ok(values)
    ensures results[k].Err? ==> AllOk(results) == Err(results[k].error)
    ensures results[k].Ok? ==> AllOk(results[..k + 1]) == Ok(values + [results[k].value])
  {
    if results[k].Err? {
      AllOkFailsAt(results, k);
    } else {
      AllOkStep(results, k);
    }
  }

  /** A loop that collected the values of every result has collected those of the whole sequence. */
  lemma AllOkWhole<T, E>(results: seq<Result<T, E>>, values: seq<T>)
    requires AllOk(results[..|results|]) == Ok(values)
    ensures AllOk(results) == Ok(values)
  {
    assert results[..|results|] == results;
  }

  /** When the first failure is at `k`, the whole sequence fails with its error. */
  lemma AllOkFailsAt<T, E>(results: seq<Result<T, E>>, k: nat)
    requires k < |results| && AllOk(results[..k]).Ok? && results[k].Err?
    ensures AllOk(results) == Err(results[k].error)
  {
    AllOkStep(results, k);
    AllOkErrorPersists(results, k + 1, |results|);
    assert results[..|results|] == results;
  }

  /** Once a result fails, every longer prefix fails with the same error. */
  lemma {:induction false} AllOkErrorPersists<T, E>(results: seq<Result<T, E>>, k: nat, m: nat)
    requires k <= m <= |results| && AllOk(results[..k]).Err?
    ensures AllOk(results[..m]) == AllOk(results[..k])
    decreases m
  {
    if m > k {
      AllOkErrorPersists(results, k, m - 1);
      var prefix := results[..m];
      assert prefix[..m - 1] == results[..m - 1];
      FailedPrefix(prefix);
    }
  }

  /** A sequence whose prefix without its last result fails, fails with the prefix's error. */
  lemma FailedPrefix<T, E>(results: seq<Result<T, E>>)
    requires 0 < |results| && AllOk(results[..|results| - 1]).Err?
    ensures AllOk(results) == AllOk(results[..|results| - 1])
  {
  }
}
