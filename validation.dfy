/** The error display an editor derives from its property's validation results. */
module Validation {
  import opened Values

  datatype Rule = Rule(message: string)

  /** One validation result, computed by an external validator. */
  datatype ValidationResult = ValidationResult(hasError: bool, validation: Rule)

  /** The failing validation results, in their original order (the filter). */
  function Failing(vs: seq<ValidationResult>): (r: seq<ValidationResult>)
    ensures |r| <= |vs|
    ensures forall k :: 0 <= k < |r| ==> r[k].hasError
    ensures |r| > 0 <==> exists i :: 0 <= i < |vs| && vs[i].hasError
  {
    if vs == [] then []
    else
      var init := vs[..|vs| - 1];
      assert forall i :: 0 <= i < |init| ==> init[i] == vs[i];
      Failing(init) + (if vs[|vs| - 1].hasError then [vs[|vs| - 1]] else [])
  }

  /** Reference definition: the positions of the failing results, ascending. */
  function FailingAt(vs: seq<ValidationResult>): (idx: seq<nat>)
    ensures forall k :: 0 <= k < |idx| ==> idx[k] < |vs| && vs[idx[k]].hasError
    ensures forall k, l :: 0 <= k < l < |idx| ==> idx[k] < idx[l]
    ensures forall i :: 0 <= i < |vs| && vs[i].hasError ==> i in idx
  {
    if vs == [] then []
    else
      var init := vs[..|vs| - 1];
      assert forall i :: 0 <= i < |init| ==> init[i] == vs[i];
      FailingAt(init) + (if vs[|vs| - 1].hasError then [|vs| - 1] else [])
  }

  /** The filter and the positions have the same length. */
  lemma {:induction false} FailingLength(vs: seq<ValidationResult>)
    ensures |Failing(vs)| == |FailingAt(vs)|
  {
    if vs != [] {
      FailingLength(vs[..|vs| - 1]);
    }
  }

  /** The `k`-th result the filter keeps is the one at the `k`-th failing position. */
  lemma {:induction false} FailingAtIndex(vs: seq<ValidationResult>, k: nat)
    requires k < |Failing(vs)|
    ensures k < |FailingAt(vs)| && Failing(vs)[k] == vs[FailingAt(vs)[k]]
  {
    var n := |vs| - 1;
    var init := vs[..n];
    var a, b := Failing(init), FailingAt(init);
    FailingLength(init);
    if vs[n].hasError {
      assert Failing(vs) == a + [vs[n]];
      assert FailingAt(vs) == b + [n];
    } else {
      assert Failing(vs) == a;
      assert FailingAt(vs) == b;
    }
    if k < |a| {
      FailingAtIndex(init, k);
      assert init[b[k]] == vs[b[k]];
    }
  }

  /** The filter keeps exactly the failing results, in order. */
  lemma FailingInOrder(vs: seq<ValidationResult>)
    ensures |Failing(vs)| == |FailingAt(vs)|
    ensures forall k :: 0 <= k < |Failing(vs)| ==> Failing(vs)[k] == vs[FailingAt(vs)[k]]
  {
    FailingLength(vs);
    forall k | 0 <= k < |Failing(vs)| ensures Failing(vs)[k] == vs[FailingAt(vs)[k]] {
      FailingAtIndex(vs, k);
    }
  }

  /** Every result the filter keeps is one of the input's results. */
  lemma FailingDrawnFromInput(vs: seq<ValidationResult>)
    ensures forall k :: 0 <= k < |Failing(vs)| ==> Failing(vs)[k] in vs
  {
    FailingInOrder(vs);
  }

  /** What the editor shows: the `error` class and the `<ul class="errorList">`. */
  datatype Display = Display(errorClass: bool, errorList: Option<seq<string>>)

  /** The display derived from `vs`: the error class is on exactly when some
      result fails; the list holds the failing results' messages in order and is
      absent when none fails. */
  function ErrorDisplay(vs: seq<ValidationResult>): (d: Display)
    ensures d.errorClass <==> exists i :: 0 <= i < |vs| && vs[i].hasError
    ensures d.errorList.None? <==> !d.errorClass
    ensures d.errorList.Some? ==>
      |d.errorList.value| == |FailingAt(vs)| &&
      forall k :: 0 <= k < |FailingAt(vs)| ==> d.errorList.value[k] == vs[FailingAt(vs)[k]].validation.message
  {
    var errors := Failing(vs);
    FailingInOrder(vs);
    if |errors| > 0 then
      Display(true, Some(seq(|errors|, k requires 0 <= k < |errors| => errors[k].validation.message)))
    else
      Display(false, None)
  }
}
