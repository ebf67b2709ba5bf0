/** Failure-carrying results shared by every module of the model.

    The Python code signals failure by raising; each exception that a
    modelled operation can raise becomes one constructor of PyError. */
module Common {

  /** The exceptions the modelled code can raise. InvalidConfiguration and
      InternalError are the project's own exception classes; the others are
      the Python built-ins (or numpy's IndexError on an empty reduction). */
  datatype PyError =
    | IndexError
    | ValueError
    | ZeroDivisionError
    | TypeError
    | KeyError
    | AttributeError
    | InvalidConfiguration
    | InternalError

  datatype Result<+T> = Success(value: T) | Failure(error: PyError)

  /** A call that returns None in Python, or raises. */
  datatype Outcome = Pass | Fail(error: PyError)

  datatype Option<+T> = None | Some(value: T)

  /** s is strictly increasing. */
  predicate StrictlyIncreasing(s: seq<real>)
  {
    forall i, j :: 0 <= i < j < |s| ==> s[i] < s[j]
  }

  /** s is ascending (duplicates allowed). */
  predicate Ascending(s: seq<real>)
  {
    forall i, j :: 0 <= i < j < |s| ==> s[i] <= s[j]
  }

  /** Indices into a sequence, strictly increasing: an order-preserving choice of positions. */
  predicate IncreasingIndices(ks: seq<nat>, n: nat)
  {
    (forall k :: 0 <= k < |ks| ==> ks[k] < n) &&
    (forall k, l :: 0 <= k < l < |ks| ==> ks[k] < ks[l])
  }

  /** The elements of s at positions ks, in that order. */
  function Select<T>(s: seq<T>, ks: seq<nat>): (r: seq<T>)
    requires forall k :: 0 <= k < |ks| ==> ks[k] < |s|
    ensures |r| == |ks|
    ensures forall k :: 0 <= k < |ks| ==> r[k] == s[ks[k]]
  {
    seq(|ks|, k requires 0 <= k < |ks| => s[ks[k]])
  }

  /** Selecting over concatenated positions concatenates the selections. */
  lemma SelectAppend<T>(s: seq<T>, ks1: seq<nat>, ks2: seq<nat>)
    requires forall k :: 0 <= k < |ks1| ==> ks1[k] < |s|
    requires forall k :: 0 <= k < |ks2| ==> ks2[k] < |s|
    ensures Select(s, ks1 + ks2) == Select(s, ks1) + Select(s, ks2)
  {
  }

  /** SelectAppend, for selections already computed. */
  lemma SelectJoin<T>(s: seq<T>, n: nat, ks: seq<nat>, ks1: seq<nat>, ks2: seq<nat>, r1: seq<T>, r2: seq<T>)
    requires |s| == n && ks == ks1 + ks2
    requires forall k :: 0 <= k < |ks1| ==> ks1[k] < n
    requires forall k :: 0 <= k < |ks2| ==> ks2[k] < n
    requires r1 == Select(s, ks1) && r2 == Select(s, ks2)
    ensures r1 + r2 == Select(s, ks)
  {
    SelectAppend(s, ks1, ks2);
  }
}
