/** Result types shared by the modules of this project. */
module Wrappers {

  datatype Option<+T> = None | Some(value: T)

  datatype Result<+T, +E> = Ok(value: T) | Err(error: E)

  /** The first n values, or the first failure among them. */
  function Gathered<T, E>(rs: seq<Result<T, E>>, n: nat): Result<seq<T>, E>
    requires n <= |rs|
  {
    if n == 0 then Ok([])
    else
      match Gathered(rs, n - 1)
      case Err(e) => Err(e)
      case Ok(values) =>
        match rs[n - 1]
        case Err(e) => Err(e)
        case Ok(v) => Ok(values + [v])
  }

  /** A gathering succeeds exactly if every part does, and keeps their order. */
  lemma {:induction false} GatheredAre<T, E>(rs: seq<Result<T, E>>, n: nat)
    requires n <= |rs|
    ensures Gathered(rs, n).Ok? <==> forall i | 0 <= i < n :: rs[i].Ok?
    ensures Gathered(rs, n).Ok? ==>
      |Gathered(rs, n).value| == n && forall i | 0 <= i < n :: rs[i] == Ok(Gathered(rs, n).value[i])
  {
    if n == 0 {
    } else {
      GatheredAre(rs, n - 1);
    }
  }

  /** A gathering that fails, fails as its first failing part does. */
  lemma {:induction false} GatheredFirst<T, E>(rs: seq<Result<T, E>>, n: nat)
    requires n <= |rs| && Gathered(rs, n).Err?
    ensures exists i | 0 <= i < n :: FirstFailure(rs, i) && rs[i].error == Gathered(rs, n).error
  {
    if n == 0 {
    } else {
      GatheredAre(rs, n - 1);
      if Gathered(rs, n - 1).Err? { GatheredFirst(rs, n - 1); } else { assert FirstFailure(rs, n - 1); }
    }
  }

  predicate FirstFailure<T, E>(rs: seq<Result<T, E>>, i: nat) {
    i < |rs| && rs[i].Err? && forall j | 0 <= j < i :: rs[j].Ok?
  }

  /** What one more part makes of a gathering that has succeeded so far. */
  lemma {:induction false} GatherMore<T, E>(rs: seq<Result<T, E>>, n: nat, values: seq<T>)
    requires n < |rs| && Gathered(rs, n) == Ok(values)
    ensures rs[n].Ok? ==> Gathered(rs, n + 1) == Ok(values + [rs[n].value])
    ensures rs[n].Err? ==> Gathered(rs, |rs|) == Err(rs[n].error)
  {
    if rs[n].Err? { FailureStays(rs, n + 1, |rs|); }
  }

  lemma {:induction false} FailureStays<T, E>(rs: seq<Result<T, E>>, n: nat, m: nat)
    requires n <= m <= |rs| && Gathered(rs, n).Err?
    ensures Gathered(rs, m) == Gathered(rs, n)
    decreases m
  {
    if n == m {
    } else {
      FailureStays(rs, n, m - 1);
    }
  }
}
