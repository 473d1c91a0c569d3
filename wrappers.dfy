/** Optional values, used wherever the Go code returns "a value or nothing". */
module Wrappers {
  datatype Option<+T> = None | Some(value: T) {
    predicate IsFailure() {
      None?
    }

    function PropagateFailure<U>(): Option<U>
      requires None?
    {
      None
    }

    function Extract(): T
      requires Some?
    {
      value
    }
  }
}

/** Regrouping of sequence concatenations, used to line terms up with a recursive definition. */
module Seqs {
  lemma Regroup5<T>(p: seq<T>, q: seq<T>, r: seq<T>, s: seq<T>, t: seq<T>)
    ensures p + q + r + s + t == p + (q + (r + (s + t)))
  {
  }

  lemma Regroup6<T>(p: seq<T>, q: seq<T>, r: seq<T>, s: seq<T>, t: seq<T>, u: seq<T>)
    ensures p + q + r + s + t + u == p + (q + (r + (s + (t + u))))
  {
  }

  lemma Regroup7<T>(p: seq<T>, q: seq<T>, r: seq<T>, s: seq<T>, t: seq<T>, u: seq<T>, v: seq<T>)
    ensures p + q + r + s + t + u + v == p + q + (r + s + (t + u + v))
  {
  }
}
