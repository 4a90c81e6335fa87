/** Option and Result, and the kinds of failure a Python run of the pipeline can end in. */
module Wrappers {

  datatype Option<+T> = None | Some(value: T)

  /** The exception that aborts a run: a missing dict key, an operation applied to a value
      of the wrong type (attribute errors included), a malformed value, or a failed `assert`. */
  datatype Error =
    | KeyError(key: string)
    | TypeError
    | ValueError
    | AssertionError

  datatype Result<+T> = Ok(value: T) | Err(error: Error) {
    predicate IsFailure() { Err? }

    function PropagateFailure<U>(): Result<U>
      requires Err?
    {
      Err(error)
    }

    function Extract(): T
      requires Ok?
    {
      value
    }
  }
}

/** Membership facts about dropping the last element of a sequence, stated once so that
    proofs by induction on a prefix need not compare whole sequences. */
module Sequences {

  /** An element other than the last is in the prefix without the last element. */
  lemma InDropLast<T>(s: seq<T>, x: T)
    requires s != [] && x in s && x != s[|s| - 1]
    ensures x in s[..|s| - 1]
  {
    var i :| 0 <= i < |s| && s[i] == x;
    assert s[..|s| - 1][i] == x;
  }

  /** Every element of a sequence is in its prefix without the last element or is the last. */
  lemma InDropLastOrLast<T>(s: seq<T>)
    requires s != []
    ensures forall x :: x in s <==> x in s[..|s| - 1] || x == s[|s| - 1]
  {
    forall x | x in s && x != s[|s| - 1]
      ensures x in s[..|s| - 1]
    {
      InDropLast(s, x);
    }
  }

  /** Some element of `s` satisfies `p` iff some element of `pre`, all of `s` but its last,
      does, or the last does. */
  lemma ExistsLast<T>(s: seq<T>, pre: seq<T>, p: T -> bool)
    requires s != [] && pre == s[..|s| - 1]
    ensures (exists i :: 0 <= i < |s| && p(s[i])) <==> (exists i :: 0 <= i < |pre| && p(pre[i])) || p(s[|s| - 1])
  {
    if exists i :: 0 <= i < |s| && p(s[i]) {
      var i :| 0 <= i < |s| && p(s[i]);
      if i < |pre| {
        assert pre[i] == s[i];
      }
    }
  }
}
