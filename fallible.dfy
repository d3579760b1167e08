/** Failure-carrying values shared by the whole model.  Every fallible step of
    the program (a Rust `Result<_, Box<dyn Error>>`) is a `Result`, whose error
    side is the error's display text. */
module Fallible {

  datatype Option<+T> = None | Some(value: T)

  datatype Result<+T> = Ok(value: T) | Err(msg: string)

  /** The first error of a sequence of steps run in order, as Rust's `?`
      sees it: the steps after a failing one never run. */
  function FirstErr<T>(steps: seq<Result<T>>): (e: Option<string>)
    ensures e.None? <==> forall i :: 0 <= i < |steps| ==> steps[i].Ok?
  {
    if steps == [] then None
    else if steps[0].Err? then Some(steps[0].msg)
    else FirstErr(steps[1..])
  }

  /** The first error is that of the first failing step. */
  lemma {:induction false} FirstErrAt<T>(steps: seq<Result<T>>, i: nat)
    requires i < |steps| && steps[i].Err?
    requires forall j :: 0 <= j < i ==> steps[j].Ok?
    ensures FirstErr(steps) == Some(steps[i].msg)
  {
    if i > 0 {
      FirstErrAt(steps[1..], i - 1);
    }
  }

  /** Running two lists of steps one after the other fails on the first
      list's error, or else on the second's. */
  lemma {:induction false} FirstErrConcat<T>(a: seq<Result<T>>, b: seq<Result<T>>)
    ensures FirstErr(a + b) == if FirstErr(a).Some? then FirstErr(a) else FirstErr(b)
  {
    if a == [] {
      assert a + b == b;
    } else {
      assert (a + b)[0] == a[0];
      assert (a + b)[1..] == a[1..] + b;
      FirstErrConcat(a[1..], b);
    }
  }
}
