/** Small datatypes and sequence helpers shared by every module. */
module Prelude {

  datatype Option<+T> = None | Some(value: T)

  datatype Result<+T> = Ok(value: T) | Err

  /** No element occurs twice. */
  ghost predicate NoDuplicates<T>(s: seq<T>) {
    forall i, j :: 0 <= i < j < |s| ==> s[i] != s[j]
  }

  /** n steps lead from x to y. */
  ghost predicate Path<A(!new)>(step: (A, A) -> bool, x: A, y: A, n: nat) {
    if n == 0 then x == y else exists z :: step(x, z) && Path(step, z, y, n - 1)
  }

  /** What every step keeps holds at the end of a path. */
  lemma {:induction false} PathKeeps<A(!new)>(step: (A, A) -> bool, inv: A -> bool, x: A, y: A, n: nat)
    requires forall a, b :: inv(a) && step(a, b) ==> inv(b)
    requires inv(x) && Path(step, x, y, n)
    ensures inv(y)
  {
    if n > 0 {
      var z :| step(x, z) && Path(step, z, y, n - 1);
      PathKeeps(step, inv, z, y, n - 1);
    }
  }

  /** If from every point that is not the end some step comes closer to it, the end is reached. */
  lemma {:induction false} PathTo<A(!new)>(step: (A, A) -> bool, inv: A -> bool, done: A -> bool, rank: A -> nat, x: A)
    returns (y: A, n: nat)
    requires forall a :: inv(a) && !done(a) ==> exists b :: step(a, b) && inv(b) && rank(b) < rank(a)
    requires inv(x)
    ensures inv(y) && done(y) && n <= rank(x) && Path(step, x, y, n)
    decreases rank(x)
  {
    if done(x) {
      y, n := x, 0;
    } else {
      var z :| step(x, z) && inv(z) && rank(z) < rank(x);
      var k: nat;
      y, k := PathTo(step, inv, done, rank, z);
      n := k + 1;
    }
  }
}
