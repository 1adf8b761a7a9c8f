/** The two result shapes shared by the models, and a few facts about flattening. */
module Common {
  datatype Option<+T> = None | Some(value: T)

  /** `Err` carries the message of the Python exception that the source raises. */
  datatype Result<+T> = Ok(value: T) | Err(error: string)

  function Flatten<T>(parts: seq<seq<T>>): seq<T> {
    if parts == [] then [] else parts[0] + Flatten(parts[1..])
  }

  lemma {:induction false} FlattenAppend<T>(parts: seq<seq<T>>, last: seq<T>)
    ensures Flatten(parts + [last]) == Flatten(parts) + last
  {
    if parts == [] {
      assert [last][1..] == [];
    } else {
      FlattenAppend(parts[1..], last);
      assert (parts + [last])[1..] == parts[1..] + [last];
    }
  }

  lemma ConcatAssociates<T>(a: seq<T>, b: seq<T>, c: seq<T>)
    ensures (a + b) + c == a + (b + c)
  {}

  /** No element occurs twice. */
  ghost predicate Distinct<T(!new)>(s: seq<T>) {
    forall i, j :: 0 <= i < j < |s| ==> s[i] != s[j]
  }

  ghost predicate Increasing(s: seq<int>) {
    forall i, j :: 0 <= i < j < |s| ==> s[i] < s[j]
  }

  /**
    A predicate of the form `forall n {:trigger Expose(n)} :: Expose(n) ==> P` says what `P` says, but the
    verifier looks into it only where `Expose` is mentioned.  Invariants of large objects are stated so.
   */
  ghost predicate Expose(n: nat) {
    true
  }
}
