/** Values shared by every part of the model: Go's error values (with wrapping and
    `errors.Is`), the value-or-error results Go functions return, bytes, and a
    search for the first element of a sequence that satisfies a predicate. */
module Common {

  newtype byte = x: int | 0 <= x < 256

  /** A Go `error`. Collaborators (GitHub API, HTTP, file system, storage SDKs)
      fail with opaque `Fault`s; the code under study builds the other kinds. */
  datatype Error =
    | Fault(text: string)              // an error some collaborator returned
    | Canceled                         // context.Canceled
    | DeadlineExceeded                 // context.DeadlineExceeded
    | Message(text: string)            // errors.New(text), or fmt.Errorf without %w
    | Wrap(text: string, cause: Error) // fmt.Errorf(text + ": %w", cause)
  {
    /** `errors.Is(this, target)`: this is the target or wraps it at some depth. */
    predicate Is(target: Error) {
      this == target || (Wrap? && cause.Is(target))
    }

    /** The string `Error()` returns. */
    function Text(): string {
      match this
      case Fault(t) => t
      case Canceled => "context canceled"
      case DeadlineExceeded => "context deadline exceeded"
      case Message(t) => t
      case Wrap(t, c) => t + ": " + c.Text()
    }
  }

  /** A Go `(value, error)` pair in which exactly one side is meaningful. */
  datatype Result<T> = Ok(value: T) | Err(error: Error)

  datatype Option<T> = None | Some(value: T)

  /** `sub` occurs in `s` starting at index `i`. */
  predicate OccursAt(s: string, sub: string, i: int) {
    0 <= i <= |s| - |sub| && s[i..i + |sub|] == sub
  }

  predicate EndsWith(s: string, suffix: string) {
    |suffix| <= |s| && s[|s| - |suffix|..] == suffix
  }

  /** The index of the first element of `s` that satisfies `p`. */
  function FirstIndex<T>(s: seq<T>, p: T -> bool): (k: nat)
    requires exists i :: 0 <= i < |s| && p(s[i])
    ensures k < |s| && p(s[k])
    ensures forall j :: 0 <= j < k ==> !p(s[j])
  {
    if p(s[0]) then 0
    else
      var i :| 0 <= i < |s| && p(s[i]);
      assert s[1..][i - 1] == s[i];
      FirstIndex(s[1..], p) + 1
  }

  /** The middle of a three-part concatenation occurs right after the first part,
      and the whole ends with the last part. */
  lemma ConcatParts(a: string, b: string, c: string)
    ensures OccursAt(a + b + c, b, |a|)
    ensures EndsWith(a + b + c, c)
    ensures (a + b + c)[..|a|] == a
  {
    var s := a + b + c;
    assert s[|a|..|a| + |b|] == b;
    assert s[|s| - |c|..] == c;
  }
}
