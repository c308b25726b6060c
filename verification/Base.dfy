/** Vocabulary shared by every durable state machine of the model: the machine integers of the source,
    the outcome of one SQLite transaction, and the generic compare-and-swap results. */
module Base {

  const INT64_MAX: int := 0x7FFF_FFFF_FFFF_FFFF
  const UINT64_MAX: int := 0xFFFF_FFFF_FFFF_FFFF

  type I64 = x: int | -INT64_MAX - 1 <= x <= INT64_MAX
  type U64 = x: int | 0 <= x <= UINT64_MAX

  datatype Option<+T> = None | Some(value: T)

  /** How one durable transaction ends. `FailsAfterCommit` is an error reported after COMMIT; for the
      durable state it is the same thing as the process dying right after the write. */
  datatype Fault = Healthy | FailsBeforeCommit | FailsAfterCommit

  datatype WriteResult = WriteAccepted | WriteDuplicate | WriteConflict | WriteInvalid | WriteUnavailable

  predicate HexDigit(c: char) {
    '0' <= c <= '9' || 'a' <= c <= 'f'
  }

  predicate LowercaseSha256(s: string) {
    |s| == 64 && forall i :: 0 <= i < |s| ==> HexDigit(s[i])
  }

  predicate SafeIdentifierChar(c: char) {
    'a' <= c <= 'z' || 'A' <= c <= 'Z' || '0' <= c <= '9' || c in {'.', '_', ':', '-'}
  }

  predicate SafeIdentifier(s: string, limit: nat) {
    0 < |s| <= limit && forall i :: 0 <= i < |s| ==> SafeIdentifierChar(s[i])
  }

  function Max(a: I64, b: I64): I64 {
    if a < b then b else a
  }

  ghost function Range(n: nat): (s: set<int>)
    ensures |s| == n
    ensures forall k :: k in s <==> 0 <= k < n
  {
    if n == 0 then {} else Range(n - 1) + {n - 1}
  }

  /** A finite set that maps one-to-one into another is no larger. */
  lemma {:induction false} InjectionBound<T, U>(a: set<T>, b: set<U>, f: map<T, U>)
    requires forall x :: x in a ==> x in f && f[x] in b
    requires forall x, y :: x in a && y in a && f[x] == f[y] ==> x == y
    ensures |a| <= |b|
    decreases |a|
  {
    if a != {} {
      var x :| x in a;
      var b' := b - {f[x]};
      assert |b'| == |b| - 1;
      InjectionBound(a - {x}, b', f);
    }
  }
}
