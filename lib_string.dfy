/** The C string conventions the kernel relies on (the string routines of
    lib.h are not part of this model; their behaviour is restated here).
    A C string is a byte sequence read up to its first NUL; reading past the
    end of the sequence yields NUL, so a sequence need not carry its own
    terminator. */
module CStrings {

  datatype Option<T> = None | Some(value: T)

  /** Byte `i` of C string `s`: NUL past the end of the sequence. */
  function At(s: seq<bv8>, i: nat): bv8 {
    if i < |s| then s[i] else 0
  }

  /** strncmp(a, b, n) == 0, checked from position `i` on: the strings agree
      at every position up to and including the first NUL, or up to n. */
  predicate StrnEqFrom(a: seq<bv8>, b: seq<bv8>, n: nat, i: nat)
    decreases n - i
  {
    i >= n || (At(a, i) == At(b, i) && (At(a, i) == 0 || StrnEqFrom(a, b, n, i + 1)))
  }

  predicate StrnEq(a: seq<bv8>, b: seq<bv8>, n: nat) {
    StrnEqFrom(a, b, n, 0)
  }

  /** Index of the first NUL of `s` at or after `i`, capped at `n`. */
  function StrnLenFrom(s: seq<bv8>, n: nat, i: nat): (k: nat)
    requires i <= n
    ensures i <= k <= n
    ensures forall j :: i <= j < k ==> At(s, j) != 0
    ensures k < n ==> At(s, k) == 0
    decreases n - i
  {
    if i == n || At(s, i) == 0 then i else StrnLenFrom(s, n, i + 1)
  }

  /** strncmp(a, b, n) == 0 holds exactly when the two strings agree on
      every position before the first NUL of `a` (capped at n) and, below
      n, both end there. */
  lemma {:induction false} StrnEqMeaning(a: seq<bv8>, b: seq<bv8>, n: nat, i: nat)
    requires i <= n
    ensures StrnEqFrom(a, b, n, i) <==>
      (var k := StrnLenFrom(a, n, i);
       (forall j :: i <= j < k ==> At(a, j) == At(b, j)) && (k < n ==> At(b, k) == 0))
    decreases n - i
  {
    if i < n && At(a, i) != 0 {
      StrnEqMeaning(a, b, n, i + 1);
    }
  }

  /** The `n` bytes strncpy(dst, src, n) stores: src up to its first NUL,
      then NUL padding. */
  function Strncpy(src: seq<bv8>, n: nat): (r: seq<bv8>)
    ensures |r| == n
    ensures forall j :: 0 <= j < n ==>
      r[j] == (if j < StrnLenFrom(src, n, 0) then At(src, j) else 0)
  {
    StrncpyFrom(src, n, 0)
  }

  function StrncpyFrom(src: seq<bv8>, n: nat, i: nat): (r: seq<bv8>)
    requires i <= n
    ensures |r| == n - i
    ensures forall k :: 0 <= k < n - i ==>
      r[k] == (if i + k < StrnLenFrom(src, n, i) then At(src, i + k) else 0)
    decreases n - i
  {
    if i == n then []
    else if At(src, i) == 0 then seq(n - i, _ => 0)
    else
      var rest := StrncpyFrom(src, n, i + 1);
      [At(src, i)] + rest
  }
}
