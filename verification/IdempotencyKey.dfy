/**
 The text an idempotency key is the digest of: workflow, run and step, separated by NUL. The digest
 itself is taken to be collision-free and is not modelled.
 */
module IdempotencyKey {
  import EventCodec

  const NUL: char := '\0'

  function Material(workflow: string, run: string, step: int): string {
    workflow + [NUL] + (run + [NUL] + EventCodec.Print(step))
  }

  /** A text with no NUL is what stands before the first one. */
  lemma {:induction false} SplitAtNul(a: string, x: string, b: string, y: string)
    requires NUL !in a && NUL !in b && a + [NUL] + x == b + [NUL] + y
    ensures a == b && x == y
  {
    var s, t := a + [NUL] + x, b + [NUL] + y;
    assert s[|a|] == NUL && t[|b|] == NUL;
    assert forall i :: 0 <= i < |a| ==> s[i] == a[i] && a[i] in a;
    assert forall i :: 0 <= i < |b| ==> t[i] == b[i] && b[i] in b;
    assert |a| == |b|;
    assert a == s[..|a|] && b == t[..|b|] && x == s[|a| + 1..] && y == t[|b| + 1..];
  }

  /** Over identifiers without NUL, different calls have different key material. */
  lemma {:induction false} MaterialIsInjective(w: string, r: string, i: int, w': string, r': string, i': int)
    requires NUL !in w && NUL !in r && NUL !in w' && NUL !in r'
    ensures Material(w, r, i) == Material(w', r', i') <==> w == w' && r == r' && i == i'
  {
    if Material(w, r, i) == Material(w', r', i') {
      SplitAtNul(w, r + [NUL] + EventCodec.Print(i), w', r' + [NUL] + EventCodec.Print(i'));
      SplitAtNul(r, EventCodec.Print(i), r', EventCodec.Print(i'));
      EventCodec.ScanPrint(i);
      EventCodec.ScanPrint(i');
    }
  }

  /** With a NUL in an identifier two unrelated calls can share a key. */
  lemma {:induction false} NulCollides()
    ensures Material("a", "b\0c", 1) == Material("a\0b", "c", 1)
  {
    assert "a" + [NUL] + ("b\0c" + [NUL] + EventCodec.Print(1)) == "a\0b" + [NUL] + ("c" + [NUL] + EventCodec.Print(1));
  }
}
