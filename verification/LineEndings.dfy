/** Replacing CR LF by LF in a buffer that arrives in pieces. */
module LineEndings {
  type Byte = b: nat | b < 256
  type Bytes = seq<Byte>

  const LF: Byte := 10
  const CR: Byte := 13

  /** bytes.replace(CR LF, LF): leftmost, not overlapping. */
  function Normal(s: Bytes): Bytes {
    if |s| < 2 then s
    else if s[0] == CR && s[1] == LF then [LF] + Normal(s[2..])
    else [s[0]] + Normal(s[1..])
  }

  predicate CrLfAt(s: Bytes, i: int) {
    0 <= i < |s| - 1 && s[i] == CR && s[i + 1] == LF
  }

  predicate CrCrLfAt(s: Bytes, i: int) {
    0 <= i < |s| - 2 && s[i] == CR && s[i + 1] == CR && s[i + 2] == LF
  }

  predicate NoCrLf(s: Bytes) {
    forall i :: 0 <= i < |s| ==> !CrLfAt(s, i)
  }

  predicate NoCrCrLf(s: Bytes) {
    forall i :: 0 <= i < |s| ==> !CrCrLfAt(s, i)
  }

  predicate EndsInCr(s: Bytes) {
    s != [] && s[|s| - 1] == CR
  }

  predicate StartsWithLf(s: Bytes) {
    s != [] && s[0] == LF
  }

  /** Normalisation works on both sides of a cut that splits no CR LF. */
  lemma {:induction false} NormalConcat(a: Bytes, b: Bytes)
    requires !(EndsInCr(a) && StartsWithLf(b))
    ensures Normal(a + b) == Normal(a) + Normal(b)
    decreases |a|
  {
    if a == [] {
      assert a + b == b;
    } else if |a| == 1 {
      assert (a + b)[1..] == b;
      if |b| == 0 { assert a + b == a; }
    } else if a[0] == CR && a[1] == LF {
      assert (a + b)[2..] == a[2..] + b;
      NormalConcat(a[2..], b);
    } else {
      assert (a + b)[1..] == a[1..] + b;
      NormalConcat(a[1..], b);
    }
  }

  lemma {:induction false} NormalFixed(s: Bytes)
    requires NoCrLf(s)
    ensures Normal(s) == s
    decreases |s|
  {
    if |s| >= 2 {
      assert [s[0]] + s[1..] == s && !CrLfAt(s, 0);
      NoCrLfCons(s[0], s[1..]);
      NormalFixed(s[1..]);
    }
  }

  lemma {:induction false} NormalEnd(s: Bytes)
    ensures EndsInCr(Normal(s)) <==> EndsInCr(s)
    ensures Normal(s) == [] <==> s == []
    decreases |s|
  {
    if |s| >= 2 {
      if s[0] == CR && s[1] == LF { NormalEnd(s[2..]); } else { NormalEnd(s[1..]); }
    }
  }

  /** The first byte of the result: a leading CR survives unless a LF follows it. */
  lemma NormalStart(s: Bytes)
    ensures s != [] ==> Normal(s) != []
    ensures s != [] ==> (Normal(s)[0] == LF <==> s[0] == LF || (|s| >= 2 && s[0] == CR && s[1] == LF))
  {
  }

  /** A CR LF is left over exactly where a CR CR LF was. */
  lemma {:induction false} NormalLeavesCrLf(s: Bytes)
    ensures NoCrLf(Normal(s)) <==> NoCrCrLf(s)
    decreases |s|
  {
    if |s| >= 2 {
      if s[0] == CR && s[1] == LF {
        NormalLeavesCrLf(s[2..]);
        NoCrLfCons(LF, Normal(s[2..]));
        NoCrCrLfCons(s);
        NoCrCrLfCons(s[1..]);
        assert s[1..][1..] == s[2..];
      } else {
        NormalLeavesCrLf(s[1..]);
        NormalStart(s[1..]);
        NoCrLfCons(s[0], Normal(s[1..]));
        NoCrCrLfCons(s);
      }
    }
  }

  lemma NoCrLfCons(b: Byte, s: Bytes)
    ensures NoCrLf([b] + s) <==> NoCrLf(s) && !(b == CR && StartsWithLf(s))
  {
    var t := [b] + s;
    if NoCrLf(t) {
      forall i | 0 <= i < |s| ensures !CrLfAt(s, i) { assert !CrLfAt(t, i + 1); }
      assert !CrLfAt(t, 0);
    } else {
      var i :| 0 <= i < |t| && CrLfAt(t, i);
      if i > 0 { assert CrLfAt(s, i - 1); }
    }
  }

  lemma NoCrCrLfCons(s: Bytes)
    requires s != []
    ensures NoCrCrLf(s) <==> NoCrCrLf(s[1..]) && !(|s| >= 3 && s[0] == CR && s[1] == CR && s[2] == LF)
  {
    var t := s[1..];
    if NoCrCrLf(s) {
      forall i | 0 <= i < |t| ensures !CrCrLfAt(t, i) { assert !CrCrLfAt(s, i + 1); }
      assert !CrCrLfAt(s, 0);
    } else {
      var i :| 0 <= i < |s| && CrCrLfAt(s, i);
      if i > 0 { assert CrCrLfAt(t, i - 1); }
    }
  }

  /** A CR LF cut in two is still one line ending. */
  lemma NormalAcrossCut(front: Bytes, tail: Bytes)
    requires !EndsInCr(front) && NoCrLf(Normal(front))
    ensures Normal(Normal(front + [CR]) + ([LF] + tail)) == Normal(front + ([CR, LF] + tail))
  {
    NormalConcat(front, [CR]);
    NormalEnd(front);
    NormalFixed(Normal(front));
    assert Normal(front + [CR]) + ([LF] + tail) == Normal(front) + ([CR, LF] + tail);
    NormalConcat(Normal(front), [CR, LF] + tail);
    NormalConcat(front, [CR, LF] + tail);
  }

  lemma PiecesKeepNoCrCrLf(a: Bytes, b: Bytes)
    requires NoCrCrLf(a + b)
    ensures NoCrCrLf(a)
    ensures EndsInCr(a) && StartsWithLf(b) ==> !EndsInCr(a[..|a| - 1])
  {
    var s := a + b;
    forall i | 0 <= i < |a| ensures !CrCrLfAt(a, i) { assert !CrCrLfAt(s, i); }
    if EndsInCr(a) && StartsWithLf(b) && |a| >= 2 { assert !CrCrLfAt(s, |a| - 2); }
  }

  /** Normalising a normalised buffer plus new bytes is normalising the whole. */
  lemma NormalIncremental(a: Bytes, b: Bytes)
    requires NoCrCrLf(a + b)
    ensures Normal(Normal(a) + b) == Normal(a + b)
  {
    PiecesKeepNoCrCrLf(a, b);
    if EndsInCr(a) && StartsWithLf(b) {
      var front, tail := a[..|a| - 1], b[1..];
      assert a == front + [CR] && b == [LF] + tail;
      assert a + b == front + ([CR, LF] + tail);
      PiecesKeepNoCrCrLf(front, [CR]);
      NormalLeavesCrLf(front);
      NormalAcrossCut(front, tail);
    } else {
      NormalLeavesCrLf(a);
      NormalEnd(a);
      NormalConcat(a, b);
      NormalConcat(Normal(a), b);
      NormalFixed(Normal(a));
    }
  }

  /** Whether every way of cutting `s` once, empty pieces included, leaves the same normalised text. */
  ghost predicate CutsAgree(s: Bytes) {
    forall a: Bytes, b: Bytes :: a + b == s ==> Normal(Normal(a) + b) == Normal(s)
  }

  /** The normalised text is independent of where the stream is cut, empty pieces included, exactly
      when the stream holds no CR CR LF. */
  lemma CutsAgreeExactly(s: Bytes)
    ensures CutsAgree(s) <==> NoCrCrLf(s)
  {
    if NoCrCrLf(s) {
      forall a: Bytes, b: Bytes | a + b == s ensures Normal(Normal(a) + b) == Normal(s) { NormalIncremental(a, b); }
    } else {
      NormalLeavesCrLf(s);
      assert s + [] == s && Normal(s) + [] == Normal(s);
      NormalShortens(Normal(s));
      assert Normal(Normal(s) + []) != Normal(s);
    }
  }

  lemma {:induction false} NormalShortens(s: Bytes)
    ensures |Normal(s)| <= |s|
    ensures !NoCrLf(s) ==> |Normal(s)| < |s|
    decreases |s|
  {
    if |s| >= 2 {
      if s[0] == CR && s[1] == LF {
        NormalShortens(s[2..]);
      } else {
        NormalShortens(s[1..]);
        assert !CrLfAt(s, 0);
        assert [s[0]] + s[1..] == s;
        NoCrLfCons(s[0], s[1..]);
      }
    }
  }

  // ---- Pieces that are not empty ----------------------------------------------------------

  /** A normalised text with one more byte. */
  function Snoc(t: Bytes, z: Byte): Bytes {
    if z == LF && EndsInCr(t) then t[..|t| - 1] + [LF] else t + [z]
  }

  lemma NormalSnoc(x: Bytes, z: Byte)
    ensures Normal(x + [z]) == Snoc(Normal(x), z)
  {
    NormalEnd(x);
    if z == LF && EndsInCr(x) {
      var front := x[..|x| - 1];
      assert x == front + [CR] && x + [z] == front + [CR, LF];
      NormalConcat(front, [CR]);
      NormalConcat(front, [CR, LF]);
      assert [CR, LF][2..] == [];
    } else {
      NormalConcat(x, [z]);
    }
  }

  /** No CR CR LF that another byte follows. */
  predicate NoInnerCrCrLf(s: Bytes) {
    forall i :: 0 <= i < |s| && CrCrLfAt(s, i) ==> i + 3 == |s|
  }

  lemma NormalIncrementalProper(a: Bytes, b: Bytes)
    requires NoInnerCrCrLf(a + b) && b != []
    ensures Normal(Normal(a) + b) == Normal(a + b)
  {
    var n := |b| - 1;
    var front := a + b[..n];
    assert a + b == front + [b[n]] && Normal(a) + b == Normal(a) + b[..n] + [b[n]];
    InnerPrefix(front, [b[n]]);
    NormalIncremental(a, b[..n]);
    NormalSnoc(front, b[n]);
    NormalSnoc(Normal(a) + b[..n], b[n]);
  }

  lemma InnerPrefix(a: Bytes, b: Bytes)
    requires NoInnerCrCrLf(a + b) && b != []
    ensures NoCrCrLf(a)
  {
    forall i | 0 <= i < |a| ensures !CrCrLfAt(a, i) { assert CrCrLfAt(a, i) ==> CrCrLfAt(a + b, i); }
  }

  /** Up to and including a CR CR LF the normalised text ends in a CR LF, which normalising again
      takes away. */
  lemma EndsInCrLf(front: Bytes)
    ensures var t := Normal(front + [CR, CR, LF]);
            |t| >= 2 && t[|t| - 2] == CR && t[|t| - 1] == LF
  {
    assert front + [CR, CR, LF] == front + [CR] + [CR, LF];
    NormalConcat(front + [CR], [CR, LF]);
    assert [CR, LF][2..] == [];
    NormalEnd(front + [CR]);
  }

  lemma LeftCrLfShortens(t: Bytes, b: Bytes)
    requires |t| >= 2 && t[|t| - 2] == CR && t[|t| - 1] == LF
    ensures Normal(t + b) == Normal(t) + Normal(b) && |Normal(t)| < |t|
  {
    NormalConcat(t, b);
    assert CrLfAt(t, |t| - 2);
    NormalShortens(t);
  }

  ghost predicate ProperCutsAgree(s: Bytes) {
    forall a: Bytes, b: Bytes :: a + b == s && a != [] && b != [] ==> Normal(Normal(a) + b) == Normal(s)
  }

  /** With two pieces that are not empty, exactly when no CR CR LF is followed by another byte. */
  lemma ProperCutsAgreeExactly(s: Bytes)
    ensures ProperCutsAgree(s) <==> NoInnerCrCrLf(s)
  {
    if NoInnerCrCrLf(s) {
      forall a: Bytes, b: Bytes | a + b == s && b != [] ensures Normal(Normal(a) + b) == Normal(s) { NormalIncrementalProper(a, b); }
    } else {
      var i :| 0 <= i < |s| && CrCrLfAt(s, i) && i + 3 != |s|;
      var a, b := s[..i + 3], s[i + 3..];
      assert a == s[..i] + [CR, CR, LF] && a + b == s;
      EndsInCrLf(s[..i]);
      NormalConcat(a, b);
      LeftCrLfShortens(Normal(a), b);
    }
  }
}
