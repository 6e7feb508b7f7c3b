/**
 Network byte order. The frame codec, the payload codecs and the textual form of a UUID all
 rest on the same base-256 expansion, so its two inverses and its order law are proved once.
 */
module BigEndian {
  import opened Basics

  /** 256 to the k: the number of k-octet words. */
  function Words(k: nat): (w: nat)
    ensures w > 0
  {
    if k == 0 then 1 else 256 * Words(k - 1)
  }

  /** The last k octets of n, most significant first. */
  function Encode(n: nat, k: nat): (b: Bytes)
    ensures |b| == k
  {
    if k == 0 then [] else Encode(n / 256, k - 1) + [n % 256]
  }

  function Decode(b: Bytes): (n: nat) {
    if b == [] then 0 else Decode(b[..|b| - 1]) * 256 + b[|b| - 1]
  }

  lemma {:induction false} DecodeEncode(n: nat, k: nat)
    requires n < Words(k)
    ensures Decode(Encode(n, k)) == n
  {
    if k > 0 {
      DecodeEncode(n / 256, k - 1);
      assert Encode(n, k)[..k - 1] == Encode(n / 256, k - 1);
    }
  }

  lemma {:induction false} EncodeDecode(b: Bytes)
    ensures Decode(b) < Words(|b|)
    ensures Encode(Decode(b), |b|) == b
  {
    if b != [] {
      EncodeDecode(b[..|b| - 1]);
      assert b[..|b| - 1] + [b[|b| - 1]] == b;
    }
  }

  /** i is the first place where s and t differ, and s is smaller there. */
  predicate SmallerAt(s: Bytes, t: Bytes, i: nat) {
    i < |s| && i < |t| && s[..i] == t[..i] && s[i] < t[i]
  }

  /** Byte-wise string order, as Go compares strings. */
  predicate LexLess(s: Bytes, t: Bytes) {
    (exists i: nat | i < |s| :: SmallerAt(s, t, i)) || (|s| < |t| && s == t[..|s|])
  }

  lemma LexLessAsymmetric(s: Bytes, t: Bytes)
    requires LexLess(s, t)
    ensures !LexLess(t, s)
  {
    if exists i: nat | i < |s| :: SmallerAt(s, t, i) {
      var i: nat :| i < |s| && SmallerAt(s, t, i);
      forall j: nat | j < |t|
        ensures !SmallerAt(t, s, j)
      {
        if j < i {
          assert s[..i][j] == s[j] && t[..i][j] == t[j];
        } else if i < j <= |s| {
          assert t[..j][i] == t[i] && s[..j][i] == s[i];
        }
      }
      if |t| < |s| && i < |t| {
        assert s[..|t|][i] == s[i];
      }
    } else {
      forall j: nat | j < |t|
        ensures !SmallerAt(t, s, j)
      {
        if j < |s| {
          assert t[..|s|][j] == t[j];
        }
      }
    }
  }

  /** The smaller number has the smaller big-endian word. */
  lemma {:induction false} EncodeMonotone(n: nat, m: nat, k: nat) returns (i: nat)
    requires n < m < Words(k)
    ensures SmallerAt(Encode(n, k), Encode(m, k), i)
  {
    var s, t := Encode(n / 256, k - 1), Encode(m / 256, k - 1);
    if n / 256 < m / 256 {
      i := EncodeMonotone(n / 256, m / 256, k - 1);
      assert Encode(n, k)[..i] == s[..i] && Encode(m, k)[..i] == t[..i];
    } else {
      i := k - 1;
      assert Encode(n, k)[..i] == s && Encode(m, k)[..i] == t;
    }
  }

  /** Ordering words of one width by octets is ordering the numbers they spell. */
  lemma LexLessIsNumericOrder(n: nat, m: nat, k: nat)
    requires n < Words(k) && m < Words(k)
    ensures LexLess(Encode(n, k), Encode(m, k)) <==> n < m
  {
    if n < m {
      var i := EncodeMonotone(n, m, k);
      assert i < |Encode(n, k)|;
    } else if m < n {
      var i := EncodeMonotone(m, n, k);
      assert i < |Encode(m, k)|;
      assert LexLess(Encode(m, k), Encode(n, k));
      LexLessAsymmetric(Encode(m, k), Encode(n, k));
    }
  }

  lemma WordsOf(k: nat)
    ensures k == 1 ==> Words(k) == 0x100
    ensures k == 2 ==> Words(k) == 0x1_0000
    ensures k == 4 ==> Words(k) == 0x1_0000_0000
    ensures k == 16 ==> Words(k) == 0x1_0000_0000_0000_0000_0000_0000_0000_0000
  {
    assert Words(4) == 0x1_0000_0000;
    assert Words(8) == 256 * (256 * (256 * (256 * Words(4))));
    assert Words(12) == 256 * (256 * (256 * (256 * Words(8))));
    assert Words(16) == 256 * (256 * (256 * (256 * Words(12))));
  }
}
