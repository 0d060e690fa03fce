/** UTF-8 (section 4 of RFC 3629), and cutting a string without breaking a character. */
module Utf8 {
  import opened Common

  predicate Between(lo: nat, b: Byte, hi: nat) {
    lo <= b <= hi
  }

  predicate Tail(b: Byte) {
    Between(0x80, b, 0xBF)
  }

  /** The length of the character `s` begins with; zero if it begins with none. */
  function CharLen(s: seq<Byte>): (n: nat)
    ensures n <= 4 && n <= |s|
  {
    if |s| >= 1 && s[0] <= 0x7F then 1
    else if |s| >= 2 && Between(0xC2, s[0], 0xDF) && Tail(s[1]) then 2
    else if |s| >= 3 && Lead3(s[0], s[1]) && Tail(s[2]) then 3
    else if |s| >= 4 && Lead4(s[0], s[1]) && Tail(s[2]) && Tail(s[3]) then 4
    else 0
  }

  predicate Lead3(a: Byte, b: Byte) {
    || (a == 0xE0 && Between(0xA0, b, 0xBF))
    || (Between(0xE1, a, 0xEC) && Tail(b))
    || (a == 0xED && Between(0x80, b, 0x9F))
    || (Between(0xEE, a, 0xEF) && Tail(b))
  }

  predicate Lead4(a: Byte, b: Byte) {
    || (a == 0xF0 && Between(0x90, b, 0xBF))
    || (Between(0xF1, a, 0xF3) && Tail(b))
    || (a == 0xF4 && Between(0x80, b, 0x8F))
  }

  /** A sequence of whole characters. */
  predicate Valid(s: seq<Byte>) {
    s == [] || (CharLen(s) > 0 && Valid(s[CharLen(s)..]))
  }

  /** utf8.RuneStart */
  predicate RuneStart(b: Byte) {
    b / 0x40 != 2
  }

  /** The number of bytes truncateUTF8 keeps: the last position up to `n` where a character may start. */
  function Cut(s: seq<Byte>, n: nat): (k: nat)
    requires n < |s|
    ensures k <= n
    ensures k == 0 || RuneStart(s[k])
    ensures forall j :: k < j <= n ==> !RuneStart(s[j])
  {
    if n == 0 || RuneStart(s[n]) then n else Cut(s, n - 1)
  }

  function Truncated(s: seq<Byte>, n: nat): (r: seq<Byte>)
    ensures |r| <= n && r <= s
  {
    if |s| <= n then s else s[..Cut(s, n)]
  }

  method TruncateUTF8(s: seq<Byte>, limit: nat) returns (r: seq<Byte>)
    ensures r == Truncated(s, limit)
  {
    if |s| <= limit {
      return s;
    }
    var n: nat := limit;
    while n > 0 && !RuneStart(s[n])
      invariant n <= limit && Cut(s, n) == Cut(s, limit)
    {
      n := n - 1;
    }
    return s[..n];
  }

  /** In valid UTF-8 the whole characters end exactly where the next byte can start one. */
  lemma {:induction false} BoundaryIffRuneStart(s: seq<Byte>, k: nat)
    requires Valid(s) && k < |s|
    ensures Valid(s[..k]) <==> RuneStart(s[k])
    decreases |s|
  {
    var c := CharLen(s);
    if k < c {
      assert k > 0 ==> CharLen(s[..k]) == 0;
    } else {
      BoundaryIffRuneStart(s[c..], k - c);
      assert s[..k][c..] == s[c..][..k - c];
      assert CharLen(s[..k]) == c;
    }
  }

  /** Of any four bytes of valid UTF-8 in a row, one can start a character. */
  lemma {:induction false} StartWithinFour(s: seq<Byte>, k: nat)
    requires Valid(s) && k + 3 < |s|
    ensures exists j :: k <= j <= k + 3 && RuneStart(s[j])
    decreases |s|
  {
    var c := CharLen(s);
    if k == 0 {
      assert RuneStart(s[0]);
    } else if k < c {
      if c < |s| {
        assert RuneStart(s[c..][0]);
        assert RuneStart(s[c]);
      }
    } else {
      StartWithinFour(s[c..], k - c);
      var j :| k - c <= j <= k - c + 3 && RuneStart(s[c..][j]);
      assert RuneStart(s[c + j]);
    }
  }

  /** A cut of valid UTF-8 is valid, and the longest valid prefix that fits; at most three bytes are given up. */
  lemma TruncatedIsLongest(s: seq<Byte>, n: nat)
    requires Valid(s)
    ensures Valid(Truncated(s, n))
    ensures |s| > n ==> |Truncated(s, n)| + 3 >= n
    ensures forall j :: |Truncated(s, n)| < j <= n && j <= |s| ==> !Valid(s[..j])
  {
    if |s| > n {
      var k := Cut(s, n);
      BoundaryIffRuneStart(s, k);
      if n > 3 {
        StartWithinFour(s, n - 3);
      }
      if k == 0 {
        assert s[..k] == [];
      }
      forall j | k < j <= n && j <= |s|
        ensures !Valid(s[..j])
      {
        BoundaryIffRuneStart(s, j);
      }
    }
  }
}
