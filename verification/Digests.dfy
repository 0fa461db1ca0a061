/** Digests as text: "sha256:" and 64 small hexadecimal digits. */
module Digests {
  type Nibble = n: int | 0 <= n < 16

  predicate HexDigit(c: char) {
    '0' <= c <= '9' || 'a' <= c <= 'f'
  }

  /** What every reader of a digest checks. */
  predicate IsDigest(s: string) {
    |s| == 71 && s[..7] == "sha256:" && forall i :: 7 <= i < |s| ==> HexDigit(s[i])
  }

  function Hex(n: Nibble): (c: char)
    ensures HexDigit(c)
  {
    if n < 10 then '0' + n as char else 'a' + (n - 10) as char
  }

  function Unhex(c: char): Nibble
    requires HexDigit(c)
  {
    if c <= '9' then c as int - '0' as int else c as int - 'a' as int + 10
  }

  lemma HexRoundTrip(n: Nibble, c: char)
    ensures Unhex(Hex(n)) == n
    ensures HexDigit(c) ==> Hex(Unhex(c)) == c
  {
  }

  /** The text of a digest. */
  function Text(digits: seq<Nibble>): (s: string)
    ensures |s| == 7 + |digits|
  {
    "sha256:" + seq(|digits|, i requires 0 <= i < |digits| => Hex(digits[i]))
  }

  /** A text is accepted exactly if it is that of some 64 half bytes. */
  lemma DigestsAreTexts(s: string)
    ensures IsDigest(s) <==> exists digits: seq<Nibble> :: |digits| == 64 && s == Text(digits)
  {
    if IsDigest(s) {
      var digits: seq<Nibble> := seq(64, i requires 0 <= i < 64 => Unhex(s[7 + i]));
      forall k | 0 <= k < 71 ensures Text(digits)[k] == s[k] {
        if k < 7 { assert s[k] == s[..7][k]; } else { HexRoundTrip(0, s[k]); }
      }
      assert s == Text(digits);
    }
    if digits: seq<Nibble> :| |digits| == 64 && s == Text(digits) {
      assert s[..7] == "sha256:";
    }
  }

  /** Different digests have different texts. */
  lemma TextDetermines(a: seq<Nibble>, b: seq<Nibble>)
    requires |a| == |b| && Text(a) == Text(b)
    ensures a == b
  {
    forall i | 0 <= i < |a| ensures a[i] == b[i] {
      assert Text(a)[7 + i] == Text(b)[7 + i];
      HexRoundTrip(a[i], 'a');
      HexRoundTrip(b[i], 'a');
    }
  }
}
