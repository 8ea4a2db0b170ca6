/**
 * The wallet address format check `/^0x[a-fA-F0-9]{40}$/` of the data hook.
 * Without the `m` flag `$` anchors at the very end of the input, so an
 * accepted string is exactly 42 characters long.
 */
module WalletPattern {

  const HexDigits: nat := 40

  predicate IsHexDigit(c: char) {
    ('0' <= c <= '9') || ('a' <= c <= 'f') || ('A' <= c <= 'F')
  }

  /** The language the regular expression accepts. */
  predicate IsAddress(s: string) {
    && |s| == 2 + HexDigits
    && s[0] == '0'
    && s[1] == 'x'
    && forall i :: 2 <= i < |s| ==> IsHexDigit(s[i])
  }

  /** A left-to-right scan of `s`, the way the regular expression engine
      matches the pattern: the literal prefix, then one hex digit per step,
      then the end anchor. */
  method TestPattern(s: string) returns (ok: bool)
    ensures ok <==> IsAddress(s)
  {
    if |s| < 2 || s[0] != '0' || s[1] != 'x' {
      return false;
    }
    var i := 2;
    while i < |s| && i < 2 + HexDigits && IsHexDigit(s[i])
      invariant 2 <= i <= |s|
      invariant i <= 2 + HexDigits
      invariant forall j :: 2 <= j < i ==> IsHexDigit(s[j])
    {
      i := i + 1;
    }
    ok := i == 2 + HexDigits && i == |s|;
  }

  function ToLower(c: char): char {
    if 'A' <= c <= 'Z' then (c as int + 32) as char else c
  }

  function Lowered(s: string): (r: string)
    ensures |r| == |s|
    ensures forall i :: 0 <= i < |s| ==> r[i] == ToLower(s[i])
  {
    seq(|s|, i requires 0 <= i < |s| => ToLower(s[i]))
  }

  /** No checksum is checked: with the `0x` prefix in place, changing the
      case of the hex digits never changes the verdict. */
  lemma CaseOfDigitsIrrelevant(s: string)
    requires |s| >= 2 && s[0] == '0' && s[1] == 'x'
    ensures IsAddress(s) <==> IsAddress(Lowered(s))
  {
    var l := Lowered(s);
    if IsAddress(l) {
      forall i | 2 <= i < |s|
        ensures IsHexDigit(s[i])
      {
        assert IsHexDigit(l[i]);
        assert l[i] == ToLower(s[i]);
      }
    }
  }

  /** The prefix itself is case-sensitive: `0X` is refused. */
  lemma UpperCasePrefixRefused(s: string)
    requires |s| >= 2 && s[1] == 'X'
    ensures !IsAddress(s)
  {
  }

  /** A burn address written with two digits missing (38 hex digits) is
      refused; the full 40-digit burn address is accepted. */
  lemma SampleAddresses()
    ensures !IsAddress("0x0000000000000000000000000000000000dEaD")
    ensures IsAddress("0x000000000000000000000000000000000000dEaD")
  {
  }
}
