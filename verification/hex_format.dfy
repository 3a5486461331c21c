/** The string formats accepted by the plugin's parameter schemas: an EVM
    address (`^0x[a-fA-F0-9]{40}$`) and a transaction hash
    (`^0x[a-fA-F0-9]{64}$`), and the zero address that stands for the
    chain's gas token. */
module HexFormat {

  /** Number of hex digits after `0x` in an EVM address. */
  const AddressDigits: nat := 40
  /** Number of hex digits after `0x` in a transaction hash. */
  const HashDigits: nat := 64

  /** The address that denotes the native gas token. */
  const GasTokenAddress: string := "0x0000000000000000000000000000000000000000"

  /** The character class `[a-fA-F0-9]`. */
  predicate IsHexDigit(c: char) {
    ('0' <= c <= '9') || ('a' <= c <= 'f') || ('A' <= c <= 'F')
  }

  /** Reference definition: every character of `s` is in the class. */
  predicate AllHexDigits(s: string) {
    forall i :: 0 <= i < |s| ==> IsHexDigit(s[i])
  }

  /** The pattern tail `[a-fA-F0-9]{n}$`, matched one character at a time
      the way a regex engine consumes it. */
  function HexRun(s: string, n: nat): (ok: bool)
    ensures ok ==> |s| == n
    decreases n
  {
    if n == 0 then s == []
    else |s| > 0 && IsHexDigit(s[0]) && HexRun(s[1..], n - 1)
  }

  /** The anchored pattern `^0x[a-fA-F0-9]{n}$` as the regex engine reads
      it: the literal lower-case prefix `0x` (so `0X` does not match), then
      the run of hex digits up to the end of the input. */
  predicate MatchesPrefixedHex(s: string, n: nat) {
    |s| >= 2 && s[0] == '0' && s[1] == 'x' && HexRun(s[2..], n)
  }

  /** Reference definition: `0x` followed by exactly `n` hex digits. */
  predicate PrefixedHexWord(s: string, n: nat) {
    |s| == n + 2 && s[0] == '0' && s[1] == 'x' && AllHexDigits(s[2..])
  }

  /** The `hexAddress` schema rule. */
  predicate IsHexAddress(s: string) {
    PrefixedHexWord(s, AddressDigits)
  }

  /** The transaction-hash rule of the get-bet schema. */
  predicate IsTxHash(s: string) {
    PrefixedHexWord(s, HashDigits)
  }

  /** The run matcher accepts exactly the strings of length `n` made of hex
      digits. */
  lemma {:induction false} HexRunExactly(s: string, n: nat)
    ensures HexRun(s, n) <==> |s| == n && AllHexDigits(s)
    decreases n
  {
    if n == 0 {
    } else if |s| == 0 {
    } else {
      HexRunExactly(s[1..], n - 1);
      assert AllHexDigits(s) <==> IsHexDigit(s[0]) && AllHexDigits(s[1..]) by {
        if IsHexDigit(s[0]) && AllHexDigits(s[1..]) {
          forall i | 0 <= i < |s|
            ensures IsHexDigit(s[i])
          {
            if i > 0 {
              assert s[i] == s[1..][i - 1];
            }
          }
        }
        if AllHexDigits(s) {
          forall i | 0 <= i < |s| - 1
            ensures IsHexDigit(s[1..][i])
          {
            assert s[1..][i] == s[i + 1];
          }
        }
      }
    }
  }

  /** The pattern `^0x[a-fA-F0-9]{n}$` accepts exactly `0x` followed by `n`
      hex digits. */
  lemma PatternMatchesExactly(s: string, n: nat)
    ensures MatchesPrefixedHex(s, n) <==> PrefixedHexWord(s, n)
  {
    if |s| >= 2 {
      HexRunExactly(s[2..], n);
    }
  }

  /** The address pattern accepts exactly the strings of the address rule;
      they are `0x` and 40 hex digits, 42 characters in all. */
  lemma AddressPattern(s: string)
    ensures MatchesPrefixedHex(s, AddressDigits) <==> IsHexAddress(s)
    ensures IsHexAddress(s) ==> |s| == 42 && s[..2] == "0x"
  {
    PatternMatchesExactly(s, AddressDigits);
    if IsHexAddress(s) {
      assert s[..2] == [s[0], s[1]];
    }
  }

  /** The hash pattern accepts exactly the strings of the hash rule; they are
      `0x` and 64 hex digits, 66 characters in all. */
  lemma TxHashPattern(s: string)
    ensures MatchesPrefixedHex(s, HashDigits) <==> IsTxHash(s)
    ensures IsTxHash(s) ==> |s| == 66 && s[..2] == "0x"
  {
    PatternMatchesExactly(s, HashDigits);
    if IsTxHash(s) {
      assert s[..2] == [s[0], s[1]];
    }
  }

  /** The gas-token address is `0x` followed by forty `'0'` characters and
      passes the address rule itself. */
  lemma GasTokenIsAddress()
    ensures GasTokenAddress == "0x" + seq(AddressDigits, _ => '0')
    ensures IsHexAddress(GasTokenAddress)
  {
    var digits := seq(AddressDigits, _ => '0');
    assert GasTokenAddress == "0x" + digits;
    assert GasTokenAddress[2..] == digits;
  }

  /** Among accepted addresses, being the gas token is the same as having
      only `'0'` digits: the equality test on the gas token is not affected
      by letter case. */
  lemma GasTokenIffZeroDigits(t: string)
    requires IsHexAddress(t)
    ensures t == GasTokenAddress <==> forall i :: 2 <= i < |t| ==> t[i] == '0'
  {
    GasTokenIsAddress();
    ZeroAddressIffZeroDigits(t);
  }

  lemma ZeroAddressIffZeroDigits(t: string)
    requires IsHexAddress(t)
    ensures t == "0x" + seq(AddressDigits, _ => '0') <==> forall i :: 2 <= i < |t| ==> t[i] == '0'
  {
    var g := "0x" + seq(AddressDigits, _ => '0');
    assert forall i :: 2 <= i < |g| ==> g[i] == '0';
    if forall i :: 2 <= i < |t| ==> t[i] == '0' {
      assert forall i :: 0 <= i < |t| ==> t[i] == g[i];
      assert t == g;
    }
  }
}
