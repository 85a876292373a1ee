/** Text predicates shared by every contract: blank strings, content digests and decimal numbers. */
module Text {

  datatype Option<+T> = None | Some(value: T)

  datatype Result<+T, +E> = Success(value: T) | Failure(error: E)

  /** The Unicode White_Space characters, which `str::trim` removes. */
  predicate IsWhitespace(c: char) {
    || '\U{0009}' <= c <= '\U{000D}'
    || c in {'\U{0020}', '\U{0085}', '\U{00A0}', '\U{1680}', '\U{2028}', '\U{2029}', '\U{202F}', '\U{205F}', '\U{3000}'}
    || '\U{2000}' <= c <= '\U{200A}'
  }

  /** True when trimming leaves at least one character. */
  predicate NonBlank(s: string) {
    s != "" && (!IsWhitespace(s[0]) || NonBlank(s[1..]))
  }

  /** Exactly the 25 characters that Unicode gives the property White_Space. */
  lemma WhitespaceCodes(c: char)
    ensures IsWhitespace(c) <==>
            c as int in {9, 10, 11, 12, 13, 32, 133, 160, 5760, 8192, 8193, 8194, 8195, 8196, 8197, 8198, 8199, 8200, 8201, 8202, 8232, 8233, 8239, 8287, 12288}
  {
  }

  lemma {:induction false} NonBlankMeans(s: string)
    ensures NonBlank(s) <==> exists i | 0 <= i < |s| :: !IsWhitespace(s[i])
  {
    if s != "" {
      NonBlankMeans(s[1..]);
      assert forall i | 1 <= i < |s| :: s[i] == s[1..][i - 1];
      assert forall i | 0 <= i < |s| - 1 :: s[1..][i] == s[i + 1];
    }
  }

  predicate NonBlankOption(s: Option<string>) {
    s.Some? ==> NonBlank(s.value)
  }

  predicate IsLowerHex(c: char) {
    '0' <= c <= '9' || 'a' <= c <= 'f'
  }

  const DIGEST_PREFIX := "sha256:"

  /** `sha256:` followed by 64 lowercase hexadecimal characters. */
  predicate IsDigest(s: string) {
    |s| == 71 && s[..7] == DIGEST_PREFIX && forall i | 7 <= i < 71 :: IsLowerHex(s[i])
  }

  /** A digest is the prefix and 64 of the sixteen lowercase hexadecimal characters. */
  lemma DigestMeans(s: string)
    ensures IsDigest(s) <==> exists hex: string :: s == "sha256:" + hex && |hex| == 64 && forall c | c in hex :: c in "0123456789abcdef"
  {
    if IsDigest(s) {
      var hex := s[7..];
      assert s == "sha256:" + hex && |hex| == 64;
      assert forall i | 0 <= i < 64 :: hex[i] == s[i + 7];
    }
    if hex: string :| s == "sha256:" + hex && |hex| == 64 && forall c | c in hex :: c in "0123456789abcdef" {
      assert forall i | 7 <= i < 71 :: s[i] == hex[i - 7] && s[i] in hex;
      assert s[..7] == "sha256:";
    }
  }

  predicate IsDigit(c: char) {
    '0' <= c <= '9'
  }

  function Digit(n: nat): (c: char)
    requires n < 10
    ensures IsDigit(c)
  {
    '0' + (n as char)
  }

  /** The decimal numeral that formatting an unsigned integer produces. */
  function Decimal(n: nat): (s: string)
    ensures s != "" && forall i | 0 <= i < |s| :: IsDigit(s[i])
  {
    if n < 10 then [Digit(n)] else Decimal(n / 10) + [Digit(n % 10)]
  }

  /** Distinct numbers have distinct numerals. */
  lemma {:induction false} DecimalInjective(m: nat, n: nat)
    requires Decimal(m) == Decimal(n)
    ensures m == n
  {
    var s, t := Decimal(m), Decimal(n);
    assert s[|s| - 1] == Digit(m % 10) && t[|t| - 1] == Digit(n % 10);
    if m >= 10 && n >= 10 {
      assert Decimal(m / 10) == s[..|s| - 1] && Decimal(n / 10) == t[..|t| - 1];
      DecimalInjective(m / 10, n / 10);
    }
  }
}
