/** The few Go string helpers the probes use to build labels and addresses. */
module Text {

  function Digit(d: nat): (c: char)
    requires d < 10
    ensures '0' <= c <= '9'
  {
    "0123456789"[d]
  }

  /** `strconv.Itoa` of a non-negative integer: its decimal digits, no leading zero. */
  function NatToString(n: nat): (s: string)
    ensures |s| >= 1 && (forall i :: 0 <= i < |s| ==> '0' <= s[i] <= '9')
    ensures |s| > 1 ==> s[0] != '0'
    decreases n
  {
    if n < 10 then [Digit(n)] else NatToString(n / 10) + [Digit(n % 10)]
  }

  /** `strconv.Itoa`: decimal, with a leading '-' for negative numbers. */
  function Itoa(n: int): (s: string)
    ensures |s| >= 1
    ensures n >= 0 <==> s[0] != '-'
  {
    if n < 0 then "-" + NatToString(-n) else NatToString(n)
  }

  /** Reads back a string of decimal digits; the inverse of NatToString. */
  function DigitsValue(s: string): int
  {
    if s == [] then 0 else DigitsValue(s[..|s| - 1]) * 10 + (s[|s| - 1] as int - '0' as int)
  }

  lemma {:induction false} NatToStringRoundTrip(n: nat)
    ensures DigitsValue(NatToString(n)) == n
    decreases n
  {
    if n >= 10 {
      var s := NatToString(n);
      assert s[..|s| - 1] == NatToString(n / 10);
      NatToStringRoundTrip(n / 10);
    }
  }

  /** Distinct integers print differently, so a numeric label identifies its value. */
  lemma ItoaInjective(m: int, n: int)
    requires Itoa(m) == Itoa(n)
    ensures m == n
  {
    var s := Itoa(m);
    if m < 0 {
      assert n < 0;
      NatToStringInjective(-m, -n, s[1..]);
    } else {
      assert n >= 0;
      NatToStringInjective(m, n, s);
    }
  }

  lemma NatToStringInjective(a: nat, b: nat, s: string)
    requires NatToString(a) == s && NatToString(b) == s
    ensures a == b
  {
    NatToStringRoundTrip(a);
    NatToStringRoundTrip(b);
  }

  /** The characters Go's `unicode.ToUpper` maps to an ASCII capital other than themselves. */
  predicate Lowerable(c: char)
  {
    'a' <= c <= 'z' || c == '\U{0131}' || c == '\U{017F}'
  }

  /**
    The upper case of one character, as Go's `unicode.ToUpper` gives it for every
    character whose upper case is an ASCII letter: 'a'..'z', U+0131 (dotless i) and
    U+017F (long s). Every other character is kept as it is.
  */
  function UpperRune(c: char): (u: char)
    ensures 'a' <= c <= 'z' ==> u == (c as int - 32) as char && 'A' <= u <= 'Z'
    ensures c == '\U{0131}' ==> u == 'I'
    ensures c == '\U{017F}' ==> u == 'S'
    ensures !Lowerable(c) ==> u == c
    ensures !Lowerable(u)
  {
    if 'a' <= c <= 'z' then (c as int - 32) as char
    else if c == '\U{0131}' then 'I'
    else if c == '\U{017F}' then 'S'
    else c
  }

  /**
    `strings.ToUpper`, character by character: ASCII lower-case letters become
    their capitals, U+0131 becomes 'I' and U+017F becomes 'S'; every other
    character is kept, and no character of the result is upper-cased again.
  */
  function ToUpper(s: string): (r: string)
    ensures |r| == |s|
    ensures forall i :: 0 <= i < |s| && 'a' <= s[i] <= 'z' ==> r[i] == (s[i] as int - 32) as char
    ensures forall i :: 0 <= i < |s| && s[i] == '\U{0131}' ==> r[i] == 'I'
    ensures forall i :: 0 <= i < |s| && s[i] == '\U{017F}' ==> r[i] == 'S'
    ensures forall i :: 0 <= i < |s| && !Lowerable(s[i]) ==> r[i] == s[i]
    ensures forall i :: 0 <= i < |r| ==> !Lowerable(r[i])
  {
    seq(|s|, i requires 0 <= i < |s| => UpperRune(s[i]))
  }

  lemma ToUpperIdempotent(s: string)
    ensures ToUpper(ToUpper(s)) == ToUpper(s)
  {
  }

  /** `net.JoinHostPort`: a host containing ':' (an IPv6 address) is bracketed. */
  function JoinHostPort(host: string, port: string): (r: string)
    ensures |r| > |port| && r[|r| - |port| - 1..] == ":" + port
    ensures r[..|r| - |port| - 1] == (if ':' in host then "[" + host + "]" else host)
  {
    if ':' in host then "[" + host + "]:" + port else host + ":" + port
  }

  /** Go's `%q` verb, for names without characters that need escaping. */
  function Quote(s: string): (r: string)
    ensures |r| == |s| + 2 && r[0] == '"' && r[|r| - 1] == '"' && r[1..|r| - 1] == s
  {
    "\"" + s + "\""
  }
}
