/** The part of ECMAScript string handling the adapter relies on:
    `String.prototype.trim`, which removes white space and line terminators
    from both ends of a string (section 22.1.3.32 of ECMA-262). */
module JsText {

  /** WhiteSpace and LineTerminator code points (sections 12.2 and 12.3 of ECMA-262). */
  predicate IsJsSpace(c: char) {
    || c == '\t' || c == '\n' || c == '\U{000B}' || c == '\U{000C}' || c == '\r' || c == ' '
    || c == '\U{00A0}' || c == '\U{1680}' || ('\U{2000}' <= c <= '\U{200A}')
    || c == '\U{2028}' || c == '\U{2029}' || c == '\U{202F}' || c == '\U{205F}'
    || c == '\U{3000}' || c == '\U{FEFF}'
  }

  predicate AllSpace(s: string) {
    forall i :: 0 <= i < |s| ==> IsJsSpace(s[i])
  }

  /** Neither end of `s` is white space (an empty string qualifies). */
  predicate Tight(s: string) {
    s == [] || (!IsJsSpace(s[0]) && !IsJsSpace(s[|s| - 1]))
  }

  /** `s` without its leading white space. */
  function TrimStart(s: string): (r: string)
    ensures |r| <= |s| && r == s[|s| - |r|..]
    ensures AllSpace(s[..|s| - |r|])
    ensures r == [] || !IsJsSpace(r[0])
  {
    if s != [] && IsJsSpace(s[0]) then TrimStart(s[1..]) else s
  }

  /** `s` without its trailing white space. */
  function TrimEnd(s: string): (r: string)
    ensures |r| <= |s| && r == s[..|r|]
    ensures AllSpace(s[|r|..])
    ensures r == [] || !IsJsSpace(r[|r| - 1])
  {
    if s != [] && IsJsSpace(s[|s| - 1]) then TrimEnd(s[..|s| - 1]) else s
  }

  /** `s.trim()`. */
  function Trim(s: string): (r: string)
    ensures Tight(r)
    ensures |r| <= |s|
  {
    TrimEnd(TrimStart(s))
  }

  lemma {:induction false} TrimStartDrops(pre: string, rest: string)
    requires AllSpace(pre)
    requires rest == [] || !IsJsSpace(rest[0])
    ensures TrimStart(pre + rest) == rest
  {
    if pre != [] {
      assert (pre + rest)[1..] == pre[1..] + rest;
      TrimStartDrops(pre[1..], rest);
    }
  }

  lemma {:induction false} TrimEndDrops(rest: string, suf: string)
    requires AllSpace(suf)
    requires rest == [] || !IsJsSpace(rest[|rest| - 1])
    ensures TrimEnd(rest + suf) == rest
  {
    if suf != [] {
      assert (rest + suf)[..|rest + suf| - 1] == rest + suf[..|suf| - 1];
      TrimEndDrops(rest, suf[..|suf| - 1]);
    }
  }

  /** `trim` is characterised independently of how it is computed: the part
      of a string left between two runs of white space, when that part
      neither starts nor ends with white space. */
  lemma TrimCharacterised(pre: string, middle: string, suf: string)
    requires AllSpace(pre) && AllSpace(suf) && Tight(middle)
    ensures Trim(pre + middle + suf) == middle
  {
    if middle == [] {
      assert pre + middle + suf == (pre + suf) + [];
      TrimStartDrops(pre + suf, []);
    } else {
      assert pre + middle + suf == pre + (middle + suf);
      TrimStartDrops(pre, middle + suf);
      TrimEndDrops(middle, suf);
    }
  }

  /** Trimming twice is trimming once. */
  lemma TrimIdempotent(s: string)
    ensures Trim(Trim(s)) == Trim(s)
  {
    var r := Trim(s);
    assert [] + r + [] == r;
    TrimCharacterised([], r, []);
  }
}
