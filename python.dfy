/**
 * The few Python built-ins the source relies on: `str.strip()` with no
 * argument, the truthiness of an optional string, `random.randint` and the
 * exceptions the modelled code can raise.
 */
module Python {
  import opened Wrappers

  /** The exceptions raised by the modelled code. */
  datatype PyError =
    | KeyError(key: string)      // an unknown configuration property
    | TypeError                  // `"code_icao" in None`
    | AttributeError(name: string) // an attribute looked up on the wrong kind of value

  /** The characters `str.isspace()` accepts, which are the ones `str.strip()` removes. */
  predicate IsSpace(c: char) {
    || c == ' '
    || '\t' <= c <= '\r'
    || '\U{1C}' <= c <= '\U{1F}'
    || c == '\U{85}' || c == '\U{A0}' || c == '\U{1680}'
    || '\U{2000}' <= c <= '\U{200A}'
    || c == '\U{2028}' || c == '\U{2029}' || c == '\U{202F}' || c == '\U{205F}' || c == '\U{3000}'
  }

  predicate AllSpace(s: string) {
    forall k :: 0 <= k < |s| ==> IsSpace(s[k])
  }

  /** No leading and no trailing whitespace. */
  predicate IsStripped(s: string) {
    s == [] || (!IsSpace(s[0]) && !IsSpace(s[|s| - 1]))
  }

  /** `s.lstrip()`: drop whitespace from the front. */
  function TrimStart(s: string): (r: string)
    ensures r == [] || !IsSpace(r[0])
  {
    if s != [] && IsSpace(s[0]) then TrimStart(s[1..]) else s
  }

  /** `s.rstrip()`: drop whitespace from the back. */
  function TrimEnd(s: string): (r: string)
    ensures r == [] || !IsSpace(r[|r| - 1])
  {
    if s != [] && IsSpace(s[|s| - 1]) then TrimEnd(s[..|s| - 1]) else s
  }

  /** `lstrip` removes a run of whitespace and leaves the rest of the string as it is. */
  lemma {:induction false} TrimStartSuffix(s: string)
    ensures |TrimStart(s)| <= |s| && TrimStart(s) == s[|s| - |TrimStart(s)|..]
    ensures AllSpace(s[..|s| - |TrimStart(s)|])
  {
    if s != [] && IsSpace(s[0]) {
      TrimStartSuffix(s[1..]);
      var r := TrimStart(s[1..]);
      assert s[1..][|s| - 1 - |r|..] == s[|s| - |r|..];
    }
  }

  /** `rstrip` removes a run of whitespace and leaves the rest of the string as it is. */
  lemma {:induction false} TrimEndPrefix(s: string)
    ensures |TrimEnd(s)| <= |s| && TrimEnd(s) == s[..|TrimEnd(s)|]
    ensures AllSpace(s[|TrimEnd(s)|..])
  {
    if s != [] && IsSpace(s[|s| - 1]) {
      var t := s[..|s| - 1];
      TrimEndPrefix(t);
      var r := TrimEnd(t);
      assert t[..|r|] == s[..|r|];
      assert forall k :: |r| <= k < |s| ==> s[k] == if k == |s| - 1 then s[|s| - 1] else t[k];
    }
  }

  /** `s.strip()` */
  function Strip(s: string): (r: string)
    ensures IsStripped(r)
  {
    TrimEndPrefix(TrimStart(s));
    TrimEnd(TrimStart(s))
  }

  /** Whitespace in front of a string that starts with a non-space is all `lstrip` removes. */
  lemma TrimStartAfterSpaces(a: string, t: string)
    requires AllSpace(a)
    requires t == [] || !IsSpace(t[0])
    ensures TrimStart(a + t) == t
  {
    var s := a + t;
    TrimStartSuffix(s);
    assert s[|s| - |t|..] == t;
  }

  /** Whitespace after a string that ends with a non-space is all `rstrip` removes. */
  lemma TrimEndBeforeSpaces(t: string, b: string)
    requires AllSpace(b)
    requires t == [] || !IsSpace(t[|t| - 1])
    ensures TrimEnd(t + b) == t
  {
    var s := t + b;
    TrimEndPrefix(s);
    assert s[..|t|] == t;
  }

  /**
   * Independent characterisation of `strip`: a string that is a stripped
   * core between two runs of whitespace strips to exactly that core.
   */
  lemma StripUnique(a: string, m: string, b: string)
    requires AllSpace(a) && AllSpace(b) && IsStripped(m) && m != []
    ensures Strip(a + m + b) == m
  {
    assert a + m + b == a + (m + b);
    TrimStartAfterSpaces(a, m + b);
    TrimEndBeforeSpaces(m, b);
  }

  /** A string made only of whitespace strips to the empty string. */
  lemma StripAllSpace(s: string)
    requires AllSpace(s)
    ensures Strip(s) == ""
  {
    assert s + [] == s;
    TrimStartAfterSpaces(s, []);
  }

  /** A string with no surrounding whitespace is its own strip. */
  lemma StripStripped(s: string)
    requires IsStripped(s)
    ensures Strip(s) == s
  {
    assert [] + s == s;
    TrimStartAfterSpaces([], s);
    assert s + [] == s;
    TrimEndBeforeSpaces(s, []);
  }

  /** `strip` is idempotent. */
  lemma StripIdempotent(s: string)
    ensures Strip(Strip(s)) == Strip(s)
  {
    StripStripped(Strip(s));
  }

  /** Python truthiness of an optional string: present and non-empty. */
  predicate Truthy(f: Option<string>) {
    f.Some? && f.value != ""
  }

  /**
   * `random.randint(lo, hi)` as a function of the generator's next draw:
   * the draw is arbitrary, the result always lies in the inclusive range.
   */
  function RandInt(lo: int, hi: int, draw: nat): (r: int)
    requires lo <= hi
    ensures lo <= r <= hi
  {
    lo + draw % (hi - lo + 1)
  }

  /** Every value of the inclusive range can be drawn. */
  lemma RandIntCoversRange(lo: int, hi: int, v: int)
    requires lo <= v <= hi
    ensures RandInt(lo, hi, v - lo) == v
  {
  }
}
