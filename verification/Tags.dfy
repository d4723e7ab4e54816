/**
  Tags as strings (core/control/daemon.go): trimming and sanitising a name, and rendering a counter
  in decimal so that different counters give different suffixes.
 */
module Tags {

  // ----- Trimming and sanitising -----

  /** The Unicode White_Space property, as the Go library's unicode.IsSpace has it. */
  predicate IsSpace(c: char) {
    var r := c as int;
    || 0x09 <= r <= 0x0d || r == 0x20 || r == 0x85 || r == 0xa0 || r == 0x1680
    || 0x2000 <= r <= 0x200a || r == 0x2028 || r == 0x2029 || r == 0x202f || r == 0x205f || r == 0x3000
  }

  function TrimLeft(s: string): string {
    if s != [] && IsSpace(s[0]) then TrimLeft(s[1..]) else s
  }

  function TrimRight(s: string): string {
    if s != [] && IsSpace(s[|s| - 1]) then TrimRight(s[..|s| - 1]) else s
  }

  function TrimSpace(s: string): string {
    TrimRight(TrimLeft(s))
  }

  /** A control character, a quote or a backslash has no place in a tag. */
  predicate Forbidden(c: char) {
    c as int < 0x20 || c as int == 0x7f || c == '"' || c == '\\'
  }

  function Dashed(s: string): (t: string)
    ensures |t| == |s|
    ensures forall i :: 0 <= i < |s| ==> t[i] == if Forbidden(s[i]) then '-' else s[i]
  {
    if s == [] then [] else Dashed(s[..|s| - 1]) + [if Forbidden(s[|s| - 1]) then '-' else s[|s| - 1]]
  }

  function NonBlank(s: string): string {
    if s == [] then "node" else s
  }

  function Sanitized(name: string): string {
    var trimmed := TrimSpace(name);
    if trimmed == [] then "node" else NonBlank(TrimSpace(Dashed(trimmed)))
  }

  method SanitizeTag(name: string) returns (tag: string)
    ensures tag == Sanitized(name)
  {
    var trimmed := TrimSpace(name);
    if trimmed == "" {
      return "node";
    }
    var b := "";
    for i := 0 to |trimmed|
      invariant b == Dashed(trimmed[..i])
    {
      assert trimmed[..i + 1][..i] == trimmed[..i];
      var r := trimmed[i];
      if r as int < 0x20 || r as int == 0x7f {
        b := b + ['-'];
      } else if r == '"' || r == '\\' {
        b := b + ['-'];
      } else {
        b := b + [r];
      }
    }
    assert trimmed[..|trimmed|] == trimmed;
    var out := TrimSpace(b);
    if out == "" {
      return "node";
    }
    return out;
  }

  predicate Trimmed(s: string) {
    s == [] || (!IsSpace(s[0]) && !IsSpace(s[|s| - 1]))
  }

  lemma {:induction false} TrimLeftIsASuffix(s: string)
    ensures var t := TrimLeft(s); |t| <= |s| && t == s[|s| - |t|..] && (t == [] || !IsSpace(t[0]))
  {
    if s != [] && IsSpace(s[0]) {
      TrimLeftIsASuffix(s[1..]);
    }
  }

  lemma {:induction false} TrimRightIsAPrefix(s: string)
    ensures var t := TrimRight(s); t <= s && (t == [] || !IsSpace(t[|t| - 1]))
  {
    if s != [] && IsSpace(s[|s| - 1]) {
      TrimRightIsAPrefix(s[..|s| - 1]);
    }
  }

  lemma TrimSpaceTrims(s: string)
    ensures Trimmed(TrimSpace(s))
    ensures forall c :: c in TrimSpace(s) ==> c in s
    ensures Trimmed(s) ==> TrimSpace(s) == s
  {
    TrimLeftIsASuffix(s);
    TrimRightIsAPrefix(TrimLeft(s));
  }

  predicate Printable(s: string) {
    forall i :: 0 <= i < |s| ==> !Forbidden(s[i])
  }

  lemma DashedIsPrintable(s: string)
    ensures Printable(Dashed(s))
    ensures Printable(s) ==> Dashed(s) == s
  {
  }

  lemma TrimmingKeepsPrintable(s: string)
    requires Printable(s)
    ensures Printable(TrimSpace(s))
  {
    TrimLeftIsASuffix(s);
    TrimRightIsAPrefix(TrimLeft(s));
  }

  lemma NodeIsATag()
    ensures Printable("node") && Trimmed("node")
  {
  }

  lemma SanitizedIsClean(name: string)
    ensures Printable(Sanitized(name)) && Trimmed(Sanitized(name))
  {
    var dashed := Dashed(TrimSpace(name));
    DashedIsPrintable(TrimSpace(name));
    TrimSpaceTrims(dashed);
    TrimmingKeepsPrintable(dashed);
    NodeIsATag();
  }

  /** A tag is never blank, has no forbidden character and no space at either end, and is a fixed point. */
  lemma SanitizedIsATag(name: string)
    ensures var tag := Sanitized(name);
            tag != [] && Trimmed(tag) && Printable(tag) && Sanitized(tag) == tag
  {
    var tag := Sanitized(name);
    SanitizedIsClean(name);
    TrimSpaceTrims(tag);
    DashedIsPrintable(tag);
  }

  // ----- Counters in decimal -----

  function Digit(d: nat): char
    requires d < 10
  {
    '0' + d as char
  }

  function Decimal(n: nat): (s: string)
    ensures s != []
  {
    if n < 10 then [Digit(n)] else Decimal(n / 10) + [Digit(n % 10)]
  }

  lemma {:induction false} DecimalIsInjective(a: nat, b: nat)
    requires Decimal(a) == Decimal(b)
    ensures a == b
  {
    var s, t := Decimal(a), Decimal(b);
    assert s[|s| - 1] == t[|t| - 1];
    assert Digit(a % 10) == Digit(b % 10);
    assert |s| >= 2 <==> a >= 10;
    assert |t| >= 2 <==> b >= 10;
    if a >= 10 {
      assert s[..|s| - 1] == Decimal(a / 10) && t[..|t| - 1] == Decimal(b / 10);
      DecimalIsInjective(a / 10, b / 10);
    }
  }

  /** The k-th candidate for a name that is taken. */
  function Suffixed(base: string, k: nat): string {
    base + "-" + Decimal(k)
  }

  lemma SuffixesDiffer(base: string, j: nat, k: nat)
    requires Suffixed(base, j) == Suffixed(base, k)
    ensures j == k
  {
    assert Suffixed(base, j)[|base| + 1..] == Decimal(j);
    assert Suffixed(base, k)[|base| + 1..] == Decimal(k);
    DecimalIsInjective(j, k);
  }
}
