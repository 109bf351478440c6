/** String operations the backend relies on: substring test, code-point order, whitespace cleaning. */
module TextTools {
  /** Python's `needle in hay`. */
  predicate Contains(hay: string, needle: string) {
    needle <= hay || (hay != "" && Contains(hay[1..], needle))
  }

  /** Lexicographic order of strings by code point. */
  predicate TextBefore(a: string, b: string) {
    if b == "" then false
    else if a == "" then true
    else a[0] < b[0] || (a[0] == b[0] && TextBefore(a[1..], b[1..]))
  }

  lemma {:induction false} TextOrderTotal(a: string, b: string)
    ensures a == b || TextBefore(a, b) || TextBefore(b, a)
    ensures !(TextBefore(a, b) && TextBefore(b, a))
    ensures !TextBefore(a, a)
  {
    if a != "" && b != "" {
      TextOrderTotal(a[1..], b[1..]);
      assert a == [a[0]] + a[1..] && b == [b[0]] + b[1..];
    }
    if a != "" {
      TextOrderTotal(a[1..], a[1..]);
    }
  }

  lemma {:induction false} TextOrderTransitive(a: string, b: string, c: string)
    requires TextBefore(a, b) && TextBefore(b, c)
    ensures TextBefore(a, c)
  {
    if a != "" && a[0] == b[0] && b[0] == c[0] {
      TextOrderTransitive(a[1..], b[1..], c[1..]);
    }
  }

  /** The code points `str.split()` treats as whitespace. */
  predicate IsSpace(c: char) {
    var n := c as int;
    0x09 <= n <= 0x0D || 0x1C <= n <= 0x20 || n == 0x85 || n == 0xA0 || n == 0x1680
    || 0x2000 <= n <= 0x200A || n == 0x2028 || n == 0x2029 || n == 0x202F || n == 0x205F || n == 0x3000
  }

  function DropSpaces(s: string): (r: string)
    ensures |r| <= |s|
    ensures r != "" ==> !IsSpace(r[0])
  {
    if s != "" && IsSpace(s[0]) then DropSpaces(s[1..]) else s
  }

  function DropSpacesAtEnd(s: string): string {
    if s != "" && IsSpace(s[|s| - 1]) then DropSpacesAtEnd(s[..|s| - 1]) else s
  }

  /** Python's `str.strip()`. */
  function Strip(s: string): string {
    DropSpacesAtEnd(DropSpaces(s))
  }

  /** `" ".join(s.split())`: single spaces between words, none at the ends. */
  function Clean(s: string): (r: string)
    decreases |s|
  {
    var t := DropSpaces(s);
    if t == "" then ""
    else
      var word := Word(t);
      var rest := Clean(t[|word|..]);
      if rest == "" then word else word + " " + rest
  }

  function Word(s: string): (r: string)
    ensures |r| <= |s| && r == s[..|r|]
    ensures s != "" && !IsSpace(s[0]) ==> r != ""
    ensures forall i :: 0 <= i < |r| ==> !IsSpace(r[i])
    ensures |r| < |s| ==> IsSpace(s[|r|])
  {
    if s == "" || IsSpace(s[0]) then "" else [s[0]] + Word(s[1..])
  }

  /** No space at either end, no two in a row, and no whitespace other than the plain space. */
  ghost predicate Tidy(s: string) {
    && (forall i :: 0 <= i < |s| && IsSpace(s[i]) ==> s[i] == ' ' && 0 < i < |s| - 1)
    && (forall i :: 0 <= i < |s| - 1 ==> !(IsSpace(s[i]) && IsSpace(s[i + 1])))
  }

  lemma {:induction false} CleanIsTidy(s: string)
    ensures Tidy(Clean(s))
    decreases |s|
  {
    var t := DropSpaces(s);
    if t != "" {
      var word := Word(t);
      var rest := Clean(t[|word|..]);
      CleanIsTidy(t[|word|..]);
      if rest != "" {
        var r := word + " " + rest;
        assert !IsSpace(rest[0]);
        forall i | 0 <= i < |r| && IsSpace(r[i]) ensures r[i] == ' ' && 0 < i < |r| - 1 {
          if i > |word| {
            assert r[i] == rest[i - |word| - 1];
          }
        }
        forall i | 0 <= i < |r| - 1 ensures !(IsSpace(r[i]) && IsSpace(r[i + 1])) {
          if i > |word| {
            assert r[i] == rest[i - |word| - 1] && r[i + 1] == rest[i - |word|];
          } else if i == |word| {
            assert r[i + 1] == rest[0];
          }
        }
      }
    }
  }

  lemma TailIsTidy(s: string, k: nat)
    requires Tidy(s) && k + 1 < |s| && IsSpace(s[k])
    ensures Tidy(s[k + 1..]) && s[k] == ' ' && !IsSpace(s[k + 1])
  {
    var tail := s[k + 1..];
    assert forall i :: 0 <= i < |tail| ==> tail[i] == s[k + 1 + i];
    forall i | 0 <= i < |tail| && IsSpace(tail[i]) ensures tail[i] == ' ' && 0 < i < |tail| - 1 {
      assert IsSpace(s[k + 1 + i]);
    }
    forall i | 0 <= i < |tail| - 1 ensures !(IsSpace(tail[i]) && IsSpace(tail[i + 1])) {
      assert !(IsSpace(s[k + 1 + i]) && IsSpace(s[k + 1 + i + 1]));
    }
  }

  lemma CleanSkipsSpace(s: string)
    requires s != "" && !IsSpace(s[0])
    ensures Clean(" " + s) == Clean(s)
  {
    assert (" " + s)[1..] == s;
    assert DropSpaces(" " + s) == DropSpaces(s);
  }

  lemma SplitAtSpace(s: string, k: nat)
    requires k < |s| && s[k] == ' '
    ensures s[k..] == " " + s[k + 1..] && s == s[..k] + " " + s[k + 1..]
  {
  }

  lemma {:induction false} TidyIsClean(s: string)
    requires Tidy(s)
    ensures Clean(s) == s
    decreases |s|
  {
    if s != "" {
      assert !IsSpace(s[0]);
      var k := |Word(s)|;
      if k < |s| {
        assert k + 1 < |s|;
        var tail := s[k + 1..];
        TailIsTidy(s, k);
        TidyIsClean(tail);
        CleanSkipsSpace(tail);
        SplitAtSpace(s, k);
      }
    }
  }

  /** Cleaning twice is cleaning once, and it leaves exactly the tidy texts alone. */
  lemma CleanIsIdempotent(s: string)
    ensures Clean(Clean(s)) == Clean(s)
    ensures Clean(s) == s <==> Tidy(s)
  {
    CleanIsTidy(s);
    TidyIsClean(Clean(s));
    if Tidy(s) {
      TidyIsClean(s);
    }
  }
}
