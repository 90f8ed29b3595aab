/** Strings as the model's modules use them: substrings, separators and the byte order of paths. */
module Text {

  /** The byte order Go's < uses on strings. */
  predicate Less(a: string, b: string)
  {
    if b == "" then false
    else if a == "" then true
    else a[0] < b[0] || (a[0] == b[0] && Less(a[1..], b[1..]))
  }

  lemma {:induction false} LessTransitive(a: string, b: string, c: string)
    requires Less(a, b) && Less(b, c)
    ensures Less(a, c)
  {
    if a != "" && a[0] == b[0] && b[0] == c[0] {
      LessTransitive(a[1..], b[1..], c[1..]);
    }
  }

  lemma {:induction false} LessTotal(a: string, b: string)
    ensures Less(a, b) || a == b || Less(b, a)
    ensures !(Less(a, b) && (a == b || Less(b, a)))
    ensures !Less(a, a)
  {
    if a != "" && b != "" {
      LessTotal(a[1..], b[1..]);
      LessTotal(a[1..], a[1..]);
      if a[0] == b[0] && a[1..] == b[1..] {
        assert a == [a[0]] + a[1..] && b == [b[0]] + b[1..];
      }
    } else if a != "" {
      LessTotal(a[1..], a[1..]);
    }
  }

  /** A shared directory prefix does not change the order. */
  lemma {:induction false} LessUnderPrefix(root: string, a: string, b: string)
    ensures Less(root + a, root + b) == Less(a, b)
  {
    if root == "" {
      assert root + a == a && root + b == b;
    } else {
      assert (root + a)[1..] == root[1..] + a && (root + b)[1..] == root[1..] + b;
      LessUnderPrefix(root[1..], a, b);
    }
  }

  predicate OccursAt(hay: string, needle: string, i: int)
  {
    0 <= i && i + |needle| <= |hay| && hay[i..i + |needle|] == needle
  }

  predicate Contains(hay: string, needle: string)
  {
    exists i :: 0 <= i <= |hay| && OccursAt(hay, needle, i)
  }

  lemma ContainsWithin(before: string, v: string, after: string, needle: string)
    requires Contains(v, needle)
    ensures Contains(before + v + after, needle)
  {
    var i :| 0 <= i <= |v| && OccursAt(v, needle, i);
    var hay := before + v + after;
    assert hay[|before|..|before| + |v|] == v;
    assert hay[|before| + i..|before| + i + |needle|] == v[i..i + |needle|];
    assert OccursAt(hay, needle, |before| + i);
  }

  predicate HasPrefix(s: string, p: string) { |p| <= |s| && s[..|p|] == p }

  predicate HasSuffix(s: string, p: string) { |p| <= |s| && s[|s| - |p|..] == p }

  function TrimPrefix(s: string, p: string): string { if HasPrefix(s, p) then s[|p|..] else s }

  function TrimSuffix(s: string, p: string): string { if HasSuffix(s, p) then s[..|s| - |p|] else s }

  // ---- splitting ---------------------------------------------------------------------------------------------------

  /** strings.Split on one separator character. */
  function Split(s: string, sep: char): (parts: seq<string>)
    ensures |parts| > 0
  {
    if s == "" then [""]
    else
      var rest := Split(s[1..], sep);
      if s[0] == sep then [""] + rest else [[s[0]] + rest[0]] + rest[1..]
  }

  /** The inverse of Split. */
  function Join(parts: seq<string>, sep: char): string
  {
    if parts == [] then "" else if |parts| == 1 then parts[0] else parts[0] + [sep] + Join(parts[1..], sep)
  }

  lemma {:induction false} SplitNoSeparator(s: string, sep: char)
    requires sep !in s
    ensures Split(s, sep) == [s]
  {
    if s != "" {
      SplitNoSeparator(s[1..], sep);
      assert s == [s[0]] + s[1..] && Split(s, sep) == [[s[0]] + s[1..]] + [];
    }
  }

  lemma {:induction false} SplitAtSeparator(s: string, sep: char, rest: string)
    requires sep !in s
    ensures Split(s + [sep] + rest, sep) == [s] + Split(rest, sep)
  {
    var whole := s + [sep] + rest;
    if s == "" {
      assert whole == [sep] + rest && whole[1..] == rest;
    } else {
      assert whole[1..] == s[1..] + [sep] + rest;
      SplitAtSeparator(s[1..], sep, rest);
      var inner := [s[1..]] + Split(rest, sep);
      assert Split(whole[1..], sep) == inner && inner[1..] == Split(rest, sep);
      assert Split(whole, sep) == [[s[0]] + s[1..]] + Split(rest, sep) && [s[0]] + s[1..] == s;
    }
  }

  /** The part of s before the first c, or all of it. */
  function Before(s: string, c: char): string
  {
    if s == "" || s[0] == c then "" else [s[0]] + Before(s[1..], c)
  }

  /** unicode.IsSpace. */
  predicate IsSpace(c: char)
  {
    || c == '\t' || c == '\n' || c == '\U{0B}' || c == '\U{0C}' || c == '\r' || c == ' ' || c == '\U{85}' || c == '\U{A0}'
    || c == '\U{1680}' || '\U{2000}' <= c <= '\U{200A}' || c == '\U{2028}' || c == '\U{2029}' || c == '\U{202F}'
    || c == '\U{205F}' || c == '\U{3000}'
  }

  function TrimLeft(s: string): string
  {
    if s != "" && IsSpace(s[0]) then TrimLeft(s[1..]) else s
  }

  function TrimRight(s: string): string
  {
    if s != "" && IsSpace(s[|s| - 1]) then TrimRight(s[..|s| - 1]) else s
  }

  function TrimSpace(s: string): string { TrimRight(TrimLeft(s)) }

  predicate Distinct(s: seq<string>) { forall i, j :: 0 <= i < j < |s| ==> s[i] != s[j] }

  // ---- paths -------------------------------------------------------------------------------------------------------

  type Path = string

  /** The directory of a VM under the root's vms directory. */
  function VMDir(vms: Path, name: string): Path { vms + "/" + name }

  function AfterLastSlash(s: string): string
  {
    if '/' !in s then s else AfterLastSlash(s[1..])
  }

  function StripSlashes(s: string): string
  {
    if s != "" && s[|s| - 1] == '/' then StripSlashes(s[..|s| - 1]) else s
  }

  /** filepath.Base. */
  function Base(path: string): string
  {
    if path == "" then "."
    else if StripSlashes(path) == "" then "/"
    else AfterLastSlash(StripSlashes(path))
  }

  lemma {:induction false} AfterLastSlashOfFile(dir: string, file: string)
    requires '/' !in file
    ensures AfterLastSlash(dir + "/" + file) == file
  {
    var p := dir + "/" + file;
    assert p[|dir|] == '/';
    if dir == "" {
      assert p[1..] == file;
    } else {
      assert p[1..] == dir[1..] + "/" + file;
      AfterLastSlashOfFile(dir[1..], file);
    }
  }

  lemma BaseOfFile(dir: string, file: string)
    requires '/' !in file && file != ""
    ensures Base(dir + "/" + file) == file
  {
    var p := dir + "/" + file;
    assert p[|p| - 1] == file[|file| - 1];
    AfterLastSlashOfFile(dir, file);
  }

  // ---- numbers -----------------------------------------------------------------------------------------------------

  /** The decimal digits of n, as %d prints them. */
  function Decimal(n: nat): string
  {
    if n < 10 then [Digit(n)] else Decimal(n / 10) + [Digit(n % 10)]
  }

  function Digit(d: nat): char
    requires d < 10
  {
    ('0' as int + d) as char
  }

  predicate IsDigit(c: char) { '0' <= c <= '9' }

  function Value(s: string): int
  {
    if s == "" then 0 else 10 * Value(s[..|s| - 1]) + (s[|s| - 1] as int - '0' as int)
  }

  lemma {:induction false} DecimalReadsBack(n: nat)
    ensures Value(Decimal(n)) == n && Decimal(n) != "" && forall i :: 0 <= i < |Decimal(n)| ==> IsDigit(Decimal(n)[i])
  {
    if n >= 10 {
      DecimalReadsBack(n / 10);
      assert Decimal(n)[..|Decimal(n)| - 1] == Decimal(n / 10);
    } else {
      assert Decimal(n)[..0] == "";
    }
  }

  lemma DecimalInjective(m: nat, n: nat)
    requires Decimal(m) == Decimal(n)
    ensures m == n
  {
    DecimalReadsBack(m);
    DecimalReadsBack(n);
  }
}
