/**
 * The string and path functions the export code relies on, given simple
 * definitions of their own:
 * - `PathExtension(s)` is the text after the last '.', or "" when s has no '.';
 * - `DeletingPathExtension(s)` is the text before the last '.', or s itself;
 * - `Join(folder, name)` is `folder + "/" + name` (`appendingPathComponent`);
 * - `Lowercased` maps the ASCII letters A-Z to a-z and keeps every other character;
 * - `NatToString` is the decimal form of a number, as string interpolation writes it.
 */
module Paths {
  import opened Wrappers

  type Path = string

  /** The index of the last occurrence of c in s. */
  function LastIndexOf(s: string, c: char): (r: Option<nat>)
    ensures r.Some? ==> r.value < |s| && s[r.value] == c
    ensures r.Some? ==> forall j :: r.value < j < |s| ==> s[j] != c
    ensures r.None? <==> c !in s
    decreases |s|
  {
    if |s| == 0 then None
    else if s[|s| - 1] == c then Some(|s| - 1)
    else LastIndexOf(s[..|s| - 1], c)
  }

  /** The index of the first occurrence of c in s. */
  function FirstIndexOf(s: string, c: char): (r: Option<nat>)
    ensures r.Some? ==> r.value < |s| && s[r.value] == c
    ensures r.Some? ==> c !in s[..r.value]
    ensures r.None? <==> c !in s
    decreases |s|
  {
    if |s| == 0 then None
    else if s[0] == c then Some(0)
    else match FirstIndexOf(s[1..], c)
      case None => None
      case Some(i) => Some(i + 1)
  }

  /** `(s as NSString).pathExtension`: the text after the last '.'. */
  function PathExtension(s: string): (r: string)
    ensures '.' !in r
    ensures '.' !in s ==> r == ""
  {
    match LastIndexOf(s, '.')
    case None => ""
    case Some(i) => s[i + 1..]
  }

  /** `(s as NSString).deletingPathExtension`: the text before the last '.'. */
  function DeletingPathExtension(s: string): (r: string)
    ensures '.' !in s ==> r == s
    ensures |r| <= |s|
  {
    match LastIndexOf(s, '.')
    case None => s
    case Some(i) => s[..i]
  }

  /** A name with a '.' is its title, a '.', and its extension. */
  lemma SplitAtExtension(s: string)
    requires '.' in s
    ensures DeletingPathExtension(s) + "." + PathExtension(s) == s
  {
    var i := LastIndexOf(s, '.').value;
    assert s == s[..i] + "." + s[i + 1..];
  }

  /** Appending "." and an extension without a dot is undone by the two functions above. */
  lemma {:induction false} AppendedExtension(title: string, ext: string)
    requires '.' !in ext
    ensures PathExtension(title + "." + ext) == ext
    ensures DeletingPathExtension(title + "." + ext) == title
  {
    var s := title + "." + ext;
    assert s[|title|] == '.';
    assert forall j :: |title| < j < |s| ==> s[j] == ext[j - |title| - 1];
    var i := LastIndexOf(s, '.').value;
    assert i == |title|;
    assert s[i + 1..] == ext;
    assert s[..i] == title;
  }

  function LowerChar(c: char): char {
    if 'A' <= c <= 'Z' then (c as int + 32) as char else c
  }

  /** `lowercased()` over ASCII letters. */
  function Lowercased(s: string): (r: string)
    ensures |r| == |s|
    ensures forall i :: 0 <= i < |r| ==> !('A' <= r[i] <= 'Z')
    ensures forall i :: 0 <= i < |s| ==> (r[i] == '.' <==> s[i] == '.')
  {
    seq(|s|, i requires 0 <= i < |s| => LowerChar(s[i]))
  }

  /** Lower-casing twice is lower-casing once. */
  lemma LowercasedIdempotent(s: string)
    ensures Lowercased(Lowercased(s)) == Lowercased(s)
  {
    var l := Lowercased(s);
    assert forall i :: 0 <= i < |l| ==> LowerChar(l[i]) == l[i];
  }

  predicate IsDigit(c: char) {
    '0' as int <= c as int <= '9' as int
  }

  function DigitChar(d: nat): (c: char)
    requires d < 10
    ensures IsDigit(c)
  {
    ('0' as int + d) as char
  }

  /** The decimal form of n, as `"\(n)"` writes it. */
  function NatToString(n: nat): (r: string)
    ensures |r| >= 1
    ensures forall i :: 0 <= i < |r| ==> IsDigit(r[i])
    decreases n
  {
    if n < 10 then [DigitChar(n)] else NatToString(n / 10) + [DigitChar(n % 10)]
  }

  /** Reads a decimal numeral back; the partner of NatToString. */
  function ParseNat(s: string): nat
    requires forall i :: 0 <= i < |s| ==> IsDigit(s[i])
    decreases |s|
  {
    if |s| == 0 then 0
    else
      assert IsDigit(s[|s| - 1]);
      ParseNat(s[..|s| - 1]) * 10 + (s[|s| - 1] as int - '0' as int)
  }

  lemma {:induction false} ParseNatToString(n: nat)
    ensures ParseNat(NatToString(n)) == n
    decreases n
  {
    if n >= 10 {
      ParseNatToString(n / 10);
      var s := NatToString(n);
      assert s[..|s| - 1] == NatToString(n / 10);
    }
  }

  /** Different numbers have different decimal forms. */
  lemma NatToStringInjective(m: nat, n: nat)
    requires NatToString(m) == NatToString(n)
    ensures m == n
  {
    ParseNatToString(m);
    ParseNatToString(n);
  }

  /** `folder.appendingPathComponent(name)`. */
  function Join(folder: Path, name: string): (r: Path)
    ensures |r| == |folder| + 1 + |name|
  {
    folder + "/" + name
  }

  lemma JoinInjective(folder: Path, a: string, b: string)
    requires Join(folder, a) == Join(folder, b)
    ensures a == b
  {
    assert a == Join(folder, a)[|folder| + 1..];
    assert b == Join(folder, b)[|folder| + 1..];
  }

  /** The name `"<title> - <index>.<ext>"` tried when a destination is taken. */
  function IndexedFilename(title: string, index: nat, ext: string): string {
    title + " - " + NatToString(index) + "." + ext
  }

  /** Each index gives its own name, so the probe never tries a name twice. */
  lemma IndexedFilenameInjective(title: string, i: nat, j: nat, ext: string)
    requires IndexedFilename(title, i, ext) == IndexedFilename(title, j, ext)
    ensures i == j
  {
    var p := title + " - ";
    var a, b := NatToString(i), NatToString(j);
    var s, t := IndexedFilename(title, i, ext), IndexedFilename(title, j, ext);
    assert |a| == |b|;
    assert a == s[|p|..|p| + |a|];
    assert b == t[|p|..|p| + |b|];
    NatToStringInjective(i, j);
  }
}
