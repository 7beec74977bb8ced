/** Scope paths of the interpreter's vault (interpreter/src/interpreter/mod.rs): a prefix,
    the separator `.$` and a block number, as in `global.$0` or `global.Foo.$2`. A path is
    read back by splitting at its last `.$` and parsing the rest the way Rust's
    `str::parse::<usize>` does, on a 64-bit target. */
module ScopePaths {
  import opened Wrappers

  /** One past the largest `usize` of a 64-bit target. */
  const USizeLimit: nat := 0x1_0000_0000_0000_0000

  predicate IsDigit(c: char) {
    '0' <= c <= '9'
  }

  predicate AllDigits(s: string) {
    forall i | 0 <= i < |s| :: IsDigit(s[i])
  }

  function DigitValue(c: char): nat
    requires IsDigit(c)
  {
    c as int - '0' as int
  }

  function DigitChar(d: nat): (c: char)
    requires d < 10
    ensures IsDigit(c) && DigitValue(c) == d
  {
    ('0' as int + d) as char
  }

  /** The number a run of decimal digits denotes. */
  function DigitsValue(s: string): nat
    requires AllDigits(s)
    decreases |s|
  {
    if s == [] then 0 else DigitsValue(s[..|s| - 1]) * 10 + DigitValue(s[|s| - 1])
  }

  /** The decimal text of `n`, as `format!("{}", n)` writes it. */
  function NatToString(n: nat): (r: string)
    ensures |r| > 0 && AllDigits(r)
    decreases n
  {
    if n < 10 then [DigitChar(n)] else NatToString(n / 10) + [DigitChar(n % 10)]
  }

  /** The decimal text reads back as the number. */
  lemma {:induction false} NatToStringValue(n: nat)
    ensures DigitsValue(NatToString(n)) == n
    decreases n
  {
    if n >= 10 {
      var r := NatToString(n);
      assert r[..|r| - 1] == NatToString(n / 10);
      NatToStringValue(n / 10);
    }
  }

  /** `str::parse::<usize>`: an optional `+`, then at least one decimal digit and nothing
      else, denoting a number below 2^64. */
  function ParseUsize(t: string): (r: Option<nat>)
    ensures r.Some? ==> r.value < USizeLimit
  {
    if t == [] then None
    else
      var body := if t[0] == '+' then t[1..] else t;
      if body == [] || !AllDigits(body) then None
      else if DigitsValue(body) < USizeLimit then Some(DigitsValue(body))
      else None
  }

  /** The number's own text parses back to it, and so does that text after a `+`. */
  lemma ParseUsizeRoundTrip(n: nat)
    requires n < USizeLimit
    ensures ParseUsize(NatToString(n)) == Some(n)
    ensures ParseUsize("+" + NatToString(n)) == Some(n)
  {
    NatToStringValue(n);
    var d := NatToString(n);
    assert IsDigit(d[0]);
    assert ("+" + d)[1..] == d;
  }

  /** Empty text, a lone sign and text with anything but digits do not parse. */
  lemma ParseUsizeRejects(t: string)
    ensures t == [] ==> ParseUsize(t) == None
    ensures t == "+" ==> ParseUsize(t) == None
    ensures t != [] && t[0] != '+' && !AllDigits(t) ==> ParseUsize(t) == None
  {
    if t == "+" {
      assert t[1..] == [];
    }
  }

  /** The start of the last `.$` that ends at or before `i`. */
  function LastSeparator(s: string, i: nat): (r: Option<nat>)
    requires i <= |s|
    ensures r.Some? ==> r.value + 2 <= i && s[r.value] == '.' && s[r.value + 1] == '$'
    ensures r.Some? ==> forall j | r.value < j && j + 2 <= i :: !(s[j] == '.' && s[j + 1] == '$')
    ensures r.None? ==> forall j | 0 <= j && j + 2 <= i :: !(s[j] == '.' && s[j + 1] == '$')
    decreases i
  {
    if i < 2 then None
    else if s[i - 2] == '.' && s[i - 1] == '$' then Some(i - 2)
    else LastSeparator(s, i - 1)
  }

  /** `rsplit_once(".$")`: the text before and after the last separator. */
  function SplitScope(s: string): Option<(string, string)> {
    match LastSeparator(s, |s|)
    case None => None
    case Some(i) => Some((s[..i], s[i + 2..]))
  }

  /** A path read back: its prefix and block number, or why it does not read back (no
      separator, or a number that does not parse). */
  datatype ParsedPath = Parsed(prefix: string, number: nat) | NoSeparator | BadNumber

  /** `parse_current_scope` on a path. */
  function ParseScope(path: string): ParsedPath {
    match SplitScope(path)
    case None => NoSeparator
    case Some((prefix, number)) =>
      match ParseUsize(number)
      case None => BadNumber
      case Some(n) => Parsed(prefix, n)
  }

  /** The path of block `n` under `prefix`. */
  function BlockPath(prefix: string, n: nat): string {
    prefix + ".$" + NatToString(n)
  }

  /** The path of the named scope `name` entered from a path with prefix `prefix`: the
      enclosing block number is dropped. */
  function NamedPath(prefix: string, name: string): string {
    prefix + "." + name + ".$0"
  }

  /** A named path is block 0 under the prefix extended by the name. */
  lemma NamedIsBlockZero(prefix: string, name: string)
    ensures NamedPath(prefix, name) == BlockPath(prefix + "." + name, 0)
  {
  }

  lemma {:induction false} SeparatorBeforeDigits(a: string, d: string, i: nat)
    requires AllDigits(d) && |a| + 2 <= i <= |a + ".$" + d|
    ensures LastSeparator(a + ".$" + d, i) == Some(|a|)
    decreases i
  {
    var s := a + ".$" + d;
    if i > |a| + 2 {
      assert IsDigit(s[i - 1]) && IsDigit(d[i - 1 - |a| - 2]);
      assert s[i - 1] != '$';
      SeparatorBeforeDigits(a, d, i - 1);
    }
  }

  /** A block path reads back as its prefix and number, whatever the prefix holds. */
  lemma ParseBlockPath(prefix: string, n: nat)
    requires n < USizeLimit
    ensures ParseScope(BlockPath(prefix, n)) == Parsed(prefix, n)
  {
    var s := BlockPath(prefix, n);
    SeparatorBeforeDigits(prefix, NatToString(n), |s|);
    assert s[..|prefix|] == prefix;
    assert s[|prefix| + 2..] == NatToString(n);
    ParseUsizeRoundTrip(n);
  }

  /** Every path that reads back is its prefix, the separator and a number's text. */
  lemma ParsedPathShape(path: string)
    requires ParseScope(path).Parsed?
    ensures var prefix := ParseScope(path).prefix;
            |prefix| + 2 <= |path| && path == prefix + ".$" + path[|prefix| + 2..]
            && ParseUsize(path[|prefix| + 2..]) == Some(ParseScope(path).number)
  {
    var i := LastSeparator(path, |path|).value;
    assert path == path[..i] + ".$" + path[i + 2..];
  }

  /** Different numbers give different block paths under one prefix. */
  lemma BlockPathsDistinct(prefix: string, n: nat, m: nat)
    requires n != m
    ensures BlockPath(prefix, n) != BlockPath(prefix, m)
  {
    if BlockPath(prefix, n) == BlockPath(prefix, m) {
      var k := |prefix| + 2;
      assert BlockPath(prefix, n)[k..] == NatToString(n);
      assert BlockPath(prefix, m)[k..] == NatToString(m);
      NatToStringValue(n);
      NatToStringValue(m);
    }
  }

  /** Every character of a number's text that parses is a digit or its leading sign. */
  lemma ParsedTextChars(t: string, j: nat)
    requires ParseUsize(t).Some? && j < |t|
    ensures t[j] == '+' || IsDigit(t[j])
  {
    if t[0] == '+' && j > 0 {
      assert t[j] == t[1..][j - 1];
    }
  }

  /** A named path is never the path it is entered from: whatever the name, the named
      scope never lands on the record of the scope that enters it. */
  lemma NamedNotParsed(path: string, name: string)
    requires ParseScope(path).Parsed?
    ensures NamedPath(ParseScope(path).prefix, name) != path
  {
    var prefix := ParseScope(path).prefix;
    ParsedPathShape(path);
    var t := path[|prefix| + 2..];
    var a := NamedPath(prefix, name);
    var k := |prefix| + 1 + |name|;
    assert a[k] == '.';
    if name == [] {
      assert path[|prefix| + 1] == '$';
    } else if k < |path| {
      assert path[k] == t[k - |prefix| - 2];
      ParsedTextChars(t, k - |prefix| - 2);
    }
  }
}
