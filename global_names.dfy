/**
 * Text processing of the model loader: picking the dotted names of disallowed
 * globals out of a deserialization error message, and splitting a dotted name
 * into a module path and an attribute.
 */
module GlobalNames {
  import opened Wrappers

  /** The literal text that precedes the captured name in the loader's pattern. */
  const Prefix: string := "Unsupported global: GLOBAL "

  /** The literal text that follows the captured name in the loader's pattern. */
  const Suffix: string := " was not an allowed global"

  /** The regular-expression class `\w`, restricted to ASCII. */
  predicate IsWordChar(c: char) {
    ('a' <= c <= 'z') || ('A' <= c <= 'Z') || ('0' <= c <= '9') || c == '_'
  }

  /** The character class `[\w\.]` of the captured group. */
  predicate IsNameChar(c: char) {
    IsWordChar(c) || c == '.'
  }

  /** A string the group `([\w\.]+)` can capture. */
  predicate IsDottedName(s: string) {
    |s| > 0 && forall k :: 0 <= k < |s| ==> IsNameChar(s[k])
  }

  /** The error text that reports `name` as a disallowed global. */
  function Report(name: string): string {
    Prefix + name + Suffix
  }

  /** `lit` occurs in `msg` at position `i`. */
  predicate HasAt(msg: string, i: nat, lit: string) {
    i + |lit| <= |msg| && msg[i..i + |lit|] == lit
  }

  /** `msg` reports `name` at position `p`. */
  ghost predicate ReportedAt(msg: string, p: nat, name: string) {
    HasAt(msg, p, Report(name))
  }

  /** `msg` reports `name` somewhere. */
  ghost predicate Reported(msg: string, name: string) {
    exists p: nat :: ReportedAt(msg, p, name)
  }

  /** Length of the longest run of name characters starting at `i` (greedy `[\w\.]+`). */
  function NameRun(msg: string, i: nat): (n: nat)
    requires i <= |msg|
    ensures i + n <= |msg|
    ensures forall k :: i <= k < i + n ==> IsNameChar(msg[k])
    ensures i + n < |msg| ==> !IsNameChar(msg[i + n])
    decreases |msg| - i
  {
    if i < |msg| && IsNameChar(msg[i]) then 1 + NameRun(msg, i + 1) else 0
  }

  /**
   * The pattern tried at position `i`: the captured name and the position just
   * after the match. Since the suffix starts with a space, which is not a name
   * character, the greedy group never has to give characters back.
   */
  function MatchAt(msg: string, i: nat): Option<(string, nat)>
    requires i <= |msg|
  {
    if !HasAt(msg, i, Prefix) then None
    else
      var j := i + |Prefix|;
      var n := NameRun(msg, j);
      if n > 0 && HasAt(msg, j + n, Suffix) then Some((msg[j..j + n], j + n + |Suffix|))
      else None
  }

  /** A match captures a dotted name that the message reports right there, and resumes after the report. */
  lemma MatchAtSound(msg: string, i: nat)
    requires i <= |msg|
    ensures var m := MatchAt(msg, i);
      m.Some? ==> IsDottedName(m.value.0) && ReportedAt(msg, i, m.value.0) && m.value.1 == i + |Report(m.value.0)| <= |msg|
  {
    if MatchAt(msg, i).Some? {
      var j := i + |Prefix|;
      var name := msg[j..j + NameRun(msg, j)];
      HasAtJoin(msg, i, Prefix, name);
      HasAtJoin(msg, i, Prefix + name, Suffix);
    }
  }

  /** `re.findall` of the pattern over `msg[i..]`: matches do not overlap and are taken left to right. */
  function FindAllFrom(msg: string, i: nat): seq<string>
    requires i <= |msg|
    decreases |msg| - i
  {
    if i == |msg| then []
    else
      match MatchAt(msg, i)
      case Some((name, next)) => [name] + FindAllFrom(msg, next)
      case None => FindAllFrom(msg, i + 1)
  }

  /** Every name the loader's pattern extracts from an error message. */
  function FindAll(msg: string): seq<string> {
    FindAllFrom(msg, 0)
  }

  /** Every name found from position `i` on is a dotted name that the message reports. */
  lemma {:induction false} FindAllFromSound(msg: string, i: nat)
    requires i <= |msg|
    ensures forall k :: 0 <= k < |FindAllFrom(msg, i)| ==>
      IsDottedName(FindAllFrom(msg, i)[k]) && Reported(msg, FindAllFrom(msg, i)[k])
    decreases |msg| - i
  {
    if i < |msg| {
      var m := MatchAt(msg, i);
      if m.Some? {
        MatchAtSound(msg, i);
        FindAllFromSound(msg, m.value.1);
        assert FindAllFrom(msg, i) == [m.value.0] + FindAllFrom(msg, m.value.1);
      } else {
        FindAllFromSound(msg, i + 1);
        assert FindAllFrom(msg, i) == FindAllFrom(msg, i + 1);
      }
    }
  }

  /** Every extracted name is a dotted name that the message reports. */
  lemma FindAllSound(msg: string)
    ensures forall k :: 0 <= k < |FindAll(msg)| ==> IsDottedName(FindAll(msg)[k]) && Reported(msg, FindAll(msg)[k])
  {
    FindAllFromSound(msg, 0);
    assert FindAll(msg) == FindAllFrom(msg, 0);
  }

  /** An occurrence of `x + y` is an occurrence of `x` followed by one of `y`. */
  lemma HasAtSplit(msg: string, i: nat, x: string, y: string)
    requires HasAt(msg, i, x + y)
    ensures HasAt(msg, i, x) && HasAt(msg, i + |x|, y)
  {
    var s := msg[i..i + |x| + |y|];
    assert msg[i..i + |x|] == s[..|x|] == x;
    assert msg[i + |x|..i + |x| + |y|] == s[|x|..] == y;
  }

  /** An occurrence of `x` followed by one of `y` is an occurrence of `x + y`. */
  lemma HasAtJoin(msg: string, i: nat, x: string, y: string)
    requires HasAt(msg, i, x) && HasAt(msg, i + |x|, y)
    ensures HasAt(msg, i, x + y)
  {
    assert msg[i..i + |x| + |y|] == msg[i..i + |x|] + msg[i + |x|..i + |x| + |y|];
  }

  /** Each character of an occurrence is the literal's. */
  lemma HasAtChar(msg: string, i: nat, lit: string, d: nat)
    requires HasAt(msg, i, lit) && d < |lit|
    ensures i + d < |msg| && msg[i + d] == lit[d]
  {
    assert msg[i..i + |lit|][d] == msg[i + d];
  }

  /** One differing character rules an occurrence out. */
  lemma DiffersAt(msg: string, i: nat, lit: string, d: nat)
    requires d < |lit| && (i + d < |msg| ==> msg[i + d] != lit[d])
    ensures !HasAt(msg, i, lit)
  {
    if i + |lit| <= |msg| {
      assert msg[i..i + |lit|][d] == msg[i + d];
    }
  }

  /** A report at `i` is the prefix, then the name, then the suffix. */
  lemma ReportParts(msg: string, i: nat, name: string)
    requires ReportedAt(msg, i, name)
    ensures HasAt(msg, i, Prefix)
    ensures HasAt(msg, i + |Prefix|, name)
    ensures HasAt(msg, i + |Prefix| + |name|, Suffix)
  {
    HasAtSplit(msg, i, Prefix + name, Suffix);
    HasAtSplit(msg, i, Prefix, name);
  }

  /** The pattern matches at every position where a well-formed report starts. */
  lemma MatchAtReport(msg: string, i: nat, name: string)
    requires IsDottedName(name) && ReportedAt(msg, i, name)
    ensures MatchAt(msg, i) == Some((name, i + |Report(name)|))
  {
    var j := i + |Prefix|;
    ReportParts(msg, i, name);
    forall k | j <= k < j + |name|
      ensures IsNameChar(msg[k])
    {
      HasAtChar(msg, j, name, k - j);
    }
    HasAtChar(msg, j + |name|, Suffix, 0);
    NameRunIs(msg, j, |name|);
  }

  /** The greedy run after the prefix is exactly the reported name. */
  lemma {:induction false} NameRunIs(msg: string, i: nat, n: nat)
    requires i + n < |msg|
    requires forall k :: i <= k < i + n ==> IsNameChar(msg[k])
    requires !IsNameChar(msg[i + n])
    ensures NameRun(msg, i) == n
    decreases n
  {
    if n > 0 {
      NameRunIs(msg, i + 1, n - 1);
    }
  }

  /** Reading back a single report yields exactly the name it reports. */
  lemma FindAllReport(name: string)
    requires IsDottedName(name)
    ensures FindAll(Report(name)) == [name]
  {
    var msg := Report(name);
    assert ReportedAt(msg, 0, name);
    MatchAtReport(msg, 0, name);
    assert FindAllFrom(msg, |msg|) == [];
    assert FindAllFrom(msg, 0) == [name] + FindAllFrom(msg, |msg|);
  }

  /** The prefix's first letter occurs nowhere else in the prefix. */
  lemma PrefixHeadUnique()
    ensures forall d :: 0 < d < |Prefix| ==> Prefix[d] != Prefix[0]
  {
  }

  /** The prefix's first letter occurs nowhere in the suffix. */
  lemma PrefixHeadNotInSuffix()
    ensures forall d :: 0 <= d < |Suffix| ==> Suffix[d] != Prefix[0]
  {
  }

  /** The suffix's leading space occurs in the prefix only after its first word. */
  lemma PrefixFirstWord()
    ensures forall d :: 0 <= d < 11 ==> Prefix[d] != Suffix[0]
  {
  }

  /** No position strictly inside an occurrence of the prefix starts another one. */
  lemma NoPrefixInPrefix(msg: string, i: nat, k: nat)
    requires HasAt(msg, i, Prefix) && i < k < i + |Prefix|
    ensures !HasAt(msg, k, Prefix)
  {
    PrefixHeadUnique();
    HasAtChar(msg, i, Prefix, k - i);
    DiffersAt(msg, k, Prefix, 0);
  }

  /** No position inside an occurrence of the suffix starts the prefix. */
  lemma NoPrefixInSuffix(msg: string, q: nat, k: nat)
    requires HasAt(msg, q, Suffix) && q <= k < q + |Suffix|
    ensures !HasAt(msg, k, Prefix)
  {
    PrefixHeadNotInSuffix();
    HasAtChar(msg, q, Suffix, k - q);
    DiffersAt(msg, k, Prefix, 0);
  }

  /**
   * No position inside a run of name characters that the suffix ends starts
   * the prefix: the prefix's first word would have to be followed by the
   * suffix, whose second letter differs from the prefix's.
   */
  lemma NoPrefixInName(msg: string, j: nat, q: nat, k: nat)
    requires j <= k < q && HasAt(msg, q, Suffix)
    requires forall m :: j <= m < q ==> IsNameChar(msg[m])
    ensures !HasAt(msg, k, Prefix)
  {
    if k + 11 < q {
      assert !IsNameChar(Prefix[11]);
      DiffersAt(msg, k, Prefix, 11);
    } else if k + 11 == q {
      assert Suffix[1] != Prefix[12];
      HasAtChar(msg, q, Suffix, 1);
      DiffersAt(msg, k, Prefix, 12);
    } else {
      PrefixFirstWord();
      HasAtChar(msg, q, Suffix, 0);
      DiffersAt(msg, k, Prefix, q - k);
    }
  }

  /**
   * No position strictly inside a match starts the prefix, so a match never
   * swallows the start of a later report.
   */
  lemma NoPrefixInsideMatch(msg: string, i: nat, k: nat)
    requires i <= |msg| && MatchAt(msg, i).Some?
    requires i < k < MatchAt(msg, i).value.1
    ensures !HasAt(msg, k, Prefix)
  {
    var j := i + |Prefix|;
    var q := j + NameRun(msg, j);
    assert HasAt(msg, i, Prefix) && HasAt(msg, q, Suffix) && MatchAt(msg, i).value.1 == q + |Suffix|;
    if k < j {
      NoPrefixInPrefix(msg, i, k);
    } else if k < q {
      NoPrefixInName(msg, j, q, k);
    } else {
      NoPrefixInSuffix(msg, q, k);
    }
  }

  /** A match that starts before a report ends no later than the report starts. */
  lemma MatchEndsBeforeReport(msg: string, i: nat, p: nat)
    requires i < p && HasAt(msg, p, Prefix)
    requires MatchAt(msg, i).Some?
    ensures MatchAt(msg, i).value.1 <= p
  {
    if p < MatchAt(msg, i).value.1 {
      NoPrefixInsideMatch(msg, i, p);
      assert false;
    }
  }

  /** A report at `p` is found by a search that starts at or before `p`. */
  lemma {:induction false} FindAllFromComplete(msg: string, i: nat, p: nat, name: string)
    requires i <= p && IsDottedName(name) && ReportedAt(msg, p, name)
    ensures i <= |msg| && name in FindAllFrom(msg, i)
    decreases p - i
  {
    if i == p {
      MatchAtReport(msg, p, name);
      assert FindAllFrom(msg, p) == [name] + FindAllFrom(msg, p + |Report(name)|);
    } else {
      ReportParts(msg, p, name);
      match MatchAt(msg, i)
      case None =>
        FindAllFromComplete(msg, i + 1, p, name);
        assert FindAllFrom(msg, i) == FindAllFrom(msg, i + 1);
      case Some((found, next)) =>
        MatchAtSound(msg, i);
        MatchEndsBeforeReport(msg, i, p);
        FindAllFromComplete(msg, next, p, name);
        assert FindAllFrom(msg, i) == [found] + FindAllFrom(msg, next);
    }
  }

  /** The extracted names are exactly the dotted names the message reports. */
  lemma FindAllExact(msg: string, name: string)
    requires IsDottedName(name)
    ensures name in FindAll(msg) <==> Reported(msg, name)
  {
    FindAllSound(msg);
    if Reported(msg, name) {
      var p: nat :| ReportedAt(msg, p, name);
      FindAllFromComplete(msg, 0, p, name);
    }
  }

  /** A message that never mentions the prefix yields no names. */
  lemma FindAllWithoutPrefix(msg: string, i: nat)
    requires i <= |msg|
    requires forall p: nat :: i <= p ==> !HasAt(msg, p, Prefix)
    ensures FindAllFrom(msg, i) == []
    decreases |msg| - i
  {
    if i < |msg| {
      FindAllWithoutPrefix(msg, i + 1);
    }
  }

  /** Index of the last occurrence of `c` in `s`. */
  function LastIndexOf(s: string, c: char): (r: Option<nat>)
    ensures r.None? <==> c !in s
    ensures r.Some? ==> r.value < |s| && s[r.value] == c && c !in s[r.value + 1..]
  {
    if |s| == 0 then None
    else if s[|s| - 1] == c then Some(|s| - 1)
    else
      var r := LastIndexOf(s[..|s| - 1], c);
      assert s == s[..|s| - 1] + [s[|s| - 1]];
      if r.Some? then
        assert s[r.value + 1..] == s[..|s| - 1][r.value + 1..] + [s[|s| - 1]];
        r
      else r
  }

  /**
   * `name.rsplit(".", 1)` unpacked into a module path and an attribute; None
   * where the unpacking raises ValueError, that is when there is no dot.
   */
  function SplitModuleAttr(name: string): (r: Option<(string, string)>)
    ensures r.None? <==> '.' !in name
    ensures r.Some? ==> name == r.value.0 + "." + r.value.1 && '.' !in r.value.1
  {
    match LastIndexOf(name, '.')
    case None => None
    case Some(k) =>
      assert name == name[..k] + "." + name[k + 1..];
      Some((name[..k], name[k + 1..]))
  }

  /** Splitting inverts joining: the module path is everything before the last dot. */
  lemma SplitJoin(modulePath: string, attr: string)
    requires '.' !in attr
    ensures SplitModuleAttr(modulePath + "." + attr) == Some((modulePath, attr))
  {
    var name := modulePath + "." + attr;
    var k := LastIndexOf(name, '.').value;
    assert name[|modulePath|] == '.';
    assert k == |modulePath|;
    assert name[..k] == modulePath;
    assert name[k + 1..] == attr;
  }
}
