/**
 * The one regular expression the settings use, `-(SEL)([tlbra])=(\d+)`, as a
 * hand-written scanner that finds its leftmost match in an argument, as
 * `Regex.Match` does. SEL is `p|a|1` for the primary screen and `s|a|N` for a
 * secondary screen whose enumeration index is N.
 */
module ArgPattern {
  import opened Wrappers

  predicate IsDigit(c: char) {
    '0' <= c <= '9'
  }

  predicate AllDigits(s: string) {
    forall k :: 0 <= k < |s| ==> IsDigit(s[k])
  }

  /** The character class `[tlbra]`. */
  predicate IsEdgeLetter(c: char) {
    c == 't' || c == 'l' || c == 'b' || c == 'r' || c == 'a'
  }

  /** The decimal value of a run of digits, as `int.Parse` reads it before range checks. */
  function DigitsValue(s: string): nat
    requires AllDigits(s)
  {
    if s == [] then 0
    else DigitsValue(s[..|s| - 1]) * 10 + (s[|s| - 1] as int - '0' as int)
  }

  /** `n.ToString()` for a non-negative `n`: its decimal digits, no leading zero. */
  function NatToString(n: nat): (s: string)
    ensures |s| > 0 && AllDigits(s)
    ensures DigitsValue(s) == n
    ensures |s| == 1 || s[0] != '0'
  {
    if n < 10 then [('0' as int + n) as char]
    else
      var init := NatToString(n / 10);
      var s := init + [('0' as int + n % 10) as char];
      assert s[..|s| - 1] == init;
      assert |init| == 1 ==> init[..0] == [];
      s
  }

  /** Which screens a pattern is built for. */
  datatype Selector = PrimaryScreen | SecondaryScreen(index: nat)

  /** The alternatives of the first group, in the order the pattern lists them. */
  function Alternatives(sel: Selector): seq<string> {
    match sel
    case PrimaryScreen => ["p", "a", "1"]
    case SecondaryScreen(i) => ["s", "a", NatToString(i)]
  }

  /**
   * One match of the pattern: where it starts, the text of its three groups
   * (selector, edge letter, digits).
   */
  datatype Match = Match(start: nat, selector: string, edge: char, digits: string)

  /** The whole text a match covers. */
  function MatchText(m: Match): string {
    "-" + m.selector + [m.edge] + "=" + m.digits
  }

  /** The length of the run of digits at position k (what a greedy `\d*` takes). */
  function DigitRun(s: string, k: nat): (n: nat)
    requires k <= |s|
    ensures k + n <= |s|
    ensures forall j :: k <= j < k + n ==> IsDigit(s[j])
    ensures k + n == |s| || !IsDigit(s[k + n])
    decreases |s| - k
  {
    if k < |s| && IsDigit(s[k]) then 1 + DigitRun(s, k + 1) else 0
  }

  /** `([tlbra])=(\d+)` at position k, for a match that starts at `start` with selector `sel`. */
  function TailAt(s: string, start: nat, sel: string, k: nat): Option<Match>
    requires k <= |s|
  {
    if k + 2 < |s| && IsEdgeLetter(s[k]) && s[k + 1] == '=' && IsDigit(s[k + 2]) then
      Some(Match(start, sel, s[k], s[k + 2..k + 2 + DigitRun(s, k + 2)]))
    else None
  }

  /**
   * `m` is a match of the pattern at i, whatever its selector: it starts
   * at i, its text lies in `s` from i on, its edge is one of `[tlbra]`, and
   * its digit run is non-empty and maximal.
   */
  predicate Shaped(s: string, i: nat, m: Match) {
    i <= |s| && m.start == i &&
    IsEdgeLetter(m.edge) && |m.digits| > 0 && AllDigits(m.digits) &&
    MatchText(m) <= s[i..] &&
    (i + |MatchText(m)| == |s| || !IsDigit(s[i + |MatchText(m)|]))
  }

  /**
   * The pattern matched at position i. A match found there has the shape
   * of the pattern with one of the screen's selector alternatives.
   */
  function MatchAt(s: string, i: nat, sel: Selector): (r: Option<Match>)
    requires i < |s|
    ensures r.Some? ==> r.value.selector in Alternatives(sel) && Shaped(s, i, r.value)
  {
    if s[i] == '-' then AltMatch(s, i, Alternatives(sel)) else None
  }

  /** The first alternative in `alts` that follows the dash at i and is followed by `([tlbra])=(\d+)`. */
  function AltMatch(s: string, i: nat, alts: seq<string>): (r: Option<Match>)
    requires i < |s| && s[i] == '-'
    ensures r.Some? ==> r.value.selector in alts && Shaped(s, i, r.value)
    decreases |alts|
  {
    if alts == [] then None
    else if alts[0] <= s[i + 1..] && TailAt(s, i, alts[0], i + 1 + |alts[0]|).Some? then
      TailMatchShape(s, i, alts[0]);
      TailAt(s, i, alts[0], i + 1 + |alts[0]|)
    else AltMatch(s, i, alts[1..])
  }

  /** The match TailAt finds after the dash at i and the selector `a` has the pattern's shape. */
  lemma TailMatchShape(s: string, i: nat, a: string)
    requires i < |s| && s[i] == '-' && a <= s[i + 1..] && TailAt(s, i, a, i + 1 + |a|).Some?
    ensures var m := TailAt(s, i, a, i + 1 + |a|).value;
      m.selector == a && Shaped(s, i, m)
  {
    var k := i + 1 + |a|;
    var n := DigitRun(s, k + 2);
    var m := Match(i, a, s[k], s[k + 2..k + 2 + n]);
    assert TailAt(s, i, a, k).value == m;
    assert |m.digits| == n;
    MatchTextCovers(s, i, m);
    assert |MatchText(m)| == 3 + |a| + n;
  }

  /** A match built from the characters of `s` at i spells out `s` from i on. */
  lemma MatchTextCovers(s: string, i: nat, m: Match)
    requires i < |s| && s[i] == '-' && m.selector <= s[i + 1..]
    requires i + 3 + |m.selector| + |m.digits| <= |s|
    requires m.edge == s[i + 1 + |m.selector|] && s[i + 2 + |m.selector|] == '='
    requires m.digits == s[i + 3 + |m.selector|..i + 3 + |m.selector| + |m.digits|]
    ensures MatchText(m) <= s[i..]
  {
    var k := i + 1 + |m.selector|;
    var e := k + 2 + |m.digits|;
    assert s[i + 1..k] == m.selector;
    assert s[i..e] == [s[i]] + s[i + 1..k] + [s[k]] + [s[k + 1]] + s[k + 2..e];
    assert s[i..e] == MatchText(m);
  }

  /**
   * Conversely, wherever the text of some alternative's match begins at i,
   * the pattern matches at i.
   */
  lemma {:induction false} MatchAtComplete(s: string, i: nat, sel: Selector, m: Match)
    requires i < |s| && m.start == i && m.selector in Alternatives(sel)
    requires IsEdgeLetter(m.edge) && |m.digits| > 0 && AllDigits(m.digits)
    requires MatchText(m) <= s[i..]
    ensures MatchAt(s, i, sel).Some?
  {
    assert s[i] == MatchText(m)[0];
    AltMatchComplete(s, i, Alternatives(sel), m);
  }

  lemma {:induction false} AltMatchComplete(s: string, i: nat, alts: seq<string>, m: Match)
    requires i < |s| && s[i] == '-' && m.selector in alts
    requires IsEdgeLetter(m.edge) && |m.digits| > 0 && AllDigits(m.digits)
    requires MatchText(m) <= s[i..]
    ensures AltMatch(s, i, alts).Some?
    decreases |alts|
  {
    var t := MatchText(m);
    var a := m.selector;
    var k := i + 1 + |a|;
    if alts[0] == a {
      assert s[i..][1..1 + |a|] == t[1..1 + |a|] == a;
      assert s[i + 1..][..|a|] == a;
      assert s[k] == s[i..][1 + |a|] == t[1 + |a|] == m.edge;
      assert s[k + 1] == s[i..][2 + |a|] == t[2 + |a|] == '=';
      assert s[k + 2] == s[i..][3 + |a|] == t[3 + |a|] == m.digits[0];
    } else {
      AltMatchComplete(s, i, alts[1..], m);
    }
  }

  /** The leftmost match at or after position i. */
  function FindFrom(s: string, sel: Selector, i: nat): (r: Option<Match>)
    requires i <= |s|
    ensures r.Some? ==> i <= r.value.start < |s| && MatchAt(s, r.value.start, sel) == r
    ensures r.Some? ==> forall j :: i <= j < r.value.start ==> MatchAt(s, j, sel).None?
    ensures r.None? ==> forall j :: i <= j < |s| ==> MatchAt(s, j, sel).None?
    decreases |s| - i
  {
    if i == |s| then None
    else if MatchAt(s, i, sel).Some? then MatchAt(s, i, sel)
    else FindFrom(s, sel, i + 1)
  }

  /** `Regex.Match(argument)`: the leftmost match in the whole argument, if any. */
  function Find(s: string, sel: Selector): (r: Option<Match>)
    ensures r.Some? ==> r.value.start < |s| && MatchAt(s, r.value.start, sel) == r
    ensures r.Some? ==> forall j :: 0 <= j < r.value.start ==> MatchAt(s, j, sel).None?
    ensures r.None? ==> forall j :: 0 <= j < |s| ==> MatchAt(s, j, sel).None?
  {
    FindFrom(s, sel, 0)
  }
}
