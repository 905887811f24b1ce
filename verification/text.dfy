/** The string operations of Python that the backend relies on: `str.lower()`
    (ASCII part), the `in` test on strings, `str.split(sep)`, `str.join`,
    `str.strip()`, `str.startswith`, and decimal formatting of integers
    (`f"{n}"` and `f"{n:,}"`). */
module Text {

  // ---------------------------------------------------------------------------
  // Lower-casing
  // ---------------------------------------------------------------------------

  /** ASCII lower-casing of one character; every other character is kept. */
  function LowerChar(c: char): char {
    if 'A' <= c <= 'Z' then (c as int + 32) as char else c
  }

  /** `s.lower()` restricted to ASCII letters. */
  function Lower(s: string): string {
    seq(|s|, i requires 0 <= i < |s| => LowerChar(s[i]))
  }

  lemma LowerAppend(a: string, b: string)
    ensures Lower(a + b) == Lower(a) + Lower(b)
  {
    assert forall i | 0 <= i < |a + b| :: Lower(a + b)[i] == (Lower(a) + Lower(b))[i];
  }

  /** Lower-casing twice is lower-casing once. */
  lemma LowerIdempotent(s: string)
    ensures Lower(Lower(s)) == Lower(s)
  {
    assert forall i | 0 <= i < |s| :: Lower(Lower(s))[i] == Lower(s)[i];
  }

  // ---------------------------------------------------------------------------
  // Substring test: Python's `sub in s`
  // ---------------------------------------------------------------------------

  /** `sub` occurs in `s` starting at index `i`. */
  predicate OccursAt(s: string, sub: string, i: int) {
    0 <= i && i + |sub| <= |s| && s[i..i + |sub|] == sub
  }

  /** `sub in s`: `sub` is a prefix of some suffix of `s`. */
  predicate Contains(s: string, sub: string)
    decreases |s|
  {
    sub <= s || (|s| > 0 && Contains(s[1..], sub))
  }

  /** `Contains` holds exactly when the substring occurs at some index. */
  lemma {:induction false} ContainsIffOccurs(s: string, sub: string)
    ensures Contains(s, sub) <==> exists i :: OccursAt(s, sub, i)
    decreases |s|
  {
    if sub <= s {
      assert OccursAt(s, sub, 0);
    } else if |s| == 0 {
      assert forall i :: !OccursAt(s, sub, i);
    } else {
      ContainsIffOccurs(s[1..], sub);
      if Contains(s[1..], sub) {
        var i :| OccursAt(s[1..], sub, i);
        forall j | 0 <= j < |sub| ensures s[i + 1..i + 1 + |sub|][j] == sub[j] {
          assert s[1..][i..i + |sub|][j] == sub[j];
        }
        assert OccursAt(s, sub, i + 1);
      }
      assert !OccursAt(s, sub, 0);
      forall i | OccursAt(s, sub, i) ensures Contains(s[1..], sub) {
        assert s[1..][i - 1..i - 1 + |sub|] == s[i..i + |sub|];
        assert OccursAt(s[1..], sub, i - 1);
      }
    }
  }

  /** A substring of a middle part is a substring of the whole. */
  lemma ContainsInfix(a: string, b: string, c: string, sub: string)
    requires Contains(b, sub)
    ensures Contains(a + b + c, sub)
  {
    ContainsIffOccurs(b, sub);
    var i :| OccursAt(b, sub, i);
    assert (a + b + c)[|a| + i..|a| + i + |sub|] == b[i..i + |sub|];
    assert OccursAt(a + b + c, sub, |a| + i);
    ContainsIffOccurs(a + b + c, sub);
  }

  /** `in` is transitive: a substring of a substring is a substring. */
  lemma ContainsTransitive(s: string, mid: string, sub: string)
    requires Contains(s, mid) && Contains(mid, sub)
    ensures Contains(s, sub)
  {
    ContainsIffOccurs(s, mid);
    var i :| OccursAt(s, mid, i);
    assert s == s[..i] + mid + s[i + |mid|..];
    ContainsInfix(s[..i], mid, s[i + |mid|..], sub);
  }

  /** Python's `any(k in s for k in keys)`. */
  predicate ContainsAny(s: string, keys: seq<string>) {
    exists k :: k in keys && Contains(s, k)
  }

  /** `s.startswith(prefix)`. */
  predicate StartsWith(s: string, prefix: string) {
    prefix <= s
  }

  // ---------------------------------------------------------------------------
  // split / join
  // ---------------------------------------------------------------------------

  /** Index of the first occurrence of `c` in `s`. */
  function IndexOf(s: string, c: char): (i: nat)
    requires c in s
    ensures i < |s| && s[i] == c && c !in s[..i]
  {
    if s[0] == c then 0 else 1 + IndexOf(s[1..], c)
  }

  /** `s.split(sep)` for a one-character separator: the pieces between
      consecutive separators, always at least one (`"".split("\n") == [""]`).
      Built one character at a time: a separator opens a new piece, any
      other character joins the front of the first piece. */
  function Split(s: string, sep: char): (parts: seq<string>)
    ensures |parts| >= 1
    decreases |s|
  {
    if |s| == 0 then [""]
    else
      var rest := Split(s[1..], sep);
      if s[0] == sep then [""] + rest
      else [[s[0]] + rest[0]] + rest[1..]
  }

  /** `sep.join(parts)`. */
  function Join(parts: seq<string>, sep: string): string
    decreases |parts|
  {
    if |parts| == 0 then ""
    else if |parts| == 1 then parts[0]
    else parts[0] + sep + Join(parts[1..], sep)
  }

  /** No piece of a split holds the separator. */
  lemma {:induction false} SplitPieces(s: string, sep: char)
    ensures forall j | 0 <= j < |Split(s, sep)| :: sep !in Split(s, sep)[j]
    decreases |s|
  {
    if |s| > 0 {
      var rest := Split(s[1..], sep);
      SplitPieces(s[1..], sep);
      forall j | 0 <= j < |Split(s, sep)|
        ensures sep !in Split(s, sep)[j]
      {
        if s[0] == sep {
          if j > 0 {
            assert Split(s, sep)[j] == rest[j - 1];
          }
        } else if j == 0 {
          assert Split(s, sep)[0] == [s[0]] + rest[0];
        } else {
          assert Split(s, sep)[j] == rest[j];
        }
      }
    }
  }

  /** Putting a string in front of the first part puts it in front of the
      joined result. */
  lemma JoinExtendHead(x: string, parts: seq<string>, sep: string)
    requires |parts| >= 1
    ensures Join([x + parts[0]] + parts[1..], sep) == x + Join(parts, sep)
  {
    var joined := [x + parts[0]] + parts[1..];
    if |parts| > 1 {
      assert joined[1..] == parts[1..];
    }
  }

  /** Joining the pieces with the separator gives back the string. */
  lemma {:induction false} SplitJoin(s: string, sep: char)
    ensures Join(Split(s, sep), [sep]) == s
    decreases |s|
  {
    if |s| > 0 {
      var rest := Split(s[1..], sep);
      SplitJoin(s[1..], sep);
      if s[0] == sep {
        assert ([""] + rest)[1..] == rest;
        assert s == [sep] + s[1..];
      } else {
        JoinExtendHead([s[0]], rest, [sep]);
        assert s == [s[0]] + s[1..];
      }
    }
  }

  /** Every piece of a split is an infix of the string: the lemma returns
      what stands before and after it; the first piece is a prefix. */
  lemma {:induction false} SplitPartIsInfix(s: string, sep: char, j: nat) returns (a: string, c: string)
    requires j < |Split(s, sep)|
    ensures s == a + Split(s, sep)[j] + c
    ensures j == 0 ==> a == ""
    decreases |s|
  {
    if |s| == 0 {
      a, c := "", "";
    } else {
      var tail := s[1..];
      var rest := Split(tail, sep);
      assert s == [s[0]] + tail;
      if s[0] == sep {
        SplitAtSeparator(s, sep);
        if j == 0 {
          a, c := "", s;
        } else {
          var a', c' := SplitPartIsInfix(tail, sep, j - 1);
          a, c := Prepend([sep], tail, a', rest[j - 1], c');
        }
      } else {
        SplitAtOther(s, sep, j);
        var a', c' := SplitPartIsInfix(tail, sep, j);
        if j == 0 {
          a, c := "", c';
          PrependToFirst([s[0]], tail, rest[0], c');
        } else {
          a, c := Prepend([s[0]], tail, a', rest[j], c');
        }
      }
    }
  }

  /** An infix of `t` is an infix of `x + t`, further from the start. */
  lemma Prepend(x: string, t: string, a': string, part: string, c': string) returns (a: string, c: string)
    requires t == a' + part + c'
    ensures x + t == a + part + c
    ensures a == x + a' && c == c'
  {
    a, c := x + a', c';
  }

  /** A prefix of `t` grows into a prefix of `x + t`. */
  lemma PrependToFirst(x: string, t: string, part: string, c: string)
    requires t == "" + part + c
    ensures x + t == "" + (x + part) + c
  {
  }

  /** A leading separator opens an empty first piece. */
  lemma SplitAtSeparator(s: string, sep: char)
    requires |s| > 0 && s[0] == sep
    ensures Split(s, sep) == [""] + Split(s[1..], sep)
  {
  }

  /** Any other leading character joins the front of the first piece; the
      other pieces are those of the rest. */
  lemma SplitAtOther(s: string, sep: char, j: nat)
    requires |s| > 0 && s[0] != sep && j < |Split(s, sep)|
    ensures |Split(s, sep)| == |Split(s[1..], sep)|
    ensures j == 0 ==> Split(s, sep)[0] == [s[0]] + Split(s[1..], sep)[0]
    ensures j > 0 ==> Split(s, sep)[j] == Split(s[1..], sep)[j]
  {
  }

  /** A keyword found in the lower-cased form of a piece is found in the
      lower-cased form of the whole string. */
  lemma SplitPartLowerContained(s: string, sep: char, j: nat, key: string)
    requires j < |Split(s, sep)|
    requires Contains(Lower(Split(s, sep)[j]), key)
    ensures Contains(Lower(s), key)
  {
    var a, c := SplitPartIsInfix(s, sep, j);
    var part := Split(s, sep)[j];
    LowerAppend(a + part, c);
    LowerAppend(a, part);
    ContainsInfix(Lower(a), Lower(part), Lower(c), key);
  }

  // ---------------------------------------------------------------------------
  // strip
  // ---------------------------------------------------------------------------

  /** The characters Python's `str.strip()` removes (`str.isspace()`). */
  predicate IsSpace(c: char) {
    c == ' ' || c == '\t' || c == '\n' || c == '\r' || c == '\U{000B}' || c == '\U{000C}'
    || ('\U{001C}' <= c <= '\U{001F}') || c == '\U{0085}' || c == '\U{00A0}'
    || c == '\U{1680}' || ('\U{2000}' <= c <= '\U{200A}') || c == '\U{2028}'
    || c == '\U{2029}' || c == '\U{202F}' || c == '\U{205F}' || c == '\U{3000}'
  }

  predicate AllSpace(s: string) {
    forall i | 0 <= i < |s| :: IsSpace(s[i])
  }

  function StripStart(s: string): string
    decreases |s|
  {
    if |s| > 0 && IsSpace(s[0]) then StripStart(s[1..]) else s
  }

  function StripEnd(s: string): string
    decreases |s|
  {
    if |s| > 0 && IsSpace(s[|s| - 1]) then StripEnd(s[..|s| - 1]) else s
  }

  /** `s.strip()`. */
  function Strip(s: string): string {
    StripEnd(StripStart(s))
  }

  /** `r` is what remains of `s` once leading and trailing whitespace are cut:
      a slice of `s`, with only whitespace cut on either side, and with no
      whitespace left at either end. */
  ghost predicate IsStripOf(s: string, r: string) {
    exists i, j ::
      0 <= i <= j <= |s| && r == s[i..j] && AllSpace(s[..i]) && AllSpace(s[j..])
      && (r == [] || (!IsSpace(r[0]) && !IsSpace(r[|r| - 1])))
  }

  /** `StripStart` drops a whitespace prefix, up to the first other character. */
  lemma {:induction false} StripStartSlice(s: string) returns (i: nat)
    ensures i <= |s| && StripStart(s) == s[i..] && AllSpace(s[..i])
    ensures StripStart(s) == [] || !IsSpace(StripStart(s)[0])
    decreases |s|
  {
    if |s| > 0 && IsSpace(s[0]) {
      var i' := StripStartSlice(s[1..]);
      i := i' + 1;
      assert s[1..][i'..] == s[i..];
      assert s[..i] == [s[0]] + s[1..][..i'];
    } else {
      i := 0;
    }
  }

  /** `StripEnd` drops a whitespace suffix, back to the last other character. */
  lemma {:induction false} StripEndSlice(s: string) returns (j: nat)
    ensures j <= |s| && StripEnd(s) == s[..j] && AllSpace(s[j..])
    ensures StripEnd(s) == [] || !IsSpace(StripEnd(s)[|StripEnd(s)| - 1])
    decreases |s|
  {
    if |s| > 0 && IsSpace(s[|s| - 1]) {
      var t := s[..|s| - 1];
      j := StripEndSlice(t);
      assert t[..j] == s[..j];
      assert s[j..] == t[j..] + [s[|s| - 1]];
    } else {
      j := |s|;
    }
  }

  /** `Strip` cuts exactly the outer whitespace. */
  lemma StripIsStrip(s: string)
    ensures IsStripOf(s, Strip(s))
  {
    var i := StripStartSlice(s);
    var t := s[i..];
    var j := StripEndSlice(t);
    assert t[..j] == s[i..i + j];
    assert s[i + j..] == t[j..];
    if Strip(s) != [] {
      assert Strip(s)[0] == t[0];
    }
  }

  /** `line.split(c, 1)[1]`: everything after the first `c`. */
  function AfterFirst(s: string, c: char): string
    requires c in s
  {
    s[IndexOf(s, c) + 1..]
  }

  // ---------------------------------------------------------------------------
  // Decimal formatting: f"{n}" and f"{n:,}"
  // ---------------------------------------------------------------------------

  function DigitChar(d: nat): char
    requires d < 10
  {
    ('0' as int + d) as char
  }

  /** Decimal digits of a natural number, most significant first. */
  function NatToString(n: nat): string
    decreases n
  {
    if n < 10 then [DigitChar(n)] else NatToString(n / 10) + [DigitChar(n % 10)]
  }

  /** `str(n)` / `f"{n}"` for a Python int. */
  function IntToString(n: int): string {
    if n < 0 then "-" + NatToString(-n) else NatToString(n)
  }

  /** Three digits, zero-padded: the groups after the first in `f"{n:,}"`. */
  function Pad3(k: nat): string
    requires k < 1000
  {
    [DigitChar(k / 100), DigitChar(k / 10 % 10), DigitChar(k % 10)]
  }

  /** Digits grouped in threes with commas. */
  function GroupedNat(n: nat): string
    decreases n
  {
    if n < 1000 then NatToString(n) else GroupedNat(n / 1000) + "," + Pad3(n % 1000)
  }

  /** `f"{n:,}"` for a Python int. */
  function IntToGroupedString(n: int): string {
    if n < 0 then "-" + GroupedNat(-n) else GroupedNat(n)
  }

  /** The value of a string of decimal digits (other characters count as
      their distance from '0'; only digit strings are ever given). */
  function DigitsValue(s: string): int
    decreases |s|
  {
    if s == [] then 0 else DigitsValue(s[..|s| - 1]) * 10 + (s[|s| - 1] as int - '0' as int)
  }

  /** `s` with every comma removed. */
  function RemoveCommas(s: string): string
    decreases |s|
  {
    if s == [] then [] else (if s[0] == ',' then [] else [s[0]]) + RemoveCommas(s[1..])
  }

  lemma {:induction false} RemoveCommasAppend(a: string, b: string)
    ensures RemoveCommas(a + b) == RemoveCommas(a) + RemoveCommas(b)
    decreases |a|
  {
    if a != [] {
      assert (a + b)[1..] == a[1..] + b;
      RemoveCommasAppend(a[1..], b);
    } else {
      assert a + b == b;
    }
  }

  /** Reading the digits of `NatToString(n)` back gives `n`; they are all
      digits, and there is no leading zero except in "0" itself. */
  lemma {:induction false} NatToStringValue(n: nat)
    ensures DigitsValue(NatToString(n)) == n
    ensures forall k | 0 <= k < |NatToString(n)| :: '0' <= NatToString(n)[k] <= '9'
    ensures |NatToString(n)| >= 1 && (NatToString(n)[0] == '0' <==> n == 0)
    decreases n
  {
    if n >= 10 {
      NatToStringValue(n / 10);
      var s := NatToString(n / 10) + [DigitChar(n % 10)];
      assert s[..|s| - 1] == NatToString(n / 10);
      assert s[0] == NatToString(n / 10)[0];
    }
  }

  /** Appending one digit shifts the value one decimal place. */
  lemma DigitsValueSnoc(prefix: string, d: nat)
    requires d < 10
    ensures DigitsValue(prefix + [DigitChar(d)]) == DigitsValue(prefix) * 10 + d
  {
    var s := prefix + [DigitChar(d)];
    assert s[..|s| - 1] == prefix;
  }

  /** Appending three padded digits multiplies by a thousand and adds them. */
  lemma Pad3Value(prefix: string, k: nat)
    requires k < 1000
    ensures DigitsValue(prefix + Pad3(k)) == DigitsValue(prefix) * 1000 + k
  {
    var a, b, c := k / 100, k / 10 % 10, k % 10;
    var s1 := prefix + [DigitChar(a)];
    var s2 := s1 + [DigitChar(b)];
    assert prefix + Pad3(k) == s2 + [DigitChar(c)];
    DigitsValueSnoc(prefix, a);
    DigitsValueSnoc(s1, b);
    DigitsValueSnoc(s2, c);
    assert a * 100 + b * 10 + c == k;
  }

  /** Once its commas are dropped, the grouped form of `n` reads back as `n`. */
  lemma {:induction false} GroupedNatValue(n: nat)
    ensures DigitsValue(RemoveCommas(GroupedNat(n))) == n
    decreases n
  {
    if n < 1000 {
      GroupedSmallValue(n);
    } else {
      GroupedNatValue(n / 1000);
      GroupedStepValue(n);
    }
  }

  /** Below a thousand there is no comma to drop. */
  lemma GroupedSmallValue(n: nat)
    requires n < 1000
    ensures DigitsValue(RemoveCommas(GroupedNat(n))) == n
  {
    NatToStringValue(n);
    NoCommaInDigits(NatToString(n));
  }

  /** One more group: if the leading groups read back as `n / 1000`, the
      whole reads back as `n`. */
  lemma GroupedStepValue(n: nat)
    requires n >= 1000
    requires DigitsValue(RemoveCommas(GroupedNat(n / 1000))) == n / 1000
    ensures DigitsValue(RemoveCommas(GroupedNat(n))) == n
  {
    var g, p := GroupedNat(n / 1000), Pad3(n % 1000);
    assert GroupedNat(n) == g + "," + p;
    RemoveCommasAppend(g + ",", p);
    RemoveCommasAppend(g, ",");
    assert RemoveCommas(",") == [];
    NoCommaInDigits(p);
    assert RemoveCommas(GroupedNat(n)) == RemoveCommas(g) + p;
    Pad3Value(RemoveCommas(g), n % 1000);
  }

  lemma {:induction false} NoCommaInDigits(s: string)
    requires forall k | 0 <= k < |s| :: '0' <= s[k] <= '9'
    ensures RemoveCommas(s) == s
    decreases |s|
  {
    if s != [] {
      NoCommaInDigits(s[1..]);
    }
  }
}
