/**
 Release tags and their precedence. The pattern takes every decimal digit of Unicode after the first
 digit of a number, and the interpreter may refuse to read numbers of too many digits.
 */
module Versions {
  import opened Common

  predicate Digit(c: char) {
    '0' <= c <= '9'
  }

  /** The zeros outside ASCII of Unicode 15.0, each the first of ten digits in order. */
  const FOREIGN_ZEROS: seq<int> := [FIRST_FOREIGN] + LATER_ZEROS

  const FIRST_FOREIGN := 0x660

  const LATER_ZEROS: seq<int> := [
    0x6F0, 0x7C0, 0x966, 0x9E6, 0xA66, 0xAE6, 0xB66, 0xBE6, 0xC66, 0xCE6, 0xD66, 0xDE6, 0xE50, 0xED0,
    0xF20, 0x1040, 0x1090, 0x17E0, 0x1810, 0x1946, 0x19D0, 0x1A80, 0x1A90, 0x1B50, 0x1BB0, 0x1C40, 0x1C50,
    0xA620, 0xA8D0, 0xA900, 0xA9D0, 0xA9F0, 0xAA50, 0xABF0, 0xFF10, 0x104A0, 0x10D30, 0x11066, 0x110F0,
    0x11136, 0x111D0, 0x112F0, 0x11450, 0x114D0, 0x11650, 0x116C0, 0x11730, 0x118E0, 0x11950, 0x11C50,
    0x11D50, 0x11DA0, 0x11F50, 0x16A60, 0x16AC0, 0x16B50, 0x1D7CE, 0x1D7D8, 0x1D7E2, 0x1D7EC, 0x1D7F6,
    0x1E140, 0x1E2F0, 0x1E4F0, 0x1E950, 0x1FBF0
  ]

  /** The foreign zero that a code point belongs to, among those from `k` on. */
  function ZeroOf(c: int, k: nat): (z: Option<int>)
    requires k <= |FOREIGN_ZEROS|
    ensures z.Some? ==> z.value <= c < z.value + 10
    decreases |FOREIGN_ZEROS| - k
  {
    if k == |FOREIGN_ZEROS| then None
    else if FOREIGN_ZEROS[k] <= c < FOREIGN_ZEROS[k] + 10 then Some(FOREIGN_ZEROS[k])
    else ZeroOf(c, k + 1)
  }

  /** What a decimal digit counts, for `\d` and for `int`. */
  function Worth(c: char): (w: Option<nat>)
    ensures w.Some? ==> w.value < 10 && (Digit(c) || c as int >= FIRST_FOREIGN)
    ensures Digit(c) ==> w == Some(c as int - '0' as int)
  {
    if Digit(c) then Some(c as int - '0' as int)
    else if c as int < FIRST_FOREIGN then None
    else
      var z := ZeroOf(c as int, 0);
      if z.None? then None else Some(c as int - z.value)
  }

  predicate Decimal(c: char)
    ensures Digit(c) ==> Decimal(c)
    ensures Decimal(c) ==> Digit(c) || c as int >= FIRST_FOREIGN
  {
    Worth(c).Some?
  }

  predicate PreChar(c: char) {
    Digit(c) || 'a' <= c <= 'z' || 'A' <= c <= 'Z' || c == '.' || c == '-'
  }

  predicate AllDigits(s: string) {
    s != "" && forall i :: 0 <= i < |s| ==> Digit(s[i])
  }

  predicate AllPre(s: string) {
    s != "" && forall i :: 0 <= i < |s| ==> PreChar(s[i])
  }

  predicate AllDecimal(s: string) {
    forall i :: 0 <= i < |s| ==> Decimal(s[i])
  }

  /** `0|[1-9]\d*` */
  predicate Numeral(s: string) {
    s != "" && AllDecimal(s) && Digit(s[0]) && (s[0] == '0' ==> s == "0")
  }

  /** `int` of a text of decimal digits. */
  function Value(s: string): nat
    requires AllDecimal(s)
  {
    if s == "" then 0
    else
      assert Decimal(s[|s| - 1]);
      10 * Value(s[..|s| - 1]) + Worth(s[|s| - 1]).value
  }

  function LowerChar(c: char): char {
    if 'A' <= c <= 'Z' then (c as int + 32) as char else c
  }

  function Lower(s: string): string {
    seq(|s|, i requires 0 <= i < |s| => LowerChar(s[i]))
  }

  // ----- The pattern -----

  /** The groups of TAG_PATTERN. */
  datatype Tag = Tag(major: string, minor: string, patch: string, pre: Option<string>)

  predicate Formed(t: Tag) {
    Numeral(t.major) && Numeral(t.minor) && Numeral(t.patch) && (t.pre.Some? ==> AllPre(t.pre.value))
  }

  /** `0`, or a digit from 1 to 9 and then decimal digits of any script. */
  lemma NumeralMeans(s: string)
    ensures Numeral(s) <==>
            s == "0" || (s != "" && '1' <= s[0] <= '9' && forall i :: 0 < i < |s| ==> Worth(s[i]).Some?)
  {
    hide Worth;
    assert forall c :: '0' <= c <= '9' ==> Decimal(c);
  }

  /** The groups that are well formed, told by their characters. */
  lemma FormedMeans(t: Tag)
    ensures Formed(t) <==>
            && (forall n :: n in [t.major, t.minor, t.patch] ==>
                  n == "0" || (n != "" && '1' <= n[0] <= '9' && forall i :: 0 < i < |n| ==> Worth(n[i]).Some?))
            && (t.pre.Some? ==>
                  t.pre.value != ""
                  && forall i :: 0 <= i < |t.pre.value| ==>
                       var c := t.pre.value[i];
                       '0' <= c <= '9' || 'a' <= c <= 'z' || 'A' <= c <= 'Z' || c == '.' || c == '-')
  {
    hide Worth, Numeral;
    NumeralMeans(t.major);
    NumeralMeans(t.minor);
    NumeralMeans(t.patch);
    assert t.major in [t.major, t.minor, t.patch] && t.minor in [t.major, t.minor, t.patch]
           && t.patch in [t.major, t.minor, t.patch];
  }

  lemma LowerMeans(s: string)
    ensures |Lower(s)| == |s|
    ensures forall i :: 0 <= i < |s| ==>
              if 'A' <= s[i] <= 'Z' then Lower(s)[i] as int - 'a' as int == s[i] as int - 'A' as int
              else Lower(s)[i] == s[i]
  {
  }

  function Text(t: Tag): string {
    "v" + t.major + "." + t.minor + "." + t.patch + (if t.pre.Some? then "-" + t.pre.value else "")
  }

  ghost predicate IsTag(s: string) {
    exists t :: Formed(t) && s == Text(t)
  }

  /** The longest run of digits at the start. */
  function Digits(s: string): (r: string)
    ensures r <= s && AllDecimal(r) && (|r| < |s| ==> !Decimal(s[|r|]))
  {
    if s == "" || !Decimal(s[0]) then "" else [s[0]] + Digits(s[1..])
  }

  /** A numeral followed by a dot: the numeral and what comes after the dot. */
  function NumeralDot(s: string): Option<(string, string)> {
    var n := Digits(s);
    if Numeral(n) && |n| < |s| && s[|n|] == '.' then Some((n, s[|n| + 1..])) else None
  }

  /** The last numeral, and the pre-release part if there is one. */
  function PatchAndPre(s: string): Option<(string, Option<string>)> {
    var n := Digits(s);
    var rest := s[|n|..];
    if !Numeral(n) then None
    else if rest == "" then Some((n, None))
    else if rest[0] == '-' && AllPre(rest[1..]) then Some((n, Some(rest[1..])))
    else None
  }

  /** `TAG_PATTERN.fullmatch` */
  function Match(s: string): Option<Tag> {
    if s == "" || s[0] != 'v' then None
    else
      var a := NumeralDot(s[1..]);
      if a.None? then None
      else
        var b := NumeralDot(a.value.1);
        if b.None? then None
        else
          var c := PatchAndPre(b.value.1);
          if c.None? then None else Some(Tag(a.value.0, b.value.0, c.value.0, c.value.1))
  }

  lemma {:induction false} DigitsOf(n: string, rest: string)
    requires AllDecimal(n)
    requires rest == "" || !Decimal(rest[0])
    ensures Digits(n + rest) == n
  {
    if n != "" {
      DigitsOf(n[1..], rest);
      assert (n + rest)[1..] == n[1..] + rest;
    } else {
      assert n + rest == rest;
    }
  }

  lemma NumeralDotIs(s: string)
    ensures NumeralDot(s).Some? ==> var (n, rest) := NumeralDot(s).value; Numeral(n) && s == n + "." + rest
    ensures forall n, rest :: Numeral(n) && s == n + "." + rest ==> NumeralDot(s) == Some((n, rest))
  {
    forall n, rest | Numeral(n) && s == n + "." + rest ensures NumeralDot(s) == Some((n, rest)) {
      assert s == n + ("." + rest);
      DigitsOf(n, "." + rest);
    }
  }

  lemma PatchAndPreIs(s: string)
    ensures PatchAndPre(s).Some? ==> Patch(s, PatchAndPre(s).value.0, PatchAndPre(s).value.1)
    ensures forall n: string, pre: Option<string> :: Patch(s, n, pre) ==> PatchAndPre(s) == Some((n, pre))
  {
    forall n: string, pre: Option<string> | Patch(s, n, pre) ensures PatchAndPre(s) == Some((n, pre)) {
      DigitsOf(n, if pre.Some? then "-" + pre.value else "");
    }
  }

  predicate Patch(s: string, n: string, pre: Option<string>) {
    Numeral(n) && (pre.Some? ==> AllPre(pre.value)) && s == n + (if pre.Some? then "-" + pre.value else "")
  }

  lemma MatchIsSound(s: string)
    requires Match(s).Some?
    ensures Formed(Match(s).value) && s == Text(Match(s).value)
  {
    hide Digits, NumeralDot, PatchAndPre;
    NumeralDotIs(s[1..]);
    var a := NumeralDot(s[1..]).value;
    NumeralDotIs(a.1);
    var b := NumeralDot(a.1).value;
    PatchAndPreIs(b.1);
    assert s == "v" + s[1..];
    assert s[1..] == a.0 + "." + a.1;
    assert a.1 == b.0 + "." + b.1;
  }

  lemma MatchIsComplete(t: Tag)
    requires Formed(t)
    ensures Match(Text(t)) == Some(t)
  {
    hide Digits, NumeralDot, PatchAndPre, Numeral, AllPre;
    var s := Text(t);
    var tail := t.patch + (if t.pre.Some? then "-" + t.pre.value else "");
    assert s == "v" + (t.major + "." + (t.minor + "." + tail));
    assert s[1..] == t.major + "." + (t.minor + "." + tail);
    NumeralDotIs(s[1..]);
    NumeralDotIs(t.minor + "." + tail);
    assert Patch(tail, t.patch, t.pre);
    PatchAndPreIs(tail);
  }

  /** A text is accepted with given groups exactly when it is spelled by them and they are well formed. */
  lemma MatchIsExact(s: string, t: Tag)
    ensures Match(s) == Some(t) <==> Formed(t) && s == Text(t)
  {
    if Match(s) == Some(t) {
      MatchIsSound(s);
    }
    if Formed(t) {
      MatchIsComplete(t);
    }
  }

  // ----- The key -----

  /** What a tuple holds: a number or a text. */
  datatype Scalar = Number(n: nat) | Words(s: string)

  datatype Element = Element(rank: nat, value: Scalar)

  datatype Key = Key(major: nat, minor: nat, patch: nat, pre: seq<Element>)

  /** `str.split(".")` */
  function Split(s: string): (r: seq<string>)
    ensures |r| >= 1
  {
    if s == "" then [""]
    else
      var rest := Split(s[1..]);
      if s[0] == '.' then [""] + rest else [[s[0]] + rest[0]] + rest[1..]
  }

  function PartKey(part: string): Element {
    if AllDigits(part) then Element(0, Number(Value(part))) else Element(1, Words(Lower(part)))
  }

  function PreKey(pre: Option<string>): seq<Element> {
    if pre.None? then [Element(1, Words(""))]
    else
      [Element(0, Words(""))]
      + seq(|Split(pre.value)|, i requires 0 <= i < |Split(pre.value)| => PartKey(Split(pre.value)[i]))
  }

  function KeyOf(t: Tag): Key
    requires Formed(t)
  {
    Key(Value(t.major), Value(t.minor), Value(t.patch), PreKey(t.pre))
  }

  /** The loop of `parse_tag` over the parts of a pre-release. */
  method PartKeys(pre: string, limit: nat) returns (parts: Option<seq<Element>>)
    ensures parts.Some? <==> ReadableParts(Split(pre), limit)
    ensures parts.Some? ==>
              parts.value == seq(|Split(pre)|, i requires 0 <= i < |Split(pre)| => PartKey(Split(pre)[i]))
  {
    var keys: seq<Element> := [];
    var names := Split(pre);
    var k := 0;
    while k < |names|
      invariant 0 <= k <= |names| && |keys| == k
      invariant forall i :: 0 <= i < k && AllDigits(names[i]) ==> Readable(names[i], limit)
      invariant forall i :: 0 <= i < k ==> keys[i] == PartKey(names[i])
    {
      if AllDigits(names[k]) {
        if !Readable(names[k], limit) {
          return None;
        }
        keys := keys + [Element(0, Number(Value(names[k])))];
      } else {
        keys := keys + [Element(1, Words(Lower(names[k])))];
      }
      k := k + 1;
    }
    return Some(keys);
  }

  datatype Refusal = InvalidTag | TooManyDigits

  /** `int` reads texts of at most `limit` digits; without a limit, which is 0, all of them. */
  predicate Readable(s: string, limit: nat) {
    limit == 0 || |s| <= limit
  }

  /** Every number of the tag can be read. */
  predicate AllReadable(t: Tag, limit: nat) {
    && Readable(t.major, limit) && Readable(t.minor, limit) && Readable(t.patch, limit)
    && (t.pre.Some? ==> ReadableParts(Split(t.pre.value), limit))
  }

  predicate ReadableParts(parts: seq<string>, limit: nat) {
    forall i :: 0 <= i < |parts| && AllDigits(parts[i]) ==> Readable(parts[i], limit)
  }

  /** A tag can be read if and only if there is no limit, or no number in it has more digits than the limit. */
  lemma AllReadableMeans(t: Tag, limit: nat)
    ensures AllReadable(t, limit) <==>
            limit == 0
            || (|t.major| <= limit && |t.minor| <= limit && |t.patch| <= limit
                && (t.pre.Some? ==>
                      forall p :: p in Split(t.pre.value) && p != ""
                                  && (forall i :: 0 <= i < |p| ==> '0' <= p[i] <= '9')
                                  ==> |p| <= limit))
  {
    hide Split;
    if t.pre.Some? {
      assert forall p :: p in Split(t.pre.value) ==>
               exists i :: 0 <= i < |Split(t.pre.value)| && Split(t.pre.value)[i] == p;
    }
  }

  /**
   `parse_tag`. A text that is no tag is refused as an invalid one; a number of too many digits raises
   another error.
   */
  method ParseTag(s: string, limit: nat) returns (r: Result<Key, Refusal>)
    ensures r == Err(InvalidTag) <==> !IsTag(s)
    ensures forall t :: Formed(t) && s == Text(t) ==>
              r == if AllReadable(t, limit) then Ok(KeyOf(t)) else Err(TooManyDigits)
  {
    hide Match, Formed, Text, Split, Value, Readable, ReadableParts, PartKey;
    var found := Match(s);
    forall t ensures Match(s) == Some(t) <==> Formed(t) && s == Text(t) {
      MatchIsExact(s, t);
    }
    if found.None? {
      return Err(InvalidTag);
    }
    var t := found.value;
    assert Formed(t) && s == Text(t);
    FormedParts(t);
    var pre: seq<Element> := [Element(1, Words(""))];
    if t.pre.Some? {
      var parts := PartKeys(t.pre.value, limit);
      if parts.None? {
        return Err(TooManyDigits);
      }
      pre := [Element(0, Words(""))] + parts.value;
    }
    if !(Readable(t.major, limit) && Readable(t.minor, limit) && Readable(t.patch, limit)) {
      return Err(TooManyDigits);
    }
    r := Ok(Key(Value(t.major), Value(t.minor), Value(t.patch), pre));
    assert r == Ok(KeyOf(t));
  }

  lemma FormedParts(t: Tag)
    requires Formed(t)
    ensures Numeral(t.major) && Numeral(t.minor) && Numeral(t.patch)
  {
  }

  // ----- Comparing -----

  function Sign(a: int, b: int): int {
    if a < b then -1 else if a > b then 1 else 0
  }

  /** Texts by code point, a proper prefix first. */
  function CompareWords(a: string, b: string): int {
    if a == "" || b == "" then Sign(|a|, |b|)
    else if a[0] != b[0] then Sign(a[0] as int, b[0] as int)
    else CompareWords(a[1..], b[1..])
  }

  /** `None` where the program would compare a number with a text. */
  function CompareElement(a: Element, b: Element): Option<int> {
    if a.rank != b.rank then Some(Sign(a.rank, b.rank))
    else if a.value.Number? && b.value.Number? then Some(Sign(a.value.n, b.value.n))
    else if a.value.Words? && b.value.Words? then Some(CompareWords(a.value.s, b.value.s))
    else None
  }

  /** Tuples: the first elements that differ decide, else the shorter one comes first. */
  function ComparePre(a: seq<Element>, b: seq<Element>): Option<int> {
    if a == [] || b == [] then Some(Sign(|a|, |b|))
    else if a[0] != b[0] then CompareElement(a[0], b[0])
    else ComparePre(a[1..], b[1..])
  }

  function CompareKeys(a: Key, b: Key): Option<int> {
    if a.major != b.major then Some(Sign(a.major, b.major))
    else if a.minor != b.minor then Some(Sign(a.minor, b.minor))
    else if a.patch != b.patch then Some(Sign(a.patch, b.patch))
    else ComparePre(a.pre, b.pre)
  }

  /** `compare_tags`; what is wrong with a tag on either side is raised, the left one first. */
  method CompareTags(left: string, right: string, limit: nat) returns (r: Result<int, Refusal>)
    ensures forall s, t :: Formed(s) && left == Text(s) && Formed(t) && right == Text(t) ==>
              if AllReadable(s, limit) && AllReadable(t, limit) then
                CompareKeys(KeyOf(s), KeyOf(t)).Some? && r == Ok(CompareKeys(KeyOf(s), KeyOf(t)).value)
              else r == Err(TooManyDigits)
    ensures !IsTag(left) ==> r == Err(InvalidTag)
    ensures forall s :: Formed(s) && left == Text(s) && !IsTag(right) ==>
              r == Err(if AllReadable(s, limit) then InvalidTag else TooManyDigits)
  {
    hide Formed, Text, AllReadable, CompareKeys, KeyOf;
    var a := ParseTag(left, limit);
    if a.Err? {
      return Err(a.error);
    }
    var b := ParseTag(right, limit);
    if b.Err? {
      return Err(b.error);
    }
    ghost var s :| Formed(s) && left == Text(s);
    ghost var t :| Formed(t) && right == Text(t);
    NeverMixed(s, t);
    r := Ok(CompareKeys(a.value, b.value).value);
  }

  // ----- A total preorder -----

  /** Numbers have rank 0 and texts rank 1. */
  predicate Proper(e: Element) {
    (e.value.Number? <==> e.rank == 0) && (e.value.Words? <==> e.rank == 1)
  }

  predicate AllProper(es: seq<Element>) {
    forall i :: 0 <= i < |es| ==> Proper(es[i])
  }

  lemma {:induction false} WordsOrder(a: string, b: string)
    ensures CompareWords(a, b) == -CompareWords(b, a) && (CompareWords(a, b) == 0 <==> a == b)
  {
    if a != "" && b != "" {
      if a[0] == b[0] {
        WordsOrder(a[1..], b[1..]);
        assert a == [a[0]] + a[1..] && b == [b[0]] + b[1..];
      }
    }
  }

  lemma {:induction false} WordsTransitive(a: string, b: string, c: string)
    requires CompareWords(a, b) <= 0 && CompareWords(b, c) <= 0
    ensures CompareWords(a, c) <= 0
  {
    if a != "" && b != "" && c != "" && a[0] == b[0] == c[0] {
      WordsTransitive(a[1..], b[1..], c[1..]);
    }
  }

  lemma ElementOrder(a: Element, b: Element)
    requires Proper(a) && Proper(b)
    ensures CompareElement(a, b).Some? && CompareElement(b, a).Some?
    ensures CompareElement(a, b).value == -CompareElement(b, a).value && (CompareElement(a, b).value == 0 <==> a == b)
  {
    if a.value.Words? && b.value.Words? {
      WordsOrder(a.value.s, b.value.s);
    }
  }

  lemma ElementTransitive(a: Element, b: Element, c: Element)
    requires Proper(a) && Proper(b) && Proper(c)
    requires CompareElement(a, b).Some? && CompareElement(b, c).Some?
    requires CompareElement(a, b).value <= 0 && CompareElement(b, c).value <= 0
    ensures CompareElement(a, c).Some? && CompareElement(a, c).value <= 0
  {
    ElementOrder(a, c);
    if a.value.Words? && b.value.Words? && c.value.Words? {
      WordsTransitive(a.value.s, b.value.s, c.value.s);
    }
  }

  lemma {:induction false} PreOrder(a: seq<Element>, b: seq<Element>)
    requires AllProper(a) && AllProper(b)
    ensures ComparePre(a, b).Some? && ComparePre(b, a).Some?
    ensures ComparePre(a, b).value == -ComparePre(b, a).value && (ComparePre(a, b).value == 0 <==> a == b)
  {
    if a != [] && b != [] {
      if a[0] == b[0] {
        PreOrder(a[1..], b[1..]);
        assert a == [a[0]] + a[1..] && b == [b[0]] + b[1..];
      } else {
        ElementOrder(a[0], b[0]);
      }
    }
  }

  lemma {:induction false} PreTransitive(a: seq<Element>, b: seq<Element>, c: seq<Element>)
    requires AllProper(a) && AllProper(b) && AllProper(c)
    requires ComparePre(a, b).Some? && ComparePre(b, c).Some? && ComparePre(a, b).value <= 0
    requires ComparePre(b, c).value <= 0
    ensures ComparePre(a, c).Some? && ComparePre(a, c).value <= 0
  {
    PreOrder(a, c);
    if a != [] && b != [] && c != [] {
      if a[0] == b[0] == c[0] {
        PreTransitive(a[1..], b[1..], c[1..]);
      } else {
        ElementOrder(a[0], b[0]);
        ElementOrder(b[0], c[0]);
        ElementOrder(a[0], c[0]);
        if a[0] != b[0] && b[0] != c[0] {
          ElementTransitive(a[0], b[0], c[0]);
        }
      }
    }
  }

  /** The elements after the leading one, which tells a pre-release from a release. */
  function Tail(t: Tag): seq<Element> {
    if t.pre.None? then []
    else seq(|Split(t.pre.value)|, i requires 0 <= i < |Split(t.pre.value)| => PartKey(Split(t.pre.value)[i]))
  }

  function Kind(t: Tag): nat {
    if t.pre.None? then 1 else 0
  }

  lemma PreIsKindAndTail(s: Tag, t: Tag)
    ensures AllProper(Tail(s)) && AllProper(Tail(t))
    ensures ComparePre(PreKey(s.pre), PreKey(t.pre)) ==
            if Kind(s) != Kind(t) then Some(Sign(Kind(s), Kind(t))) else ComparePre(Tail(s), Tail(t))
    ensures PreKey(s.pre) == PreKey(t.pre) <==> Kind(s) == Kind(t) && Tail(s) == Tail(t)
  {
    assert PreKey(s.pre)[1..] == Tail(s) && PreKey(t.pre)[1..] == Tail(t);
    assert PreKey(s.pre) == [PreKey(s.pre)[0]] + Tail(s) && PreKey(t.pre) == [PreKey(t.pre)[0]] + Tail(t);
  }

  /** No comparison of two accepted tags meets a number and a text. */
  lemma NeverMixed(s: Tag, t: Tag)
    requires Formed(s) && Formed(t)
    ensures CompareKeys(KeyOf(s), KeyOf(t)).Some?
  {
    PreIsKindAndTail(s, t);
    PreOrder(Tail(s), Tail(t));
  }

  function Compare(s: Tag, t: Tag): int
    requires Formed(s) && Formed(t)
  {
    NeverMixed(s, t);
    CompareKeys(KeyOf(s), KeyOf(t)).value
  }

  lemma TagsAreOrdered(s: Tag, t: Tag)
    requires Formed(s) && Formed(t)
    ensures Compare(s, t) == -Compare(t, s) && -1 <= Compare(s, t) <= 1
    ensures Compare(s, t) == 0 <==> KeyOf(s) == KeyOf(t)
  {
    NeverMixed(s, t);
    NeverMixed(t, s);
    PreIsKindAndTail(s, t);
    PreIsKindAndTail(t, s);
    PreOrder(Tail(s), Tail(t));
    SignOnly(Tail(s), Tail(t));
  }

  lemma {:induction false} WordsSign(a: string, b: string)
    ensures -1 <= CompareWords(a, b) <= 1
  {
    if a != "" && b != "" && a[0] == b[0] {
      WordsSign(a[1..], b[1..]);
    }
  }

  lemma {:induction false} SignOnly(a: seq<Element>, b: seq<Element>)
    ensures ComparePre(a, b).Some? ==> -1 <= ComparePre(a, b).value <= 1
  {
    if a != [] && b != [] {
      if a[0] == b[0] {
        SignOnly(a[1..], b[1..]);
      } else if a[0].value.Words? && b[0].value.Words? {
        WordsSign(a[0].value.s, b[0].value.s);
      }
    }
  }

  lemma TagsAreTransitive(r: Tag, s: Tag, t: Tag)
    requires Formed(r) && Formed(s) && Formed(t) && Compare(r, s) <= 0 && Compare(s, t) <= 0
    ensures Compare(r, t) <= 0
  {
    hide PreKey, Tail, ComparePre, Numeral, AllPre, Value, Split;
    NeverMixed(r, s);
    NeverMixed(s, t);
    NeverMixed(r, t);
    PreIsKindAndTail(r, s);
    PreIsKindAndTail(s, t);
    PreIsKindAndTail(r, t);
    PreOrder(Tail(r), Tail(s));
    PreOrder(Tail(s), Tail(t));
    PreOrder(Tail(r), Tail(t));
    if ComparePre(Tail(r), Tail(s)).value <= 0 && ComparePre(Tail(s), Tail(t)).value <= 0 {
      PreTransitive(Tail(r), Tail(s), Tail(t));
    }
  }

  // ----- Section 11 of Semantic Versioning 2.0.0 -----

  /** The texts first differ at position `k`, or one ends there. */
  predicate FirstWordsDifference(a: string, b: string, k: nat) {
    k <= |a| && k <= |b| && a[..k] == b[..k] && ((k == |a| && k < |b|) || (k < |a| && k < |b| && a[k] < b[k]))
  }

  /** Rule 11.4 for two identifiers: numbers by value, other texts in ASCII order, numbers before texts. */
  ghost predicate IdentifierBefore(a: string, b: string) {
    if AllDigits(a) && AllDigits(b) then Value(a) < Value(b)
    else if AllDigits(a) || AllDigits(b) then AllDigits(a)
    else exists k :: FirstWordsDifference(a, b, k)
  }

  /** Rule 11.4 for two lists: the first identifier that differs decides, or the list that has more is later. */
  ghost predicate ListBeforeAt(a: seq<string>, b: seq<string>, k: nat) {
    k <= |a| && k <= |b| && a[..k] == b[..k]
    && ((k == |a| && k < |b|) || (k < |a| && k < |b| && IdentifierBefore(a[k], b[k])))
  }

  ghost predicate ListBefore(a: seq<string>, b: seq<string>) {
    exists k :: ListBeforeAt(a, b, k)
  }

  predicate CoreBefore(s: Tag, t: Tag)
    requires Formed(s) && Formed(t)
  {
    || Value(s.major) < Value(t.major)
    || (Value(s.major) == Value(t.major) && Value(s.minor) < Value(t.minor))
    || (Value(s.major) == Value(t.major) && Value(s.minor) == Value(t.minor) && Value(s.patch) < Value(t.patch))
  }

  /** Rules 11.2 to 11.4. */
  ghost predicate Precedes(s: Tag, t: Tag)
    requires Formed(s) && Formed(t)
  {
    || CoreBefore(s, t)
    || (!CoreBefore(t, s)
        && s.pre.Some? && (t.pre.None? || ListBefore(Split(s.pre.value), Split(t.pre.value))))
  }

  /** All digits of the tag are ASCII digits; those of a pre-release always are. */
  predicate Ascii(t: Tag) {
    AllDigits(t.major) && AllDigits(t.minor) && AllDigits(t.patch)
  }

  /** Rules 2 and 9: digits are ASCII digits, identifiers are not empty, and numbers have no leading zero. */
  predicate SemVer(t: Tag) {
    Formed(t) && Ascii(t) && (t.pre.Some? ==>
                    forall i :: 0 <= i < |Split(t.pre.value)| ==>
                      Split(t.pre.value)[i] != ""
                        && (AllDigits(Split(t.pre.value)[i]) ==> Numeral(Split(t.pre.value)[i])))
  }

  predicate IsLower(s: string) {
    forall i :: 0 <= i < |s| ==> LowerChar(s[i]) == s[i]
  }

  predicate LowerCase(t: Tag) {
    t.pre.Some? ==> IsLower(t.pre.value)
  }

  lemma {:induction false} NumeralsByValue(a: string, b: string)
    requires Numeral(a) && Numeral(b) && AllDigits(a) && AllDigits(b)
    ensures Value(a) == Value(b) <==> a == b
  {
    if Value(a) == Value(b) {
      var x, y := a[..|a| - 1], b[..|b| - 1];
      assert Digit(a[|a| - 1]) && Digit(b[|b| - 1]);
      assert a == x + [a[|a| - 1]] && b == y + [b[|b| - 1]];
      assert Value(a) == 10 * Value(x) + (a[|a| - 1] as int - '0' as int);
      assert Value(b) == 10 * Value(y) + (b[|b| - 1] as int - '0' as int);
      assert Value(x) == Value(y) && a[|a| - 1] == b[|b| - 1];
      if x == "" || y == "" {
        LongNumeralsAreLarge(a);
        LongNumeralsAreLarge(b);
        assert Value(x) == 0 && Value(y) == 0;
      } else {
        assert Numeral(x) && Numeral(y);
        NumeralsByValue(x, y);
      }
    }
  }

  lemma {:induction false} LongNumeralsAreLarge(a: string)
    requires Numeral(a) && AllDigits(a)
    ensures |a| > 1 ==> Value(a[..|a| - 1]) > 0
  {
    if |a| > 1 {
      var x := a[..|a| - 1];
      assert x[0] == a[0] && Digit(a[0]) && a[0] != '0';
      if |x| == 1 {
        assert Digit(x[0]);
        assert x[..0] == "";
        assert Value(x) == x[0] as int - '0' as int;
      } else {
        assert Numeral(x);
        LongNumeralsAreLarge(x);
      }
    }
  }

  lemma SameStart(a: string, b: string, k: nat)
    requires a != "" && b != "" && FirstWordsDifference(a, b, k)
    ensures k > 0 ==> a[0] == b[0]
  {
    if k > 0 {
      assert a[..k][0] == b[..k][0];
    }
  }

  lemma {:induction false} WordsBefore(a: string, b: string)
    ensures CompareWords(a, b) < 0 <==> exists k :: FirstWordsDifference(a, b, k)
  {
    if a == "" || b == "" {
      if |a| < |b| {
        assert FirstWordsDifference(a, b, 0);
      }
    } else if a[0] != b[0] {
      if a[0] < b[0] {
        assert FirstWordsDifference(a, b, 0);
      }
      if k: nat :| FirstWordsDifference(a, b, k) {
        SameStart(a, b, k);
      }
    } else {
      WordsBefore(a[1..], b[1..]);
      if k: nat :| FirstWordsDifference(a[1..], b[1..], k) {
        assert a[..k + 1] == [a[0]] + a[1..][..k] && b[..k + 1] == [b[0]] + b[1..][..k];
        assert FirstWordsDifference(a, b, k + 1);
      }
      if k: nat :| FirstWordsDifference(a, b, k) {
        assert k > 0;
        assert a[1..][..k - 1] == a[..k][1..] && b[1..][..k - 1] == b[..k][1..];
        assert FirstWordsDifference(a[1..], b[1..], k - 1);
      }
    }
  }

  /** What the standard asks of one identifier, in lower case. */
  predicate GoodPart(p: string) {
    p != "" && (AllDigits(p) ==> Numeral(p)) && IsLower(p)
  }

  lemma LowerStays(p: string)
    requires IsLower(p)
    ensures Lower(p) == p
  {
  }

  lemma PartsCompare(a: string, b: string)
    requires GoodPart(a) && GoodPart(b)
    ensures PartKey(a) == PartKey(b) <==> a == b
    ensures CompareElement(PartKey(a), PartKey(b)).Some?
    ensures CompareElement(PartKey(a), PartKey(b)).value < 0 <==> IdentifierBefore(a, b)
    ensures !IdentifierBefore(a, a)
  {
    LowerStays(a);
    LowerStays(b);
    if AllDigits(a) && AllDigits(b) {
      NumeralsByValue(a, b);
    }
    WordsBefore(a, b);
    WordsBefore(a, a);
    WordsOrder(a, a);
    ElementOrder(PartKey(a), PartKey(b));
  }

  function PartKeysOf(parts: seq<string>): (r: seq<Element>)
    ensures |r| == |parts| && forall i :: 0 <= i < |r| ==> r[i] == PartKey(parts[i])
  {
    seq(|parts|, i requires 0 <= i < |parts| => PartKey(parts[i]))
  }

  predicate GoodParts(parts: seq<string>) {
    forall i :: 0 <= i < |parts| ==> GoodPart(parts[i])
  }

  lemma {:induction false} ListsCompare(a: seq<string>, b: seq<string>)
    requires GoodParts(a) && GoodParts(b)
    ensures var c := ComparePre(PartKeysOf(a), PartKeysOf(b));
      c.Some? && (c.value < 0 <==> ListBefore(a, b)) && (c.value == 0 <==> a == b)
  {
    hide GoodPart, PartKey, IdentifierBefore;
    if a == [] || b == [] {
      if |a| < |b| {
        assert ListBeforeAt(a, b, 0);
      }
    } else {
      var x, y := a[1..], b[1..];
      assert a == [a[0]] + x && b == [b[0]] + y;
      assert PartKeysOf(a)[1..] == PartKeysOf(x) && PartKeysOf(b)[1..] == PartKeysOf(y);
      PartsCompare(a[0], b[0]);
      if a[0] == b[0] {
        ListsCompare(x, y);
        ListStep(a, b);
      } else {
        PartOrder(a[0], b[0]);
        ListHeads(a, b);
      }
    }
  }

  lemma PartOrder(a: string, b: string)
    ensures var c := CompareElement(PartKey(a), PartKey(b)); c.Some? && (c.value == 0 <==> PartKey(a) == PartKey(b))
  {
    ElementOrder(PartKey(a), PartKey(b));
  }

  lemma SameHead(a: seq<string>, b: seq<string>, k: nat)
    requires 0 < k <= |a| && k <= |b| && a[..k] == b[..k]
    ensures a[0] == b[0]
  {
    assert a[..k][0] == b[..k][0];
  }

  lemma ListHeads(a: seq<string>, b: seq<string>)
    requires a != [] && b != [] && a[0] != b[0]
    ensures ListBefore(a, b) <==> IdentifierBefore(a[0], b[0])
  {
    if IdentifierBefore(a[0], b[0]) {
      assert ListBeforeAt(a, b, 0);
    }
    if k: nat :| ListBeforeAt(a, b, k) {
      if k > 0 {
        SameHead(a, b, k);
      }
    }
  }

  lemma ListStep(a: seq<string>, b: seq<string>)
    requires a != [] && b != [] && a[0] == b[0] && !IdentifierBefore(a[0], a[0])
    ensures ListBefore(a, b) <==> ListBefore(a[1..], b[1..])
  {
    if k: nat :| ListBeforeAt(a[1..], b[1..], k) {
      assert a[..k + 1] == [a[0]] + a[1..][..k] && b[..k + 1] == [b[0]] + b[1..][..k];
      assert ListBeforeAt(a, b, k + 1);
    }
    if k: nat :| ListBeforeAt(a, b, k) {
      assert k > 0;
      assert a[1..][..k - 1] == a[..k][1..] && b[1..][..k - 1] == b[..k][1..];
      assert ListBeforeAt(a[1..], b[1..], k - 1);
    }
  }

  function Join(parts: seq<string>): string {
    if parts == [] then "" else if |parts| == 1 then parts[0] else parts[0] + "." + Join(parts[1..])
  }

  /** Splitting loses nothing. */
  lemma {:induction false} SplitJoins(s: string)
    ensures Join(Split(s)) == s
    ensures IsLower(s) ==> forall i :: 0 <= i < |Split(s)| ==> IsLower(Split(s)[i])
  {
    if s != "" {
      SplitJoins(s[1..]);
      var rest := Split(s[1..]);
      assert s == [s[0]] + s[1..];
      if IsLower(s) {
        assert IsLower(s[1..]) by {
          forall i | 0 <= i < |s[1..]| ensures LowerChar(s[1..][i]) == s[1..][i] {
            assert s[1..][i] == s[i + 1];
          }
        }
        if s[0] != '.' {
          forall i | 0 <= i < |Split(s)[0]| ensures LowerChar(Split(s)[0][i]) == Split(s)[0][i] {
            assert i > 0 ==> Split(s)[0][i] == rest[0][i - 1];
          }
        }
      }
      if s[0] == '.' {
        assert Split(s)[1..] == rest;
      } else {
        assert Split(s)[1..] == rest[1..];
      }
    }
  }

  lemma GoodTag(t: Tag)
    requires SemVer(t) && LowerCase(t) && t.pre.Some?
    ensures GoodParts(Split(t.pre.value)) && PartKeysOf(Split(t.pre.value)) == Tail(t)
  {
    SplitJoins(t.pre.value);
  }

  /**
   On lower-case tags that the standard allows, the comparison is the precedence of the standard, and
   only equal tags tie.
   */
  lemma AgreesWithTheStandard(s: Tag, t: Tag)
    requires SemVer(s) && SemVer(t) && LowerCase(s) && LowerCase(t)
    ensures Compare(s, t) < 0 <==> Precedes(s, t)
    ensures Compare(s, t) > 0 <==> Precedes(t, s)
    ensures Compare(s, t) == 0 <==> s == t
  {
    hide Split, ListBefore, ComparePre, PreKey, Tail, GoodParts, Numeral, AllPre;
    NeverMixed(s, t);
    PreIsKindAndTail(s, t);
    PreIsKindAndTail(t, s);
    TagsAreOrdered(s, t);
    NumeralsByValue(s.major, t.major);
    NumeralsByValue(s.minor, t.minor);
    NumeralsByValue(s.patch, t.patch);
    if s.pre.Some? && t.pre.Some? {
      GoodTag(s);
      GoodTag(t);
      ListsCompare(Split(s.pre.value), Split(t.pre.value));
      ListsCompare(Split(t.pre.value), Split(s.pre.value));
      PreOrder(Tail(s), Tail(t));
      SplitJoins(s.pre.value);
      SplitJoins(t.pre.value);
    } else {
      EmptyTails(s, t);
    }
  }

  lemma EmptyTails(s: Tag, t: Tag)
    ensures s.pre.None? && t.pre.None? ==> ComparePre(Tail(s), Tail(t)) == Some(0)
  {
  }

  // ----- Upper case -----

  function LowerTag(t: Tag): Tag {
    t.(pre := if t.pre.Some? then Some(Lower(t.pre.value)) else None)
  }

  function LowerAll(parts: seq<string>): (r: seq<string>)
    ensures |r| == |parts| && forall i :: 0 <= i < |r| ==> r[i] == Lower(parts[i])
  {
    seq(|parts|, i requires 0 <= i < |parts| => Lower(parts[i]))
  }

  lemma {:induction false} SplitLower(s: string)
    ensures Split(Lower(s)) == LowerAll(Split(s))
  {
    if s != "" {
      SplitLower(s[1..]);
      assert Lower(s)[1..] == Lower(s[1..]);
      var rest := Split(s[1..]);
      if s[0] != '.' {
        assert Lower([s[0]] + rest[0]) == [LowerChar(s[0])] + Lower(rest[0]);
        assert LowerAll(Split(s))[0] == [LowerChar(s[0])] + LowerAll(rest)[0];
      }
    } else {
      assert Lower(s) == "";
    }
  }

  lemma DigitsAreLower(p: string)
    requires AllDigits(p) || AllDigits(Lower(p))
    ensures Lower(p) == p
  {
    if AllDigits(p) {
      forall i | 0 <= i < |p| ensures LowerChar(p[i]) == p[i] {
        assert Digit(p[i]);
      }
    } else {
      forall i | 0 <= i < |p| ensures LowerChar(p[i]) == p[i] {
        assert Digit(Lower(p)[i]);
      }
    }
  }

  lemma SamePartKey(p: string)
    ensures PartKey(Lower(p)) == PartKey(p)
  {
    if AllDigits(p) || AllDigits(Lower(p)) {
      DigitsAreLower(p);
    }
    assert Lower(Lower(p)) == Lower(p);
  }

  /** The comparison does not see case. */
  lemma CaseIsIgnored(t: Tag)
    requires Formed(t)
    ensures Formed(LowerTag(t)) && KeyOf(LowerTag(t)) == KeyOf(t) && LowerCase(LowerTag(t))
    ensures SemVer(t) ==> SemVer(LowerTag(t))
  {
    if t.pre.Some? {
      var pre := t.pre.value;
      SplitLower(pre);
      forall i | 0 <= i < |Split(pre)|
        ensures PartKey(Split(Lower(pre))[i]) == PartKey(Split(pre)[i])
        ensures AllDigits(Lower(Split(pre)[i])) ==> Lower(Split(pre)[i]) == Split(pre)[i]
      {
        SamePartKey(Split(pre)[i]);
        if AllDigits(Lower(Split(pre)[i])) {
          DigitsAreLower(Split(pre)[i]);
        }
      }
      assert PreKey(Some(Lower(pre))) == PreKey(Some(pre));
      forall i | 0 <= i < |pre| ensures PreChar(Lower(pre)[i]) {
        assert PreChar(pre[i]);
      }
    }
  }

  lemma {:induction false} UpperIsBeforeLower(a: string)
    ensures a != Lower(a) ==> CompareWords(a, Lower(a)) < 0
  {
    if a != "" {
      var low := Lower(a);
      assert low[1..] == Lower(a[1..]);
      assert a == [a[0]] + a[1..] && low == [low[0]] + low[1..];
      if a[0] == low[0] {
        UpperIsBeforeLower(a[1..]);
      } else {
        assert CompareWords(a, low) == Sign(a[0] as int, low[0] as int);
      }
    }
  }

  lemma PartBeforeLower(p: string)
    ensures p != Lower(p) ==> IdentifierBefore(p, Lower(p))
    ensures !IdentifierBefore(p, p)
  {
    if p != Lower(p) {
      UpperIsBeforeLower(p);
      WordsBefore(p, Lower(p));
      if AllDigits(p) || AllDigits(Lower(p)) {
        DigitsAreLower(p);
      }
    }
    WordsBefore(p, p);
    WordsOrder(p, p);
  }

  lemma {:induction false} ListBeforeLower(parts: seq<string>)
    ensures parts != LowerAll(parts) ==> ListBefore(parts, LowerAll(parts))
  {
    hide Lower, IdentifierBefore, ListBefore;
    if parts != [] {
      var low := LowerAll(parts);
      PartBeforeLower(parts[0]);
      if parts[0] == low[0] {
        ListBeforeLower(parts[1..]);
        assert low[1..] == LowerAll(parts[1..]);
        assert parts == [parts[0]] + parts[1..] && low == [low[0]] + low[1..];
        ListStep(parts, low);
      } else {
        ListHeads(parts, low);
      }
    }
  }

  /** A tag with an upper-case letter ties with its lower-case form, which the standard puts after it. */
  lemma UpperCaseTies(t: Tag)
    requires SemVer(t) && !LowerCase(t)
    ensures SemVer(LowerTag(t)) && LowerCase(LowerTag(t)) && LowerTag(t) != t
    ensures Compare(t, LowerTag(t)) == 0 && Precedes(t, LowerTag(t))
  {
    var pre := t.pre.value;
    CaseIsIgnored(t);
    TagsAreOrdered(t, LowerTag(t));
    SplitLower(pre);
    SplitJoins(pre);
    SplitJoins(Lower(pre));
    ListBeforeLower(Split(pre));
    assert Lower(pre) != pre by {
      var i :| 0 <= i < |pre| && LowerChar(pre[i]) != pre[i];
      assert Lower(pre)[i] != pre[i];
    }
  }

  // ----- Digits outside ASCII -----

  /** The same digits in ASCII. */
  function Plain(s: string): (r: string)
    requires AllDecimal(s)
    ensures |r| == |s| && forall i :: 0 <= i < |r| ==> Digit(r[i]) && Worth(r[i]) == Worth(s[i])
  {
    seq(|s|, i requires 0 <= i < |s| => (Worth(s[i]).value + '0' as int) as char)
  }

  function PlainTag(t: Tag): Tag
    requires Formed(t)
  {
    t.(major := Plain(t.major), minor := Plain(t.minor), patch := Plain(t.patch))
  }

  lemma {:induction false} PlainCounts(s: string)
    requires AllDecimal(s)
    ensures AllDecimal(Plain(s)) && Value(Plain(s)) == Value(s)
  {
    hide Worth, Decimal;
    if s != "" {
      var front := s[..|s| - 1];
      PlainCounts(front);
      assert Plain(s)[..|s| - 1] == Plain(front);
    } else {
      assert Plain(s) == s;
    }
  }

  lemma PlainNumeral(s: string)
    requires Numeral(s)
    ensures Numeral(Plain(s)) && AllDigits(Plain(s)) && Value(Plain(s)) == Value(s) && (Plain(s) == s <==> AllDigits(s))
  {
    PlainCounts(s);
    hide Worth, Decimal;
    if s == "0" {
      assert Plain(s) == s;
    }
    if AllDigits(s) {
      assert forall i :: 0 <= i < |s| ==> Digit(s[i]) && Plain(s)[i] == s[i];
    }
  }

  /**
   The pattern takes digits outside ASCII, which the standard does not allow: such a tag ties with the
   one that has the same digits in ASCII, and is another tag.
   */
  lemma ForeignDigitsTie(t: Tag)
    requires Formed(t)
    ensures Formed(PlainTag(t)) && Ascii(PlainTag(t)) && Compare(t, PlainTag(t)) == 0
    ensures PlainTag(t) == t <==> Ascii(t)
    ensures Text(PlainTag(t)) == Text(t) <==> Ascii(t)
  {
    PlainNumeral(t.major);
    PlainNumeral(t.minor);
    PlainNumeral(t.patch);
    TagsAreOrdered(t, PlainTag(t));
    MatchIsComplete(t);
    MatchIsComplete(PlainTag(t));
  }

  /** One with an Arabic zero. */
  lemma ForeignTag()
    ensures var t := Tag("1\U{660}", "0", "0", None); Formed(t) && !Ascii(t) && PlainTag(t) == Tag("10", "0", "0", None)
  {
    var t := Tag("1\U{660}", "0", "0", None);
    assert FOREIGN_ZEROS[0] == 0x660;
    assert ZeroOf(0x660, 0) == Some(0x660);
    assert Worth('\U{660}') == Some(0) && Worth('1') == Some(1);
    assert !Digit(t.major[1]) && Decimal(t.major[0]) && Decimal(t.major[1]);
    assert Plain(t.major)[0] as int == '1' as int && Plain(t.major)[1] as int == '0' as int;
    assert Plain(t.major) == "10";
    PlainNumeral("0");
  }

  predicate Agrees(s: Tag, t: Tag, before: bool, after: bool)
    requires Formed(s) && Formed(t)
  {
    (Compare(s, t) < 0 <==> before) && (Compare(s, t) > 0 <==> after)
  }

  /** The lower-case tags are exactly those that compare as the standard says with every lower-case tag. */
  lemma AgreementIsExact(s: Tag)
    requires SemVer(s)
    ensures LowerCase(s) <==>
            forall t :: SemVer(t) && LowerCase(t) ==> Agrees(s, t, Precedes(s, t), Precedes(t, s))
  {
    if LowerCase(s) {
      forall t | SemVer(t) && LowerCase(t) ensures Agrees(s, t, Precedes(s, t), Precedes(t, s)) {
        AgreesWithTheStandard(s, t);
      }
    } else {
      UpperCaseTies(s);
      var t := LowerTag(s);
      assert !Agrees(s, t, Precedes(s, t), Precedes(t, s));
    }
  }
}
