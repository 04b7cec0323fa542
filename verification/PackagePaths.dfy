/** Names of package members: what `_safe_member` accepts, and into what. */
module PackagePaths {
  import opened Common

  /** `value.replace("\\", "/")` */
  function Slashes(s: string): string {
    seq(|s|, i requires 0 <= i < |s| => if s[i] == '\\' then '/' else s[i])
  }

  function Split(s: string): (r: seq<string>)
    ensures |r| >= 1
  {
    if s == "" then [""]
    else
      var rest := Split(s[1..]);
      if s[0] == '/' then [""] + rest else [[s[0]] + rest[0]] + rest[1..]
  }

  function Join(parts: seq<string>): string {
    if parts == [] then "" else if |parts| == 1 then parts[0] else parts[0] + "/" + Join(parts[1..])
  }

  /** The parts of a pure POSIX path: empty ones and single dots are not kept. */
  function Kept(parts: seq<string>): seq<string> {
    if parts == [] then []
    else (if parts[0] == "" || parts[0] == "." then [] else [parts[0]]) + Kept(parts[1..])
  }

  /** `_safe_member` (backup_migration.py:146-157). */
  function SafeMember(name: string): Option<string> {
    var value := Slashes(name);
    if value == "" || value[0] == '/' || value[|value| - 1] == '/' then None
    else
      var parts := Kept(Split(value));
      if exists i :: 0 <= i < |parts| && (parts[i] == ".." || ':' in parts[i]) then None
      else
        var normalized := Join(parts);
        if normalized == "" || '\0' in normalized then None else Some(normalized)
  }

  /** A part that names something inside its directory. */
  predicate Proper(p: string) {
    p != "" && p != "." && p != ".." && forall i :: 0 <= i < |p| ==>
      p[i] != '/' && p[i] != '\\' && p[i] != ':' && p[i] != '\0'
  }

  predicate AllProper(parts: seq<string>) {
    parts != [] && forall i :: 0 <= i < |parts| ==> Proper(parts[i])
  }

  /** A name that leads downwards only, written in one way. */
  ghost predicate Normal(name: string) {
    exists parts :: AllProper(parts) && name == Join(parts)
  }

  lemma {:induction false} SplitJoin(parts: seq<string>)
    requires AllProper(parts)
    ensures Split(Join(parts)) == parts && Kept(parts) == parts
  {
    if |parts| == 1 {
      SplitPart(parts[0], "");
      assert parts[0] + "" == parts[0];
      assert Split(parts[0]) == [parts[0]];
      assert Kept(parts[1..]) == [];
    } else {
      SplitJoin(parts[1..]);
      SplitPart(parts[0], "/" + Join(parts[1..]));
      assert parts[0] + "/" + Join(parts[1..]) == parts[0] + ("/" + Join(parts[1..]));
      assert ("/" + Join(parts[1..]))[1..] == Join(parts[1..]);
    }
  }

  /** A part without a slash, before the end or before a slash. */
  lemma {:induction false} SplitPart(p: string, rest: string)
    requires forall i :: 0 <= i < |p| ==> p[i] != '/'
    requires rest == "" || rest[0] == '/'
    ensures Split(p + rest) == [p] + (if rest == "" then [] else Split(rest[1..]))
  {
    if p == "" {
      assert p + rest == rest;
    } else {
      SplitPart(p[1..], rest);
      assert (p + rest)[1..] == p[1..] + rest;
      assert [p[0]] + p[1..] == p;
    }
  }

  lemma {:induction false} JoinChars(parts: seq<string>)
    requires AllProper(parts)
    ensures var n := Join(parts);
      n != "" && n[0] != '/' && n[|n| - 1] != '/' && '\0' !in n && '\\' !in n
  {
    if |parts| > 1 {
      JoinChars(parts[1..]);
    }
  }

  lemma NoBackslash(s: string)
    requires '\\' !in s
    ensures Slashes(s) == s
  {
  }

  /** Normal names are accepted as they are. */
  lemma NormalIsAccepted(name: string)
    requires Normal(name)
    ensures SafeMember(name) == Some(name)
  {
    var parts :| AllProper(parts) && name == Join(parts);
    SplitJoin(parts);
    JoinChars(parts);
    NoBackslash(name);
  }

  lemma {:induction false} SplitChars(s: string)
    requires '\\' !in s
    ensures forall i :: 0 <= i < |Split(s)| ==> '/' !in Split(s)[i] && '\\' !in Split(s)[i]
  {
    if s != "" {
      assert '\\' !in s[1..];
      SplitChars(s[1..]);
      assert s[0] in s;
    }
  }

  lemma {:induction false} KeptParts(parts: seq<string>)
    ensures forall i :: 0 <= i < |Kept(parts)| ==>
              Kept(parts)[i] in parts && Kept(parts)[i] != "" && Kept(parts)[i] != "."
  {
    if parts != [] {
      KeptParts(parts[1..]);
    }
  }

  lemma {:induction false} CharsOfParts(parts: seq<string>, i: nat, c: char)
    requires i < |parts| && c in parts[i]
    ensures c in Join(parts)
  {
    if i > 0 {
      CharsOfParts(parts[1..], i - 1, c);
    }
  }

  /** What is accepted becomes a normal name; so a second pass changes nothing. */
  lemma AcceptedIsNormal(name: string)
    requires SafeMember(name).Some?
    ensures Normal(SafeMember(name).value) && SafeMember(SafeMember(name).value) == SafeMember(name)
  {
    var value := Slashes(name);
    assert '\\' !in value;
    var all := Split(value);
    var parts := Kept(all);
    SplitChars(value);
    KeptParts(all);
    var normalized := Join(parts);
    forall i | 0 <= i < |parts| ensures Proper(parts[i]) {
      assert parts[i] in all;
      forall k | 0 <= k < |parts[i]|
        ensures parts[i][k] != '/' && parts[i][k] != '\\' && parts[i][k] != ':' && parts[i][k] != '\0'
      {
        assert parts[i][k] in parts[i];
        if parts[i][k] == '\0' {
          CharsOfParts(parts, i, '\0');
        }
      }
    }
    assert AllProper(parts);
    NormalIsAccepted(normalized);
  }

  function Leaf(name: string): string {
    var parts := Split(name);
    parts[|parts| - 1]
  }
}
