/** The few string operations of the standard library that the planners use. */
module Texts {
  import opened Names

  const SPACES: set<char> := {' ', '\t', '\n', '\r'}

  function TrimSpace(s: string): string {
    Trim(s, SPACES)
  }

  function Lowered(s: string): (r: string)
    ensures |r| == |s| && forall i :: 0 <= i < |s| ==> r[i] == ToLower(s[i])
  {
    seq(|s|, i requires 0 <= i < |s| => ToLower(s[i]))
  }

  function Split(s: string, separator: char): (parts: seq<string>)
    ensures |parts| >= 1
    ensures forall i :: 0 <= i < |parts| ==> separator !in parts[i]
  {
    if s == "" then [""]
    else
      var rest := Split(s[1..], separator);
      if s[0] == separator then [""] + rest else [[s[0]] + rest[0]] + rest[1..]
  }

  /** A part without separators in front stays whole. */
  lemma {:induction false} SplitHead(part: string, rest: string, separator: char)
    requires separator !in part
    ensures Split(part + [separator] + rest, separator) == [part] + Split(rest, separator)
    ensures Split(part, separator) == [part]
  {
    if part == "" {
      assert part + [separator] + rest == [separator] + rest;
    } else {
      SplitHead(part[1..], rest, separator);
      var s := part + [separator] + rest;
      assert s[1..] == part[1..] + [separator] + rest;
      assert [s[0]] + part[1..] == part;
    }
  }

  lemma TrimSpaceKeeps(s: string)
    requires s != "" && s[0] !in SPACES && s[|s| - 1] !in SPACES
    ensures TrimSpace(s) == s
  {
    assert TrimLeft(s, SPACES) == s;
    assert TrimRight(s, SPACES) == s;
  }
}
