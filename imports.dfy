/** The import record of internal/golang/import.go and its rendering. */
module Imports {
  import opened Wrappers

  /** An import line: optional alias, import path, and the last path segment. */
  datatype GoImport = GoImport(alias: string, path: string, shortName: string)

  /** The escape sequence Go's `%q` writes for one character. */
  function EscapeChar(c: char): string {
    if c == '"' then ['\\', '"']
    else if c == '\\' then ['\\', '\\']
    else if c == '\n' then ['\\', 'n']
    else if c == '\t' then ['\\', 't']
    else [c]
  }

  function Escape(s: string): string
    decreases |s|
  {
    if s == [] then [] else EscapeChar(s[0]) + Escape(s[1..])
  }

  /** `%q` of a string: the escaped text between double quotes. */
  function Quote(s: string): string {
    ['"'] + Escape(s) + ['"']
  }

  /** `String()`: the quoted path, preceded by the alias and one space when there is an alias. */
  function ImportString(i: GoImport): (r: string)
    ensures |r| >= |Quote(i.path)| && r[|r| - |Quote(i.path)|..] == Quote(i.path)
    ensures i.alias == "" ==> r == Quote(i.path)
    ensures i.alias != "" ==> |r| > |i.alias| && r[..|i.alias| + 1] == i.alias + " "
  {
    if i.alias == "" then Quote(i.path) else i.alias + " " + Quote(i.path)
  }

  /** Inverse of `Escape`. */
  function Unescape(s: string): string
    decreases |s|
  {
    if s == [] then []
    else if s[0] == '\\' && |s| >= 2 then
      [if s[1] == 'n' then '\n' else if s[1] == 't' then '\t' else s[1]] + Unescape(s[2..])
    else [s[0]] + Unescape(s[1..])
  }

  /** Position of the first space, or `|s|` when there is none. */
  function IndexOfSpace(s: string): (k: nat)
    ensures k <= |s|
    ensures forall j :: 0 <= j < k ==> s[j] != ' '
    ensures k < |s| ==> s[k] == ' '
    decreases |s|
  {
    if s == [] then 0 else if s[0] == ' ' then 0 else 1 + IndexOfSpace(s[1..])
  }

  function Unquote(s: string): Option<string> {
    if |s| >= 2 && s[0] == '"' && s[|s| - 1] == '"' then Some(Unescape(s[1..|s| - 1])) else None
  }

  /** Reads an import line back into its alias and path. */
  function ParseImportString(s: string): Option<(string, string)> {
    if |s| > 0 && s[0] == '"' then
      match Unquote(s)
      case Some(p) => Some(("", p))
      case None => None
    else
      var k := IndexOfSpace(s);
      if k == |s| then None
      else
        match Unquote(s[k + 1..])
        case Some(p) => Some((s[..k], p))
        case None => None
  }

  /** An alias as Go allows one: no space and not starting with a quote. */
  predicate ValidAlias(a: string) {
    (a == "" || a[0] != '"') && forall j :: 0 <= j < |a| ==> a[j] != ' '
  }

  lemma {:induction false} UnescapeEscape(s: string)
    ensures Unescape(Escape(s)) == s
    decreases |s|
  {
    if s != [] {
      var c, rest := s[0], s[1..];
      var e := EscapeChar(c) + Escape(rest);
      UnescapeEscape(rest);
      if c == '"' || c == '\\' || c == '\n' || c == '\t' {
        assert e[0] == '\\' && e[2..] == Escape(rest);
      } else {
        assert e[0] == c && e[1..] == Escape(rest);
      }
      assert s == [c] + rest;
    }
  }

  lemma UnquoteQuote(s: string)
    ensures Unquote(Quote(s)) == Some(s)
  {
    var q := Quote(s);
    assert q[1..|q| - 1] == Escape(s);
    UnescapeEscape(s);
  }

  /** Rendering loses nothing: alias and path can be read back from `String()`. */
  lemma StringRoundTrip(i: GoImport)
    requires ValidAlias(i.alias)
    ensures ParseImportString(ImportString(i)) == Some((i.alias, i.path))
  {
    var s := ImportString(i);
    UnquoteQuote(i.path);
    if i.alias != "" {
      var k := |i.alias|;
      assert s == i.alias + " " + Quote(i.path);
      assert s[k] == ' ';
      assert forall j :: 0 <= j < k ==> s[j] == i.alias[j];
      assert IndexOfSpace(s) == k;
      assert s[k + 1..] == Quote(i.path);
      assert s[..k] == i.alias;
    }
  }

  /** Two imports print alike exactly when alias and path agree; the short name never matters. */
  lemma StringDeterminesAliasAndPath(a: GoImport, b: GoImport)
    requires ValidAlias(a.alias) && ValidAlias(b.alias)
    ensures ImportString(a) == ImportString(b) <==> a.alias == b.alias && a.path == b.path
  {
    StringRoundTrip(a);
    StringRoundTrip(b);
  }
}
