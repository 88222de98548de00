/** The string primitives of the source's language that the models need. */
module Js {

  /** White space and line terminators: what `trim` strips and what `\s` matches. */
  predicate IsSpace(c: char) {
    || c == ' ' || '\U{0009}' <= c <= '\U{000D}'
    || c == '\U{00A0}' || c == '\U{1680}' || '\U{2000}' <= c <= '\U{200A}'
    || c == '\U{2028}' || c == '\U{2029}' || c == '\U{202F}' || c == '\U{205F}'
    || c == '\U{3000}' || c == '\U{FEFF}'
  }

  function TrimStart(s: string): string {
    if s != "" && IsSpace(s[0]) then TrimStart(s[1..]) else s
  }

  function TrimEnd(s: string): string {
    if s != "" && IsSpace(s[|s| - 1]) then TrimEnd(s[..|s| - 1]) else s
  }

  function Trim(s: string): string {
    TrimEnd(TrimStart(s))
  }

  /** `typeof s === "string" && s.trim() !== ""`, negated. */
  predicate Blank(s: string) {
    Trim(s) == ""
  }

  predicate StartsWith(s: string, p: string) {
    |p| <= |s| && s[..|p|] == p
  }

  predicate EndsWith(s: string, p: string) {
    |p| <= |s| && s[|s| - |p|..] == p
  }

  /** Drops repeated values, keeping the first occurrence of each. */
  function Dedupe<T(==)>(xs: seq<T>): seq<T> {
    if xs == [] then []
    else
      var front := Dedupe(xs[..|xs| - 1]);
      if xs[|xs| - 1] in front then front else front + [xs[|xs| - 1]]
  }
}
