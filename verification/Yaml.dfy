/**
 The indentation parser: a recursive descent over lines whose index is threaded through the nested calls, and the
 printer that is its inverse. `Block` says what the parser's loop computes; `ParseBlock` is the loop itself.
 */
module Yaml {
  import opened Js
  import opened Sorting
  import opened Scheduler

  /** A number is represented by its decimal text. */
  datatype Scalar = Text(s: string) | Bool(b: bool) | Null | Num(digits: string)

  /** A parsed value; a record lists its entries in the order of their first assignment. */
  datatype Value = Leaf(scalar: Scalar) | Arr(items: seq<Value>) | Rec(entries: seq<(string, Value)>)

  // ---- Characters and lines ----

  predicate IsDigit(c: char) {
    '0' <= c <= '9'
  }

  predicate AllDigits(s: string) {
    s != "" && forall i :: 0 <= i < |s| ==> IsDigit(s[i])
  }

  /** `/^-?\d+(\.\d+)?$/` */
  predicate NumberText(s: string) {
    var u := if StartsWith(s, "-") then s[1..] else s;
    var d := First(u, '.');
    if d < 0 then AllDigits(u) else AllDigits(u[..d]) && AllDigits(u[d + 1..])
  }

  /** Position of the first `c`, or -1. */
  function First(s: string, c: char): (r: int)
    ensures -1 <= r < |s|
    ensures r >= 0 ==> s[r] == c && forall i :: 0 <= i < r ==> s[i] != c
    ensures r < 0 ==> forall i :: 0 <= i < |s| ==> s[i] != c
  {
    if s == "" then -1
    else if s[0] == c then 0
    else
      var r := First(s[1..], c);
      if r < 0 then -1 else r + 1
  }

  function DropReturn(s: string): string {
    if EndsWith(s, "\r") then s[..|s| - 1] else s
  }

  /** `split(/\r?\n/)` */
  function Split(text: string): seq<string>
    decreases |text|
  {
    var n := First(text, '\n');
    if n < 0 then [text] else [DropReturn(text[..n])] + Split(text[n + 1..])
  }

  /** `search(/\S/)`, for a line that is not blank. */
  function Indent(line: string): nat {
    if line != "" && IsSpace(line[0]) then 1 + Indent(line[1..]) else 0
  }

  /** Blank, or a comment. */
  predicate Skipped(line: string) {
    Trim(line) == "" || StartsWith(Trim(line), "#")
  }

  function Inner(s: string): string {
    if |s| < 2 then "" else s[1..|s| - 1]
  }

  function ParseScalar(raw: string): Scalar {
    var s := Trim(raw);
    if (StartsWith(s, "\"") && EndsWith(s, "\"")) || (StartsWith(s, "'") && EndsWith(s, "'")) then Text(Inner(s))
    else if s == "true" then Bool(true)
    else if s == "false" then Bool(false)
    else if s == "null" || s == "~" then Null
    else if NumberText(s) then Num(s)
    else Text(s)
  }

  // ---- Records under construction ----

  /** `result[key] = value`: the first assignment fixes the key's place. */
  function Assign(acc: seq<(string, Value)>, key: string, v: Value): seq<(string, Value)> {
    if acc == [] then [(key, v)]
    else if acc[0].0 == key then [(key, v)] + acc[1..]
    else [acc[0]] + Assign(acc[1..], key, v)
  }

  function Dec(n: nat): string {
    if n < 10 then [('0' as int + n) as char] else Dec(n / 10) + [('0' as int + n % 10) as char]
  }

  function NumberOf(s: string): nat {
    if s == "" then 0
    else NumberOf(s[..|s| - 1]) * 10 + (if IsDigit(s[|s| - 1]) then s[|s| - 1] as int - '0' as int else 0)
  }

  /** A canonical array index: such keys come first among an object's own keys. */
  predicate IsIndex(s: string) {
    AllDigits(s) && (s == "0" || s[0] != '0') && NumberOf(s) <= 4294967294
  }

  function ByNumber(): ((string, Value), (string, Value)) -> bool {
    (a: (string, Value), b: (string, Value)) => NumberOf(a.0) <= NumberOf(b.0)
  }

  /** The values of all-numeric keys, sorted by number; equal numbers stay in own-key order. */
  function Sorted(entries: seq<(string, Value)>): seq<(string, Value)> {
    Sort(Filter((e: (string, Value)) => IsIndex(e.0), entries) + Filter((e: (string, Value)) => !IsIndex(e.0), entries), ByNumber())
  }

  function Values(entries: seq<(string, Value)>): seq<Value> {
    Map((e: (string, Value)) => e.1, entries)
  }

  predicate LooksLikeArray(entries: seq<(string, Value)>) {
    entries != [] && forall i :: 0 <= i < |entries| ==> AllDigits(entries[i].0)
  }

  function Finish(entries: seq<(string, Value)>): Value {
    if LooksLikeArray(entries) then Arr(Values(Sorted(entries))) else Rec(entries)
  }

  /**
   The order in which the host sorts the entries of an array block that also has other keys; its comparator is
   inconsistent there, so any order is possible.
   */
  type Mixed = seq<(string, Value)> -> seq<(string, Value)>

  function ArrayOf(entries: seq<(string, Value)>, mixed: Mixed): Value {
    if LooksLikeArray(entries) then Arr(Values(Sorted(entries))) else Arr(Values(mixed(entries)))
  }

  // ---- What the loop computes ----

  datatype Parsed = Parsed(entries: seq<(string, Value)>, next: nat)

  /** The rest of the loop of `parseBlock`, from line `idx` with the record built so far. */
  function Block(lines: seq<string>, idx: nat, base: nat, acc: seq<(string, Value)>, mixed: Mixed): (r: Parsed)
    requires idx <= |lines|
    ensures idx <= r.next <= |lines|
    ensures r.next == |lines| || (!Skipped(lines[r.next]) && Indent(lines[r.next]) < base)
    decreases |lines| - idx
  {
    if idx == |lines| then Parsed(acc, idx)
    else
      var line := lines[idx];
      var t := Trim(line);
      if Skipped(line) then Block(lines, idx + 1, base, acc, mixed)
      else if Indent(line) < base then Parsed(acc, idx)
      else if Indent(line) > base then Block(lines, idx + 1, base, acc, mixed)
      else if StartsWith(t, "- ") then
        Block(lines, idx + 1, base, Assign(acc, Dec(idx), Leaf(ParseScalar(Trim(t[2..])))), mixed)
      else if First(t, ':') < 0 then Block(lines, idx + 1, base, acc, mixed)
      else
        var c := First(t, ':');
        var key, after := Trim(t[..c]), Trim(t[c + 1..]);
        if after != "" then Block(lines, idx + 1, base, Assign(acc, key, Leaf(ParseScalar(after))), mixed)
        else if idx + 1 == |lines| || Skipped(lines[idx + 1]) || Indent(lines[idx + 1]) <= Indent(line) then
          Block(lines, idx + 1, base, acc, mixed)
        else
          var nested := Block(lines, idx + 1, Indent(lines[idx + 1]), [], mixed);
          var v := if StartsWith(Trim(lines[idx + 1]), "- ") then ArrayOf(nested.entries, mixed) else Finish(nested.entries);
          Block(lines, nested.next, base, Assign(acc, key, v), mixed)
  }

  function Parse(text: string, mixed: Mixed): Value {
    Finish(Block(Split(text), 0, 0, [], mixed).entries)
  }

  // ---- The parser as it runs ----

  /** The loop over lines, with its index and its record, calling itself on nested blocks. */
  method ParseBlock(lines: seq<string>, startIdx: nat, baseIndent: nat, mixed: Mixed) returns (value: Value, nextIdx: nat)
    requires startIdx <= |lines|
    ensures var r := Block(lines, startIdx, baseIndent, [], mixed); value == Finish(r.entries) && nextIdx == r.next
    decreases |lines| - startIdx
  {
    hide Indent, Trim, First, Assign, Dec, ParseScalar, Sorted, Values;
    var idx := startIdx;
    var result: seq<(string, Value)> := [];
    while idx < |lines|
      invariant startIdx <= idx <= |lines|
      invariant Block(lines, startIdx, baseIndent, [], mixed) == Block(lines, idx, baseIndent, result, mixed)
      decreases |lines| - idx
    {
      var line := lines[idx];
      var trimmed := Trim(line);
      if trimmed == "" || StartsWith(trimmed, "#") {
        idx := idx + 1;
        continue;
      }
      var indent := Indent(line);
      if indent < baseIndent {
        break;
      }
      if indent > baseIndent {
        idx := idx + 1;
        continue;
      }
      if StartsWith(trimmed, "- ") {
        result := Assign(result, Dec(idx), Leaf(ParseScalar(Trim(trimmed[2..]))));
        idx := idx + 1;
        continue;
      }
      var colonIdx := First(trimmed, ':');
      if colonIdx == -1 {
        idx := idx + 1;
        continue;
      }
      var key := Trim(trimmed[..colonIdx]);
      var afterColon := Trim(trimmed[colonIdx + 1..]);
      if afterColon != "" {
        result := Assign(result, key, Leaf(ParseScalar(afterColon)));
        idx := idx + 1;
      } else {
        idx := idx + 1;
        if idx >= |lines| {
          break;
        }
        var nextTrimmed := Trim(lines[idx]);
        if nextTrimmed == "" || StartsWith(nextTrimmed, "#") {
          continue;
        }
        var nextIndent := Indent(lines[idx]);
        if nextIndent <= indent {
          continue;
        }
        ghost var inner := Block(lines, idx, nextIndent, [], mixed);
        var nested, after := ParseBlock(lines, idx, nextIndent, mixed);
        if StartsWith(nextTrimmed, "- ") {
          var arr := if nested.Arr? then nested.items else Values(mixed(nested.entries));
          result := Assign(result, key, Arr(arr));
        } else {
          result := Assign(result, key, nested);
        }
        idx := after;
      }
    }
    value, nextIdx := Finish(result), idx;
  }

  method ParseSimpleYaml(text: string, mixed: Mixed) returns (value: Value)
    ensures value == Parse(text, mixed)
  {
    var lines := Split(text);
    var nextIdx;
    value, nextIdx := ParseBlock(lines, 0, 0, mixed);
  }
}
