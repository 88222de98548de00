/**
 The printer, what the parser makes of any printed tree, and the theorem that says exactly when that is the tree
 again.
 */
module YamlRoundTrip {
  import opened Types
  import opened Js
  import opened Sorting
  import opened Scheduler
  import opened Yaml

  /** What the printer is given: records of scalars, lists of scalars and further records. */
  datatype Tree = Single(scalar: Scalar) | List(items: seq<Scalar>) | Record(fields: seq<Field>)

  datatype Field = Field(key: string, value: Tree)

  // ---- Printing ----

  function Pad(n: nat): (s: string)
    ensures |s| == n && forall i :: 0 <= i < n ==> s[i] == ' '
  {
    seq(n, i => ' ')
  }

  function ScalarText(s: Scalar): string {
    match s
    case Text(x) => "\"" + x + "\""
    case Bool(b) => if b then "true" else "false"
    case Null => "null"
    case Num(d) => d
  }

  function ItemLines(items: seq<Scalar>, indent: nat): (ls: seq<string>)
    ensures |ls| == |items|
  {
    seq(|items|, (i: nat) requires i < |items| => Pad(indent + 2) + "- " + ScalarText(items[i]))
  }

  function FieldLines(f: Field, indent: nat): (ls: seq<string>)
    ensures ls != []
    decreases f
  {
    match f.value
    case Single(s) => [Pad(indent) + (f.key + ": " + ScalarText(s))]
    case List(items) => [Pad(indent) + (f.key + ":")] + ItemLines(items, indent)
    case Record(fields) => [Pad(indent) + (f.key + ":")] + LinesOf(fields, indent + 2)
  }

  function LinesOf(fields: seq<Field>, indent: nat): seq<string>
    decreases fields
  {
    if fields == [] then [] else FieldLines(fields[0], indent) + LinesOf(fields[1..], indent)
  }

  /** Lines, each ended by a newline. */
  function Join(lines: seq<string>): string {
    if lines == [] then "" else lines[0] + "\n" + Join(lines[1..])
  }

  lemma {:induction false} JoinAppend(xs: seq<string>, ys: seq<string>)
    ensures Join(xs + ys) == Join(xs) + Join(ys)
  {
    if xs == [] {
      assert xs + ys == ys;
    } else {
      JoinAppend(xs[1..], ys);
      assert (xs + ys)[0] == xs[0] && (xs + ys)[1..] == xs[1..] + ys;
    }
  }

  /** The printer as it runs: `out` grows by concatenation, with a call for each nested record. */
  method ToSimpleYaml(fields: seq<Field>, indent: nat) returns (out: string)
    ensures out == Join(LinesOf(fields, indent))
    decreases fields
  {
    out := "";
    assert fields[0..] == fields;
    for i := 0 to |fields|
      invariant out + Join(LinesOf(fields[i..], indent)) == Join(LinesOf(fields, indent))
    {
      assert fields[i..][0] == fields[i] && fields[i..][1..] == fields[i + 1..];
      JoinAppend(FieldLines(fields[i], indent), LinesOf(fields[i + 1..], indent));
      var text := PrintField(fields[i], indent);
      out := out + text;
    }
    assert fields[|fields|..] == [];
  }

  /** One turn of the printer's loop, by the kind of the value. */
  method PrintField(f: Field, indent: nat) returns (out: string)
    ensures out == Join(FieldLines(f, indent))
    decreases f
  {
    var prefix := Pad(indent);
    match f.value {
      case Record(inner) =>
        out := prefix + (f.key + ":") + "\n";
        JoinOne(prefix + (f.key + ":"));
        JoinAppend([prefix + (f.key + ":")], LinesOf(inner, indent + 2));
        var nested := ToSimpleYaml(inner, indent + 2);
        out := out + nested;
      case List(items) =>
        out := prefix + (f.key + ":") + "\n";
        JoinOne(prefix + (f.key + ":"));
        JoinAppend([prefix + (f.key + ":")], ItemLines(items, indent));
        var body := PrintItems(items, indent);
        out := out + body;
      case Single(x) =>
        JoinOne(prefix + (f.key + ": " + ScalarText(x)));
        out := prefix + (f.key + ": " + ScalarText(x)) + "\n";
    }
  }

  lemma JoinOne(line: string)
    ensures Join([line]) == line + "\n"
  {
    assert [line][1..] == [];
  }

  method PrintItems(items: seq<Scalar>, indent: nat) returns (out: string)
    ensures out == Join(ItemLines(items, indent))
  {
    out := "";
    for i := 0 to |items|
      invariant out == Join(ItemLines(items[..i], indent))
    {
      var line := Pad(indent + 2) + "- " + ScalarText(items[i]);
      assert ItemLines(items[..i + 1], indent) == ItemLines(items[..i], indent) + [line];
      JoinAppend(ItemLines(items[..i], indent), [line]);
      JoinOne(line);
      out := out + (line + "\n");
    }
    assert items[..|items|] == items;
  }

  // ---- What a tree means, and which trees are clean ----

  function Meant(t: Tree): Value
    decreases t
  {
    match t
    case Single(s) => Leaf(s)
    case List(items) => Arr(seq(|items|, (i: nat) requires i < |items| => Leaf(items[i])))
    case Record(fields) => Rec(MeantFields(fields))
  }

  function MeantFields(fields: seq<Field>): (es: seq<(string, Value)>)
    ensures |es| == |fields| && forall i :: 0 <= i < |es| ==> es[i].0 == fields[i].key
    decreases fields
  {
    if fields == [] then [] else [(fields[0].key, Meant(fields[0].value))] + MeantFields(fields[1..])
  }

  /** Not empty, no white space at either end, no colon or newline, and not the start of a comment or an item. */
  predicate CleanKey(k: string) {
    && k != "" && !IsSpace(k[0]) && !IsSpace(k[|k| - 1])
    && (forall i :: 0 <= i < |k| ==> k[i] != ':' && k[i] != '\n')
    && k[0] != '#' && !StartsWith(k, "- ")
  }

  /** A character that occurs in the text of a number, be it decimal, with an exponent, infinite or not a number. */
  predicate NumberChar(c: char) {
    IsDigit(c) || c in {'-', '+', '.', 'e', 'N', 'a', 'I', 'n', 'f', 'i', 't', 'y'}
  }

  predicate Numeral(d: string) {
    d != "" && (IsDigit(d[0]) || d[0] in {'-', 'N', 'I'}) && forall i :: 0 <= i < |d| ==> NumberChar(d[i])
  }

  predicate CleanScalar(s: Scalar) {
    && (s.Text? ==> forall i :: 0 <= i < |s.s| ==> s.s[i] != '\n')
    && (s.Num? ==> Numeral(s.digits))
  }

  /** Clean keys, each once in its record, over newline-free scalars; lists and records may be empty. */
  predicate Clean(t: Tree)
    decreases t, 2
  {
    match t
    case Single(s) => CleanScalar(s)
    case List(items) => forall i :: 0 <= i < |items| ==> CleanScalar(items[i])
    case Record(fields) => CleanFields(fields)
  }

  predicate DistinctKeys(fields: seq<Field>) {
    forall i, j :: 0 <= i < j < |fields| ==> fields[i].key != fields[j].key
  }

  predicate CleanEach(fields: seq<Field>)
    decreases fields, 0
  {
    forall i :: 0 <= i < |fields| ==> CleanKey(fields[i].key) && Clean(fields[i].value)
  }

  predicate CleanFields(fields: seq<Field>)
    decreases fields, 1
  {
    DistinctKeys(fields) && CleanEach(fields)
  }

  // ---- What the parser makes of a printed tree, and when that is the tree again ----

  /** A number that is not plainly decimal comes back as text. */
  function ScalarRead(s: Scalar): Scalar {
    if s.Num? && !NumberText(s.digits) then Text(s.digits) else s
  }

  /** Nothing, and then the key is lost too, for an empty list or record; an array for a record of numeric keys. */
  function Read(t: Tree): Option<Value>
    decreases t
  {
    match t
    case Single(s) => Some(Leaf(ScalarRead(s)))
    case List(items) =>
      if items == [] then None else Some(Arr(seq(|items|, (i: nat) requires i < |items| => Leaf(ScalarRead(items[i])))))
    case Record(fields) => if fields == [] then None else Some(Finish(ReadFields(fields)))
  }

  function ReadField(f: Field): (es: seq<(string, Value)>)
    ensures |es| <= 1 && forall i :: 0 <= i < |es| ==> es[i].0 == f.key
    decreases f
  {
    match Read(f.value)
    case None => []
    case Some(v) => [(f.key, v)]
  }

  function ReadFields(fields: seq<Field>): (es: seq<(string, Value)>)
    ensures |es| <= |fields|
    decreases fields
  {
    if fields == [] then [] else ReadField(fields[0]) + ReadFields(fields[1..])
  }

  predicate NotAllNumeric(fields: seq<Field>) {
    fields == [] || exists i :: 0 <= i < |fields| && !AllDigits(fields[i].key)
  }

  /** No list or record is empty, no record has only numeric keys, and every number is plainly decimal. */
  predicate Lossless(t: Tree)
    decreases t, 1
  {
    match t
    case Single(s) => ScalarRead(s) == s
    case List(items) => items != [] && forall i :: 0 <= i < |items| ==> ScalarRead(items[i]) == items[i]
    case Record(fields) => fields != [] && LosslessFields(fields)
  }

  /** The same for a whole document, which itself may be empty. */
  predicate LosslessFields(fields: seq<Field>)
    decreases fields, 0
  {
    NotAllNumeric(fields) && forall i :: 0 <= i < |fields| ==> Lossless(fields[i].value)
  }

  // ---- One line ----

  lemma {:induction false} TrimStartPad(n: nat, s: string)
    requires s != "" && !IsSpace(s[0])
    ensures TrimStart(Pad(n) + s) == s && Indent(Pad(n) + s) == n
  {
    var line := Pad(n) + s;
    if n == 0 {
      assert line == s;
    } else {
      assert line[1..] == Pad(n - 1) + s;
      TrimStartPad(n - 1, s);
    }
  }

  /** White space is only trimmed from the ends. */
  lemma TrimPad(n: nat, s: string)
    requires s != "" && !IsSpace(s[0]) && !IsSpace(s[|s| - 1])
    ensures Trim(Pad(n) + s) == s && Indent(Pad(n) + s) == n
    ensures Trim(s) == s
  {
    TrimStartPad(n, s);
    TrimStartPad(0, s);
    assert Pad(0) + s == s;
  }

  /** One line of text that starts and ends visibly. */
  predicate Solid(t: string) {
    && t != "" && !IsSpace(t[0]) && !IsSpace(t[|t| - 1])
    && (forall i :: 0 <= i < |t| ==> t[i] != '\n')
  }

  lemma SolidTrim(t: string)
    requires Solid(t)
    ensures Trim(t) == t
  {
    TrimPad(0, t);
  }

  /** A printed scalar is solid, and reads back as itself unless it is a number that is not plainly decimal. */
  lemma ScalarBack(s: Scalar)
    requires CleanScalar(s)
    ensures Solid(ScalarText(s)) && ParseScalar(ScalarText(s)) == ScalarRead(s)
    ensures ParseScalar(ScalarText(s)) == s <==> (s.Num? ==> NumberText(s.digits))
  {
    match s {
      case Text(x) => TextBack(x);
      case Bool(b) => WordsBack(s);
      case Null => WordsBack(s);
      case Num(d) => NumberBack(d);
    }
  }

  lemma TextBack(x: string)
    requires forall i :: 0 <= i < |x| ==> x[i] != '\n'
    ensures Solid(ScalarText(Text(x))) && ParseScalar(ScalarText(Text(x))) == Text(x)
  {
    var t := "\"" + x + "\"";
    assert t[0] == '\"' && t[|t| - 1] == '\"' && forall i :: 1 <= i < |t| - 1 ==> t[i] == x[i - 1];
    SolidTrim(t);
    assert t[..1] == "\"" && t[|t| - 1..] == "\"" && t[1..|t| - 1] == x;
    hide Trim;
  }

  /** A word that is not quoted is compared with the three that have a meaning. */
  lemma WordBack(w: string)
    requires Solid(w) && w[0] != '\"' && w[0] != '\''
    ensures w == "true" ==> ParseScalar(w) == Bool(true)
    ensures w != "true" && w == "false" ==> ParseScalar(w) == Bool(false)
    ensures w != "true" && w != "false" && w == "null" ==> ParseScalar(w) == Null
  {
    hide Trim, NumberText, Inner, EndsWith;
    SolidTrim(w);
    assert w[..1] == [w[0]];
  }

  lemma WordsBack(s: Scalar)
    requires s.Bool? || s.Null?
    ensures Solid(ScalarText(s)) && ParseScalar(ScalarText(s)) == s
  {
    hide ParseScalar;
    assert "true"[0] == 't' && "false"[0] == 'f' && "null"[0] == 'n';
    WordBack(ScalarText(s));
  }

  lemma NumberCharVisible(c: char)
    requires NumberChar(c)
    ensures !IsSpace(c) && c != '\n' && c != '\"' && c != '\''
  {
  }

  lemma NumberSolid(d: string)
    requires Numeral(d)
    ensures Solid(d) && d != "" && d[0] != '\"' && d[0] != '\'' && d[0] != 't' && d[0] != 'f' && d[0] != 'n' && d[0] != '~'
  {
    hide IsSpace, NumberChar;
    forall i | 0 <= i < |d| ensures d[i] != '\n' {
      NumberCharVisible(d[i]);
    }
    NumberCharVisible(d[0]);
    NumberCharVisible(d[|d| - 1]);
  }

  lemma NoWord(d: string)
    requires d != "" && d[0] != '\"' && d[0] != '\'' && d[0] != 't' && d[0] != 'f' && d[0] != 'n' && d[0] != '~'
    ensures !StartsWith(d, "\"") && !StartsWith(d, "'") && d != "true" && d != "false" && d != "null" && d != "~"
  {
    assert d[..1] == [d[0]];
    assert "true"[0] == 't' && "false"[0] == 'f' && "null"[0] == 'n' && "~"[0] == '~';
  }

  lemma NumberBack(d: string)
    requires Numeral(d)
    ensures Solid(d) && ParseScalar(d) == ScalarRead(Num(d))
  {
    hide Trim, NumberText, Numeral, IsSpace, StartsWith, EndsWith, Solid, Inner;
    NumberSolid(d);
    SolidTrim(d);
    NoWord(d);
  }

  lemma KeyColon(key: string, rest: string)
    requires CleanKey(key)
    ensures var t := key + (":" + rest);
            && First(t, ':') == |key| && t[..|key|] == key && t[|key| + 1..] == rest && Trim(key) == key
            && t[0] == key[0] && !StartsWith(t, "- ")
  {
    var t := key + (":" + rest);
    assert t[|key|] == ':';
    TrimPad(0, key);
    if |key| >= 2 {
      assert t[..2] == key[..2];
    } else {
      assert t[1] == ':';
    }
  }

  // ---- One step of the parser on a printed line ----

  /** A printed line: indented by `n`, visible at both ends, and neither a comment nor blank. */
  predicate Printed(line: string, n: nat, t: string) {
    line == Pad(n) + t && Solid(t) && t[0] != '#'
  }

  lemma PrintedFacts(line: string, n: nat, t: string)
    requires Printed(line, n, t)
    ensures Trim(line) == t && Indent(line) == n && !Skipped(line)
  {
    TrimPad(n, t);
  }

  lemma SingleLine(key: string, x: Scalar, n: nat)
    requires CleanKey(key) && CleanScalar(x)
    ensures Printed(Pad(n) + (key + ": " + ScalarText(x)), n, key + ": " + ScalarText(x))
    ensures var t := key + ": " + ScalarText(x);
            && First(t, ':') == |key| && Trim(t[..|key|]) == key && !StartsWith(t, "- ")
            && Trim(t[|key| + 1..]) == ScalarText(x) && ScalarText(x) != ""
  {
    hide Trim, First, IsSpace, ScalarText, ParseScalar, CleanScalar;
    ScalarBack(x);
    var st := ScalarText(x);
    var t := key + ": " + st;
    var rest := " " + st;
    assert t == key + (":" + rest);
    KeyColon(key, rest);
    TrimPad(1, st);
    assert rest == Pad(1) + st;
    assert forall i :: 0 <= i < |t| ==>
             t[i] == if i < |key| then key[i] else if i == |key| then ':' else if i == |key| + 1 then ' ' else st[i - |key| - 2];
  }

  lemma HeaderLine(key: string, n: nat)
    requires CleanKey(key)
    ensures Printed(Pad(n) + (key + ":"), n, key + ":")
    ensures var t := key + ":";
            First(t, ':') == |key| && Trim(t[..|key|]) == key && !StartsWith(t, "- ") && Trim(t[|key| + 1..]) == ""
  {
    assert key + ":" == key + (":" + "");
    KeyColon(key, "");
  }

  lemma ItemLine(x: Scalar, n: nat)
    requires CleanScalar(x)
    ensures Printed(Pad(n) + "- " + ScalarText(x), n, "- " + ScalarText(x))
    ensures var t := "- " + ScalarText(x); StartsWith(t, "- ") && Trim(t[2..]) == ScalarText(x)
  {
    ScalarBack(x);
    var t := "- " + ScalarText(x);
    assert Pad(n) + "- " + ScalarText(x) == Pad(n) + t;
    assert t[2..] == ScalarText(x) && t[..2] == "- ";
    SolidTrim(ScalarText(x));
    assert t[|t| - 1] == ScalarText(x)[|ScalarText(x)| - 1];
  }

  lemma {:induction false} AssignNew(acc: seq<(string, Value)>, key: string, v: Value)
    requires forall i :: 0 <= i < |acc| ==> acc[i].0 != key
    ensures Assign(acc, key, v) == acc + [(key, v)]
  {
    if acc != [] {
      AssignNew(acc[1..], key, v);
      assert acc == [acc[0]] + acc[1..];
    }
  }

  predicate NewKey(acc: seq<(string, Value)>, key: string) {
    forall i :: 0 <= i < |acc| ==> acc[i].0 != key
  }

  lemma StepSingle(lines: seq<string>, i: nat, base: nat, acc: seq<(string, Value)>, mixed: Mixed, key: string, x: Scalar)
    requires i < |lines| && lines[i] == Pad(base) + (key + ": " + ScalarText(x))
    requires CleanKey(key) && CleanScalar(x) && NewKey(acc, key)
    ensures Block(lines, i, base, acc, mixed) == Block(lines, i + 1, base, acc + [(key, Leaf(ScalarRead(x)))], mixed)
  {
    SingleLine(key, x, base);
    PrintedFacts(lines[i], base, key + ": " + ScalarText(x));
    ScalarBack(x);
    AssignNew(acc, key, Leaf(ScalarRead(x)));
    hide Trim, Indent, First, Skipped, Printed, ParseScalar;
  }

  lemma StepItem(lines: seq<string>, i: nat, base: nat, acc: seq<(string, Value)>, mixed: Mixed, x: Scalar)
    requires i < |lines| && lines[i] == Pad(base) + "- " + ScalarText(x) && CleanScalar(x) && NewKey(acc, Dec(i))
    ensures Block(lines, i, base, acc, mixed) == Block(lines, i + 1, base, acc + [(Dec(i), Leaf(ScalarRead(x)))], mixed)
    ensures !Skipped(lines[i]) && Indent(lines[i]) == base && StartsWith(Trim(lines[i]), "- ")
  {
    ItemLine(x, base);
    PrintedFacts(lines[i], base, "- " + ScalarText(x));
    ScalarBack(x);
    AssignNew(acc, Dec(i), Leaf(ScalarRead(x)));
    hide Trim, Indent, First, Skipped, Printed, ParseScalar, Dec;
  }

  /** A header opens the block below it, which is indented further. */
  lemma StepHeader(lines: seq<string>, i: nat, base: nat, acc: seq<(string, Value)>, mixed: Mixed, key: string)
    requires i + 1 < |lines| && lines[i] == Pad(base) + (key + ":") && CleanKey(key) && NewKey(acc, key)
    requires !Skipped(lines[i + 1]) && Indent(lines[i + 1]) > base
    ensures var nested := Block(lines, i + 1, Indent(lines[i + 1]), [], mixed);
            var v := if StartsWith(Trim(lines[i + 1]), "- ") then ArrayOf(nested.entries, mixed) else Finish(nested.entries);
            Block(lines, i, base, acc, mixed) == Block(lines, nested.next, base, acc + [(key, v)], mixed)
  {
    HeaderLine(key, base);
    PrintedFacts(lines[i], base, key + ":");
    var nested := Block(lines, i + 1, Indent(lines[i + 1]), [], mixed);
    AssignNew(acc, key, if StartsWith(Trim(lines[i + 1]), "- ") then ArrayOf(nested.entries, mixed) else Finish(nested.entries));
    hide Trim, Indent, First, Skipped, Printed, ArrayOf, Finish;
  }

  // ---- Where blocks end ----

  predicate AllBlank(lines: seq<string>, j: nat) {
    forall k :: j <= k < |lines| ==> Trim(lines[k]) == ""
  }

  /** From `j` there are only blank lines, or the next line is indented by at most `base`. */
  predicate Calm(lines: seq<string>, j: nat, base: nat) {
    AllBlank(lines, j) || (j < |lines| && !Skipped(lines[j]) && Indent(lines[j]) <= base)
  }

  lemma {:induction false} BlankTail(lines: seq<string>, j: nat, base: nat, acc: seq<(string, Value)>, mixed: Mixed)
    requires j <= |lines| && AllBlank(lines, j)
    ensures Block(lines, j, base, acc, mixed) == Parsed(acc, |lines|)
    decreases |lines| - j
  {
    hide Trim, Indent, First;
    if j < |lines| {
      BlankTail(lines, j + 1, base, acc, mixed);
    }
  }

  /** A nested block ends where calm begins, and the enclosing block goes on as from there. */
  lemma NestedEnds(lines: seq<string>, j: nat, base: nat, deeper: nat, inner: seq<(string, Value)>, outer: seq<(string, Value)>, mixed: Mixed)
    requires j <= |lines| && Calm(lines, j, base) && base < deeper
    ensures var r := Block(lines, j, deeper, inner, mixed);
            r.entries == inner && Block(lines, r.next, base, outer, mixed) == Block(lines, j, base, outer, mixed)
  {
    hide Trim, Indent, First, Skipped;
    if AllBlank(lines, j) {
      BlankTail(lines, j, deeper, inner, mixed);
      BlankTail(lines, j, base, outer, mixed);
    }
  }

  /** A header with nothing below it is passed over, and its key with it. */
  lemma StepLost(lines: seq<string>, i: nat, base: nat, acc: seq<(string, Value)>, mixed: Mixed, key: string)
    requires i < |lines| && lines[i] == Pad(base) + (key + ":") && CleanKey(key) && Calm(lines, i + 1, base)
    ensures Block(lines, i, base, acc, mixed) == Block(lines, i + 1, base, acc, mixed)
  {
    HeaderLine(key, base);
    PrintedFacts(lines[i], base, key + ":");
    hide Trim, Indent, First, Printed, ArrayOf, Finish;
  }

  // ---- Items ----

  function ItemEntries(i: nat, items: seq<Scalar>): seq<(string, Value)> {
    seq(|items|, (k: nat) requires k < |items| => (Dec(i + k), Leaf(ScalarRead(items[k]))))
  }

  lemma {:induction false} DecNumber(n: nat)
    ensures NumberOf(Dec(n)) == n && AllDigits(Dec(n))
  {
    var d := Dec(n);
    if n < 10 {
      assert d[..0] == "";
    } else {
      DecNumber(n / 10);
      assert d[..|d| - 1] == Dec(n / 10);
    }
  }

  /** The keys given to items are line numbers, so those above are new. */
  lemma ItemKeyNew(i: nat, items: seq<Scalar>, n: nat)
    requires n >= i + |items|
    ensures NewKey(ItemEntries(i, items), Dec(n))
  {
    DecNumber(n);
    var es := ItemEntries(i, items);
    forall k | 0 <= k < |es| ensures es[k].0 != Dec(n) {
      DecNumber(i + k);
    }
  }

  lemma ItemsSnoc(i: nat, items: seq<Scalar>, k: nat)
    requires 0 < k <= |items|
    ensures ItemEntries(i, items[..k]) == ItemEntries(i, items[..k - 1]) + [(Dec(i + k - 1), Leaf(ScalarRead(items[k - 1])))]
  {
    hide Dec, ScalarRead;
  }

  lemma {:induction false} BlockItems(lines: seq<string>, i: nat, base: nat, mixed: Mixed, items: seq<Scalar>, k: nat)
    requires k <= |items| && i + |items| <= |lines|
    requires forall m :: 0 <= m < |items| ==> CleanScalar(items[m]) && lines[i + m] == Pad(base) + "- " + ScalarText(items[m])
    ensures Block(lines, i, base, [], mixed) == Block(lines, i + k, base, ItemEntries(i, items[..k]), mixed)
  {
    hide Block, CleanScalar, ScalarText, ScalarRead, Dec, NewKey, Skipped, Indent, Trim;
    if k == 0 {
      assert ItemEntries(i, items[..0]) == [];
    } else {
      hide ItemEntries;
      BlockItems(lines, i, base, mixed, items, k - 1);
      ItemKeyNew(i, items[..k - 1], i + k - 1);
      assert lines[i + (k - 1)] == Pad(base) + "- " + ScalarText(items[k - 1]);
      StepItem(lines, i + k - 1, base, ItemEntries(i, items[..k - 1]), mixed, items[k - 1]);
      ItemsSnoc(i, items, k);
    }
  }

  lemma {:induction false} FilterSplitsMultiset<A>(p: A -> bool, q: A -> bool, xs: seq<A>)
    requires forall x :: x in xs ==> q(x) == !p(x)
    ensures multiset(Filter(p, xs)) + multiset(Filter(q, xs)) == multiset(xs)
  {
    if xs != [] {
      FilterSplitsMultiset(p, q, xs[1..]);
      assert xs == [xs[0]] + xs[1..];
    }
  }

  /** Entries already in strictly rising numeric order are not moved by the sort. */
  lemma SortedAlready(entries: seq<(string, Value)>)
    requires forall i, j :: 0 <= i < j < |entries| ==> NumberOf(entries[i].0) < NumberOf(entries[j].0)
    ensures Sorted(entries) == entries
  {
    hide NumberOf, IsIndex;
    var index := (e: (string, Value)) => IsIndex(e.0);
    var rest := (e: (string, Value)) => !IsIndex(e.0);
    var apart := Filter(index, entries) + Filter(rest, entries);
    FilterSplitsMultiset(index, rest, entries);
    assert multiset(apart) == multiset(entries);
    SortPermutes(apart, ByNumber());
    SortSorts(apart, ByNumber());
    Untied(entries);
    SortedUnique(Sort(apart, ByNumber()), entries, ByNumber());
  }

  lemma Untied(entries: seq<(string, Value)>)
    requires forall i, j :: 0 <= i < j < |entries| ==> NumberOf(entries[i].0) < NumberOf(entries[j].0)
    ensures Antisymmetric(multiset(entries), ByNumber())
  {
    hide NumberOf;
    forall a, b | a in multiset(entries) && b in multiset(entries) && ByNumber()(a, b) && ByNumber()(b, a) ensures a == b {
      assert a in entries && b in entries;
      var i :| 0 <= i < |entries| && entries[i] == a;
      var j :| 0 <= j < |entries| && entries[j] == b;
    }
  }

  /** The array of a block of items: the items, in line order. */
  lemma ArrayOfItems(i: nat, items: seq<Scalar>, mixed: Mixed)
    requires items != []
    ensures Read(List(items)) == Some(ArrayOf(ItemEntries(i, items), mixed))
  {
    var es := ItemEntries(i, items);
    forall k | 0 <= k < |es| ensures NumberOf(es[k].0) == i + k && AllDigits(es[k].0) {
      DecNumber(i + k);
    }
    hide NumberOf, AllDigits, Dec;
    SortedAlready(es);
    ValuesAt(es);
    var vs, ms := Values(es), Read(List(items)).value.items;
    assert |vs| == |ms| && forall k :: 0 <= k < |vs| ==> vs[k] == ms[k];
    assert vs == ms && LooksLikeArray(es);
  }

  lemma {:induction false} ValuesAt(es: seq<(string, Value)>)
    ensures |Values(es)| == |es| && forall k :: 0 <= k < |es| ==> Values(es)[k] == es[k].1
  {
    if es != [] {
      ValuesAt(es[1..]);
      var f := (e: (string, Value)) => e.1;
      assert Values(es) == [es[0].1] + Values(es[1..]);
    }
  }

  // ---- Fields ----

  /** A field's first line is printed at its own indentation and is not an item. */
  lemma FirstLine(f: Field, indent: nat)
    requires CleanKey(f.key) && Clean(f.value)
    ensures var line := FieldLines(f, indent)[0];
            !Skipped(line) && Indent(line) == indent && !StartsWith(Trim(line), "- ")
  {
    hide Trim, Indent, Skipped, First, CleanKey;
    if f.value.Single? {
      SingleLine(f.key, f.value.scalar, indent);
      PrintedFacts(Pad(indent) + (f.key + ": " + ScalarText(f.value.scalar)), indent, f.key + ": " + ScalarText(f.value.scalar));
    } else {
      HeaderLine(f.key, indent);
      PrintedFacts(Pad(indent) + (f.key + ":"), indent, f.key + ":");
    }
  }

  /** The lines from `i` on start with these. */
  predicate LinesAt(lines: seq<string>, i: nat, part: seq<string>) {
    i + |part| <= |lines| && lines[i..i + |part|] == part
  }

  lemma LinesAtSplit(lines: seq<string>, i: nat, xs: seq<string>, ys: seq<string>)
    requires LinesAt(lines, i, xs + ys)
    ensures LinesAt(lines, i, xs) && LinesAt(lines, i + |xs|, ys)
    ensures xs != [] ==> lines[i] == xs[0]
  {
    assert lines[i..i + |xs + ys|][..|xs|] == xs;
    assert lines[i..i + |xs + ys|][|xs|..] == ys;
    if xs != [] {
      assert lines[i] == lines[i..i + |xs + ys|][0];
    }
  }

  lemma CleanTail(fields: seq<Field>)
    requires fields != [] && CleanEach(fields) && DistinctKeys(fields)
    ensures CleanKey(fields[0].key) && Clean(fields[0].value) && CleanEach(fields[1..]) && DistinctKeys(fields[1..])
    ensures forall k :: 0 <= k < |fields[1..]| ==> fields[1..][k].key != fields[0].key
  {
    hide CleanKey, Clean;
    var tail := fields[1..];
    assert forall k :: 0 <= k < |tail| ==> tail[k] == fields[k + 1];
  }

  lemma BlockList(lines: seq<string>, i: nat, base: nat, acc: seq<(string, Value)>, mixed: Mixed, key: string, items: seq<Scalar>)
    requires LinesAt(lines, i, FieldLines(Field(key, List(items)), base)) && items != []
    requires CleanKey(key) && Clean(List(items)) && NewKey(acc, key) && Calm(lines, i + 1 + |items|, base)
    ensures Block(lines, i, base, acc, mixed) == Block(lines, i + 1 + |items|, base, acc + ReadField(Field(key, List(items))), mixed)
  {
    hide Block, Calm, CleanKey, CleanScalar, ScalarText, ScalarRead, NewKey, Trim, Indent, Skipped, ArrayOf, Finish, ItemEntries;
    var j := i + 1 + |items|;
    LinesAtSplit(lines, i, [Pad(base) + (key + ":")], ItemLines(items, base));
    assert forall m :: 0 <= m < |items| ==> lines[i + 1 + m] == ItemLines(items, base)[m];
    StepItem0(lines[i + 1], base + 2, items[0]);
    BlockItems(lines, i + 1, base + 2, mixed, items, |items|);
    assert items[..|items|] == items;
    StepHeader(lines, i, base, acc, mixed, key);
    NestedEnds(lines, j, base, base + 2, ItemEntries(i + 1, items), acc + ReadField(Field(key, List(items))), mixed);
    ArrayOfItems(i + 1, items, mixed);
  }

  lemma StepItem0(line: string, n: nat, x: Scalar)
    requires line == Pad(n) + "- " + ScalarText(x) && CleanScalar(x)
    ensures !Skipped(line) && Indent(line) == n && StartsWith(Trim(line), "- ")
  {
    ItemLine(x, n);
    PrintedFacts(line, n, "- " + ScalarText(x));
  }

  lemma {:induction false} BlockField(lines: seq<string>, i: nat, base: nat, acc: seq<(string, Value)>, mixed: Mixed, f: Field)
    requires LinesAt(lines, i, FieldLines(f, base)) && CleanKey(f.key) && Clean(f.value) && NewKey(acc, f.key)
    requires Calm(lines, i + |FieldLines(f, base)|, base)
    ensures Block(lines, i, base, acc, mixed) == Block(lines, i + |FieldLines(f, base)|, base, acc + ReadField(f), mixed)
    decreases f
  {
    hide Block, Calm, CleanKey, CleanScalar, NewKey, Trim, Indent, Skipped, CleanEach, Finish, DistinctKeys;
    if f.value == List([]) || f.value == Record([]) {
      assert lines[i] == lines[i..i + 1][0];
      StepLost(lines, i, base, acc, mixed, f.key);
      assert acc + [] == acc;
    } else {
      match f.value {
        case Single(x) =>
          assert lines[i] == lines[i..i + 1][0];
          StepSingle(lines, i, base, acc, mixed, f.key, x);
        case List(items) => BlockList(lines, i, base, acc, mixed, f.key, items);
        case Record(inner) => BlockRecord(lines, i, base, acc, mixed, f.key, inner);
      }
    }
  }

  lemma {:induction false} BlockRecord(lines: seq<string>, i: nat, base: nat, acc: seq<(string, Value)>, mixed: Mixed,
                                       key: string, inner: seq<Field>)
    requires LinesAt(lines, i, FieldLines(Field(key, Record(inner)), base)) && inner != []
    requires CleanKey(key) && CleanFields(inner) && NewKey(acc, key)
    requires Calm(lines, i + |FieldLines(Field(key, Record(inner)), base)|, base)
    ensures Block(lines, i, base, acc, mixed)
            == Block(lines, i + |FieldLines(Field(key, Record(inner)), base)|, base, acc + [(key, Finish(ReadFields(inner)))], mixed)
    decreases inner, 1
  {
    hide Block, Calm, CleanKey, CleanScalar, NewKey, Trim, Indent, Skipped, CleanEach, Finish, DistinctKeys, ReadFields;
    var header, nested := [Pad(base) + (key + ":")], LinesOf(inner, base + 2);
    LinesAtSplit(lines, i, header, nested);
    var j := i + 1 + |nested|;
    InnerFirst(inner, base + 2);
    assert lines[i + 1] == lines[i + 1..j][0];
    CalmDeeper(lines, j, base, base + 2);
    assert forall k :: 0 <= k < |inner| ==> NewKey([], inner[k].key) by {
      EmptyNew();
    }
    BlockFields(lines, i + 1, base + 2, [], mixed, inner);
    assert [] + ReadFields(inner) == ReadFields(inner);
    StepHeader(lines, i, base, acc, mixed, key);
    NestedEnds(lines, j, base, base + 2, ReadFields(inner), acc + [(key, Finish(ReadFields(inner)))], mixed);
  }

  lemma EmptyNew()
    ensures forall k :: NewKey([], k)
  {
  }

  lemma CalmDeeper(lines: seq<string>, j: nat, base: nat, deeper: nat)
    requires Calm(lines, j, base) && base <= deeper
    ensures Calm(lines, j, deeper)
  {
    hide Trim, Indent, Skipped;
  }

  lemma InnerFirst(fields: seq<Field>, indent: nat)
    requires fields != [] && CleanEach(fields) && DistinctKeys(fields)
    ensures LinesOf(fields, indent) != []
    ensures var line := LinesOf(fields, indent)[0];
            line == FieldLines(fields[0], indent)[0] && !Skipped(line) && Indent(line) == indent && !StartsWith(Trim(line), "- ")
  {
    hide Trim, Indent, Skipped, CleanKey, Clean;
    CleanTail(fields);
    FirstLine(fields[0], indent);
  }

  /** The parser reads what survives of a run of printed fields, in order, whatever it had read before. */
  lemma {:induction false} BlockFields(lines: seq<string>, i: nat, base: nat, acc: seq<(string, Value)>, mixed: Mixed, fields: seq<Field>)
    requires LinesAt(lines, i, LinesOf(fields, base)) && CleanEach(fields) && DistinctKeys(fields)
    requires forall k :: 0 <= k < |fields| ==> NewKey(acc, fields[k].key)
    requires Calm(lines, i + |LinesOf(fields, base)|, base)
    ensures Block(lines, i, base, acc, mixed)
            == Block(lines, i + |LinesOf(fields, base)|, base, acc + ReadFields(fields), mixed)
    decreases fields, 0
  {
    hide Block, Calm, CleanKey, Clean, CleanEach, DistinctKeys, Trim, Indent, Skipped, FieldLines, NewKey, ReadField;
    if fields == [] {
      assert acc + ReadFields(fields) == acc;
    } else {
      var f, rest := fields[0], fields[1..];
      var first, others := FieldLines(f, base), LinesOf(rest, base);
      CleanTail(fields);
      LinesAtSplit(lines, i, first, others);
      if rest != [] {
        CalmBefore(lines, i + |first|, base, rest);
      }
      BlockField(lines, i, base, acc, mixed, f);
      var grown := acc + ReadField(f);
      forall k | 0 <= k < |rest| ensures NewKey(grown, rest[k].key) {
        assert rest[k] == fields[k + 1];
        NewKeyGrows(acc, f, rest[k].key);
      }
      BlockFields(lines, i + |first|, base, grown, mixed, rest);
      var survived := ReadField(f);
      assert ReadFields(fields) == survived + ReadFields(rest);
      assert acc + (survived + ReadFields(rest)) == (acc + survived) + ReadFields(rest);
    }
  }

  lemma CalmBefore(lines: seq<string>, j: nat, base: nat, fields: seq<Field>)
    requires LinesAt(lines, j, LinesOf(fields, base)) && CleanEach(fields) && DistinctKeys(fields) && fields != []
    ensures Calm(lines, j, base)
  {
    hide Calm, CleanEach, DistinctKeys, Trim, Indent, Skipped, FieldLines, LinesOf;
    InnerFirst(fields, base);
    assert lines[j] == lines[j..j + |LinesOf(fields, base)|][0];
    CalmAt(lines, j, base);
  }

  lemma NewKeyGrows(acc: seq<(string, Value)>, f: Field, other: string)
    requires NewKey(acc, other) && other != f.key
    ensures NewKey(acc + ReadField(f), other)
  {
    hide Read;
  }

  lemma CalmAt(lines: seq<string>, j: nat, base: nat)
    requires j < |lines| && !Skipped(lines[j]) && Indent(lines[j]) <= base
    ensures Calm(lines, j, base)
  {
  }

  // ---- The text ----

  /** A line that the split gives back: no newline in it, and no carriage return at its end. */
  predicate Whole(line: string) {
    (forall i :: 0 <= i < |line| ==> line[i] != '\n') && !EndsWith(line, "\r")
  }

  lemma {:induction false} FirstNewline(line: string, rest: string)
    requires forall i :: 0 <= i < |line| ==> line[i] != '\n'
    ensures First(line + "\n" + rest, '\n') == |line|
  {
    var t := line + "\n" + rest;
    assert t[|line|] == '\n' && forall i :: 0 <= i < |line| ==> t[i] == line[i];
  }

  lemma SplitLine(line: string, rest: string)
    requires Whole(line)
    ensures Split(line + "\n" + rest) == [line] + Split(rest)
  {
    hide First;
    var t := line + "\n" + rest;
    FirstNewline(line, rest);
    assert t[..|line|] == line && t[|line| + 1..] == rest;
  }

  /** Splitting what was joined gives the lines back, and an empty last one. */
  lemma {:induction false} SplitJoin(lines: seq<string>)
    requires forall i :: 0 <= i < |lines| ==> Whole(lines[i])
    ensures Split(Join(lines)) == lines + [""]
  {
    hide Split, Whole;
    if lines == [] {
      EmptySplit();
    } else {
      SplitLine(lines[0], Join(lines[1..]));
      SplitJoin(lines[1..]);
      assert lines + [""] == [lines[0]] + (lines[1..] + [""]);
    }
  }

  lemma EmptySplit()
    ensures Split("") == [""]
  {
  }

  lemma PrintedWhole(line: string, n: nat, t: string)
    requires Printed(line, n, t)
    ensures Whole(line)
  {
    assert line[|line| - 1] == t[|t| - 1];
    assert forall i :: 0 <= i < |line| ==> line[i] == if i < n then ' ' else t[i - n];
    assert line[|line| - 1..] == [t[|t| - 1]];
  }

  lemma {:induction false} FieldWhole(f: Field, indent: nat)
    requires CleanKey(f.key) && Clean(f.value)
    ensures forall k :: 0 <= k < |FieldLines(f, indent)| ==> Whole(FieldLines(f, indent)[k])
    decreases f
  {
    hide Whole, Printed, CleanKey, CleanScalar, DistinctKeys, Trim, First;
    match f.value {
      case Single(x) =>
        SingleLine(f.key, x, indent);
        PrintedWhole(Pad(indent) + (f.key + ": " + ScalarText(x)), indent, f.key + ": " + ScalarText(x));
      case List(items) =>
        HeaderLine(f.key, indent);
        PrintedWhole(Pad(indent) + (f.key + ":"), indent, f.key + ":");
        var ls := ItemLines(items, indent);
        forall k | 0 <= k < |ls| ensures Whole(ls[k]) {
          ItemLine(items[k], indent + 2);
          PrintedWhole(ls[k], indent + 2, "- " + ScalarText(items[k]));
        }
      case Record(inner) =>
        HeaderLine(f.key, indent);
        PrintedWhole(Pad(indent) + (f.key + ":"), indent, f.key + ":");
        FieldsWhole(inner, indent + 2);
    }
  }

  lemma {:induction false} FieldsWhole(fields: seq<Field>, indent: nat)
    requires CleanEach(fields)
    ensures forall k :: 0 <= k < |LinesOf(fields, indent)| ==> Whole(LinesOf(fields, indent)[k])
    decreases fields
  {
    hide Whole, FieldLines, CleanKey, Clean;
    if fields != [] {
      assert CleanEach(fields[1..]) by {
        assert forall k :: 0 <= k < |fields[1..]| ==> fields[1..][k] == fields[k + 1];
      }
      FieldWhole(fields[0], indent);
      FieldsWhole(fields[1..], indent);
    }
  }

  /** What the parser makes of any printed record: what survives of its fields, finished. */
  lemma ParsePrinted(fields: seq<Field>, mixed: Mixed)
    requires CleanFields(fields)
    ensures Parse(Join(LinesOf(fields, 0)), mixed) == Finish(ReadFields(fields))
  {
    hide Block, Whole, CleanEach, DistinctKeys, Trim, Indent, First, LinesOf, ReadFields, Finish, Split;
    var printed := LinesOf(fields, 0);
    FieldsWhole(fields, 0);
    SplitJoin(printed);
    var lines := printed + [""];
    assert lines[0..0 + |printed|] == printed;
    assert AllBlank(lines, |printed|) by {
      assert lines[|printed|] == "" && Trim("") == "" by {
        EmptyTrim();
      }
    }
    EmptyNew();
    BlockFields(lines, 0, 0, [], mixed, fields);
    assert [] + ReadFields(fields) == ReadFields(fields);
    BlankTail(lines, |printed|, 0, ReadFields(fields), mixed);
  }

  // ---- When what is read is what was meant ----

  lemma FinishedRecord(fields: seq<Field>)
    ensures Finish(MeantFields(fields)) == Rec(MeantFields(fields)) <==> NotAllNumeric(fields)
  {
    hide AllDigits, Sorted, Values;
  }

  lemma FinishIsRecord(es: seq<(string, Value)>, r: seq<(string, Value)>)
    ensures Finish(es) == Rec(r) ==> es == r
  {
    hide LooksLikeArray, Sorted, Values;
  }

  lemma {:induction false} ReadIsMeant(t: Tree)
    ensures Read(t) == Some(Meant(t)) <==> Lossless(t)
    decreases t, 1
  {
    hide Finish, ScalarRead, NotAllNumeric, LosslessFields, ReadFields, MeantFields;
    match t {
      case Single(s) =>
      case List(items) =>
        if items != [] {
          var read, meant := Read(t).value.items, Meant(t).items;
          assert forall i :: 0 <= i < |items| ==> (read[i] == meant[i] <==> ScalarRead(items[i]) == items[i]);
          assert read == meant <==> forall i :: 0 <= i < |items| ==> read[i] == meant[i];
        }
      case Record(fields) =>
        if fields != [] {
          RecordIsMeant(fields);
        }
    }
  }

  lemma {:induction false} RecordIsMeant(fields: seq<Field>)
    ensures Finish(ReadFields(fields)) == Rec(MeantFields(fields)) <==> LosslessFields(fields)
    decreases fields, 1
  {
    hide Finish, NotAllNumeric, ReadFields, MeantFields, Lossless;
    FieldsAreMeant(fields);
    FinishedRecord(fields);
    FinishIsRecord(ReadFields(fields), MeantFields(fields));
  }

  /** Nothing was lost exactly when every field reads as it was meant. */
  lemma {:induction false} FieldsAreMeant(fields: seq<Field>)
    ensures ReadFields(fields) == MeantFields(fields) <==> forall i :: 0 <= i < |fields| ==> Lossless(fields[i].value)
    decreases fields, 0
  {
    hide Read, Meant, Lossless;
    if fields != [] {
      var f, rest := fields[0], fields[1..];
      ReadIsMeant(f.value);
      FieldsAreMeant(rest);
      assert forall i :: 1 <= i < |fields| ==> fields[i] == rest[i - 1];
      if Read(f.value).Some? {
        assert ReadFields(fields)[0] == (f.key, Read(f.value).value) && ReadFields(fields)[1..] == ReadFields(rest);
        assert MeantFields(fields)[0] == (f.key, Meant(f.value)) && MeantFields(fields)[1..] == MeantFields(rest);
      } else {
        assert |ReadFields(fields)| == |ReadFields(rest)| < |MeantFields(fields)|;
      }
    }
  }

  /**
   The round trip, exactly: for every tree of distinct clean keys and newline-free scalars, of any depth, with empty
   lists and records, numeric keys and any number allowed, parsing what is printed gives the tree back if and only
   if no list and no record below the top is empty, no record has only numeric keys, and every number is printed
   as a plain decimal.
   */
  lemma RoundTrip(fields: seq<Field>, mixed: Mixed)
    requires CleanFields(fields)
    ensures Parse(Join(LinesOf(fields, 0)), mixed) == Meant(Record(fields)) <==> LosslessFields(fields)
  {
    hide CleanFields, LosslessFields, Finish, Parse, Join, LinesOf, ReadFields, MeantFields;
    ParsePrinted(fields, mixed);
    RecordIsMeant(fields);
  }

  lemma {:induction false} ReadFieldsAppend(xs: seq<Field>, ys: seq<Field>)
    ensures ReadFields(xs + ys) == ReadFields(xs) + ReadFields(ys)
  {
    hide ReadField;
    if xs == [] {
      assert xs + ys == ys;
    } else {
      ReadFieldsAppend(xs[1..], ys);
      assert (xs + ys)[0] == xs[0] && (xs + ys)[1..] == xs[1..] + ys;
      assert ReadField(xs[0]) + (ReadFields(xs[1..]) + ReadFields(ys)) == (ReadField(xs[0]) + ReadFields(xs[1..])) + ReadFields(ys);
    }
  }

  /** An empty record or list is lost with its key: among any other fields, as if it had not been printed. */
  lemma EmptyRecordLost(before: seq<Field>, key: string, empty: Tree, after: seq<Field>, mixed: Mixed)
    requires empty == Record([]) || empty == List([])
    requires CleanFields(before + [Field(key, empty)] + after)
    ensures ReadFields(before + [Field(key, empty)] + after) == ReadFields(before + after)
    ensures Parse(Join(LinesOf(before + [Field(key, empty)] + after, 0)), mixed) == Parse(Join(LinesOf(before + after, 0)), mixed)
  {
    hide Parse, Join, LinesOf, CleanKey, Clean, Finish;
    var f := [Field(key, empty)];
    CleanWithout(before, f[0], after);
    assert ReadFields(f) == [] by {
      assert f[1..] == [] && Read(empty).None? && ReadField(f[0]) == [];
    }
    ReadFieldsAppend(before + f, after);
    ReadFieldsAppend(before, f);
    ReadFieldsAppend(before, after);
    assert ReadFields(before) + [] == ReadFields(before);
    ParsePrinted(before + f + after, mixed);
    ParsePrinted(before + after, mixed);
  }

  lemma CleanWithout(before: seq<Field>, f: Field, after: seq<Field>)
    requires CleanFields(before + [f] + after)
    ensures CleanFields(before + after)
  {
    hide CleanKey, Clean;
    var all, rest := before + [f] + after, before + after;
    assert forall i :: 0 <= i < |rest| ==> rest[i] == all[if i < |before| then i else i + 1];
  }

  /** A record of numeric keys below a key comes back as an array, whatever else it holds. */
  lemma NumericRecordReadsAsArray(fields: seq<Field>)
    requires ReadFields(fields) != [] && !NotAllNumeric(fields)
    ensures Read(Record(fields)).Some? && Read(Record(fields)).value.Arr?
  {
    hide AllDigits, Sorted, Values;
    ReadKeys(fields);
  }

  lemma {:induction false} ReadKeys(fields: seq<Field>)
    requires forall i :: 0 <= i < |fields| ==> AllDigits(fields[i].key)
    ensures forall i :: 0 <= i < |ReadFields(fields)| ==> AllDigits(ReadFields(fields)[i].0)
  {
    hide ReadField, AllDigits;
    if fields != [] {
      var head, rest := ReadField(fields[0]), ReadFields(fields[1..]);
      ReadKeys(fields[1..]);
      assert ReadFields(fields) == head + rest;
      assert forall i :: 0 <= i < |head| ==> AllDigits(head[i].0);
    }
  }

  lemma EmptyTrim()
    ensures Trim("") == ""
  {
  }
}
