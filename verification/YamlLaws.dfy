/** What the parser makes of text that no printer wrote: comments, quotes, bare words and repeated keys. */
module YamlLaws {
  import opened Js
  import opened Yaml

  /** Where a line becomes visible, if it does. */
  lemma {:induction false} FirstVisible(line: string) returns (i: nat)
    ensures i <= |line| && forall j :: 0 <= j < i ==> IsSpace(line[j])
    ensures i < |line| ==> !IsSpace(line[i])
    ensures TrimStart(line) == line[i..]
  {
    hide IsSpace;
    if line == "" || !IsSpace(line[0]) {
      i := 0;
      assert line[0..] == line;
    } else {
      var rest := line[1..];
      var k := FirstVisible(rest);
      i := k + 1;
      assert line[i..] == rest[k..];
      assert forall j :: 1 <= j < i ==> line[j] == rest[j - 1];
    }
  }

  lemma {:induction false} TrimmedEnd(s: string)
    requires s != "" && !IsSpace(s[0])
    ensures TrimEnd(s) != "" && TrimEnd(s)[0] == s[0]
  {
    hide IsSpace;
    if IsSpace(s[|s| - 1]) {
      TrimmedEnd(s[..|s| - 1]);
    }
  }

  /** A line is passed over if and only if nothing in it is visible, or the first visible character is a hash. */
  lemma SkippedExactly(line: string)
    ensures Skipped(line)
            <==> (forall i :: 0 <= i < |line| ==> IsSpace(line[i]))
                 || exists i :: 0 <= i < |line| && line[i] == '#' && forall j :: 0 <= j < i ==> IsSpace(line[j])
  {
    HashVisible();
    hide IsSpace, TrimStart, TrimEnd;
    var i := FirstVisible(line);
    var s := TrimStart(line);
    if i == |line| {
      EmptyEnd();
    } else {
      TrimmedEnd(s);
      var t := Trim(line);
      assert t[0] == line[i] && t[..1] == [line[i]];
      if k :| 0 <= k < |line| && line[k] == '#' && forall j :: 0 <= j < k ==> IsSpace(line[j]) {
        assert k == i;
      }
    }
  }

  lemma HashVisible()
    ensures !IsSpace('#')
  {
  }

  lemma EmptyEnd()
    ensures TrimEnd("") == ""
  {
  }

  /** Both ends of the text are this quote. */
  predicate QuotedBy(s: string, quote: char) {
    s != "" && s[0] == quote && s[|s| - 1] == quote
  }

  /**
   A value without white space at its ends: quoted by either quote, it is the text between the quotes, whatever it
   says; else one of the four words, a plain decimal, or its own text.
   */
  lemma ScalarExact(s: string)
    requires Trim(s) == s
    ensures var quoted := QuotedBy(s, '\"') || QuotedBy(s, '\'');
            && (quoted ==> ParseScalar(s) == Text(if |s| < 2 then "" else s[1..|s| - 1]))
            && (ParseScalar(s) == Bool(true) <==> s == "true")
            && (ParseScalar(s) == Bool(false) <==> s == "false")
            && (ParseScalar(s).Null? <==> s == "null" || s == "~")
            && (ParseScalar(s).Num? <==> s != "true" && s != "false" && s != "null" && s != "~" && !quoted && NumberText(s))
            && (ParseScalar(s).Num? ==> ParseScalar(s) == Num(s))
            && (!quoted && ParseScalar(s).Text? ==> ParseScalar(s) == Text(s))
  {
    hide Trim, NumberText;
    QuotedExactly(s, '\"');
    QuotedExactly(s, '\'');
    WordsUnquoted();
  }

  lemma QuotedExactly(s: string, quote: char)
    ensures StartsWith(s, [quote]) && EndsWith(s, [quote]) <==> QuotedBy(s, quote)
  {
    if s != "" {
      assert s[..1] == [s[0]] && s[|s| - 1..] == [s[|s| - 1]];
    }
  }

  lemma WordsUnquoted()
    ensures "true"[0] == 't' && "false"[0] == 'f' && "null"[0] == 'n' && "~"[0] == '~' && "true"[1] == 'r' && |"true"| == 4
            && |"false"| == 5
  {
  }

  // ---- Lines ----

  /**
   What a block passes over: blank lines and comments, lines indented further than the block that stand under no
   key, and lines that are neither an item nor have a colon.
   */
  lemma LinePassedOver(lines: seq<string>, i: nat, base: nat, acc: seq<(string, Value)>, mixed: Mixed)
    requires i < |lines|
    requires Skipped(lines[i]) || Indent(lines[i]) > base
             || (Indent(lines[i]) == base && !StartsWith(Trim(lines[i]), "- ")
                 && forall k :: 0 <= k < |Trim(lines[i])| ==> Trim(lines[i])[k] != ':')
    ensures Block(lines, i, base, acc, mixed) == Block(lines, i + 1, base, acc, mixed)
  {
    hide Trim, Indent;
  }

  /** A key with nothing after its colon is lost if a blank line or a comment, or no deeper line, follows it. */
  lemma KeyLost(lines: seq<string>, i: nat, base: nat, acc: seq<(string, Value)>, mixed: Mixed, key: string)
    requires i < |lines| && !Skipped(lines[i]) && Indent(lines[i]) == base && !StartsWith(Trim(lines[i]), "- ")
    requires Trim(lines[i]) == key + ":" && forall k :: 0 <= k < |key| ==> key[k] != ':'
    requires i + 1 == |lines| || Skipped(lines[i + 1]) || Indent(lines[i + 1]) <= base
    ensures Block(lines, i, base, acc, mixed) == Block(lines, i + 1, base, acc, mixed)
  {
    NothingAfter(key);
    hide Trim, Indent, First, Skipped;
  }

  lemma NothingAfter(key: string)
    requires forall k :: 0 <= k < |key| ==> key[k] != ':'
    ensures var t := key + ":"; First(t, ':') == |key| && Trim(t[|key| + 1..]) == ""
  {
    var t := key + ":";
    assert t[|key|] == ':' && t[|key| + 1..] == "";
  }

  // ---- Keys ----

  predicate HasKey(entries: seq<(string, Value)>, key: string) {
    exists i :: 0 <= i < |entries| && entries[i].0 == key
  }

  /** Assigning a key that is there changes its value in place; a new key goes to the end. */
  lemma {:induction false} AssignExact(acc: seq<(string, Value)>, key: string, v: Value)
    requires forall i, j :: 0 <= i < j < |acc| ==> acc[i].0 != acc[j].0
    ensures !HasKey(acc, key) ==> Assign(acc, key, v) == acc + [(key, v)]
    ensures HasKey(acc, key) ==>
              var acc' := Assign(acc, key, v);
              |acc'| == |acc| && forall i :: 0 <= i < |acc| ==> acc'[i] == if acc[i].0 == key then (key, v) else acc[i]
  {
    if acc != [] {
      var rest := acc[1..];
      AssignExact(rest, key, v);
      assert HasKey(rest, key) ==> HasKey(acc, key) by {
        if i :| 0 <= i < |rest| && rest[i].0 == key {
          assert acc[i + 1].0 == key;
        }
      }
      if acc[0].0 != key && HasKey(acc, key) {
        var i :| 0 <= i < |acc| && acc[i].0 == key;
        assert rest[i - 1].0 == key;
      }
      if acc[0].0 == key {
        assert acc[0].0 == key && HasKey(acc, key);
      }
    }
  }
}
