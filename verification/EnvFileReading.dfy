/** What reading an env file means, line by line, and what an updated file looks like. */
module EnvFileReading {
  import opened Option
  import opened Text
  import opened EnvFile

  // ---- A line ----

  predicate Blank(s: string) {
    forall c :: c in s ==> IsBlank(c)
  }

  /** The line is `key=value` with any blanks around it, where the first `=` ends the key. */
  ghost predicate Assigns(line: string, x: Var) {
    exists before, after :: Surrounds(line, before, x, after)
  }

  predicate Surrounds(line: string, before: string, x: Var, after: string) {
    && line == before + (x.key + "=" + x.value) + after && Blank(before) && Blank(after) && '=' !in x.key
    && (x.key != "" ==> !IsBlank(x.key[0]) && x.key[0] != '#')
    && (x.value != "" ==> !IsBlank(x.value[|x.value| - 1]))
  }

  lemma {:induction false} TrimEndSurrounded(text: string, after: string)
    requires text != [] && !IsBlank(text[|text| - 1]) && Blank(after)
    ensures TrimEnd(text + after) == text
  {
    var s := text + after;
    if after == [] {
      assert s == text;
    } else {
      assert s[|s| - 1] == after[|after| - 1] && IsBlank(after[|after| - 1]);
      assert s[..|s| - 1] == text + after[..|after| - 1];
      TrimEndSurrounded(text, after[..|after| - 1]);
    }
  }

  lemma {:induction false} TrimStartSurrounded(before: string, text: string)
    requires text != [] && !IsBlank(text[0]) && Blank(before)
    ensures TrimStart(before + text) == text
  {
    var s := before + text;
    if before == [] {
      assert s == text;
    } else {
      assert s[0] == before[0] && IsBlank(before[0]);
      assert s[1..] == before[1..] + text;
      TrimStartSurrounded(before[1..], text);
    }
  }

  lemma TrimSurrounded(before: string, text: string, after: string)
    requires text != [] && Trimmed(text) && Blank(before) && Blank(after)
    ensures Trim(before + text + after) == text
  {
    assert before + text + after == before + (text + after);
    TrimStartSurrounded(before, text + after);
    TrimEndSurrounded(text, after);
  }

  lemma {:induction false} TrimStartCuts(s: string) returns (before: string)
    ensures s == before + TrimStart(s) && Blank(before)
  {
    if s != [] && IsBlank(s[0]) {
      before := TrimStartCuts(s[1..]);
      before := [s[0]] + before;
    } else {
      before := [];
    }
  }

  lemma {:induction false} TrimEndCuts(s: string) returns (after: string)
    ensures s == TrimEnd(s) + after && Blank(after)
  {
    if s != [] && IsBlank(s[|s| - 1]) {
      after := TrimEndCuts(s[..|s| - 1]);
      after := after + [s[|s| - 1]];
    } else {
      after := [];
    }
  }

  /** The parser takes a line for an assignment exactly when it is one. */
  lemma ParsedExactlyWhen(line: string, x: Var)
    ensures ParseLine(line) == Some(x) <==> Assigns(line, x)
  {
    if ParseLine(line) == Some(x) {
      ParsedIsAssigned(line, x);
    }
    if Assigns(line, x) {
      var before, after :| Surrounds(line, before, x, after);
      AssignedIsParsed(line, before, x, after);
    }
  }

  lemma ParsedIsAssigned(line: string, x: Var)
    requires ParseLine(line) == Some(x)
    ensures Assigns(line, x)
  {
    var text := Trim(line);
    TrimIs(line);
    JoinSplit(text, '=');
    assert text == x.key + "=" + x.value && x.key in Split(text, '=');
    assert x.key != [] ==> text[0] == x.key[0];
    assert x.value != [] ==> text[|text| - 1] == x.value[|x.value| - 1];
    var before := TrimStartCuts(line);
    var after := TrimEndCuts(TrimStart(line));
    assert line == before + text + after;
    assert Surrounds(line, before, x, after);
  }

  lemma AssignedIsParsed(line: string, before: string, x: Var, after: string)
    requires Surrounds(line, before, x, after)
    ensures ParseLine(line) == Some(x)
  {
    var text := x.key + "=" + x.value;
    assert text[|x.key|] == '=' && !IsBlank('=') && text == x.key + ['='] + x.value;
    assert x.key != [] ==> text[0] == x.key[0];
    assert x.value == [] ==> text[|text| - 1] == '=';
    assert x.value != [] ==> text[|text| - 1] == x.value[|x.value| - 1];
    TrimSurrounded(before, text, after);
    SplitFirst(x.key, '=', x.value);
    JoinSplit(x.value, '=');
  }

  // ---- A text ----

  /** The line assigns some value to `key`. */
  ghost predicate AssignsTo(line: string, key: string) {
    exists value :: Assigns(line, Var(key, value))
  }

  /** Line `i` is the last one that assigns to `key`. */
  ghost predicate LastAssigns(lines: seq<string>, i: nat, x: Var) {
    && i < |lines| && Assigns(lines[i], x)
    && forall j :: i < j < |lines| ==> !AssignsTo(lines[j], x.key)
  }

  ghost predicate AssignedLast(lines: seq<string>, x: Var) {
    exists i :: LastAssigns(lines, i, x)
  }

  lemma AssignsToExactlyWhen(line: string, key: string)
    ensures AssignsTo(line, key) <==> ParseLine(line).Some? && ParseLine(line).value.key == key
  {
    if AssignsTo(line, key) {
      var value :| Assigns(line, Var(key, value));
      ParsedExactlyWhen(line, Var(key, value));
    }
    if ParseLine(line).Some? {
      ParsedExactlyWhen(line, ParseLine(line).value);
      assert ParseLine(line).value == Var(ParseLine(line).value.key, ParseLine(line).value.value);
    }
  }

  lemma PutParsedFinds(vars: seq<Var>, line: string, key: string)
    requires key != PROTO
    ensures if AssignsTo(line, key)
            then ParseLine(line).Some? && Find(PutParsed(vars, line), key) == Some(ParseLine(line).value.value)
            else Find(PutParsed(vars, line), key) == Find(vars, key)
  {
    AssignsToExactlyWhen(line, key);
    match ParseLine(line)
    case Some(x) => InsertFinds(vars, x, key);
    case None =>
  }

  /** `Find` after lines that assign to the key nowhere, or last in line `i`. */
  lemma {:induction false} LinesFind(lines: seq<string>, key: string)
    requires key != PROTO
    ensures (forall j :: 0 <= j < |lines| ==> !AssignsTo(lines[j], key)) ==> Find(ParseLines([], lines), key) == None
    ensures forall i, x: Var :: x.key == key && LastAssigns(lines, i, x) ==> Find(ParseLines([], lines), key) == Some(x.value)
  {
    if lines != [] {
      var n := |lines| - 1;
      var most, line := lines[..n], lines[n];
      assert lines == most + [line];
      ParseLinesAdd([], most, line);
      PutParsedFinds(ParseLines([], most), line, key);
      LinesFind(most, key);
      AssignsToExactlyWhen(line, key);
      forall i, x: Var | x.key == key && LastAssigns(lines, i, x)
        ensures Find(ParseLines([], lines), key) == Some(x.value)
      {
        if i == n {
          ParsedExactlyWhen(line, x);
        } else {
          assert LastAssigns(most, i, x);
        }
      }
    }
  }

  lemma {:induction false} LastOrNone(lines: seq<string>, key: string)
    ensures (forall j :: 0 <= j < |lines| ==> !AssignsTo(lines[j], key))
         || exists i, x: Var :: x.key == key && LastAssigns(lines, i, x)
  {
    if lines != [] {
      var n := |lines| - 1;
      if AssignsTo(lines[n], key) {
        var value :| Assigns(lines[n], Var(key, value));
        assert LastAssigns(lines, n, Var(key, value));
      } else {
        LastOrNone(lines[..n], key);
        if i, x: Var :| x.key == key && LastAssigns(lines[..n], i, x) {
          assert LastAssigns(lines, i, x);
        }
      }
    }
  }

  /** A key has the value of the last line that assigns to it, and none without such a line. Nothing is ever stored
      under `__proto__`. */
  lemma LastLineWins(text: string, x: Var)
    ensures Find(Parse(text), x.key) == Some(x.value)
       <==> x.key != "__proto__" && AssignedLast(Split(text, '\n'), x)
  {
    var lines := Split(text, '\n');
    assert PROTO == "__proto__";
    if x.key == PROTO {
      ParsedFileIsClean(text);
      NoneUnderProto(Parse(text));
    } else if AssignedLast(lines, x) {
      LinesFind(lines, x.key);
    } else {
      NotFound(lines, x);
    }
  }

  lemma NotFound(lines: seq<string>, x: Var)
    requires x.key != "__proto__" && !AssignedLast(lines, x)
    ensures Find(ParseLines([], lines), x.key) != Some(x.value)
  {
    LinesFind(lines, x.key);
    LastOrNone(lines, x.key);
    if i, y: Var :| y.key == x.key && LastAssigns(lines, i, y) {
      assert y != x;
      assert Find(ParseLines([], lines), x.key) == Some(y.value);
    }
  }

  lemma {:induction false} NoneUnderProto(vars: seq<Var>)
    requires Ordered(vars)
    ensures Find(vars, PROTO) == None
  {
    if vars != [] {
      NoneUnderProto(vars[1..]);
    }
  }

  // ---- The order ----

  ghost predicate Assigned(lines: seq<string>, key: string) {
    exists i :: 0 <= i < |lines| && AssignsTo(lines[i], key)
  }

  /** Some line assigns to `one`, and no line up to there to `other`. */
  ghost predicate AppearsFirst(lines: seq<string>, one: string, other: string) {
    exists i :: 0 <= i < |lines| && AssignsTo(lines[i], one) && !Assigned(lines[..i + 1], other)
  }

  /** Array indices come first, in ascending order. All other keys keep the order of their first lines. */
  ghost predicate InOrder(lines: seq<string>, one: string, other: string) {
    && one != other
    && if IsIndex(other) then IsIndex(one) && Numeral(one) <= Numeral(other)
       else IsIndex(one) || AppearsFirst(lines, one, other)
  }

  ghost predicate AllInOrder(lines: seq<string>, vars: seq<Var>) {
    && (forall x :: x in vars ==> Assigned(lines, x.key))
    && forall i, j :: 0 <= i < j < |vars| ==> InOrder(lines, vars[i].key, vars[j].key)
  }

  lemma {:induction false} InsertIsAt(vars: seq<Var>, x: Var) returns (n: nat)
    ensures n <= |vars|
    ensures forall i :: 0 <= i < n ==> vars[i].key != x.key && !Precedes(x.key, vars[i].key)
    ensures if n < |vars| && vars[n].key == x.key then Insert(vars, x) == vars[n := x]
            else Insert(vars, x) == vars[..n] + [x] + vars[n..] && (n < |vars| ==> Precedes(x.key, vars[n].key))
  {
    if vars == [] || vars[0].key == x.key || Precedes(x.key, vars[0].key) {
      n := 0;
    } else {
      n := InsertIsAt(vars[1..], x);
      n := n + 1;
    }
  }

  lemma MoreLines(lines: seq<string>, line: string, vars: seq<Var>)
    requires AllInOrder(lines, vars)
    ensures AllInOrder(lines + [line], vars)
  {
    forall x | x in vars
      ensures Assigned(lines + [line], x.key)
    {
      var i :| 0 <= i < |lines| && AssignsTo(lines[i], x.key);
      assert (lines + [line])[i] == lines[i];
    }
    forall i, j | 0 <= i < j < |vars|
      ensures InOrder(lines + [line], vars[i].key, vars[j].key)
    {
      if AppearsFirst(lines, vars[i].key, vars[j].key) {
        var m :| 0 <= m < |lines| && AssignsTo(lines[m], vars[i].key) && !Assigned(lines[..m + 1], vars[j].key);
        assert (lines + [line])[m] == lines[m] && (lines + [line])[..m + 1] == lines[..m + 1];
      }
    }
  }

  lemma AssignedIsFound(lines: seq<string>, key: string)
    requires Assigned(lines, key) && key != PROTO
    ensures Find(ParseLines([], lines), key).Some?
  {
    LinesFind(lines, key);
    LastOrNone(lines, key);
  }

  lemma {:induction false} FoundIsIn(vars: seq<Var>, key: string)
    ensures Find(vars, key).Some? <==> exists i :: 0 <= i < |vars| && vars[i].key == key
  {
    if vars != [] {
      FoundIsIn(vars[1..], key);
      assert forall i :: 0 < i < |vars| ==> vars[i] == vars[1..][i - 1];
    }
  }

  lemma {:induction false} LinesInOrder(lines: seq<string>)
    ensures AllInOrder(lines, ParseLines([], lines))
  {
    if lines != [] {
      var n := |lines| - 1;
      var most, line := lines[..n], lines[n];
      assert lines == most + [line];
      ParseLinesAdd([], most, line);
      LinesInOrder(most);
      MoreLines(most, line, ParseLines([], most));
      if ParseLine(line).Some? && ParseLine(line).value.key != PROTO {
        LineInOrder(most, line, ParseLines([], most), ParseLine(line).value);
      }
    }
  }

  /** What stands before a new key belongs there. */
  lemma NewAtEnd(most: seq<string>, line: string, vars: seq<Var>, x: Var, i: nat)
    requires vars == ParseLines([], most) && ParseLine(line) == Some(x) && x.key != PROTO && i < |vars|
    requires AllInOrder(most, vars) && vars[i].key != x.key && !Precedes(x.key, vars[i].key)
    requires !IsIndex(x.key) ==> forall j :: 0 <= j < |vars| ==> vars[j].key != x.key
    ensures InOrder(most + [line], vars[i].key, x.key)
  {
    if !IsIndex(x.key) && !IsIndex(vars[i].key) {
      assert vars[i] in vars;
      var m :| 0 <= m < |most| && AssignsTo(most[m], vars[i].key);
      var lines := most + [line];
      assert lines[m] == most[m] && lines[..m + 1] == most[..m + 1];
      if Assigned(most[..m + 1], x.key) {
        var k :| 0 <= k < m + 1 && AssignsTo(most[..m + 1][k], x.key);
        assert AssignsTo(most[k], x.key);
        AssignedIsFound(most, x.key);
        FoundIsIn(vars, x.key);
      }
    }
  }

  lemma LineInOrder(most: seq<string>, line: string, vars: seq<Var>, x: Var)
    requires vars == ParseLines([], most) && ParseLine(line) == Some(x) && x.key != PROTO
    requires AllInOrder(most, vars) && AllInOrder(most + [line], vars)
    ensures AllInOrder(most + [line], Insert(vars, x))
  {
    var lines := most + [line];
    var n := InsertIsAt(vars, x);
    AssignsToExactlyWhen(line, x.key);
    assert lines[|most|] == line && Assigned(lines, x.key);
    if n < |vars| && vars[n].key == x.key {
      ReplacedInOrder(lines, vars, x, n);
    } else {
      forall i | 0 <= i < n
        ensures InOrder(lines, vars[i].key, x.key)
      {
        NewAtEnd(most, line, vars, x, i);
      }
      SplicedInOrder(lines, vars, x, n);
    }
  }

  lemma ReplacedInOrder(lines: seq<string>, vars: seq<Var>, x: Var, n: nat)
    requires AllInOrder(lines, vars) && n < |vars| && vars[n].key == x.key
    ensures AllInOrder(lines, vars[n := x])
  {
    var after := vars[n := x];
    assert forall i :: 0 <= i < |vars| ==> after[i].key == vars[i].key;
    forall y | y in after
      ensures Assigned(lines, y.key)
    {
      var i :| 0 <= i < |after| && after[i] == y;
      assert vars[i] in vars;
    }
  }

  lemma SplicedInOrder(lines: seq<string>, vars: seq<Var>, x: Var, n: nat)
    requires AllInOrder(lines, vars) && n <= |vars| && Assigned(lines, x.key)
    requires forall i :: 0 <= i < n ==> InOrder(lines, vars[i].key, x.key)
    requires n < |vars| ==> Precedes(x.key, vars[n].key)
    ensures AllInOrder(lines, vars[..n] + [x] + vars[n..])
  {
    var after := vars[..n] + [x] + vars[n..];
    forall j | n <= j < |vars|
      ensures InOrder(lines, x.key, vars[j].key)
    {
      assert j > n ==> InOrder(lines, vars[n].key, vars[j].key);
    }
    forall i, j | 0 <= i < j < |after|
      ensures InOrder(lines, after[i].key, after[j].key)
    {
      SplicedAt(vars, x, n, i);
      SplicedAt(vars, x, n, j);
    }
  }

  lemma SplicedAt(vars: seq<Var>, x: Var, n: nat, i: nat)
    requires n <= |vars| && i <= |vars|
    ensures (vars[..n] + [x] + vars[n..])[i] == if i < n then vars[i] else if i == n then x else vars[i - 1]
  {
  }

  /** The variables of any text stand in the order of a JavaScript object. */
  lemma ReadInOrder(text: string)
    ensures AllInOrder(Split(text, '\n'), Parse(text))
  {
    LinesInOrder(Split(text, '\n'));
  }

  // ---- The updated file ----

  /** Without variables the file is empty. Otherwise it has one line `key=value` for each, and nothing else. */
  lemma PrintedLines(vars: seq<Var>)
    requires AllClean(vars)
    ensures vars == [] ==> Print(vars) == ""
    ensures vars != [] ==> |Split(Print(vars), '\n')| == |vars|
    ensures forall i :: 0 <= i < |vars| ==> Split(Print(vars), '\n')[i] == vars[i].key + "=" + vars[i].value
  {
    if vars != [] {
      PrintIsBody(vars);
      BodySplits(vars);
      LineSeqIs(vars);
    }
  }

  lemma {:induction false} LineSeqIs(vars: seq<Var>)
    ensures |LineSeq(vars)| == |vars|
    ensures forall i :: 0 <= i < |vars| ==> LineSeq(vars)[i] == vars[i].key + "=" + vars[i].value
  {
    if vars != [] {
      LineSeqIs(vars[1..]);
      assert Line(vars[0]) == vars[0].key + "=" + vars[0].value;
      assert forall i :: 0 < i < |vars| ==> vars[i] == vars[1..][i - 1];
    }
  }
}
