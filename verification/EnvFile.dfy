/** Updating one variable of an env file: the text is parsed, the variable set, and everything printed again. */
module EnvFile {
  import opened Option
  import opened Text

  datatype Var = Var(key: string, value: string)

  // ---- A JavaScript object as its own properties in order ----

  const PROTO: string := "__proto__"

  /** Array indices come first, by value. */
  predicate Precedes(key: string, other: string) {
    IsIndex(key) && (IsIndex(other) ==> Numeral(key) < Numeral(other))
  }

  /** An old key keeps its place. A new index goes where its value belongs, any other new key to the end. */
  function Insert(vars: seq<Var>, x: Var): seq<Var> {
    if vars == [] then [x]
    else if vars[0].key == x.key then [x] + vars[1..]
    else if Precedes(x.key, vars[0].key) then [x] + vars
    else [vars[0]] + Insert(vars[1..], x)
  }

  /** Assigning a string to `__proto__` does nothing. */
  function Put(vars: seq<Var>, x: Var): seq<Var> {
    if x.key == PROTO then vars else Insert(vars, x)
  }

  // ---- The file ----

  function ParseLine(line: string): Option<Var> {
    var text := Trim(line);
    if text == [] || text[0] == '#' then None else
    var parts := Split(text, '=');
    if |parts| >= 2 then Some(Var(parts[0], Join(parts[1..], '='))) else None
  }

  function PutParsed(vars: seq<Var>, line: string): seq<Var> {
    match ParseLine(line)
    case Some(x) => Put(vars, x)
    case None => vars
  }

  function ParseLines(vars: seq<Var>, lines: seq<string>): seq<Var>
    decreases |lines|
  {
    if lines == [] then vars else
    ParseLines(PutParsed(vars, lines[0]), lines[1..])
  }

  function Parse(text: string): seq<Var> {
    ParseLines([], Split(text, '\n'))
  }

  function Line(x: Var): string {
    x.key + ['='] + x.value
  }

  function Lines(vars: seq<Var>): string {
    if vars == [] then [] else Line(vars[0]) + ['\n'] + Lines(vars[1..])
  }

  function Print(vars: seq<Var>): string {
    Trim(Lines(vars))
  }

  function Update(text: string, x: Var): string {
    Print(Put(Parse(text), x))
  }

  lemma {:induction false} LinesAdd(vars: seq<Var>, x: Var)
    ensures Lines(vars + [x]) == Lines(vars) + Line(x) + ['\n']
  {
    if vars != [] {
      assert (vars + [x])[1..] == vars[1..] + [x];
      LinesAdd(vars[1..], x);
    }
  }

  lemma {:induction false} ParseLinesAdd(vars: seq<Var>, lines: seq<string>, line: string)
    ensures ParseLines(vars, lines + [line]) == PutParsed(ParseLines(vars, lines), line)
    decreases |lines|
  {
    if lines == [] {
      assert lines + [line] == [line] && [line][1..] == [];
    } else {
      assert (lines + [line])[1..] == lines[1..] + [line];
      ParseLinesAdd(PutParsed(vars, lines[0]), lines[1..], line);
    }
  }

  method ReadEnvVars(envContent: string) returns (envVars: seq<Var>)
    ensures envVars == Parse(envContent)
  {
    envVars := [];
    var lines := Split(envContent, '\n');
    for i := 0 to |lines|
      invariant envVars == ParseLines([], lines[..i])
    {
      assert lines[..i + 1] == lines[..i] + [lines[i]];
      ParseLinesAdd([], lines[..i], lines[i]);
      var trimmedLine := Trim(lines[i]);
      if trimmedLine == [] || trimmedLine[0] == '#' {
        continue;
      }
      var parts := Split(trimmedLine, '=');
      if |parts| >= 2 {
        envVars := Put(envVars, Var(parts[0], Join(parts[1..], '=')));
      }
    }
    assert lines[..|lines|] == lines;
  }

  method WriteEnvVars(envVars: seq<Var>) returns (newEnvContent: string)
    ensures newEnvContent == Print(envVars)
  {
    newEnvContent := [];
    for i := 0 to |envVars|
      invariant newEnvContent == Lines(envVars[..i])
    {
      LinesAdd(envVars[..i], envVars[i]);
      assert envVars[..i + 1] == envVars[..i] + [envVars[i]];
      newEnvContent := newEnvContent + envVars[i].key + ['='] + envVars[i].value + ['\n'];
    }
    assert envVars[..|envVars|] == envVars;
    newEnvContent := Trim(newEnvContent);
  }

  /** `envContent` is empty when there is no file. */
  method UpdateEnvVariable(envContent: string, keyToModify: string, newValue: string) returns (newEnvContent: string)
    ensures newEnvContent == Update(envContent, Var(keyToModify, newValue))
  {
    var envVars := ReadEnvVars(envContent);
    newEnvContent := WriteEnvVars(Put(envVars, Var(keyToModify, newValue)));
  }

  // ---- What the parser yields ----

  /** A variable that one line of the file can hold. */
  predicate Clean(x: Var) {
    && '=' !in x.key && '\n' !in x.key && (x.key != [] ==> !IsBlank(x.key[0]) && x.key[0] != '#')
    && '\n' !in x.value && (x.value != [] ==> !IsBlank(x.value[|x.value| - 1]))
  }

  ghost predicate AllClean(vars: seq<Var>) {
    forall x :: x in vars ==> Clean(x)
  }

  ghost predicate AllAfter(x: Var, vars: seq<Var>) {
    forall y :: y in vars ==> y.key != x.key && !Precedes(y.key, x.key)
  }

  /** Distinct keys in the order of an object's properties. */
  ghost predicate Ordered(vars: seq<Var>) {
    vars == [] || (vars[0].key != PROTO && AllAfter(vars[0], vars[1..]) && Ordered(vars[1..]))
  }

  lemma {:induction false} InsertHolds(vars: seq<Var>, x: Var)
    ensures x in Insert(vars, x)
    ensures forall y :: y in Insert(vars, x) ==> y == x || y in vars
  {
    if vars != [] && vars[0].key != x.key && !Precedes(x.key, vars[0].key) {
      InsertHolds(vars[1..], x);
    }
  }

  lemma {:induction false} InsertKeepsOrder(vars: seq<Var>, x: Var)
    requires Ordered(vars) && x.key != PROTO
    ensures Ordered(Insert(vars, x))
  {
    if vars == [] {
    } else if vars[0].key == x.key {
      assert Insert(vars, x)[1..] == vars[1..];
    } else if Precedes(x.key, vars[0].key) {
      assert Insert(vars, x)[1..] == vars;
    } else {
      InsertKeepsOrder(vars[1..], x);
      InsertHolds(vars[1..], x);
      assert Insert(vars, x)[1..] == Insert(vars[1..], x);
    }
  }

  lemma LineTrimmed(x: Var)
    requires Clean(x)
    ensures Line(x) != [] && Trimmed(Line(x)) && '\n' !in Line(x) && Line(x)[0] != '#'
  {
    var line := Line(x);
    assert line[|x.key|] == '=' && !IsBlank('=');
    assert x.key != [] ==> line[0] == x.key[0];
    assert x.value == [] ==> line[|line| - 1] == '=';
    assert x.value != [] ==> line[|line| - 1] == x.value[|x.value| - 1];
  }

  lemma LineParses(x: Var)
    requires Clean(x)
    ensures ParseLine(Line(x)) == Some(x)
  {
    LineTrimmed(x);
    TrimIs(Line(x));
    SplitFirst(x.key, '=', x.value);
    JoinSplit(x.value, '=');
  }

  lemma ParsedIsClean(line: string)
    requires '\n' !in line && ParseLine(line).Some?
    ensures Clean(ParseLine(line).value)
  {
    var text := Trim(line);
    TrimIs(line);
    JoinSplit(text, '=');
    var key, value := Split(text, '=')[0], Join(Split(text, '=')[1..], '=');
    assert text == key + ['='] + value;
    assert key in Split(text, '=');
    assert key != [] ==> text[0] == key[0];
    assert value != [] ==> text[|text| - 1] == value[|value| - 1];
    assert forall c :: c in key ==> c in text;
    assert forall c :: c in value ==> c in text;
  }

  lemma {:induction false} ParsedLinesAreClean(vars: seq<Var>, lines: seq<string>)
    requires AllClean(vars) && Ordered(vars) && forall line :: line in lines ==> '\n' !in line
    ensures AllClean(ParseLines(vars, lines)) && Ordered(ParseLines(vars, lines))
    decreases |lines|
  {
    if lines != [] {
      var x := ParseLine(lines[0]);
      if x.Some? && x.value.key != PROTO {
        ParsedIsClean(lines[0]);
        InsertHolds(vars, x.value);
        InsertKeepsOrder(vars, x.value);
      }
      ParsedLinesAreClean(PutParsed(vars, lines[0]), lines[1..]);
    }
  }

  lemma ParsedFileIsClean(text: string)
    ensures AllClean(Parse(text)) && Ordered(Parse(text))
  {
    JoinSplit(text, '\n');
    ParsedLinesAreClean([], Split(text, '\n'));
  }

  // ---- What the printer yields ----

  function Body(vars: seq<Var>): string
    requires vars != []
  {
    if |vars| == 1 then Line(vars[0]) else Line(vars[0]) + ['\n'] + Body(vars[1..])
  }

  function LineSeq(vars: seq<Var>): seq<string> {
    if vars == [] then [] else [Line(vars[0])] + LineSeq(vars[1..])
  }

  lemma {:induction false} BodyEnds(vars: seq<Var>)
    requires vars != [] && AllClean(vars)
    ensures Lines(vars) == Body(vars) + ['\n']
    ensures Trimmed(Body(vars)) && Body(vars) != []
  {
    var line := Line(vars[0]);
    LineTrimmed(vars[0]);
    if |vars| > 1 {
      BodyEnds(vars[1..]);
      assert Lines(vars) == line + ['\n'] + (Body(vars[1..]) + ['\n']);
      assert Body(vars)[|Body(vars)| - 1] == Body(vars[1..])[|Body(vars[1..])| - 1];
      assert Body(vars)[0] == line[0];
    } else {
      assert Lines(vars[1..]) == [] && Body(vars) == line;
      assert Lines(vars) == line + ['\n'];
    }
  }

  lemma PrintIsBody(vars: seq<Var>)
    requires vars != [] && AllClean(vars)
    ensures Print(vars) == Body(vars)
  {
    BodyEnds(vars);
    var lines := Lines(vars);
    assert lines[..|lines| - 1] == Body(vars) && lines[0] == Body(vars)[0];
    assert TrimStart(lines) == lines && IsBlank('\n');
    assert TrimEnd(lines) == TrimEnd(Body(vars));
  }

  lemma {:induction false} BodySplits(vars: seq<Var>)
    requires vars != [] && AllClean(vars)
    ensures Split(Body(vars), '\n') == LineSeq(vars)
  {
    assert Clean(vars[0]);
    if |vars| == 1 {
      SplitNone(Line(vars[0]), '\n');
      assert LineSeq(vars[1..]) == [];
    } else {
      SplitFirst(Line(vars[0]), '\n', Body(vars[1..]));
      BodySplits(vars[1..]);
    }
  }

  lemma {:induction false} InsertAtEnd(vars: seq<Var>, x: Var)
    requires Ordered(vars + [x])
    ensures x.key != PROTO && Insert(vars, x) == vars + [x]
  {
    if vars != [] {
      assert (vars + [x])[1..] == vars[1..] + [x];
      InsertAtEnd(vars[1..], x);
      assert x in (vars + [x])[1..];
    }
  }

  lemma {:induction false} OrderedPrefix(vars: seq<Var>, more: seq<Var>)
    requires Ordered(vars + more)
    ensures Ordered(vars)
  {
    if vars != [] {
      assert (vars + more)[1..] == vars[1..] + more;
      OrderedPrefix(vars[1..], more);
    }
  }

  lemma {:induction false} LinesParse(vars: seq<Var>, more: seq<Var>)
    requires Ordered(vars + more) && AllClean(more)
    ensures ParseLines(vars, LineSeq(more)) == vars + more
    decreases |more|
  {
    if more == [] {
      assert vars + more == vars;
    } else {
      var x := more[0];
      LineParses(x);
      assert vars + more == (vars + [x]) + more[1..];
      OrderedPrefix(vars + [x], more[1..]);
      InsertAtEnd(vars, x);
      LinesParse(vars + [x], more[1..]);
      assert LineSeq(more)[1..] == LineSeq(more[1..]);
    }
  }

  lemma EmptyParses()
    ensures Print([]) == [] && Parse([]) == []
  {
    assert ParseLine([]) == None;
    assert ParseLines([], [[]]) == ParseLines(PutParsed([], []), [[]][1..]);
  }

  /** Variables that fit on lines, in the order of an object, come back as they were. */
  lemma PrintParses(vars: seq<Var>)
    requires AllClean(vars) && Ordered(vars)
    ensures Parse(Print(vars)) == vars
  {
    if vars == [] {
      EmptyParses();
    } else {
      PrintIsBody(vars);
      BodySplits(vars);
      assert [] + vars == vars;
      LinesParse([], vars);
    }
  }

  // ---- Main results ----

  /** Whatever the text, comments and broken lines included. */
  lemma ParseRoundTrips(text: string)
    ensures Parse(Print(Parse(text))) == Parse(text)
  {
    ParsedFileIsClean(text);
    PrintParses(Parse(text));
  }

  /** The updated file holds the old variables with just this one changed, exactly when the variable
      fits on a line (`__proto__` is never stored, so nothing can go wrong with its value). */
  lemma UpdateSetsExactlyWhen(text: string, x: Var)
    ensures Parse(Update(text, x)) == Put(Parse(text), x) <==> Clean(x) || x.key == PROTO
  {
    ParsedFileIsClean(text);
    var vars := Parse(text);
    if x.key == PROTO {
      PrintParses(vars);
    } else {
      InsertHolds(vars, x);
      if Clean(x) {
        InsertKeepsOrder(vars, x);
        PrintParses(Insert(vars, x));
      } else {
        ParsedFileIsClean(Update(text, x));
        assert x in Put(vars, x);
      }
    }
  }

  function Find(vars: seq<Var>, key: string): Option<string> {
    if vars == [] then None else if vars[0].key == key then Some(vars[0].value) else Find(vars[1..], key)
  }

  lemma {:induction false} InsertFinds(vars: seq<Var>, x: Var, key: string)
    ensures Find(Insert(vars, x), key) == if key == x.key then Some(x.value) else Find(vars, key)
  {
    if vars == [] {
    } else if vars[0].key == x.key {
      assert Insert(vars, x)[1..] == vars[1..];
    } else if Precedes(x.key, vars[0].key) {
      assert Insert(vars, x)[1..] == vars;
    } else {
      InsertFinds(vars[1..], x, key);
      assert Insert(vars, x)[1..] == Insert(vars[1..], x);
    }
  }

  lemma UpdateChangesOneKey(text: string, x: Var, key: string)
    requires Clean(x) && x.key != PROTO
    ensures Find(Parse(Update(text, x)), key) == if key == x.key then Some(x.value) else Find(Parse(text), key)
  {
    UpdateSetsExactlyWhen(text, x);
    InsertFinds(Parse(text), x, key);
  }

  lemma {:induction false} InsertTwice(vars: seq<Var>, x: Var)
    ensures Insert(Insert(vars, x), x) == Insert(vars, x)
  {
    if vars != [] && vars[0].key != x.key && !Precedes(x.key, vars[0].key) {
      InsertTwice(vars[1..], x);
      assert Insert(vars, x)[1..] == Insert(vars[1..], x);
    }
  }

  /** The same update again gives the same text. */
  lemma UpdateIsIdempotent(text: string, x: Var)
    requires Clean(x) || x.key == PROTO
    ensures Update(Update(text, x), x) == Update(text, x)
  {
    UpdateSetsExactlyWhen(text, x);
    InsertTwice(Parse(text), x);
  }
}
