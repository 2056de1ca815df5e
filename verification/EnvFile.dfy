/**
 The managed environment file: one NAME=VALUE a line, printed by the store and parsed back.
 */
module EnvFile {
  // ----- text

  /** The characters at which `splitlines` ends a line. */
  predicate IsBreak(c: char) {
    c in {'\n', '\r', '\U{b}', '\U{c}', '\U{1c}', '\U{1d}', '\U{1e}', '\U{85}', '\U{2028}', '\U{2029}'}
  }

  predicate IsSpace(c: char) {
    || IsBreak(c) || c in {' ', '\t', '\U{1f}', '\U{a0}', '\U{1680}', '\U{202f}', '\U{205f}', '\U{3000}'}
    || '\U{2000}' <= c <= '\U{200a}'
  }

  function LineLength(text: string): (n: nat)
    ensures n <= |text| && (forall i :: 0 <= i < n ==> !IsBreak(text[i])) && (n < |text| ==> IsBreak(text[n]))
  {
    if text == [] || IsBreak(text[0]) then 0 else 1 + LineLength(text[1..])
  }

  function SplitLines(text: string): (lines: seq<string>)
    ensures forall line :: line in lines ==> NoBreak(line)
    decreases |text|
  {
    var n := LineLength(text);
    if text == [] then []
    else if n == |text| then [text]
    else
      var skip := if text[n] == '\r' && n + 1 < |text| && text[n + 1] == '\n' then 2 else 1;
      [text[..n]] + SplitLines(text[n + skip..])
  }

  predicate NoBreak(text: string) {
    forall i :: 0 <= i < |text| ==> !IsBreak(text[i])
  }

  function StripLeft(text: string): (stripped: string)
    ensures |stripped| <= |text| && stripped == text[|text| - |stripped|..]
    ensures stripped != [] ==> !IsSpace(stripped[0])
  {
    if text == [] || !IsSpace(text[0]) then text else StripLeft(text[1..])
  }

  function StripRight(text: string): (stripped: string)
    ensures stripped <= text
    ensures stripped != [] ==> !IsSpace(stripped[|stripped| - 1])
    decreases |text|
  {
    if text == [] || !IsSpace(text[|text| - 1]) then text else StripRight(text[..|text| - 1])
  }

  function Strip(text: string): string {
    StripRight(StripLeft(text))
  }

  predicate Trimmed(text: string) {
    text != [] ==> !IsSpace(text[0]) && !IsSpace(text[|text| - 1])
  }

  lemma TrimmedStays(text: string)
    requires Trimmed(text)
    ensures Strip(text) == text
  {
  }

  lemma StripTrims(text: string)
    ensures Trimmed(Strip(text))
    ensures NoBreak(text) ==> NoBreak(Strip(text))
    ensures forall c :: c in Strip(text) ==> c in text
  {
    hide StripLeft, StripRight, IsSpace;
    var left := StripLeft(text);
    var stripped := StripRight(left);
    assert stripped != [] ==> stripped[0] == left[0];
    forall c | c in stripped ensures c in text {
      var i :| 0 <= i < |stripped| && stripped[i] == c;
      assert text[|text| - |left| + i] == left[i];
    }
  }

  /** The position of the first equals sign, or the length. */
  function Equals(line: string): (n: nat)
    ensures n <= |line| && (forall i :: 0 <= i < n ==> line[i] != '=') && (n < |line| ==> line[n] == '=')
  {
    if line == [] || line[0] == '=' then 0 else 1 + Equals(line[1..])
  }

  // ----- parsing

  datatype EnvError = NotAnAssignment | UnsupportedSetting | DuplicateSetting | InvalidValue

  datatype Parsed = Values(values: map<string, string>) | Failed(error: EnvError)

  predicate IsUpper(c: char) {
    'A' <= c <= 'Z'
  }

  /** A capital letter, then capitals, digits and underscores. */
  predicate IsName(name: string) {
    && name != [] && IsUpper(name[0])
    && forall i :: 0 <= i < |name| ==> IsUpper(name[i]) || '0' <= name[i] <= '9' || name[i] == '_'
  }

  predicate HasControl(value: string) {
    exists i :: 0 <= i < |value| && (value[i] == '\0' || value[i] == '\r' || value[i] == '\n')
  }

  /** One line: ignored, entered, or an error. */
  function ParseLine(raw: string, allowed: set<string>, values: map<string, string>): Parsed {
    var line := Strip(raw);
    if line == [] || line[0] == '#' then Values(values)
    else
      var n := Equals(line);
      var name := Strip(line[..n]);
      if n == |line| || !IsName(name) then Failed(NotAnAssignment)
      else if name !in allowed then Failed(UnsupportedSetting)
      else if name in values then Failed(DuplicateSetting)
      else if HasControl(line[n + 1..]) then Failed(InvalidValue)
      else Values(values[name := Strip(line[n + 1..])])
  }

  function ParseLines(lines: seq<string>, allowed: set<string>, values: map<string, string>): Parsed {
    if lines == [] then Values(values)
    else
      var first := ParseLine(lines[0], allowed, values);
      if first.Failed? then first else ParseLines(lines[1..], allowed, first.values)
  }

  method ParseEnv(text: string, allowed: set<string>) returns (parsed: Parsed)
    ensures parsed == ParseLines(SplitLines(text), allowed, map[])
    ensures var lines := SplitLines(text);
            && (parsed.Values? <==> forall i :: 0 <= i < |lines| ==> IsLegal(lines, i, allowed, map[]))
            && (parsed.Values? ==> forall name, value ::
                  (name, value) in parsed.values.Items <==>
                    exists i :: 0 <= i < |lines| && Enters(lines[i], name, value))
  {
    hide IsLegal, Enters;
    var lines := SplitLines(text);
    ParsesIff(lines, allowed, map[]);
    var values: map<string, string> := map[];
    for i := 0 to |lines|
      invariant ParseLines(lines[i..], allowed, values) == ParseLines(lines, allowed, map[])
    {
      assert lines[i..][1..] == lines[i + 1..];
      parsed := ParseLine(lines[i], allowed, values);
      if parsed.Failed? {
        return;
      }
      values := parsed.values;
    }
    parsed := Values(values);
  }

  /** A line of nothing but space, or a comment. */
  predicate IsIgnored(raw: string) {
    var line := Strip(raw); line == [] || line[0] == '#'
  }

  /**
   What stands before the first equals sign names the setting, what follows is its value, both without the space around.
   */
  ghost predicate Enters(raw: string, name: string, value: string) {
    var line := Strip(raw);
    && !IsIgnored(raw) && IsName(name)
    && exists n ::
         && 0 <= n < |line| && line[n] == '=' && (forall i :: 0 <= i < n ==> line[i] != '=')
         && name == Strip(line[..n]) && value == Strip(line[n + 1..]) && !HasControl(line[n + 1..])
  }

  lemma ParseLineIff(raw: string, allowed: set<string>, values: map<string, string>)
    ensures IsIgnored(raw) ==> ParseLine(raw, allowed, values) == Values(values)
    ensures forall name, value :: Enters(raw, name, value) && name in allowed && name !in values ==>
      ParseLine(raw, allowed, values) == Values(values[name := value])
    ensures ParseLine(raw, allowed, values).Values? ==>
      IsIgnored(raw) || exists name, value :: Enters(raw, name, value) && name in allowed && name !in values
  {
    hide Strip, IsName, HasControl;
    var line := Strip(raw);
    if !IsIgnored(raw) && ParseLine(raw, allowed, values).Values? {
      var n := Equals(line);
      assert Enters(raw, Strip(line[..n]), Strip(line[n + 1..]));
    }
  }

  /** A line enters at most one setting, and an ignored one none. */
  lemma EntersOnce(raw: string, a: string, x: string, b: string, y: string)
    requires Enters(raw, a, x) && Enters(raw, b, y)
    ensures a == b && x == y && !IsIgnored(raw)
  {
    hide Strip, IsName, HasControl;
  }

  /** A line is ignored, or enters an allowed setting that neither `values` nor an earlier line has. */
  ghost predicate IsLegal(lines: seq<string>, i: int, allowed: set<string>, values: map<string, string>)
    requires 0 <= i < |lines|
  {
    IsIgnored(lines[i])
    || exists name, value :: Enters(lines[i], name, value) && name in allowed && name !in values
         && forall j, other :: 0 <= j < i ==> !Enters(lines[j], name, other)
  }

  /** What the first line makes of the settings read so far. */
  ghost predicate FirstGives(raw: string, values: map<string, string>, after: map<string, string>) {
    || (IsIgnored(raw) && after == values)
    || exists name, value :: Enters(raw, name, value) && name !in values && after == values[name := value]
  }

  lemma LegalAfterFirst(lines: seq<string>, i: nat, allowed: set<string>, values: map<string, string>,
                        after: map<string, string>)
    requires i + 1 < |lines| && FirstGives(lines[0], values, after)
    ensures IsLegal(lines, i + 1, allowed, values) <==> IsLegal(lines[1..], i, allowed, after)
  {
    hide IsIgnored, Enters;
    forall name, value, other, y | Enters(lines[0], name, value) && Enters(lines[0], other, y)
      ensures name == other && value == y && !IsIgnored(lines[0])
    {
      EntersOnce(lines[0], name, value, other, y);
    }
    var rest := lines[1..];
    assert rest[i] == lines[i + 1];
    forall name ensures name !in values && (forall j, other :: 0 <= j < i + 1 ==> !Enters(lines[j], name, other)) <==>
      name !in after && forall j, other :: 0 <= j < i ==> !Enters(rest[j], name, other)
    {
      assert forall j :: 0 <= j < i ==> rest[j] == lines[j + 1];
      assert forall j :: 1 <= j < i + 1 ==> lines[j] == rest[j - 1];
    }
  }

  lemma ItemsAfterFirst(raw: string, values: map<string, string>, after: map<string, string>)
    requires FirstGives(raw, values, after)
    ensures forall name, value :: (name, value) in after.Items <==>
      (name, value) in values.Items || Enters(raw, name, value)
  {
    hide IsIgnored, Enters;
    forall name, value, other, y | Enters(raw, name, value) && Enters(raw, other, y)
      ensures name == other && value == y && !IsIgnored(raw)
    {
      EntersOnce(raw, name, value, other, y);
    }
    forall name, value
      ensures (name, value) in after.Items <==> (name, value) in values.Items || Enters(raw, name, value)
    {
      if IsIgnored(raw) && Enters(raw, name, value) {
        EntersOnce(raw, name, value, name, value);
      }
    }
  }

  /**
   A file parses exactly when each of its lines is legal, and then has the given settings and those its lines enter.
   */
  lemma {:induction false} ParsesIff(lines: seq<string>, allowed: set<string>, values: map<string, string>)
    ensures ParseLines(lines, allowed, values).Values? <==>
      forall i :: 0 <= i < |lines| ==> IsLegal(lines, i, allowed, values)
    ensures ParseLines(lines, allowed, values).Values? ==>
      forall name, value :: (name, value) in ParseLines(lines, allowed, values).values.Items <==>
        (name, value) in values.Items || exists i :: 0 <= i < |lines| && Enters(lines[i], name, value)
  {
    hide ParseLine, IsIgnored, Enters, IsLegal;
    if lines != [] {
      var first, rest := ParseLine(lines[0], allowed, values), lines[1..];
      ParseLineIff(lines[0], allowed, values);
      FirstIsLegalIff(lines, allowed, values);
      if first.Values? {
        ParsesIff(rest, allowed, first.values);
        ItemsAfterFirst(lines[0], values, first.values);
        forall i | 0 <= i < |rest|
          ensures IsLegal(lines, i + 1, allowed, values) <==> IsLegal(rest, i, allowed, first.values)
        {
          LegalAfterFirst(lines, i, allowed, values, first.values);
        }
        assert forall i :: 1 <= i < |lines| ==>
          (IsLegal(lines, i, allowed, values) <==> IsLegal(rest, i - 1, allowed, first.values));
        EnteredByAny(lines);
      }
    }
  }

  lemma FirstIsLegalIff(lines: seq<string>, allowed: set<string>, values: map<string, string>)
    requires lines != []
    ensures IsLegal(lines, 0, allowed, values) <==> ParseLine(lines[0], allowed, values).Values?
    ensures ParseLine(lines[0], allowed, values).Values? ==>
      FirstGives(lines[0], values, ParseLine(lines[0], allowed, values).values)
  {
    hide ParseLine, IsIgnored, Enters;
    ParseLineIff(lines[0], allowed, values);
  }

  lemma EnteredByAny(lines: seq<string>)
    requires lines != []
    ensures forall name, value :: (exists i :: 0 <= i < |lines| && Enters(lines[i], name, value)) <==>
      Enters(lines[0], name, value) || exists i :: 0 <= i < |lines[1..]| && Enters(lines[1..][i], name, value)
  {
    hide Enters;
    var rest := lines[1..];
    forall name, value ensures (exists i :: 0 <= i < |lines| && Enters(lines[i], name, value)) <==>
      Enters(lines[0], name, value) || exists i :: 0 <= i < |rest| && Enters(rest[i], name, value)
    {
      if i :| 0 <= i < |lines| && Enters(lines[i], name, value) {
        if i > 0 {
          assert Enters(rest[i - 1], name, value);
        }
      }
      if i :| 0 <= i < |rest| && Enters(rest[i], name, value) {
        assert Enters(lines[i + 1], name, value);
      }
    }
  }

  /** A value that survives the file: trimmed, on one line, without a zero byte. */
  predicate IsValue(value: string) {
    Trimmed(value) && NoBreak(value) && '\0' !in value
  }

  predicate Clean(values: map<string, string>, allowed: set<string>) {
    forall name :: name in values ==> name in allowed && IsName(name) && IsValue(values[name])
  }

  lemma ParsedLineIsClean(raw: string, allowed: set<string>, values: map<string, string>)
    requires NoBreak(raw) && Clean(values, allowed) && ParseLine(raw, allowed, values).Values?
    ensures Clean(ParseLine(raw, allowed, values).values, allowed)
  {
    hide IsBreak, IsSpace, Strip, NoBreak, Trimmed, IsName, HasControl;
    var line := Strip(raw);
    StripTrims(raw);
    if line != [] && line[0] != '#' && Equals(line) < |line| {
      StrippedIsValue(line, Equals(line) + 1);
    }
  }

  lemma StrippedIsValue(line: string, from: nat)
    requires from <= |line| && NoBreak(line) && !HasControl(line[from..])
    ensures IsValue(Strip(line[from..]))
  {
    hide IsBreak, IsSpace, Strip;
    var value := line[from..];
    assert NoBreak(value) && '\0' !in value;
    StripTrims(value);
  }

  /** Whatever a file parses to could have been written by the store. */
  lemma {:induction false} ParsedIsClean(lines: seq<string>, allowed: set<string>, values: map<string, string>)
    requires Clean(values, allowed) && (forall line :: line in lines ==> NoBreak(line))
      && ParseLines(lines, allowed, values).Values?
    ensures Clean(ParseLines(lines, allowed, values).values, allowed)
  {
    if lines != [] {
      ParsedLineIsClean(lines[0], allowed, values);
      hide ParseLine, Clean, NoBreak;
      ParsedIsClean(lines[1..], allowed, ParseLine(lines[0], allowed, values).values);
    }
  }

  // ----- printing

  function Terminated(lines: seq<string>): string {
    if lines == [] then [] else lines[0] + ['\n'] + Terminated(lines[1..])
  }

  function Assignment(name: string, value: string): string {
    name + ['='] + value
  }

  function Assignments(values: map<string, string>, order: seq<string>): (lines: seq<string>)
    requires forall name :: name in order ==> name in values
    ensures |lines| == |order| && forall i :: 0 <= i < |order| ==> lines[i] == Assignment(order[i], values[order[i]])
  {
    seq(|order|, i requires 0 <= i < |order| => Assignment(order[i], values[order[i]]))
  }

  /** An order lists each name once; the store uses the alphabetical one. */
  ghost predicate IsOrder(order: seq<string>, values: map<string, string>) {
    && (forall name :: name in order <==> name in values)
    && (forall i, j :: 0 <= i < j < |order| ==> order[i] != order[j])
  }

  predicate IsComment(line: string) {
    NoBreak(line) && line != [] && line[0] == '#'
  }

  /** The comments, an empty line, and the assignments; the store writes a heading and a notice. */
  function Serialize(values: map<string, string>, order: seq<string>, comments: seq<string>): string
    requires forall name :: name in order ==> name in values
  {
    Terminated(comments + [[]] + Assignments(values, order))
  }

  lemma {:induction false} SplitTerminated(lines: seq<string>)
    requires forall line :: line in lines ==> NoBreak(line)
    ensures SplitLines(Terminated(lines)) == lines
  {
    hide IsBreak, NoBreak, LineLength;
    if lines != [] {
      var text, first, rest := Terminated(lines), lines[0], Terminated(lines[1..]);
      assert text == first + (['\n'] + rest);
      FirstLine(first, rest);
      assert text[..|first|] == first && text[|first| + 1..] == rest && text[|first|] == '\n';
      SplitTerminated(lines[1..]);
    }
  }

  /** A carriage return with a line feed behind it ends one line, any other break one by itself. */
  predicate EndsLine(end: string, rest: string) {
    end == ['\r', '\n'] || (|end| == 1 && IsBreak(end[0]) && !(end == ['\r'] && rest != [] && rest[0] == '\n'))
  }

  lemma SplitAtBreak(first: string, end: string, rest: string)
    requires NoBreak(first) && EndsLine(end, rest)
    ensures SplitLines(first + end + rest) == [first] + SplitLines(rest)
  {
    var text := first + end + rest;
    var n := LineLength(text);
    assert forall i :: 0 <= i < |first| ==> text[i] == first[i];
    assert text[|first|] == end[0] && IsBreak(end[0]);
    assert n == |first| && text[..n] == first;
    assert n + 1 < |text| ==> text[n + 1] == if |end| == 2 then end[1] else rest[0];
    assert text[n + |end|..] == rest;
    hide IsBreak, NoBreak, LineLength;
  }

  lemma FirstLine(first: string, rest: string)
    requires NoBreak(first)
    ensures LineLength(first + ['\n'] + rest) == |first|
  {
    var text := first + ['\n'] + rest;
    var n := LineLength(text);
    assert IsBreak(text[|first|]);
    assert forall i :: 0 <= i < |first| ==> text[i] == first[i];
  }

  lemma NameIsPlain(name: string)
    requires IsName(name)
    ensures Trimmed(name) && name[0] != '#' && !IsSpace(name[0]) && NoBreak(name) && forall i ::
      0 <= i < |name| ==> name[i] != '='
  {
  }

  lemma AssignmentIsTrimmed(name: string, value: string)
    requires IsName(name) && IsValue(value)
    ensures Trimmed(Assignment(name, value)) && NoBreak(Assignment(name, value))
    ensures Assignment(name, value)[0] == name[0]
  {
    NameIsPlain(name);
    var line := Assignment(name, value);
    assert !IsSpace('=') && !IsBreak('=');
    assert line[|line| - 1] == if value == [] then '=' else value[|value| - 1];
    hide IsSpace, IsBreak, IsName;
  }

  lemma AssignmentParts(name: string, value: string)
    requires forall i :: 0 <= i < |name| ==> name[i] != '='
    ensures var line := Assignment(name, value);
            Equals(line) == |name| < |line| && line[..|name|] == name && line[|name| + 1..] == value
  {
    var line := Assignment(name, value);
    assert line[|name|] == '=' && forall i :: 0 <= i < |name| ==> line[i] == name[i];
  }

  lemma ValueHasNoControl(value: string)
    requires IsValue(value)
    ensures !HasControl(value)
  {
    assert IsBreak('\r') && IsBreak('\n');
    forall i | 0 <= i < |value| ensures value[i] != '\0' && value[i] != '\r' && value[i] != '\n' {
      assert value[i] in value;
    }
  }

  /** A printed assignment is read back as it was meant. */
  lemma AssignmentParses(name: string, value: string, allowed: set<string>, values: map<string, string>)
    requires IsName(name) && IsValue(value) && name in allowed && name !in values
    ensures ParseLine(Assignment(name, value), allowed, values) == Values(values[name := value])
  {
    hide IsSpace, IsBreak, IsName, HasControl, Assignment, Strip, NoBreak;
    NameIsPlain(name);
    AssignmentIsTrimmed(name, value);
    AssignmentParts(name, value);
    ValueHasNoControl(value);
    TrimmedStays(Assignment(name, value));
    TrimmedStays(name);
    TrimmedStays(value);
  }

  /** The values of the first `k` names in the order. */
  function Upto(values: map<string, string>, order: seq<string>, k: nat): map<string, string>
    requires k <= |order| && forall name :: name in order ==> name in values
  {
    map name | name in order[..k] :: values[name]
  }

  lemma UptoMore(values: map<string, string>, order: seq<string>, k: nat)
    requires k < |order| && IsOrder(order, values)
    ensures order[k] !in Upto(values, order, k)
    ensures Upto(values, order, k)[order[k] := values[order[k]]] == Upto(values, order, k + 1)
  {
    assert order[..k + 1] == order[..k] + [order[k]];
  }

  lemma UptoAll(values: map<string, string>, order: seq<string>)
    requires IsOrder(order, values)
    ensures Upto(values, order, |order|) == values && Upto(values, order, 0) == map[]
  {
    assert order[..|order|] == order;
  }

  lemma {:induction false} AssignmentsParse(values: map<string, string>, order: seq<string>, allowed: set<string>,
                                            k: nat)
    requires IsOrder(order, values) && Clean(values, allowed) && k <= |order|
    ensures ParseLines(Assignments(values, order)[k..], allowed, Upto(values, order, k)) == Values(values)
    decreases |order| - k
  {
    hide ParseLine, IsName, IsValue, Upto;
    if k == |order| {
      UptoAll(values, order);
    } else {
      var lines := Assignments(values, order);
      OrderNames(values, order, k);
      UptoMore(values, order, k);
      AssignmentParses(order[k], values[order[k]], allowed, Upto(values, order, k));
      assert lines[k..][0] == lines[k] && lines[k..][1..] == lines[k + 1..];
      AssignmentsParse(values, order, allowed, k + 1);
    }
  }

  lemma OrderNames(values: map<string, string>, order: seq<string>, k: nat)
    requires IsOrder(order, values) && k < |order|
    ensures order[k] in values
  {
    assert order[k] in order;
  }

  lemma {:induction false} KeepsFirst(text: string)
    requires text != [] && !IsSpace(text[0])
    ensures StripRight(text) != [] && StripRight(text)[0] == text[0]
    decreases |text|
  {
    if IsSpace(text[|text| - 1]) {
      KeepsFirst(text[..|text| - 1]);
    }
  }

  lemma CommentIgnored(line: string, allowed: set<string>, values: map<string, string>)
    requires line == [] || IsComment(line)
    ensures ParseLine(line, allowed, values) == Values(values)
  {
    if line != [] {
      KeepsFirst(line);
    }
  }

  /** Comments and empty lines leave what was read alone. */
  lemma {:induction false} CommentsIgnored(comments: seq<string>, rest: seq<string>, allowed: set<string>,
                                           values: map<string, string>)
    requires forall line :: line in comments ==> line == [] || IsComment(line)
    ensures ParseLines(comments + rest, allowed, values) == ParseLines(rest, allowed, values)
  {
    hide ParseLine, IsComment;
    if comments == [] {
      assert comments + rest == rest;
    } else {
      CommentIgnored(comments[0], allowed, values);
      assert (comments + rest)[1..] == comments[1..] + rest;
      CommentsIgnored(comments[1..], rest, allowed, values);
    }
  }

  lemma AssignmentHasNoBreak(values: map<string, string>, order: seq<string>, allowed: set<string>, line: string)
    requires IsOrder(order, values) && Clean(values, allowed) && line in Assignments(values, order)
    ensures NoBreak(line)
  {
    hide NoBreak, IsName, IsValue;
    var k :| 0 <= k < |order| && Assignments(values, order)[k] == line;
    OrderNames(values, order, k);
    AssignmentIsTrimmed(order[k], values[order[k]]);
  }

  /** Printing and parsing undo each other, under any comments and whatever order the names are printed in. */
  lemma ParseUndoesSerialize(values: map<string, string>, order: seq<string>, comments: seq<string>,
                             allowed: set<string>)
    requires IsOrder(order, values) && Clean(values, allowed) && forall line :: line in comments ==> IsComment(line)
    ensures ParseLines(SplitLines(Serialize(values, order, comments)), allowed, map[]) == Values(values)
  {
    hide ParseLine, Clean, Upto, IsName, IsValue, IsSpace, IsBreak;
    var assignments := Assignments(values, order);
    var lines := comments + [[]] + assignments;
    forall line | line in lines ensures NoBreak(line) {
      if line in assignments {
        AssignmentHasNoBreak(values, order, allowed, line);
      }
    }
    SplitTerminated(lines);
    CommentsIgnored(comments + [[]], assignments, allowed, map[]);
    UptoAll(values, order);
    AssignmentsParse(values, order, allowed, 0);
    assert assignments[0..] == assignments;
  }

  /** The settings after an update: the named ones set or removed, all others as they were read. */
  function Patched(values: map<string, string>, updates: map<string, string>, removals: set<string>): map<string,
                   string> {
    (values + updates) - removals
  }

  /**
   A patch of a readable file rewrites it so that reading it again shows exactly the named settings changed
   and every other one as it was.
   */
  lemma PatchChangesOnlyTheNamed(text: string, updates: map<string, string>, removals: set<string>, order: seq<string>,
                                 comments: seq<string>, allowed: set<string>)
    requires Clean(updates, allowed) && forall line :: line in comments ==> IsComment(line)
    requires var before := ParseLines(SplitLines(text), allowed, map[]);
             before.Values? && IsOrder(order, Patched(before.values, updates, removals))
    ensures var before := ParseLines(SplitLines(text), allowed, map[]).values;
            var after := ParseLines(SplitLines(Serialize(Patched(before, updates, removals), order, comments)),
                                    allowed, map[]);
            && after.Values?
            && (forall name :: name in removals ==> name !in after.values)
            && (forall name :: name in updates && name !in removals ==>
                name in after.values && after.values[name] == updates[name])
            && (forall name :: name !in updates && name !in removals ==>
                  (name in after.values <==> name in before) && (name in before ==> after.values[name] == before[name]))
  {
    hide ParseLine, IsName, IsValue, IsComment;
    var before := ParseLines(SplitLines(text), allowed, map[]).values;
    ParsedIsClean(SplitLines(text), allowed, map[]);
    ParseUndoesSerialize(Patched(before, updates, removals), order, comments, allowed);
  }

  /**
   A printed file shows what it was printed from exactly when every name is allowed and every value survives a line.
   */
  lemma ReadsBackIff(values: map<string, string>, order: seq<string>, comments: seq<string>, allowed: set<string>)
    requires IsOrder(order, values) && forall line :: line in comments ==> IsComment(line)
    ensures ParseLines(SplitLines(Serialize(values, order, comments)), allowed, map[]) == Values(values) <==>
      Clean(values, allowed)
  {
    hide ParseLine, IsName, IsValue, IsComment, Serialize, SplitLines, NoBreak;
    if Clean(values, allowed) {
      ParseUndoesSerialize(values, order, comments, allowed);
    }
    if ParseLines(SplitLines(Serialize(values, order, comments)), allowed, map[]) == Values(values) {
      ParsedIsClean(SplitLines(Serialize(values, order, comments)), allowed, map[]);
    }
  }

  /** What the provider key store accepts as a key. */
  predicate IsKey(value: string) {
    1 <= |value| <= 4096 && !HasControl(value)
  }

  lemma KeyIsValueIff(value: string)
    requires IsKey(value)
    ensures IsValue(value) <==> Trimmed(value) && NoBreak(value)
  {
    hide Trimmed, NoBreak;
  }

  /**
   Accepted provider keys are read back exactly when each of them is trimmed and holds none of the characters that
   end a line; a key with a vertical tab, a next-line character or an edge blank is accepted and is not read back.
   */
  lemma KeysReadBackIff(keys: map<string, string>, order: seq<string>, comments: seq<string>, allowed: set<string>)
    requires IsOrder(order, keys) && forall line :: line in comments ==> IsComment(line)
    requires forall name :: name in keys ==> name in allowed && IsName(name) && IsKey(keys[name])
    ensures ParseLines(SplitLines(Serialize(keys, order, comments)), allowed, map[]) == Values(keys)
       <==> forall name :: name in keys ==> Trimmed(keys[name]) && NoBreak(keys[name])
  {
    hide ParseLines, Serialize, SplitLines, IsName, IsValue, IsComment, IsOrder, IsKey, Trimmed, NoBreak;
    ReadsBackIff(keys, order, comments, allowed);
    forall name | name in keys ensures IsValue(keys[name]) <==> Trimmed(keys[name]) && NoBreak(keys[name]) {
      KeyIsValueIff(keys[name]);
    }
  }
}
