/** The `.env` handling of utilities/env_helper.py: the `KEY=VALUE` parser and
    rewriter of `update_env_variable`, and the settings `load_vars` derives.
    The file is its text (`None` when it does not exist) and the process
    environment is a map; `load_dotenv` is modelled as reading the file with
    the same parser. As called (`LoadDotenv`) it never overrides a variable
    that is already set, so a reload after an update can miss the update; the
    helper object loads that way at start-up and reloads after an update with
    the overriding load (`LoadDotenvOverriding`) that the reload evidently
    intends. */
module EnvHelper {
  import opened Wrappers
  import opened Text

  // ----------------------------------------------------------------- reading

  /** Python's universal-newline reading: `\r\n` and a lone `\r` both become `\n`. */
  function Universal(text: string): (r: string)
    ensures '\r' !in r
  {
    ReplaceRemovesChar(Replace(text, "\r\n", "\n"), '\r', '\n');
    Replace(Replace(text, "\r\n", "\n"), "\r", "\n")
  }

  /** A text without `\r` is read as it is. */
  lemma UniversalPlain(text: string)
    requires '\r' !in text
    ensures Universal(text) == text
  {
    NoOccurrence(text, "\r\n");
    ReplaceAbsent(text, "\r\n", "\n");
    NoOccurrence(text, "\r");
    ReplaceAbsent(text, "\r", "\n");
  }

  /** A line break written as `\r\n` is read as `\n`. */
  lemma UniversalCRLF(x: string, y: string)
    requires '\r' !in x
    ensures Universal(x + "\r\n" + y) == x + "\n" + Universal(y)
  {
    var y1 := Replace(y, "\r\n", "\n");
    ReplaceFirst(x, "\r\n", y, "\n");
    assert x + "\n" + y1 == (x + "\n") + y1;
    ReplacePrefixFree(x + "\n", y1, "\r", "\n");
  }

  /** A lone `\r` is read as `\n`. */
  lemma UniversalCR(x: string, y: string)
    requires '\r' !in x && (y == [] || y[0] != '\n')
    ensures Universal(x + "\r" + y) == x + "\n" + Universal(y)
  {
    var y1 := Replace(y, "\r\n", "\n");
    assert x + "\r" + y == x + ("\r" + y);
    ReplacePrefixFree(x, "\r" + y, "\r\n", "\n");
    if y != [] {
      assert ("\r" + y)[..2] != "\r\n" by {
        assert ("\r" + y)[..2][1] == y[0];
      }
      assert ("\r" + y)[2..] == y[1..];
      assert ("\r" + y)[1..] == y;
    }
    assert Replace("\r" + y, "\r\n", "\n") == "\r" + y1;
    assert x + ("\r" + y1) == x + "\r" + y1;
    ReplaceFirst(x, "\r", y1, "\n");
  }

  /** `for line in file`: every line keeps its `\n`; a last line without one is kept too. */
  function SplitLines(s: string): (r: seq<string>)
    ensures forall i :: 0 <= i < |r| ==> r[i] != [] && '\n' !in r[i][..|r[i]| - 1]
    decreases |s|
  {
    if s == [] then []
    else if '\n' !in s then [s]
    else
      var (a, b) := SplitFirst(s, '\n');
      var line := a + "\n";
      assert line[..|line| - 1] == a;
      [line] + SplitLines(b)
  }

  /** Reading splits the text without adding characters. */
  lemma {:induction false} SplitLinesNoCR(s: string)
    requires '\r' !in s
    ensures forall i :: 0 <= i < |SplitLines(s)| ==> '\r' !in SplitLines(s)[i]
    decreases |s|
  {
    if s != [] && '\n' in s {
      var (a, b) := SplitFirst(s, '\n');
      assert s == a + "\n" + b;
      assert '\r' !in b;
      SplitLinesNoCR(b);
      assert SplitLines(s) == [a + "\n"] + SplitLines(b);
    }
  }

  /** The text the lines make up when joined. */
  function Concat(lines: seq<string>): string {
    if lines == [] then [] else lines[0] + Concat(lines[1..])
  }

  /** Joining one line in front of others. */
  lemma ConcatCons(line: string, rest: seq<string>)
    ensures Concat([line] + rest) == line + Concat(rest)
  {
    assert ([line] + rest)[1..] == rest;
  }

  /** The lines join back into the text. */
  lemma {:induction false} SplitLinesConcat(s: string)
    ensures Concat(SplitLines(s)) == s
    decreases |s|
  {
    if s != [] {
      if '\n' !in s {
        assert SplitLines(s) == [s] + [];
        ConcatCons(s, []);
      } else {
        var (a, b) := SplitFirst(s, '\n');
        assert SplitLines(s) == [a + "\n"] + SplitLines(b);
        SplitLinesConcat(b);
        ConcatCons(a + "\n", SplitLines(b));
      }
    }
  }

  /** Every line but the last ends with a line break. */
  lemma {:induction false} SplitLinesEnds(s: string)
    ensures forall i :: 0 <= i < |SplitLines(s)| - 1 ==> SplitLines(s)[i][|SplitLines(s)[i]| - 1] == '\n'
    decreases |s|
  {
    if s != [] && '\n' in s {
      var (a, b) := SplitFirst(s, '\n');
      var line := a + "\n";
      var rest := SplitLines(b);
      var lines := SplitLines(s);
      assert lines == [line] + rest;
      SplitLinesEnds(b);
      forall i | 0 <= i < |lines| - 1
        ensures lines[i][|lines[i]| - 1] == '\n'
      {
        if i == 0 {
          assert lines[0] == line;
        } else {
          assert lines[i] == rest[i - 1];
        }
      }
    }
  }

  /** The first line runs up to and including the first line break. */
  lemma SplitLinesHead(x: string, rest: string)
    requires '\n' !in x
    ensures SplitLines(x + "\n" + rest) == [x + "\n"] + SplitLines(rest)
  {
    SplitFirstAt(x, '\n', rest);
  }

  /** Reading two texts one after the other, the first ending at a line break. */
  lemma {:induction false} SplitLinesAppend(a: string, b: string)
    requires a == [] || a[|a| - 1] == '\n'
    ensures SplitLines(a + b) == SplitLines(a) + SplitLines(b)
    decreases |a|
  {
    if a != [] {
      assert '\n' in a;
      var (x, rest) := SplitFirst(a, '\n');
      assert a + b == x + "\n" + (rest + b);
      if rest != [] {
        assert rest[|rest| - 1] == a[|a| - 1];
      }
      SplitLinesHead(x, rest);
      SplitLinesHead(x, rest + b);
      SplitLinesAppend(rest, b);
    } else {
      assert a + b == b;
    }
  }

  /** One line of `update_env_variable`'s reading loop: a stripped line that is
      empty, starts with `#` or has no `=` is ignored; any other is split at
      its first `=`. */
  function ParseLine(line: string): (r: Option<(string, string)>)
    ensures r.None? <==> (Strip(line) == [] || Strip(line)[0] == '#' || '=' !in Strip(line))
    ensures r.Some? ==> Strip(line) == r.value.0 + "=" + r.value.1 && '=' !in r.value.0
  {
    var t := Strip(line);
    if t != [] && t[0] != '#' && '=' in t then Some(SplitFirst(t, '=')) else None
  }

  // ------------------------------------------------------------ ordered dict

  /** A Python dict of strings: insertion-ordered key-value pairs. */
  type Env = seq<(string, string)>

  function Keys(e: Env): seq<string> {
    if e == [] then [] else [e[0].0] + Keys(e[1..])
  }

  lemma {:induction false} KeysAt(e: Env)
    ensures |Keys(e)| == |e| && forall i :: 0 <= i < |e| ==> Keys(e)[i] == e[i].0
  {
    if e != [] {
      KeysAt(e[1..]);
    }
  }

  predicate Distinct(s: seq<string>) {
    forall i, j :: 0 <= i < j < |s| ==> s[i] != s[j]
  }

  predicate UniqueKeys(e: Env) {
    Distinct(Keys(e))
  }

  /** `d.get(k)`. */
  function Lookup(e: Env, k: string): (r: Option<string>)
    ensures r.Some? <==> k in Keys(e)
  {
    if e == [] then None else if e[0].0 == k then Some(e[0].1) else Lookup(e[1..], k)
  }

  lemma {:induction false} LookupAt(e: Env, i: nat)
    requires UniqueKeys(e) && i < |e|
    ensures Lookup(e, e[i].0) == Some(e[i].1)
  {
    KeysAt(e);
    if i > 0 {
      assert Keys(e)[0] != Keys(e)[i];
      assert Keys(e) == [e[0].0] + Keys(e[1..]);
      assert forall j :: 0 <= j < |e| - 1 ==> Keys(e[1..])[j] == Keys(e)[j + 1];
      assert UniqueKeys(e[1..]);
      LookupAt(e[1..], i - 1);
    }
  }

  /** `d[k] = v`: a key already present keeps its place and takes the new
      value, a new key goes last, and nothing else changes. */
  function Put(e: Env, k: string, v: string): (r: Env)
    ensures Keys(r) == if k in Keys(e) then Keys(e) else Keys(e) + [k]
    ensures Lookup(r, k) == Some(v)
  {
    if e == [] then [(k, v)]
    else if e[0].0 == k then [(k, v)] + e[1..]
    else [e[0]] + Put(e[1..], k, v)
  }

  /** Setting a key leaves the value of every other key as it was. */
  lemma {:induction false} PutOthers(e: Env, k: string, v: string, k': string)
    requires k' != k
    ensures Lookup(Put(e, k, v), k') == Lookup(e, k')
  {
    if e != [] && e[0].0 != k {
      PutOthers(e[1..], k, v, k');
    }
  }

  /** A new key is appended. */
  lemma {:induction false} PutNew(e: Env, k: string, v: string)
    requires k !in Keys(e)
    ensures Put(e, k, v) == e + [(k, v)]
  {
    if e != [] {
      PutNew(e[1..], k, v);
      assert [e[0]] + (e[1..] + [(k, v)]) == e + [(k, v)];
    }
  }

  /** Setting a key keeps the keys distinct. */
  lemma PutUnique(e: Env, k: string, v: string)
    requires UniqueKeys(e)
    ensures UniqueKeys(Put(e, k, v))
  {
  }

  /** Every entry after setting a key is the new one or an old one. */
  lemma {:induction false} PutEntries(e: Env, k: string, v: string)
    ensures forall i :: 0 <= i < |Put(e, k, v)| ==> Put(e, k, v)[i] == (k, v) || Put(e, k, v)[i] in e
  {
    if e != [] && e[0].0 != k {
      PutEntries(e[1..], k, v);
      var r := Put(e, k, v);
      assert forall i :: 0 < i < |r| ==> r[i] == Put(e[1..], k, v)[i - 1];
    }
  }

  /** The reading loop over the lines. */
  function ParseLines(lines: seq<string>): Env {
    if lines == [] then []
    else
      var e := ParseLines(lines[..|lines| - 1]);
      match ParseLine(lines[|lines| - 1])
      case None => e
      case Some((k, v)) => Put(e, k, v)
  }

  /** Reading one more line. */
  lemma ParseLinesSnoc(lines: seq<string>, line: string)
    ensures ParseLines(lines + [line]) ==
      if ParseLine(line).Some? then Put(ParseLines(lines), ParseLine(line).value.0, ParseLine(line).value.1)
      else ParseLines(lines)
  {
    assert (lines + [line])[..|lines|] == lines;
  }

  /** The dict read holds every key once. */
  lemma {:induction false} ParseLinesUnique(lines: seq<string>)
    ensures UniqueKeys(ParseLines(lines))
  {
    if lines != [] {
      var e := ParseLines(lines[..|lines| - 1]);
      ParseLinesUnique(lines[..|lines| - 1]);
      match ParseLine(lines[|lines| - 1])
      case None =>
      case Some((k, v)) => PutUnique(e, k, v);
    }
  }

  /** What `update_env_variable` reads from the file; a missing file reads as an empty dict. */
  function ParseEnv(file: Option<string>): Env {
    match file
    case None => []
    case Some(text) => ParseLines(SplitLines(Universal(text)))
  }

  /** The value of the last line that sets `k`: the reference reading of a file with duplicate keys. */
  function LastValue(lines: seq<string>, k: string): Option<string> {
    if lines == [] then None
    else
      match ParseLine(lines[|lines| - 1])
      case Some((k', v)) => if k' == k then Some(v) else LastValue(lines[..|lines| - 1], k)
      case None => LastValue(lines[..|lines| - 1], k)
  }

  /** A key set on several lines keeps the value of its last one. */
  lemma {:induction false} LastDuplicateWins(lines: seq<string>, k: string)
    ensures Lookup(ParseLines(lines), k) == LastValue(lines, k)
  {
    if lines != [] {
      var n := |lines| - 1;
      LastDuplicateWins(lines[..n], k);
      match ParseLine(lines[n])
      case Some((k', v)) =>
        if k' != k {
          PutOthers(ParseLines(lines[..n]), k', v, k);
        }
      case None =>
    }
  }

  // ----------------------------------------------------------------- writing

  function EntryLine(k: string, v: string): string {
    k + "=" + v + "\n"
  }

  /** The writing loop: one `key=value\n` line per entry, in dict order. */
  function Serialize(e: Env): string {
    if e == [] then [] else Serialize(e[..|e| - 1]) + EntryLine(e[|e| - 1].0, e[|e| - 1].1)
  }

  lemma SliceSnoc<T>(s: seq<T>, i: nat)
    requires i < |s|
    ensures s[..i + 1] == s[..i] + [s[i]]
  {
  }

  /** One pass of `update_env_variable`'s reading loop. */
  method ReadEnvLine(envVars: Env, rawLine: string) returns (updated: Env)
    ensures updated == if ParseLine(rawLine).Some?
      then Put(envVars, ParseLine(rawLine).value.0, ParseLine(rawLine).value.1) else envVars
  {
    var line := Strip(rawLine);
    if line != [] && line[0] != '#' && '=' in line {
      var (key, value) := SplitFirst(line, '=');
      return Put(envVars, key, value);
    }
    return envVars;
  }

  /** `update_env_variable`'s reading loop, over the lines of the file. */
  method ReadLines(lines: seq<string>) returns (envVars: Env)
    ensures envVars == ParseLines(lines)
  {
    envVars := [];
    for i := 0 to |lines|
      invariant envVars == ParseLines(lines[..i])
    {
      SliceSnoc(lines, i);
      ParseLinesSnoc(lines[..i], lines[i]);
      envVars := ReadEnvLine(envVars, lines[i]);
    }
    assert lines[..|lines|] == lines;
  }

  /** Reading `.env`; a missing file reads as the empty dict. */
  method ReadEnvFile(file: Option<string>) returns (envVars: Env)
    ensures envVars == ParseEnv(file)
  {
    if file.None? {
      return [];
    }
    envVars := ReadLines(SplitLines(Universal(file.value)));
  }

  /** `update_env_variable`'s writing loop. */
  method WriteEnvFile(envVars: Env) returns (written: string)
    ensures written == Serialize(envVars)
  {
    written := "";
    for i := 0 to |envVars|
      invariant written == Serialize(envVars[..i])
    {
      assert envVars[..i + 1][..i] == envVars[..i];
      var (key, value) := envVars[i];
      written := written + key + "=" + value + "\n";
    }
    assert envVars[..|envVars|] == envVars;
  }

  /** `update_env_variable`'s file rewrite: read the file into a dict, set
      the variable, then write one line per entry. Comment and blank lines
      are not written back. */
  method RewriteEnvFile(file: Option<string>, variableName: string, variableValue: string) returns (written: string)
    ensures written == Serialize(Put(ParseEnv(file), variableName, variableValue))
  {
    var envVars := ReadEnvFile(file);
    envVars := Put(envVars, variableName, variableValue);
    written := WriteEnvFile(envVars);
  }

  /** Without a file, the written file holds exactly the one new line. */
  lemma MissingFileWritesOneLine(variableName: string, variableValue: string)
    ensures Serialize(Put(ParseEnv(None), variableName, variableValue)) == variableName + "=" + variableValue + "\n"
  {
    assert [(variableName, variableValue)][..0] == [];
  }

  // -------------------------------------------------------------- round trip

  /** An entry whose line reads back as itself: the key has no `=` or line
      break, does not start with `#` or white space; the value has no line
      break and does not end with white space. */
  predicate WellFormed(k: string, v: string) {
    && '=' !in k && '\n' !in k && '\r' !in k
    && (k == [] || (!IsSpace(k[0]) && k[0] != '#'))
    && '\n' !in v && '\r' !in v
    && (v == [] || !IsSpace(v[|v| - 1]))
  }

  predicate AllWellFormed(e: Env) {
    forall i :: 0 <= i < |e| ==> WellFormed(e[i].0, e[i].1)
  }

  lemma EntryLineParses(k: string, v: string)
    requires WellFormed(k, v)
    ensures ParseLine(EntryLine(k, v)) == Some((k, v))
  {
    var t := k + "=" + v;
    assert EntryLine(k, v) == t + ['\n'];
    assert t[0] == if k == [] then '=' else k[0];
    assert t[|t| - 1] == if v == [] then '=' else v[|v| - 1];
    StripCleanSpace(t, '\n');
    SplitFirstAt(k, '=', v);
  }

  /** The lines of a written file, one per entry. */
  function EntryLines(e: Env): seq<string> {
    if e == [] then [] else EntryLines(e[..|e| - 1]) + [EntryLine(e[|e| - 1].0, e[|e| - 1].1)]
  }

  predicate NoBreaks(e: Env) {
    forall i :: 0 <= i < |e| ==> '\n' !in e[i].0 + e[i].1 && '\r' !in e[i].0 + e[i].1
  }

  lemma AllWellFormedNoBreaks(e: Env)
    requires AllWellFormed(e)
    ensures NoBreaks(e)
  {
  }

  lemma {:induction false} NoBreaksPrefix(e: Env, n: nat)
    requires NoBreaks(e) && n <= |e|
    ensures NoBreaks(e[..n])
  {
    assert forall i :: 0 <= i < n ==> e[..n][i] == e[i];
  }

  lemma SingleLine(k: string, v: string)
    requires '\n' !in k + v
    ensures SplitLines(EntryLine(k, v)) == [EntryLine(k, v)]
  {
    var line := EntryLine(k, v);
    assert line == (k + "=" + v) + "\n" + [];
    SplitFirstAt(k + "=" + v, '\n', []);
  }

  lemma {:induction false} SerializeEnds(e: Env)
    ensures Serialize(e) == [] || Serialize(e)[|Serialize(e)| - 1] == '\n'
  {
  }

  lemma {:induction false} SerializeNoCR(e: Env)
    requires NoBreaks(e)
    ensures '\r' !in Serialize(e)
  {
    if e != [] {
      NoBreaksPrefix(e, |e| - 1);
      SerializeNoCR(e[..|e| - 1]);
    }
  }

  /** A written file reads back as its lines. */
  lemma {:induction false} SerializeSplits(e: Env)
    requires NoBreaks(e)
    ensures SplitLines(Serialize(e)) == EntryLines(e)
  {
    if e != [] {
      var n := |e| - 1;
      NoBreaksPrefix(e, n);
      SerializeSplits(e[..n]);
      SingleLine(e[n].0, e[n].1);
      SerializeEnds(e[..n]);
      SplitLinesAppend(Serialize(e[..n]), EntryLine(e[n].0, e[n].1));
    }
  }

  lemma {:induction false} UniquePrefix(e: Env, n: nat)
    requires UniqueKeys(e) && n <= |e|
    ensures UniqueKeys(e[..n])
    ensures n < |e| ==> e[n].0 !in Keys(e[..n])
  {
    KeysAt(e);
    KeysAt(e[..n]);
    assert forall i :: 0 <= i < n ==> Keys(e[..n])[i] == Keys(e)[i];
    if n < |e| {
      assert forall i :: 0 <= i < n ==> Keys(e[..n])[i] != Keys(e)[n];
    }
  }

  lemma WellFormedPrefix(e: Env, n: nat)
    requires AllWellFormed(e) && n <= |e|
    ensures AllWellFormed(e[..n])
  {
    assert forall i :: 0 <= i < n ==> e[..n][i] == e[i];
  }

  lemma ParseEntrySnoc(lines: seq<string>, k: string, v: string)
    requires WellFormed(k, v)
    ensures ParseLines(lines + [EntryLine(k, v)]) == Put(ParseLines(lines), k, v)
  {
    EntryLineParses(k, v);
    ParseLinesSnoc(lines, EntryLine(k, v));
  }

  lemma {:induction false} ParseEntryLines(e: Env)
    requires UniqueKeys(e) && AllWellFormed(e)
    ensures ParseLines(EntryLines(e)) == e
  {
    if e != [] {
      var n := |e| - 1;
      assert e[..n] + [e[n]] == e;
      WellFormedPrefix(e, n);
      UniquePrefix(e, n);
      ParseEntryLines(e[..n]);
      PutNew(e[..n], e[n].0, e[n].1);
      ParseEntrySnoc(EntryLines(e[..n]), e[n].0, e[n].1);
    }
  }

  /** Reading back a written file gives the dict that was written, when every entry is well formed. */
  lemma RoundTrip(e: Env)
    requires UniqueKeys(e) && AllWellFormed(e)
    ensures ParseEnv(Some(Serialize(e))) == e
  {
    AllWellFormedNoBreaks(e);
    SerializeNoCR(e);
    UniversalPlain(Serialize(e));
    SerializeSplits(e);
    ParseEntryLines(e);
  }

  /** A read line has no line break left once stripped. */
  lemma StripLine(line: string)
    requires '\r' !in line && line != [] && '\n' !in line[..|line| - 1]
    ensures '\n' !in Strip(line) && '\r' !in Strip(line)
  {
    var body := line[..|line| - 1];
    assert line == body + [line[|line| - 1]];
    if line[|line| - 1] == '\n' {
      StripTrailingSpace(body, '\n');
      assert '\n' !in body && '\r' !in body;
    }
  }

  /** Every line that is read is well formed. */
  lemma ParsedLineWellFormed(line: string)
    requires '\r' !in line && line != [] && '\n' !in line[..|line| - 1]
    requires ParseLine(line).Some?
    ensures WellFormed(ParseLine(line).value.0, ParseLine(line).value.1)
  {
    StripLine(line);
    var t := Strip(line);
    var (k, v) := ParseLine(line).value;
    assert t == k + "=" + v;
    if k != [] {
      assert t[0] == k[0];
    }
    if v != [] {
      assert t[|t| - 1] == v[|v| - 1];
    }
  }

  lemma PutWellFormed(e: Env, k: string, v: string)
    requires AllWellFormed(e) && WellFormed(k, v)
    ensures AllWellFormed(Put(e, k, v))
  {
    PutEntries(e, k, v);
    var r := Put(e, k, v);
    forall i | 0 <= i < |r| ensures WellFormed(r[i].0, r[i].1) {
      if r[i] != (k, v) {
        var j :| 0 <= j < |e| && e[j] == r[i];
      }
    }
  }

  /** A line that is read: no `\r`, and a `\n` only at the end. */
  predicate ReadLine(line: string) {
    '\r' !in line && line != [] && '\n' !in line[..|line| - 1]
  }

  lemma {:induction false} ParsedLinesWellFormed(lines: seq<string>)
    requires forall i :: 0 <= i < |lines| ==> ReadLine(lines[i])
    ensures AllWellFormed(ParseLines(lines))
  {
    if lines != [] {
      var n := |lines| - 1;
      assert lines[..n] + [lines[n]] == lines;
      assert forall i :: 0 <= i < n ==> lines[..n][i] == lines[i];
      ParsedLinesWellFormed(lines[..n]);
      ParsedSnocWellFormed(lines[..n], lines[n]);
    }
  }

  lemma ParsedSnocWellFormed(lines: seq<string>, line: string)
    requires AllWellFormed(ParseLines(lines)) && ReadLine(line)
    ensures AllWellFormed(ParseLines(lines + [line]))
  {
    ParseLinesSnoc(lines, line);
    if ParseLine(line).Some? {
      ParsedLineWellFormed(line);
      PutWellFormed(ParseLines(lines), ParseLine(line).value.0, ParseLine(line).value.1);
    }
  }

  /** Whatever the file held, the dict read from it is well formed. */
  lemma ParsedWellFormed(file: Option<string>)
    ensures AllWellFormed(ParseEnv(file))
  {
    if file.Some? {
      var text := Universal(file.value);
      SplitLinesNoCR(text);
      ParsedLinesWellFormed(SplitLines(text));
    }
  }

  /** Reading the rewritten file gives the updated dict: the variable has the
      new value and every other key keeps the value it was read with. */
  lemma UpdateRoundTrip(file: Option<string>, variableName: string, variableValue: string)
    requires WellFormed(variableName, variableValue)
    ensures ParseEnv(Some(Serialize(Put(ParseEnv(file), variableName, variableValue)))) ==
      Put(ParseEnv(file), variableName, variableValue)
    ensures Lookup(ParseEnv(Some(Serialize(Put(ParseEnv(file), variableName, variableValue)))), variableName) ==
      Some(variableValue)
  {
    var e := Put(ParseEnv(file), variableName, variableValue);
    ParsedWellFormed(file);
    if file.Some? {
      ParseLinesUnique(SplitLines(Universal(file.value)));
    }
    PutEntries(ParseEnv(file), variableName, variableValue);
    PutUnique(ParseEnv(file), variableName, variableValue);
    RoundTrip(e);
  }

  // ----------------------------------------------------------------- loading

  function KeySet(e: Env): set<string> {
    set k | k in Keys(e)
  }

  /** `os.getenv(name, '')`. */
  function Getenv(environ: map<string, string>, name: string): string {
    if name in environ then environ[name] else ""
  }

  /** `load_dotenv(path)`: every variable of the file that is not yet set is
      set; one that is set keeps its value. */
  function LoadDotenv(environ: map<string, string>, dotenv: Env): (r: map<string, string>)
    ensures r.Keys == environ.Keys + KeySet(dotenv)
    ensures forall k :: k in environ ==> r[k] == environ[k]
    ensures forall k :: k !in environ && k in KeySet(dotenv) ==> Some(r[k]) == Lookup(dotenv, k)
  {
    map k | k in environ.Keys + KeySet(dotenv) :: if k in environ then environ[k] else Lookup(dotenv, k).value
  }

  /** With `load_dotenv` as called, a rewritten variable that the environment
      already holds keeps its old value. */
  lemma UpdateIsShadowed(environ: map<string, string>, file: Option<string>, variableName: string, variableValue: string)
    requires variableName in environ
    ensures Getenv(LoadDotenv(environ, ParseEnv(Some(Serialize(Put(ParseEnv(file), variableName, variableValue))))),
                   variableName) == environ[variableName]
  {
  }

  /** The same after a concrete update: the key read back is still "old". */
  lemma UpdatedKeyStaysStale()
    ensures Getenv(LoadDotenv(map["AZURE_OPENAI_KEY" := "old"],
                              ParseEnv(Some(Serialize(Put(ParseEnv(Some("AZURE_OPENAI_KEY=old\n")), "AZURE_OPENAI_KEY", "new"))))),
                   "AZURE_OPENAI_KEY") == "old"
  {
  }

  /** `load_dotenv(path, override=True)`: every variable of the file is set. */
  function LoadDotenvOverriding(environ: map<string, string>, dotenv: Env): (r: map<string, string>)
    ensures r.Keys == environ.Keys + KeySet(dotenv)
    ensures forall k :: k in KeySet(dotenv) ==> Some(r[k]) == Lookup(dotenv, k)
    ensures forall k :: k in environ && k !in KeySet(dotenv) ==> r[k] == environ[k]
  {
    map k | k in environ.Keys + KeySet(dotenv) :: if k in KeySet(dotenv) then Lookup(dotenv, k).value else environ[k]
  }

  /** With an overriding load, the rewritten variable reads back as the new value. */
  lemma UpdateTakesEffect(environ: map<string, string>, file: Option<string>, variableName: string, variableValue: string)
    requires WellFormed(variableName, variableValue)
    ensures Getenv(LoadDotenvOverriding(environ, ParseEnv(Some(Serialize(Put(ParseEnv(file), variableName, variableValue))))),
                   variableName) == variableValue
  {
    UpdateRoundTrip(file, variableName, variableValue);
  }

  /** `OPENAI_API_BASE` for an Azure OpenAI resource. */
  function ApiBase(resourceName: string): string {
    "https://" + resourceName + ".openai.azure.com/"
  }

  /** The resource name sits between the scheme and the Azure OpenAI domain. */
  lemma ApiBaseParts(resourceName: string)
    ensures var r := ApiBase(resourceName);
      |r| == |resourceName| + 26 && r[..8] == "https://" && r[|r| - 18..] == ".openai.azure.com/" &&
      r[8..|r| - 18] == resourceName
  {
  }

  /** Two resource names never share an endpoint. */
  lemma ApiBaseInjective(a: string, b: string)
    requires ApiBase(a) == ApiBase(b)
    ensures a == b
  {
    ApiBaseParts(a);
    ApiBaseParts(b);
  }

  // ------------------------------------------------------------------ helper

  /** The variables `load_vars` sets for the OpenAI SDK. */
  const OpenaiSdkNames: set<string> := {"OPENAI_API_TYPE", "OPENAI_API_BASE", "OPENAI_API_KEY", "OPENAI_API_VERSION"}

  /** The helper object: the settings `load_vars` assigns, the process
      environment and the text of the `.env` file. */
  class EnvHelper {
    var environ: map<string, string>
    var envFile: Option<string>
    var azureOpenaiResourceName: string
    var azureOpenaiKey: string
    var azureOpenaiModelDeploymentName: string
    var azureOpenaiApiVersion: string
    var openaiApiBase: string
    var openaiApiKey: string
    var openaiApiVersion: string

    /** The settings and environment `load_vars` leaves, once `load_dotenv` has given `env`. */
    ghost predicate SetFrom(env: map<string, string>)
      reads this
    {
      && azureOpenaiResourceName == Getenv(env, "AZURE_OPENAI_RESOURCE_NAME")
      && azureOpenaiKey == Getenv(env, "AZURE_OPENAI_KEY")
      && azureOpenaiModelDeploymentName == Getenv(env, "AZURE_OPENAI_MODEL_DEPLOYMENT_NAME")
      && azureOpenaiApiVersion == Getenv(env, "AZURE_OPENAI_API_VERSION")
      && openaiApiBase == ApiBase(azureOpenaiResourceName)
      && openaiApiKey == azureOpenaiKey
      && openaiApiVersion == azureOpenaiApiVersion
      && environ == env["OPENAI_API_TYPE" := "azure"]["OPENAI_API_BASE" := openaiApiBase]
                       ["OPENAI_API_KEY" := azureOpenaiKey]["OPENAI_API_VERSION" := azureOpenaiApiVersion]
    }

    /** The state `load_vars` leaves, from the environment `before` it ran. */
    ghost predicate LoadedFrom(before: map<string, string>)
      reads this
    {
      SetFrom(LoadDotenv(before, ParseEnv(envFile)))
    }

    /** The state the overriding reload leaves, from the environment `before` it ran. */
    ghost predicate ReloadedFrom(before: map<string, string>)
      reads this
    {
      SetFrom(LoadDotenvOverriding(before, ParseEnv(envFile)))
    }

    constructor (environ: map<string, string>, envFile: Option<string>)
      ensures this.envFile == envFile
      ensures LoadedFrom(environ)
    {
      this.environ := environ;
      this.envFile := envFile;
      azureOpenaiResourceName, azureOpenaiKey, azureOpenaiModelDeploymentName, azureOpenaiApiVersion := "", "", "", "";
      openaiApiBase, openaiApiKey, openaiApiVersion := "", "", "";
      new;
      LoadVars();
    }

    /** The assignments of `load_vars` that follow the load, given the environment `env` it left. */
    method SetVars(env: map<string, string>)
      modifies this
      ensures envFile == old(envFile)
      ensures SetFrom(env)
    {
      var resourceName := Getenv(env, "AZURE_OPENAI_RESOURCE_NAME");
      var key := Getenv(env, "AZURE_OPENAI_KEY");
      var version := Getenv(env, "AZURE_OPENAI_API_VERSION");
      var apiBase := ApiBase(resourceName);
      azureOpenaiResourceName := resourceName;
      azureOpenaiKey := key;
      azureOpenaiModelDeploymentName := Getenv(env, "AZURE_OPENAI_MODEL_DEPLOYMENT_NAME");
      azureOpenaiApiVersion := version;
      openaiApiBase := apiBase;
      openaiApiKey := key;
      openaiApiVersion := version;
      environ := env["OPENAI_API_TYPE" := "azure"]["OPENAI_API_BASE" := apiBase]
                    ["OPENAI_API_KEY" := key]["OPENAI_API_VERSION" := version];
      assert SetFrom(env);
    }

    /** `load_vars`, with `load_dotenv` as called: a variable that is already set keeps its value. */
    method LoadVars()
      modifies this
      ensures envFile == old(envFile)
      ensures LoadedFrom(old(environ))
    {
      SetVars(LoadDotenv(environ, ParseEnv(envFile)));
    }

    /** `load_vars` with the overriding load that the reload after an update evidently intends. */
    method ReloadVars()
      modifies this
      ensures envFile == old(envFile)
      ensures ReloadedFrom(old(environ))
    {
      SetVars(LoadDotenvOverriding(environ, ParseEnv(envFile)));
    }

    /** `update_env_variable`: rewrite the file with the variable set, then
        reload, overriding. A well-formed variable then holds the new value in
        the environment, unless `load_vars` itself sets that name, and a new
        resource name moves the endpoint. */
    method UpdateEnvVariable(variableName: string, variableValue: string)
      modifies this
      ensures envFile == Some(Serialize(Put(ParseEnv(old(envFile)), variableName, variableValue)))
      ensures ReloadedFrom(old(environ))
      ensures WellFormed(variableName, variableValue) && variableName !in OpenaiSdkNames ==>
        Getenv(environ, variableName) == variableValue
      ensures WellFormed(variableName, variableValue) && variableName == "AZURE_OPENAI_RESOURCE_NAME" ==>
        azureOpenaiResourceName == variableValue && openaiApiBase == ApiBase(variableValue)
    {
      ghost var before := environ;
      ghost var file := envFile;
      var written := RewriteEnvFile(envFile, variableName, variableValue);
      if WellFormed(variableName, variableValue) {
        UpdateTakesEffect(before, file, variableName, variableValue);
      }
      envFile := Some(written);
      ReloadVars();
    }
  }
}
