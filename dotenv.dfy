/** The dashboard's `.env` loader (`streamlit_app.py`, lines 13-22): each line
    of the file is stripped; blank lines, comments and lines without `=` are
    skipped; the rest split at the first `=`, lose one layer of matching quotes
    around the value, and are written into `os.environ`, later lines
    overwriting earlier ones. The environment is a map the loader returns. */
module DotEnv {
  import opened Wrappers
  import opened Text
  import Client

  datatype Entry = Entry(key: string, value: string)

  predicate Quoted(v: string, q: char) {
    |v| >= 1 && v[0] == q && v[|v| - 1] == q
  }

  /** The value without its first and last character when it starts and ends
      with the same kind of quote, else the value unchanged. */
  function Unquote(v: string): (r: string)
    ensures (Quoted(v, '"') || Quoted(v, '\'')) && |v| >= 2 ==> r == v[1..|v| - 1]
    ensures (Quoted(v, '"') || Quoted(v, '\'')) && |v| == 1 ==> r == ""
    ensures !Quoted(v, '"') && !Quoted(v, '\'') ==> r == v
  {
    if Quoted(v, '"') || Quoted(v, '\'') then Slice(v, 1, -1) else v
  }

  /** What one line of the file contributes, if anything. */
  function ParseLine(line: string): Option<Entry> {
    var l := Strip(line);
    if l == "" || l[0] == '#' || '=' !in l then None
    else
      var key := BeforeFirst(l, '=');
      Some(Entry(key, Unquote(l[|key| + 1..])))
  }

  /** A line contributes nothing exactly when it is blank, a `#` comment or
      has no `=`; otherwise the stripped line is `key=value` with the first
      `=` right after the key, and the value loses one layer of quotes. */
  lemma ParseLineMeaning(line: string)
    ensures var l := Strip(line);
      ParseLine(line).None? <==> AllSpace(line) || (l != "" && l[0] == '#') || '=' !in l
    ensures var l := Strip(line);
      var r := ParseLine(line);
      r.Some? ==> && |r.value.key| < |l|
                  && l == r.value.key + "=" + l[|r.value.key| + 1..]
                  && '=' !in r.value.key
                  && r.value.value == Unquote(l[|r.value.key| + 1..])
  {
    StripEmptyIffBlank(line);
  }

  /** The environment after the line: the entry's key set to its value. */
  function Apply(environ: map<string, string>, line: string): map<string, string> {
    match ParseLine(line)
    case None => environ
    case Some(e) => environ[e.key := e.value]
  }

  /** The environment after the lines, first to last. */
  function LoadAll(environ: map<string, string>, lines: seq<string>): map<string, string>
    decreases |lines|
  {
    if lines == [] then environ else LoadAll(Apply(environ, lines[0]), lines[1..])
  }

  /** The loop over the lines of `.env`. */
  method LoadDotEnv(lines: seq<string>, environ: map<string, string>) returns (result: map<string, string>)
    ensures result == LoadAll(environ, lines)
  {
    result := environ;
    for i := 0 to |lines|
      invariant LoadAll(environ, lines) == LoadAll(result, lines[i..])
    {
      assert lines[i..][1..] == lines[i + 1..];
      match ParseLine(lines[i]) {
        case None =>
        case Some(e) =>
          result := result[e.key := e.value];
      }
    }
    assert lines[|lines|..] == [];
  }

  /** A line written as `key=value`, with a key that is neither blank at the
      front nor a comment and holds no `=`, and a value without whitespace
      around it, reads back as that entry, one layer of quotes removed. */
  lemma {:induction false} ParseWrittenLine(key: string, value: string)
    requires key != "" && !IsSpace(key[0]) && key[0] != '#' && '=' !in key
    requires value != "" ==> !IsSpace(value[|value| - 1])
    ensures ParseLine(key + "=" + value) == Some(Entry(key, Unquote(value)))
  {
    var line := key + "=" + value;
    assert line[0] == key[0];
    assert StripLeft(line) == line;
    assert line[|line| - 1] == if value == "" then '=' else value[|value| - 1];
    assert StripRight(line) == line;
    BeforeFirstAt(key, '=', value);
    assert line[|key| + 1..] == value;
  }

  /** The value the last line that sets `key` gives it, if any line does. */
  function LastValue(lines: seq<string>, key: string): Option<string>
    decreases |lines|
  {
    if lines == [] then None
    else
      var e := ParseLine(lines[|lines| - 1]);
      if e.Some? && e.value.key == key then Some(e.value.value)
      else LastValue(lines[..|lines| - 1], key)
  }

  lemma {:induction false} LoadAllSnoc(environ: map<string, string>, lines: seq<string>, line: string)
    ensures LoadAll(environ, lines + [line]) == Apply(LoadAll(environ, lines), line)
    decreases |lines|
  {
    if lines == [] {
      assert [] + [line] == [line];
    } else {
      assert (lines + [line])[1..] == lines[1..] + [line];
      LoadAllSnoc(Apply(environ, lines[0]), lines[1..], line);
    }
  }

  /** After loading, a key holds the value of the last line that sets it, and
      a key no line sets keeps what the environment had. */
  lemma {:induction false} LoadedValue(environ: map<string, string>, lines: seq<string>, key: string)
    ensures var env := LoadAll(environ, lines);
      match LastValue(lines, key)
      case Some(v) => key in env && env[key] == v
      case None => (key in env <==> key in environ) && (key in environ ==> env[key] == environ[key])
    decreases |lines|
  {
    if lines != [] {
      var init := lines[..|lines| - 1];
      var last := lines[|lines| - 1];
      assert lines == init + [last];
      LoadAllSnoc(environ, init, last);
      LoadedValue(environ, init, key);
    }
  }

  /** A `key=value` line sets that key and leaves the rest alone. */
  lemma ApplyEntry(environ: map<string, string>, line: string, key: string, value: string)
    requires ParseLine(line) == Some(Entry(key, value))
    ensures Apply(environ, line) == environ[key := value]
  {
  }

  /** Loading a single `key=value` line sets that key. */
  lemma LoadOneLine(environ: map<string, string>, line: string, key: string, value: string)
    requires ParseLine(line) == Some(Entry(key, value))
    ensures LoadAll(environ, [line]) == environ[key := value]
  {
    assert [line][1..] == [];
  }

  /** A later line for a key overwrites an earlier one. */
  lemma LaterLineWins(environ: map<string, string>, first: string, second: string, key: string, v1: string, v2: string)
    requires ParseLine(first) == Some(Entry(key, v1)) && ParseLine(second) == Some(Entry(key, v2))
    ensures LoadAll(environ, [first, second]) == environ[key := v2]
  {
    LoadOneLine(environ, first, key, v1);
    assert [first] + [second] == [first, second];
    LoadAllSnoc(environ, [first], second);
    ApplyEntry(environ[key := v1], second, key, v2);
  }

  /** The dashboard then builds `DatagenClient()` from the environment: a
      non-empty `DATAGEN_API_KEY` line in `.env` is the key the client gets. */
  lemma DotEnvSuppliesApiKey(environ: map<string, string>, lines: seq<string>, v: string)
    requires LastValue(lines, Client.ApiKeyVariable) == Some(v) && v != ""
    ensures Client.ResolveApiKey(None, LoadAll(environ, lines)) == Success(v)
  {
    LoadedValue(environ, lines, Client.ApiKeyVariable);
  }
}
