/**
 * ConfigManager.update_config_file: rewrites the assignment lines of config.py
 * for the settings being saved, keeping indentation width and trailing comments.
 */
module ConfigManager {
  import opened Numeric
  import opened Config

  /** Python `", ".join(str(i) for i in items)`. */
  function JoinInts(items: seq<int>): string
    decreases |items|
  {
    if |items| == 0 then ""
    else if |items| == 1 then IntToDecimal(items[0])
    else IntToDecimal(items[0]) + ", " + JoinInts(items[1..])
  }

  /**
   * The right-hand side written for a value: a string between single quotes, any
   * other value as Python formats it (`True`, `None`, `42`, `0.35`, `(0, 255, 0)`).
   */
  function FormatValue(v: Value): string
  {
    match v
    case StrVal(s) => "'" + s + "'"
    case BoolVal(b) => if b then "True" else "False"
    case IntVal(i) => IntToDecimal(i)
    case FloatVal(repr) => repr
    case NoneVal => "None"
    case TupleVal(items) => "(" + JoinInts(items) + (if |items| == 1 then "," else "") + ")"
  }

  /** A line assigns `key` when, stripped, it starts with `key =` or `key=`. */
  predicate MatchesKey(line: string, key: string)
  {
    StartsWith(Strip(line), key + " =") || StartsWith(Strip(line), key + "=")
  }

  /** Number of leading whitespace characters. */
  function Indent(line: string): (n: nat)
    ensures n <= |line|
  {
    |line| - |LStrip(line)|
  }

  /** The new assignment, indented with as many spaces as the line had leading whitespace. */
  function AssignmentText(line: string, key: string, v: Value): string
  {
    Spaces(Indent(line)) + key + " = " + FormatValue(v)
  }

  /**
   * What follows the new assignment of width `width`: the old comment (from the first
   * `#` on), padded so that it keeps its column when the assignment is short enough,
   * or a newline when the line had no `#`.
   */
  function CommentTail(line: string, width: nat): string
  {
    var hash := IndexOf(line, '#');
    if hash.Some? then Spaces(hash.value - width) + line[hash.value..] else "\n"
  }

  /** The replacement for a line that assigns `key`. */
  function RewrittenLine(line: string, key: string, v: Value): string
  {
    var text := AssignmentText(line, key, v);
    text + CommentTail(line, |text|)
  }

  /** Index of the first setting, in dictionary order, whose key the line assigns. */
  function FirstMatch(line: string, settings: seq<(string, Value)>): (r: Option<nat>)
    ensures r.Some? ==> r.value < |settings| && MatchesKey(line, settings[r.value].0)
    ensures r.Some? ==> forall m :: 0 <= m < r.value ==> !MatchesKey(line, settings[m].0)
    ensures r.None? ==> forall m :: 0 <= m < |settings| ==> !MatchesKey(line, settings[m].0)
    decreases |settings|
  {
    if |settings| == 0 then None
    else if MatchesKey(line, settings[0].0) then Some(0)
    else
      var rest := FirstMatch(line, settings[1..]);
      if rest.Some? then Some(rest.value + 1) else None
  }

  /** What one line of config.py becomes. */
  function RewriteLine(line: string, settings: seq<(string, Value)>): string
  {
    var j := FirstMatch(line, settings);
    if j.Some? then RewrittenLine(line, settings[j.value].0, settings[j.value].1) else line
  }

  /** The inner loop of `update_config_file` for one line: the first matching setting rewrites it. */
  method RewriteOneLine(line: string, settings: seq<(string, Value)>) returns (result: string)
    ensures result == RewriteLine(line, settings)
  {
    result := line;
    var j := 0;
    while j < |settings|
      invariant 0 <= j <= |settings|
      invariant forall m :: 0 <= m < j ==> !MatchesKey(line, settings[m].0)
    {
      if MatchesKey(line, settings[j].0) {
        FirstMatchAt(line, settings, j);
        result := RewrittenLine(line, settings[j].0, settings[j].1);
        return;
      }
      j := j + 1;
    }
  }

  /** The first setting whose key the line assigns is the one FirstMatch finds. */
  lemma FirstMatchAt(line: string, settings: seq<(string, Value)>, j: nat)
    requires j < |settings| && MatchesKey(line, settings[j].0)
    requires forall m :: 0 <= m < j ==> !MatchesKey(line, settings[m].0)
    ensures FirstMatch(line, settings) == Some(j)
  {
    var r := FirstMatch(line, settings);
    assert r.Some?;
    assert !(r.value < j);
    assert !(j < r.value);
  }

  /** The line loop of `update_config_file`. */
  method UpdateConfigLines(lines: seq<string>, settings: seq<(string, Value)>) returns (newLines: seq<string>)
    ensures |newLines| == |lines|
    ensures forall i :: 0 <= i < |lines| ==> newLines[i] == RewriteLine(lines[i], settings)
  {
    newLines := [];
    for i := 0 to |lines|
      invariant |newLines| == i
      invariant forall k :: 0 <= k < i ==> newLines[k] == RewriteLine(lines[k], settings)
    {
      var result := RewriteOneLine(lines[i], settings);
      newLines := newLines + [result];
    }
  }

  /**
   * `update_config_file`: `source` is config.py's lines as read (None when reading fails),
   * `writable` whether writing it back succeeds. Returns the success flag and what was written.
   */
  method UpdateConfigFile(source: Option<seq<string>>, writable: bool, settings: seq<(string, Value)>)
    returns (ok: bool, written: Option<seq<string>>)
    ensures ok <==> source.Some? && writable
    ensures ok ==> written.Some? && |written.value| == |source.value|
    ensures ok ==> forall i :: 0 <= i < |source.value| ==> written.value[i] == RewriteLine(source.value[i], settings)
    ensures !ok ==> written.None?
  {
    if source.None? {
      return false, None;
    }
    var newLines := UpdateConfigLines(source.value, settings);
    if !writable {
      return false, None;
    }
    return true, Some(newLines);
  }

  // ----- properties of the rewrite -----

  /** A line that assigns none of the keys is copied unchanged. */
  lemma UnmatchedLineKept(line: string, settings: seq<(string, Value)>)
    requires forall m :: 0 <= m < |settings| ==> !MatchesKey(line, settings[m].0)
    ensures RewriteLine(line, settings) == line
  {
  }

  /** A key never rewrites the line of a longer name that merely begins with it (`EMA_MIN` vs `EMA_MINIMUM`). */
  lemma LongerNameNotMatched(line: string, key: string)
    requires |Strip(line)| > |key| && Strip(line)[..|key|] == key
    requires Strip(line)[|key|] != ' ' && Strip(line)[|key|] != '='
    ensures !MatchesKey(line, key)
  {
    assert (key + " =")[|key|] == ' ';
    assert (key + "=")[|key|] == '=';
  }

  lemma {:induction false} LStripAfterSpaces(n: nat, s: string)
    requires |s| > 0 && !IsSpace(s[0])
    ensures LStrip(Spaces(n) + s) == s
    decreases n
  {
    if n > 0 {
      assert (Spaces(n) + s)[1..] == Spaces(n - 1) + s;
      LStripAfterSpaces(n - 1, s);
    }
  }

  /** The rewritten line starts with the new assignment, and ends with a newline when the line had no comment. */
  lemma RewrittenLineShape(line: string, key: string, v: Value)
    ensures StartsWith(RewrittenLine(line, key, v), AssignmentText(line, key, v))
    ensures '#' !in line ==> RewrittenLine(line, key, v) == AssignmentText(line, key, v) + "\n"
  {
    var text := AssignmentText(line, key, v);
    var r := text + CommentTail(line, |text|);
    assert r[..|text|] == text;
  }

  /** The rewritten line keeps the old indentation width, as whitespace. */
  lemma RewrittenLineIndent(line: string, key: string, v: Value)
    requires |key| > 0 && !IsSpace(key[0])
    ensures Indent(RewrittenLine(line, key, v)) == Indent(line)
  {
    var n := Indent(line);
    var value := FormatValue(v);
    var tail := CommentTail(line, |AssignmentText(line, key, v)|);
    var body := key + ((" = " + value) + tail);
    SplitAfterIndent(Spaces(n), key, " = ", value, tail);
    assert RewrittenLine(line, key, v) == Spaces(n) + body;
    assert body[0] == key[0];
    LStripAfterSpaces(n, body);
  }

  lemma SplitAfterIndent(a: string, b: string, c: string, d: string, e: string)
    ensures (((a + b) + c) + d) + e == a + (b + ((c + d) + e))
  {
  }

  lemma ConcatAssoc(a: string, b: string, c: string)
    ensures (a + b) + c == a + (b + c)
  {
  }

  /**
   * A comment survives verbatim; when the new assignment is no longer than the code
   * before the old `#`, the comment starts in the same column as before.
   */
  lemma CommentKeepsColumn(line: string, key: string, v: Value, hash: nat)
    requires hash < |line| && line[hash] == '#' && '#' !in line[..hash]
    ensures var r := RewrittenLine(line, key, v);
      |line| - hash <= |r| && r[|r| - (|line| - hash)..] == line[hash..]
    ensures |AssignmentText(line, key, v)| <= hash ==>
      var r := RewrittenLine(line, key, v);
      |r| - (|line| - hash) == hash
  {
    var i := IndexOf(line, '#');
    FirstOccurrenceUnique(line, '#', i.value, hash);
    var text := AssignmentText(line, key, v);
    var front := text + Spaces(hash - |text|);
    var comment := line[hash..];
    assert CommentTail(line, |text|) == Spaces(hash - |text|) + comment;
    ConcatAssoc(text, Spaces(hash - |text|), comment);
    assert (front + comment)[|front|..] == comment;
  }

  lemma FirstOccurrenceUnique(s: string, c: char, a: nat, b: nat)
    requires a < |s| && s[a] == c && c !in s[..a]
    requires b < |s| && s[b] == c && c !in s[..b]
    ensures a == b
  {
  }
}
