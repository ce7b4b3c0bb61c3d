/**
 * The configuration reader of the admin-check script: `.env.local` read
 * line by line into a map of `KEY=VALUE` pairs, and each setting taken
 * from that file, else from the process environment, else a built-in
 * default.
 */
module EnvFile {
  import opened Base
  import opened Js

  /** `[A-Za-z0-9_]` */
  predicate IsKeyChar(c: char) {
    'A' <= c <= 'Z' || 'a' <= c <= 'z' || '0' <= c <= '9' || c == '_'
  }

  /** The characters a regular-expression `.` does not match. */
  predicate IsTerminator(c: char) {
    c == '\n' || c == '\r' || c == '\U{2028}' || c == '\U{2029}'
  }

  predicate AllSpace(s: string) {
    forall i :: 0 <= i < |s| ==> IsSpace(s[i])
  }

  /** The length of the longest prefix of key characters. */
  function KeyRun(s: string): (n: nat)
    ensures n <= |s| && (forall i :: 0 <= i < n ==> IsKeyChar(s[i])) && (n < |s| ==> !IsKeyChar(s[n]))
    decreases |s|
  {
    if s != [] && IsKeyChar(s[0]) then 1 + KeyRun(s[1..]) else 0
  }

  /** The length of the longest prefix without a line terminator: what a greedy `.*` takes. */
  function DotRun(s: string): (n: nat)
    ensures n <= |s| && (forall i :: 0 <= i < n ==> !IsTerminator(s[i])) && (n < |s| ==> IsTerminator(s[n]))
    decreases |s|
  {
    if s != [] && !IsTerminator(s[0]) then 1 + DotRun(s[1..]) else 0
  }

  /**
   * `line.match(/^\s*([A-Za-z0-9_]+)\s*=\s*(.*)\s*$/)`: leading whitespace,
   * the key, optional whitespace, '=', optional whitespace, then the value
   * up to the first line terminator, after which only whitespace may follow.
   * Each greedy part takes all it can, and no shorter choice could match
   * where the longest fails.
   */
  function ParseLine(line: string): (r: Option<(string, string)>)
    ensures r.Some? ==> r.value.0 != [] && forall i :: 0 <= i < |r.value.0| ==> IsKeyChar(r.value.0[i])
    ensures r.Some? ==> forall i :: 0 <= i < |r.value.1| ==> !IsTerminator(r.value.1[i])
  {
    var a := TrimStart(line);
    var k := KeyRun(a);
    if k == 0 then None
    else
      var b := TrimStart(a[k..]);
      if b == [] || b[0] != '=' then None
      else
        var c := TrimStart(b[1..]);
        var v := DotRun(c);
        if AllSpace(c[v..]) then Some((a[..k], c[..v])) else None
  }

  /** One `forEach` step: a matching line sets its key, a later one overriding an earlier. */
  function Step(obj: map<string, string>, line: string): map<string, string> {
    match ParseLine(line)
    case Some((k, v)) => obj[k := v]
    case None => obj
  }

  /** The map the lines build, first line first. */
  function EnvOf(lines: seq<string>): (r: map<string, string>)
    ensures lines != [] && ParseLine(lines[|lines| - 1]).Some? ==>
      var (k, v) := ParseLine(lines[|lines| - 1]).value;
      k in r && r[k] == v
    decreases |lines|
  {
    if lines == [] then map[] else Step(EnvOf(lines[..|lines| - 1]), lines[|lines| - 1])
  }

  /** `readEnv`: `raw` is the file's text, `None` when it cannot be read. */
  method ReadEnv(raw: Option<string>) returns (obj: map<string, string>)
    ensures obj == (if raw.None? then map[] else EnvOf(SplitLines(raw.value)))
  {
    obj := map[];
    if raw.None? {
      return;
    }
    var lines := SplitLines(raw.value);
    var i := 0;
    while i < |lines|
      invariant 0 <= i <= |lines|
      invariant obj == EnvOf(lines[..i])
    {
      assert lines[..i + 1][..i] == lines[..i];
      var m := ParseLine(lines[i]);
      if m.Some? {
        obj := obj[m.value.0 := m.value.1];
      }
      i := i + 1;
    }
    assert lines[..|lines|] == lines;
  }

  /** `file[key] || process.env[key] || fallback` */
  function Setting(file: map<string, string>, key: string, env: Option<string>, fallback: string): (v: string)
    ensures key in file && file[key] != "" ==> v == file[key]
    ensures !(key in file && file[key] != "") && env.Some? && env.value != "" ==> v == env.value
    ensures !(key in file && file[key] != "") && !(env.Some? && env.value != "") ==> v == fallback
  {
    if key in file && file[key] != "" then file[key]
    else if env.Some? && env.value != "" then env.value
    else fallback
  }

  const DefaultMongoUri: string := "mongodb://localhost:27017/saloncapp"

  /** `MONGODB_URI` and `SEED_ADMIN_EMAIL` as the script resolves them. */
  function MongoUri(file: map<string, string>, env: Option<string>): string {
    Setting(file, "MONGODB_URI", env, DefaultMongoUri)
  }

  function SeedEmail(file: map<string, string>, env: Option<string>, fallback: string): string {
    Setting(file, "SEED_ADMIN_EMAIL", env, fallback)
  }

  // -------------------------------------------------------------------- lemmas

  lemma {:induction false} TrimStartSpaces(w: string, s: string)
    requires AllSpace(w) && (s == [] || !IsSpace(s[0]))
    ensures TrimStart(w + s) == s
    decreases |w|
  {
    if w == [] {
      assert w + s == s;
    } else {
      assert (w + s)[1..] == w[1..] + s;
      TrimStartSpaces(w[1..], s);
    }
  }

  lemma {:induction false} KeyRunAll(key: string, rest: string)
    requires forall i :: 0 <= i < |key| ==> IsKeyChar(key[i])
    requires rest == [] || !IsKeyChar(rest[0])
    ensures KeyRun(key + rest) == |key|
    decreases |key|
  {
    if key == [] {
      assert key + rest == rest;
    } else {
      assert (key + rest)[1..] == key[1..] + rest;
      KeyRunAll(key[1..], rest);
    }
  }

  lemma {:induction false} DotRunAll(value: string)
    requires forall i :: 0 <= i < |value| ==> !IsTerminator(value[i])
    ensures DotRun(value) == |value|
    decreases |value|
  {
    if value != [] {
      DotRunAll(value[1..]);
    }
  }

  /**
   * A line `KEY = VALUE` with whitespace around the key and after '=' reads
   * back as KEY mapped to VALUE, trailing whitespace included.
   */
  lemma LineRoundTrip(w1: string, key: string, w2: string, w3: string, value: string)
    requires AllSpace(w1) && AllSpace(w2) && AllSpace(w3)
    requires key != [] && forall i :: 0 <= i < |key| ==> IsKeyChar(key[i])
    requires forall i :: 0 <= i < |value| ==> !IsTerminator(value[i])
    requires value == [] || !IsSpace(value[0])
    ensures ParseLine(w1 + key + w2 + "=" + w3 + value) == Some((key, value))
  {
    var rest := w2 + "=" + w3 + value;
    var line := w1 + key + w2 + "=" + w3 + value;
    var a := key + rest;
    assert line == w1 + a;
    assert a[0] == key[0] && !IsSpace(key[0]);
    TrimStartSpaces(w1, a);
    assert rest == [] || !IsKeyChar(rest[0]) by {
      if w2 != [] {
        assert rest[0] == w2[0];
      } else {
        assert rest[0] == '=';
      }
    }
    KeyRunAll(key, rest);
    assert a[..|key|] == key && a[|key|..] == rest;
    AfterKey(w2, w3, value);
    assert ("=" + (w3 + value))[1..] == w3 + value;
    ValueRun(value);
  }

  /** What follows the key: optional spaces, '=', optional spaces, then the value. */
  lemma AfterKey(w2: string, w3: string, value: string)
    requires AllSpace(w2) && AllSpace(w3)
    requires value == [] || !IsSpace(value[0])
    ensures TrimStart(w2 + "=" + w3 + value) == "=" + (w3 + value)
    ensures TrimStart(w3 + value) == value
  {
    assert w2 + "=" + w3 + value == w2 + ("=" + (w3 + value));
    SpacesBeforeEquals(w2, w3 + value);
    TrimStartSpaces(w3, value);
  }

  /** Spaces before '=' are trimmed away, and '=' itself is kept. */
  lemma SpacesBeforeEquals(w: string, tail: string)
    requires AllSpace(w)
    ensures TrimStart(w + ("=" + tail)) == "=" + tail
  {
    assert ("=" + tail)[0] == '=';
    TrimStartSpaces(w, "=" + tail);
  }

  /** A value without a line terminator is taken whole by the greedy `.*`. */
  lemma ValueRun(value: string)
    requires forall i :: 0 <= i < |value| ==> !IsTerminator(value[i])
    ensures DotRun(value) == |value| && value[..DotRun(value)] == value && AllSpace(value[DotRun(value)..])
  {
    DotRunAll(value);
    assert value[|value|..] == [];
  }

  /** Lines that are blank, comments, or lack '=' after the key contribute nothing. */
  lemma NonMatchingLines(line: string)
    ensures (TrimStart(line) == [] || !IsKeyChar(TrimStart(line)[0])) ==> ParseLine(line).None?
    ensures '=' !in line ==> ParseLine(line).None?
  {
    var a := TrimStart(line);
    TrimStartShape(line);
    var k := KeyRun(a);
    if '=' !in line && k != 0 {
      var b := TrimStart(a[k..]);
      TrimStartShape(a[k..]);
      if b != [] {
        assert b[0] == a[k..][|a[k..]| - |b|];
        assert b[0] == line[|line| - |a| + k + |a[k..]| - |b|];
      }
    }
  }

  /** Examples: trailing spaces stay in the value, a comment contributes nothing. */
  lemma ParseExamples()
    ensures ParseLine("A=b  ") == Some(("A", "b  "))
    ensures ParseLine("#A=b") == None
  {
    TrailingSpacesKept();
    CommentIgnored();
  }

  lemma TrailingSpacesKept()
    ensures ParseLine("A=b  ") == Some(("A", "b  "))
  {
    LineRoundTrip("", "A", "", "", "b  ");
    assert "" + "A" + "" + "=" + "" + "b  " == "A=b  ";
  }

  lemma CommentIgnored()
    ensures ParseLine("#A=b") == None
  {
    NonMatchingLines("#A=b");
    assert TrimStart("#A=b") == "#A=b";
  }

  /** Appending a line applies one more step. */
  lemma EnvAppend(lines: seq<string>, line: string)
    ensures EnvOf(lines + [line]) == Step(EnvOf(lines), line)
  {
    assert (lines + [line])[..|lines|] == lines;
  }

  /** A key is in the map exactly when some line sets it. */
  lemma {:induction false} KeyFromSomeLine(lines: seq<string>, k: string)
    ensures k in EnvOf(lines) <==> exists i :: 0 <= i < |lines| && SetsKey(lines[i], k)
    decreases |lines|
  {
    if lines != [] {
      var init := lines[..|lines| - 1];
      KeyFromSomeLine(init, k);
      assert forall i :: 0 <= i < |init| ==> init[i] == lines[i];
      if SetsKey(lines[|lines| - 1], k) {
        assert k in EnvOf(lines);
      } else {
        assert k in EnvOf(lines) <==> k in EnvOf(init);
        if k in EnvOf(init) {
          var i :| 0 <= i < |init| && SetsKey(init[i], k);
          assert SetsKey(lines[i], k);
        }
      }
    }
  }

  /** A later line for the same key overrides an earlier one: the last line setting it wins. */
  lemma {:induction false} LastLineWins(lines: seq<string>, k: string, i: nat)
    requires i < |lines| && SetsKey(lines[i], k)
    requires forall j :: i < j < |lines| ==> !SetsKey(lines[j], k)
    ensures k in EnvOf(lines) && EnvOf(lines)[k] == ParseLine(lines[i]).value.1
    decreases |lines|
  {
    var init := lines[..|lines| - 1];
    if i < |lines| - 1 {
      assert init[i] == lines[i];
      LastLineWins(init, k, i);
      assert forall j :: i < j < |init| ==> init[j] == lines[j];
    }
  }

  predicate SetsKey(line: string, k: string) {
    ParseLine(line).Some? && ParseLine(line).value.0 == k
  }

  /** An unreadable file gives no values, so every setting falls back to the environment, then the default. */
  lemma UnreadableFileFallsBack(key: string, env: Option<string>, fallback: string)
    ensures Setting(map[], key, env, fallback) == (if env.Some? && env.value != "" then env.value else fallback)
    ensures MongoUri(map[], None) == DefaultMongoUri
  {
  }
}
