/** The environment file of a rollback: printed by scripts/build_race_live_rollback_env.py, read by
    scripts/run_race_live_rollback_one_shot.py. */
module RollbackEnv {
  import opened Alphabets
  import opened Wrappers
  import opened CanonicalText

  const DbKeys: seq<string> := [
    "POSTGRES_DB", "POSTGRES_USER", "POSTGRES_PASSWORD", "POSTGRES_HOST", "POSTGRES_PORT",
    "POSTGRES_CONNECT_TIMEOUT", "POSTGRES_SSLMODE"]

  datatype Pair = Pair(key: string, value: string)

  const FixedValues: seq<Pair> := [
    Pair("DB_ENGINE", "postgres"), Pair("DEBUG", "false"),
    Pair("SECRET_KEY", "fixed-race-live-rollback-validation-key"),
    Pair("POSTGRES_CONN_MAX_AGE", "0"), Pair("POSTGRES_APPLICATION_NAME", "race-live-rollback-one-shot"),
    Pair("CELERY_BROKER_URL", "memory://"), Pair("CELERY_RESULT_BACKEND", "cache+memory://"),
    Pair("EMAIL_BACKEND", "django.core.mail.backends.dummy.EmailBackend"),
    Pair("RACE_LIVE_RUNNER_MODE", "disabled"), Pair("RACE_LIVE_SCHEDULER_ENABLED", "false"),
    Pair("RACE_LIVE_MONITOR_ENABLED", "false")]

  // ---------------------------------------------------------------- lines

  /** The characters at which `str.splitlines` ends a line. */
  predicate IsBreak(c: char) {
    || '\n' <= c <= '\r' || '\U{1c}' <= c <= '\U{1e}'
    || c == '\U{85}' || c == '\U{2028}' || c == '\U{2029}'
  }

  const Breaks: set<char> := {'\n', '\U{b}', '\U{c}', '\r', '\U{1c}', '\U{1d}', '\U{1e}', '\U{85}', '\U{2028}',
                              '\U{2029}'}

  lemma BreaksAre(c: char)
    ensures IsBreak(c) <==> c in Breaks
  {}

  predicate Unbroken(s: string) {
    forall c | c in s :: !IsBreak(c)
  }

  /** Length of the leading run without a line break. */
  function LineLength(s: string): (n: nat)
    ensures n <= |s| && Unbroken(s[..n]) && (n < |s| ==> IsBreak(s[n]))
  {
    if s == [] || IsBreak(s[0]) then 0
    else
      var n := 1 + LineLength(s[1..]);
      assert s[..n] == [s[0]] + s[1..][..n - 1];
      n
  }

  /** `str.splitlines`: a carriage return and a line feed are one break, and a final break does not
      open another line. */
  function SplitLines(s: string): seq<string>
    decreases |s|
  {
    if s == [] then []
    else
      var n := LineLength(s);
      if n == |s| then [s]
      else if s[n] == '\r' && n + 1 < |s| && s[n + 1] == '\n' then [s[..n]] + SplitLines(s[n + 2..])
      else [s[..n]] + SplitLines(s[n + 1..])
  }

  lemma {:induction false} LinesAreUnbroken(s: string)
    ensures forall i | 0 <= i < |SplitLines(s)| :: Unbroken(SplitLines(s)[i])
    decreases |s|
  {
    if s != [] {
      var n := LineLength(s);
      if n == |s| {
        assert s[..n] == s;
      } else if s[n] == '\r' && n + 1 < |s| && s[n + 1] == '\n' {
        LinesAreUnbroken(s[n + 2..]);
      } else {
        LinesAreUnbroken(s[n + 1..]);
      }
    }
  }

  /** Every line followed by a line feed. */
  function Joined(lines: seq<string>): string {
    if lines == [] then [] else lines[0] + "\n" + Joined(lines[1..])
  }

  lemma {:induction false} LineLengthIs(line: string, rest: string)
    requires Unbroken(line)
    ensures LineLength(line + "\n" + rest) == |line|
  {
    if line == [] {
      assert line + "\n" + rest == "\n" + rest;
    } else {
      assert (line + "\n" + rest)[1..] == line[1..] + "\n" + rest;
      LineLengthIs(line[1..], rest);
    }
  }

  /** Splitting what was joined gives the lines back. */
  lemma {:induction false} SplitJoined(lines: seq<string>)
    requires forall i | 0 <= i < |lines| :: Unbroken(lines[i])
    ensures SplitLines(Joined(lines)) == lines
  {
    if lines != [] {
      var line, rest := lines[0], Joined(lines[1..]);
      var s := line + "\n" + rest;
      LineLengthIs(line, rest);
      SplitJoined(lines[1..]);
      assert s[..|line|] == line && s[|line| + 1..] == rest;
      assert s[|line|] == '\n';
    }
  }

  // ---------------------------------------------------------------- assignments

  predicate IsUpper(c: char) { 'A' <= c <= 'Z' }

  predicate IsKey(s: string) {
    s != [] && IsUpper(s[0]) && forall c | c in s :: IsUpper(c) || '0' <= c <= '9' || c == '_'
  }

  /** A key starts with a capital and goes on with capitals, digits and underscores. */
  lemma KeyMeans(s: string)
    ensures IsKey(s) <==>
              s != "" && s[0] in Capitals && forall c | c in s :: c in Capitals || c in Digits || c == '_'
  {
    hide Capitals, Digits;
    forall c ensures (c in Capitals <==> IsUpper(c)) && (c in Digits <==> '0' <= c <= '9') {
      CapitalsAre(c);
      DigitsAre(c);
    }
  }

  /** The position of the first `=`, or the length of the text. */
  function FirstEquals(s: string): (n: nat)
    ensures n <= |s| && '=' !in s[..n] && (n < |s| ==> s[n] == '=')
  {
    if s == [] || s[0] == '=' then 0
    else
      var n := 1 + FirstEquals(s[1..]);
      assert s[..n] == [s[0]] + s[1..][..n - 1];
      n
  }

  predicate Ignored(line: string) {
    line == "" || line[0] == '#'
  }

  /** The first `n` lines as assignments: the grammar of the printer's source and of the reader. */
  function ReadUpTo(lines: seq<string>, n: nat): Option<map<string, string>>
    requires n <= |lines|
  {
    if n == 0 then Some(map[])
    else
      var before, line := ReadUpTo(lines, n - 1), lines[n - 1];
      if before.None? then None
      else if Ignored(line) then before
      else
        var at := FirstEquals(line);
        if at == |line| || !IsKey(line[..at]) || line[..at] in before.value then None
        else Some(before.value[line[..at] := line[at + 1..]])
  }

  lemma {:induction false} NothingAfterError(lines: seq<string>, k: nat, n: nat)
    requires k <= n <= |lines| && ReadUpTo(lines, k).None?
    ensures ReadUpTo(lines, n).None?
    decreases n
  {
    if k < n { NothingAfterError(lines, k, n - 1); }
  }

  /** The line loop of `_read_source` and of `_parse_env`. */
  method ReadAssignments(text: string) returns (r: Result<map<string, string>, string>)
    ensures r.Ok? <==> ReadUpTo(SplitLines(text), |SplitLines(text)|).Some?
    ensures r.Ok? ==> Some(r.value) == ReadUpTo(SplitLines(text), |SplitLines(text)|)
  {
    hide SplitLines, IsKey;
    var lines, values := SplitLines(text), map[];
    for n := 0 to |lines|
      invariant ReadUpTo(lines, n) == Some(values)
    {
      var line := lines[n];
      if ReadUpTo(lines, n + 1).None? { NothingAfterError(lines, n + 1, |lines|); }
      if Ignored(line) { continue; }
      var at := FirstEquals(line);
      if at == |line| { return Err("invalid environment assignment"); }
      var key, value := line[..at], line[at + 1..];
      if !IsKey(key) || key in values { return Err("duplicate environment key"); }
      values := values[key := value];
    }
    return Ok(values);
  }

  lemma SuffixUnbroken(s: string, k: nat)
    requires k <= |s| && Unbroken(s)
    ensures Unbroken(s[k..])
  {}

  /** Values that come from lines contain no line break. */
  lemma {:induction false} ReadValuesUnbroken(lines: seq<string>, n: nat)
    requires n <= |lines| && forall i | 0 <= i < |lines| :: Unbroken(lines[i])
    ensures ReadUpTo(lines, n).Some? ==>
              forall k | k in ReadUpTo(lines, n).value :: Unbroken(ReadUpTo(lines, n).value[k])
  {
    hide IsBreak, IsKey;
    if n > 0 {
      ReadValuesUnbroken(lines, n - 1);
      var line := lines[n - 1];
      var at := FirstEquals(line);
      if at < |line| { SuffixUnbroken(line, at + 1); }
    }
  }

  // ---------------------------------------------------------------- the printer

  predicate SafeValue(value: string) {
    && value != "" && value == Strip(value)
    && '$' !in value && '`' !in value && '\0' !in value && '\r' !in value && '\n' !in value
  }

  /** A database value is not empty, has no whitespace at its ends, and nothing that a shell or a line
      reader could take for something else. */
  ghost predicate Harmless(value: string) {
    && value != "" && !IsSpace(value[0]) && !IsSpace(value[|value| - 1])
    && forall c | c in value :: c !in {'$', '`', '\0', '\r', '\n'}
  }

  lemma EndsOf(left: string, mid: string, right: string)
    ensures left != [] ==> (left + mid + right)[0] == left[0]
    ensures right != [] ==> (left + mid + right)[|left + mid + right| - 1] == right[|right| - 1]
  {}

  lemma SafeValueMeans(value: string)
    ensures SafeValue(value) <==> Harmless(value)
  {
    hide IsSpace;
    var left, right := StripMeans(value);
    if value != "" && !IsSpace(value[0]) && !IsSpace(value[|value| - 1]) {
      EndsOf(left, Strip(value), right);
      assert left == [] && right == [];
      assert [] + Strip(value) + [] == Strip(value);
    }
  }

  predicate DatabaseOk(values: map<string, string>) {
    forall i | 0 <= i < |DbKeys| :: DbKeys[i] in values && SafeValue(values[DbKeys[i]])
  }

  /** `_read_source` of a file with this text. */
  method ReadSource(text: string) returns (r: Result<map<string, string>, string>)
    ensures r.Ok? ==> DatabaseOk(r.value) && Some(r.value) == ReadUpTo(SplitLines(text), |SplitLines(text)|)
    ensures r.Ok? <==>
              var parsed := ReadUpTo(SplitLines(text), |SplitLines(text)|);
              parsed.Some? && DatabaseOk(parsed.value)
  {
    hide SplitLines, DatabaseOk;
    r := ReadAssignments(text);
    if r.Ok? && !DatabaseOk(r.value) { return Err("required database value is missing or unsafe"); }
  }

  /** What is printed: the database settings in their order, then the fixed ones. */
  function Printed(values: map<string, string>): seq<Pair>
    requires forall i | 0 <= i < |DbKeys| :: DbKeys[i] in values
  {
    seq(|DbKeys|, i requires 0 <= i < |DbKeys| => Pair(DbKeys[i], values[DbKeys[i]])) + FixedValues
  }

  function LineOf(p: Pair): string {
    p.key + "=" + p.value
  }

  function LinesOf(pairs: seq<Pair>): seq<string> {
    seq(|pairs|, i requires 0 <= i < |pairs| => LineOf(pairs[i]))
  }

  function Payload(values: map<string, string>): string
    requires forall i | 0 <= i < |DbKeys| :: DbKeys[i] in values
  {
    Joined(LinesOf(Printed(values)))
  }

  // ---------------------------------------------------------------- the reader

  function Utf8Length(c: char): nat {
    if c <= '\U{7f}' then 1 else if c <= '\U{7ff}' then 2 else if c <= '\U{ffff}' then 3 else 4
  }

  function Utf8Size(s: string): nat {
    if s == [] then 0 else Utf8Length(s[0]) + Utf8Size(s[1..])
  }

  /** One byte for ASCII, then two, three and four, as RFC 3629 section 3 says. */
  lemma Utf8LengthMeans(c: char)
    ensures Utf8Length(c) == 1 <==> c as int < 0x80
    ensures Utf8Length(c) == 2 <==> 0x80 <= c as int < 0x800
    ensures Utf8Length(c) == 3 <==> 0x800 <= c as int < 0x1_0000
    ensures Utf8Length(c) == 4 <==> 0x1_0000 <= c as int
  {}

  const MaxEnvBytes: nat := 64 * 1024

  predicate Forbidden(key: string) {
    || "THE_RACING_API_" <= key || "SMTP_" <= key
    || key in {"RACE_LIVE_TRA_SECRET_ENV_FILE", "RACE_LIVE_ALERT_NOTIFY_EMAILS",
               "AUTOMATION_WARNING_NOTIFY_EMAILS", "TRANSLATION_FAILURE_NOTIFY_EMAILS",
               "EMAIL_HOST", "EMAIL_PORT", "EMAIL_HOST_USER", "EMAIL_HOST_PASSWORD"}
  }

  function AllowedKeys(): set<string> {
    (set k | k in DbKeys) + (set p | p in FixedValues :: p.key)
  }

  predicate FixedOk(values: map<string, string>) {
    forall p | p in FixedValues :: p.key in values && values[p.key] == p.value
  }

  /** `validate_pre_django_environment`. */
  predicate ValidEnvironment(values: map<string, string>) {
    && (forall key | key in values :: !Forbidden(key))
    && DatabaseOk(values) && values.Keys == AllowedKeys() && FixedOk(values)
  }

  /** Read the environment file and check it before anything else runs. */
  method LoadEnvironment(payload: string) returns (r: Result<map<string, string>, string>)
    ensures r.Ok? <==>
              && 0 < Utf8Size(payload) <= MaxEnvBytes
              && ReadUpTo(SplitLines(payload), |SplitLines(payload)|).Some?
              && ValidEnvironment(ReadUpTo(SplitLines(payload), |SplitLines(payload)|).value)
    ensures r.Ok? ==> Some(r.value) == ReadUpTo(SplitLines(payload), |SplitLines(payload)|)
  {
    hide SplitLines, ValidEnvironment;
    var size := Utf8Size(payload);
    if size == 0 || size > MaxEnvBytes { return Err("environment file size is invalid"); }
    r := ReadAssignments(payload);
    if r.Ok? && !ValidEnvironment(r.value) { return Err("filtered environment is not fail-closed"); }
  }

  lemma EngineKeys()
    ensures IsKey("DB_ENGINE") && IsKey("DEBUG") && IsKey("SECRET_KEY")
  {}

  lemma PostgresKeys()
    ensures IsKey("POSTGRES_CONN_MAX_AGE")
  {}

  lemma ApplicationKey()
    ensures IsKey("POSTGRES_APPLICATION_NAME")
  {}

  lemma CeleryKeys()
    ensures IsKey("CELERY_BROKER_URL") && IsKey("CELERY_RESULT_BACKEND")
  {}

  lemma EmailKey()
    ensures IsKey("EMAIL_BACKEND")
  {}

  lemma RunnerKey()
    ensures IsKey("RACE_LIVE_RUNNER_MODE")
  {}

  lemma SchedulerKey()
    ensures IsKey("RACE_LIVE_SCHEDULER_ENABLED")
  {}

  lemma MonitorKey()
    ensures IsKey("RACE_LIVE_MONITOR_ENABLED")
  {}

  lemma ShortValues()
    ensures Unbroken("postgres") && Unbroken("false") && Unbroken("0") && Unbroken("memory://")
    ensures Unbroken("disabled") && Unbroken("cache+memory://")
  {}

  lemma LongValues()
    ensures Unbroken("fixed-race-live-rollback-validation-key")
  {}

  lemma NameValue()
    ensures Unbroken("race-live-rollback-one-shot")
  {}

  lemma BackendValue()
    ensures Unbroken("django.core.mail.backends.dummy.EmailBackend")
  {}

  lemma FixedKeysAreKeys()
    ensures forall p | p in FixedValues :: IsKey(p.key)
  {
    EngineKeys();
    PostgresKeys();
    ApplicationKey();
    CeleryKeys();
    EmailKey();
    RunnerKey();
    SchedulerKey();
    MonitorKey();
    hide IsKey;
  }

  lemma FixedValuesAreUnbroken()
    ensures forall p | p in FixedValues :: Unbroken(p.value)
  {
    ShortValues();
    LongValues();
    NameValue();
    BackendValue();
    hide Unbroken;
  }

  lemma DbKeysAreKeys()
    ensures forall i | 0 <= i < |DbKeys| :: IsKey(DbKeys[i])
  {
    assert IsKey("POSTGRES_DB") && IsKey("POSTGRES_USER") && IsKey("POSTGRES_PASSWORD");
    assert IsKey("POSTGRES_HOST") && IsKey("POSTGRES_PORT") && IsKey("POSTGRES_SSLMODE");
    assert IsKey("POSTGRES_CONNECT_TIMEOUT");
  }

  // ---------------------------------------------------------------- the round trip

  /** The key of every printed line. */
  function KeyAt(i: nat): string
    requires i < |DbKeys| + |FixedValues|
  {
    if i < |DbKeys| then DbKeys[i] else FixedValues[i - |DbKeys|].key
  }

  /** How long the printed keys are.  Keys of equal length differ in their tenth character. */
  const KeyLengths: seq<nat> := [11, 13, 17, 13, 13, 24, 16, 9, 5, 10, 21, 25, 17, 21, 13, 21, 27, 25]
  const TenthCharacters: string := "DUPHPCS--YCAOSK___"

  lemma LengthAndTenth(i: nat)
    requires i < |DbKeys| + |FixedValues|
    ensures |DbKeys| + |FixedValues| == |KeyLengths| == |TenthCharacters|
    ensures |KeyAt(i)| == KeyLengths[i] && (KeyLengths[i] > 9 ==> KeyAt(i)[9] == TenthCharacters[i])
  {}

  lemma ShapesDiffer(i: nat, j: nat)
    requires i < j < |KeyLengths| == |TenthCharacters| && KeyLengths[i] == KeyLengths[j]
    ensures KeyLengths[i] > 9 && TenthCharacters[i] != TenthCharacters[j]
  {}

  lemma KeysDiffer()
    ensures forall i: nat, j: nat | i < j < |DbKeys| + |FixedValues| :: KeyAt(i) != KeyAt(j)
  {
    hide KeyAt, DbKeys, FixedValues, KeyLengths, TenthCharacters;
    forall i: nat, j: nat | i < j < |DbKeys| + |FixedValues| ensures KeyAt(i) != KeyAt(j) {
      LengthAndTenth(i);
      LengthAndTenth(j);
      if KeyLengths[i] == KeyLengths[j] { ShapesDiffer(i, j); }
    }
  }

  /** The first `n` pairs as a map. */
  function MapOf(pairs: seq<Pair>, n: nat): map<string, string>
    requires n <= |pairs|
  {
    if n == 0 then map[] else MapOf(pairs, n - 1)[pairs[n - 1].key := pairs[n - 1].value]
  }

  lemma {:induction false} MapKeys(pairs: seq<Pair>, n: nat)
    requires n <= |pairs|
    requires forall i: nat, j: nat | i < j < |pairs| :: pairs[i].key != pairs[j].key
    ensures forall k :: k in MapOf(pairs, n) <==> exists i :: 0 <= i < n && pairs[i].key == k
    ensures forall i | 0 <= i < n :: pairs[i].key in MapOf(pairs, n) && MapOf(pairs, n)[pairs[i].key] == pairs[i].value
  {
    if n > 0 {
      MapKeys(pairs, n - 1);
      var before, last := MapOf(pairs, n - 1), pairs[n - 1];
      forall k ensures k in MapOf(pairs, n) <==> exists i :: 0 <= i < n && pairs[i].key == k {
        if k in before { var i :| 0 <= i < n - 1 && pairs[i].key == k; }
        if k == last.key { assert pairs[n - 1].key == k; }
      }
    }
  }

  lemma {:induction false} FirstEqualsIs(key: string, value: string)
    requires '=' !in key
    ensures FirstEquals(key + "=" + value) == |key|
  {
    if key == [] {
      assert key + "=" + value == "=" + value;
    } else {
      assert (key + "=" + value)[1..] == key[1..] + "=" + value;
      FirstEqualsIs(key[1..], value);
    }
  }

  /** A printed line reads back as its pair, whatever the value contains. */
  lemma LineReadsBack(p: Pair)
    requires IsKey(p.key)
    ensures var line := LineOf(p);
      && !Ignored(line) && FirstEquals(line) == |p.key| < |line|
      && line[..|p.key|] == p.key && line[|p.key| + 1..] == p.value
  {
    FirstEqualsIs(p.key, p.value);
  }

  lemma ReadStep(lines: seq<string>, n: nat, env: map<string, string>, p: Pair)
    requires n < |lines| && ReadUpTo(lines, n) == Some(env) && p.key !in env && IsKey(p.key)
    requires lines[n] == LineOf(p)
    ensures ReadUpTo(lines, n + 1) == Some(env[p.key := p.value])
  {
    LineReadsBack(p);
    hide IsKey, Ignored, LineOf, FirstEquals;
  }

  lemma {:induction false} ReadPrinted(pairs: seq<Pair>, lines: seq<string>, n: nat)
    requires n <= |pairs| && lines == LinesOf(pairs)
    requires forall i: nat, j: nat | i < j < |pairs| :: pairs[i].key != pairs[j].key
    requires forall i | 0 <= i < |pairs| :: IsKey(pairs[i].key)
    ensures ReadUpTo(lines, n) == Some(MapOf(pairs, n))
  {
    hide IsKey, Ignored, LineOf, FirstEquals;
    if n > 0 {
      ReadPrinted(pairs, lines, n - 1);
      MapKeys(pairs, n - 1);
      ReadStep(lines, n - 1, MapOf(pairs, n - 1), pairs[n - 1]);
    }
  }

  /** What the reader should see: the database values and the fixed values, nothing else. */
  ghost predicate IsEnvironmentOf(env: map<string, string>, values: map<string, string>) {
    && env.Keys == AllowedKeys()
    && (forall i | 0 <= i < |DbKeys| :: DbKeys[i] in values && DbKeys[i] in env && env[DbKeys[i]] == values[DbKeys[i]])
    && FixedOk(env)
  }

  lemma PrintedPairs(values: map<string, string>)
    requires DatabaseOk(values)
    ensures |Printed(values)| == |DbKeys| + |FixedValues|
    ensures forall i | 0 <= i < |Printed(values)| ::
              && Printed(values)[i].key == KeyAt(i) && IsKey(KeyAt(i))
              && (i < |DbKeys| ==> Printed(values)[i].value == values[DbKeys[i]])
              && (i >= |DbKeys| ==> Printed(values)[i] == FixedValues[i - |DbKeys|])
  {
    DbKeysAreKeys();
    FixedKeysAreKeys();
    hide IsKey, DbKeys, FixedValues, SafeValue;
  }

  /** The printed pairs as a map hold the database values, the fixed values and no other key. */
  lemma PrintedMap(values: map<string, string>, pairs: seq<Pair>, env: map<string, string>)
    requires DatabaseOk(values) && pairs == Printed(values) && env == MapOf(pairs, |pairs|)
    ensures IsEnvironmentOf(env, values)
  {
    hide DbKeys, FixedValues, KeyAt, SafeValue, IsKey, Printed, MapOf, AllowedKeys;
    PrintedPairs(values);
    PairsDiffer(values, pairs);
    MapKeys(pairs, |pairs|);
    forall i | 0 <= i < |DbKeys| ensures DbKeys[i] in env && env[DbKeys[i]] == values[DbKeys[i]] {
      KeyIsDb(i);
      assert pairs[i].key in env;
    }
    forall p | p in FixedValues ensures p.key in env && env[p.key] == p.value {
      var i :| 0 <= i < |FixedValues| && FixedValues[i] == p;
      assert pairs[|DbKeys| + i] == p;
    }
    PrintedKeys(values, pairs, env);
  }

  lemma PairsDiffer(values: map<string, string>, pairs: seq<Pair>)
    requires DatabaseOk(values) && pairs == Printed(values)
    ensures forall i: nat, j: nat | i < j < |pairs| :: pairs[i].key != pairs[j].key
  {
    PrintedPairs(values);
    KeysDiffer();
    hide DbKeys, FixedValues, KeyAt, SafeValue, IsKey, Printed;
  }

  lemma PrintedKeys(values: map<string, string>, pairs: seq<Pair>, env: map<string, string>)
    requires DatabaseOk(values) && pairs == Printed(values)
    requires forall k :: k in env <==> exists i :: 0 <= i < |pairs| && pairs[i].key == k
    ensures env.Keys == AllowedKeys()
  {
    hide DbKeys, FixedValues, KeyAt, SafeValue, IsKey, Printed, AllowedKeys;
    PrintedPairs(values);
    forall k ensures k in env <==> k in AllowedKeys() {
      KeyIsAllowed(k);
      if k in env {
        var i :| 0 <= i < |pairs| && pairs[i].key == k;
      }
      if k in AllowedKeys() {
        var i: nat :| i < |DbKeys| + |FixedValues| && KeyAt(i) == k;
        assert pairs[i].key == k;
      }
    }
  }

  lemma KeyIsDb(i: nat)
    requires i < |DbKeys|
    ensures KeyAt(i) == DbKeys[i]
  {}

  lemma KeyIsAllowed(k: string)
    ensures k in AllowedKeys() <==> exists i: nat :: i < |DbKeys| + |FixedValues| && KeyAt(i) == k
  {
    hide DbKeys, FixedValues;
    if k in AllowedKeys() {
      if k in DbKeys {
        var i :| 0 <= i < |DbKeys| && DbKeys[i] == k;
        assert KeyAt(i) == k;
      } else {
        var p :| p in FixedValues && p.key == k;
        var i :| 0 <= i < |FixedValues| && FixedValues[i] == p;
        assert KeyAt(|DbKeys| + i) == k;
      }
    }
  }

  lemma ForbiddenShape(k: string)
    requires Forbidden(k)
    ensures |k| >= 2 && (k[0] == 'T' || (k[0] == 'S' && k[1] == 'M') || |k| in {15, 19, 29, 32, 33}
                         || (|k| == 10 && k[0] == 'E'))
  {
    assert "THE_RACING_API_" <= k ==> k[0] == "THE_RACING_API_"[0] == 'T';
    assert "SMTP_" <= k ==> k[0] == "SMTP_"[0] == 'S' && k[1] == "SMTP_"[1] == 'M';
  }

  lemma KeyShape(i: nat)
    requires i < |DbKeys| + |FixedValues|
    ensures var k := KeyAt(i);
      && |k| >= 2 && |k| !in {15, 19, 29, 32, 33} && k[0] != 'T'
      && (k[0] == 'S' ==> k[1] == 'E') && (|k| == 10 ==> k[0] == 'S')
  {}

  /** No key that is printed is one that the reader forbids. */
  lemma NotForbidden(i: nat)
    requires i < |DbKeys| + |FixedValues|
    ensures !Forbidden(KeyAt(i))
  {
    KeyShape(i);
    hide KeyAt, Forbidden;
    if Forbidden(KeyAt(i)) { ForbiddenShape(KeyAt(i)); }
  }

  lemma PrintedIsValid(values: map<string, string>, env: map<string, string>)
    requires DatabaseOk(values) && IsEnvironmentOf(env, values)
    ensures ValidEnvironment(env)
  {
    hide DbKeys, FixedValues, KeyAt, SafeValue, AllowedKeys, Forbidden;
    forall key | key in env ensures !Forbidden(key) {
      KeyIsAllowed(key);
      var i: nat :| i < |DbKeys| + |FixedValues| && KeyAt(i) == key;
      NotForbidden(i);
    }
  }

  /** Exactly which environments the reader accepts: the database settings and the fixed ones, no
      others, every database value harmless and every fixed value as it should be.  That no forbidden
      key is among them follows. */
  lemma ValidEnvironmentMeans(values: map<string, string>)
    ensures ValidEnvironment(values) <==>
              && (forall key :: key in values <==> key in DbKeys || exists p :: p in FixedValues && p.key == key)
              && (forall key | key in DbKeys && key in values :: Harmless(values[key]))
              && (forall p | p in FixedValues && p.key in values :: values[p.key] == p.value)
  {
    hide DbKeys, FixedValues, SafeValue, Harmless, Forbidden, KeyAt;
    forall value ensures SafeValue(value) <==> Harmless(value) { SafeValueMeans(value); }
    assert (forall key :: key in values <==> key in DbKeys || exists p :: p in FixedValues && p.key == key)
      <==> values.Keys == AllowedKeys() by { AllowedKeysAre(values); }
    if values.Keys == AllowedKeys() {
      forall key | key in values ensures !Forbidden(key) {
        KeyIsAllowed(key);
        var i: nat :| i < |DbKeys| + |FixedValues| && KeyAt(i) == key;
        NotForbidden(i);
      }
      assert forall i | 0 <= i < |DbKeys| :: DbKeys[i] in DbKeys;
    }
  }

  lemma AllowedKeysAre(values: map<string, string>)
    ensures (forall key :: key in values <==> key in DbKeys || exists p :: p in FixedValues && p.key == key)
            <==> values.Keys == AllowedKeys()
  {
    hide DbKeys, FixedValues;
    forall key ensures key in AllowedKeys() <==> key in DbKeys || exists p :: p in FixedValues && p.key == key {}
  }

  lemma KeyIsUnbroken(k: string)
    requires IsKey(k)
    ensures Unbroken(k)
  {}

  /** No printed line contains a line break. */
  lemma PrintedLinesUnbroken(values: map<string, string>, lines: seq<string>)
    requires DatabaseOk(values) && forall k | k in values :: Unbroken(values[k])
    requires lines == LinesOf(Printed(values))
    ensures forall i | 0 <= i < |lines| :: Unbroken(lines[i])
  {
    hide DbKeys, FixedValues, KeyAt, SafeValue, Printed, IsKey;
    PrintedPairs(values);
    FixedValuesAreUnbroken();
    forall i | 0 <= i < |lines| ensures Unbroken(lines[i]) {
      KeyIsUnbroken(KeyAt(i));
      if i >= |DbKeys| { assert FixedValues[i - |DbKeys|] in FixedValues; }
    }
  }

  /** Whatever source text the printer accepts, the reader gets exactly the database values and the
      fixed values back and accepts them, even with `=` or `#` inside values. */
  lemma RoundTrip(text: string, values: map<string, string>)
    requires ReadUpTo(SplitLines(text), |SplitLines(text)|) == Some(values) && DatabaseOk(values)
    ensures var lines := SplitLines(Payload(values));
      var env := ReadUpTo(lines, |lines|);
      env.Some? && IsEnvironmentOf(env.value, values) && ValidEnvironment(env.value)
  {
    hide DbKeys, FixedValues, KeyAt, SafeValue, Printed, IsKey, IsEnvironmentOf, ValidEnvironment;
    LinesAreUnbroken(text);
    ReadValuesUnbroken(SplitLines(text), |SplitLines(text)|);
    var pairs := Printed(values);
    PrintedLinesUnbroken(values, LinesOf(pairs));
    SplitJoined(LinesOf(pairs));
    PrintedPairs(values);
    PairsDiffer(values, pairs);
    ReadPrinted(pairs, LinesOf(pairs), |pairs|);
    PrintedMap(values, pairs, MapOf(pairs, |pairs|));
    PrintedIsValid(values, MapOf(pairs, |pairs|));
  }

  lemma PayloadIsNotEmpty(values: map<string, string>)
    requires DatabaseOk(values)
    ensures Utf8Size(Payload(values)) > 0
  {
    PrintedPairs(values);
    hide DbKeys, FixedValues, SafeValue, Printed;
    assert Payload(values) != [];
  }

  /** Print an environment file and read it back. */
  method PrintThenLoad(text: string) returns (source: Result<map<string, string>, string>,
                                              env: Result<map<string, string>, string>)
    ensures source.Ok? ==> DatabaseOk(source.value)
    ensures source.Ok? && DatabaseOk(source.value) && Utf8Size(Payload(source.value)) <= MaxEnvBytes ==>
              env.Ok? && IsEnvironmentOf(env.value, source.value)
  {
    hide DatabaseOk, IsEnvironmentOf, ValidEnvironment, SplitLines;
    source := ReadSource(text);
    if source.Err? { return source, source; }
    RoundTrip(text, source.value);
    PayloadIsNotEmpty(source.value);
    PrintableIsKnown(source.value);
    env := LoadEnvironment(Payload(source.value));
  }

  lemma PrintableIsKnown(values: map<string, string>)
    requires DatabaseOk(values)
    ensures forall i | 0 <= i < |DbKeys| :: DbKeys[i] in values
  {}
}
