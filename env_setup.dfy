/**
 * The interactive first-run setup (src/scripts/setup.ts): the answers are
 * merged over the existing `.env` entries, NODE_ENV and LOG_LEVEL receive
 * defaults, the result is written as `key=value` lines, and the Prisma
 * schema's datasource provider is switched to match the database URL.
 */
module EnvSetup {
  import opened Common

  /** One `.env` entry. */
  datatype EnvVar = EnvVar(key: string, value: string)

  /** An env object as its entries in insertion order. */
  type Env = seq<EnvVar>

  function Keys(env: Env): (ks: seq<string>)
    ensures |ks| == |env| && forall i :: 0 <= i < |env| ==> ks[i] == env[i].key
  {
    seq(|env|, i requires 0 <= i < |env| => env[i].key)
  }

  /** The value of `key`; when a key occurs twice the later entry wins, as in an object literal. */
  function Lookup(env: Env, key: string): (r: Option<string>)
    ensures r.None? <==> key !in Keys(env)
  {
    if |env| == 0 then None
    else if env[|env| - 1].key == key then Some(env[|env| - 1].value)
    else
      assert Keys(env) == Keys(env[..|env| - 1]) + [env[|env| - 1].key];
      Lookup(env[..|env| - 1], key)
  }

  /** `obj[key] = value`: an existing key keeps its place, a new one goes last. */
  function Set(env: Env, key: string, value: string): (r: Env)
    ensures Lookup(r, key) == Some(value)
    ensures forall k :: k != key ==> Lookup(r, k) == Lookup(env, k)
    ensures key in Keys(env) ==> Keys(r) == Keys(env)
    ensures key !in Keys(env) ==> Keys(r) == Keys(env) + [key]
  {
    if key in Keys(env) then
      var r := seq(|env|, i requires 0 <= i < |env| => if env[i].key == key then EnvVar(key, value) else env[i]);
      ReplacedLookup(env, key, value, r);
      assert Keys(r) == Keys(env);
      r
    else
      var r := env + [EnvVar(key, value)];
      assert r[..|env|] == env;
      assert Keys(r) == Keys(env) + [key];
      r
  }

  lemma {:induction false} ReplacedLookup(env: Env, key: string, value: string, r: Env)
    requires key in Keys(env)
    requires |r| == |env| && forall i :: 0 <= i < |env| ==> r[i] == if env[i].key == key then EnvVar(key, value) else env[i]
    ensures Lookup(r, key) == Some(value)
    ensures forall k :: k != key ==> Lookup(r, k) == Lookup(env, k)
  {
    var n := |env|;
    if env[n - 1].key != key {
      assert Keys(env) == Keys(env[..n - 1]) + [env[n - 1].key];
      ReplacedLookup(env[..n - 1], key, value, r[..n - 1]);
    } else if n > 1 && key in Keys(env[..n - 1]) {
      ReplacedLookup(env[..n - 1], key, value, r[..n - 1]);
    } else {
      forall k | k != key
        ensures Lookup(r, k) == Lookup(env, k)
      {
        SameOtherKeys(env[..n - 1], r[..n - 1], key, k);
      }
    }
  }

  /** Prefixes that agree on every entry whose key is not `key` give the same answer for any other key. */
  lemma {:induction false} SameOtherKeys(a: Env, b: Env, key: string, k: string)
    requires k != key && |a| == |b|
    requires forall i :: 0 <= i < |a| ==> (a[i].key == key) == (b[i].key == key) && (a[i].key != key ==> a[i] == b[i])
    ensures Lookup(a, k) == Lookup(b, k)
  {
    if |a| > 0 {
      SameOtherKeys(a[..|a| - 1], b[..|b| - 1], key, k);
    }
  }

  /** `{ ...base, ...over }`. */
  function Spread(base: Env, over: Env): Env
  {
    if |over| == 0 then base
    else Set(Spread(base, over[..|over| - 1]), over[|over| - 1].key, over[|over| - 1].value)
  }

  /** The spread answers every key from `over` when it has it and from `base` otherwise, and keeps the base's keys in place. */
  lemma {:induction false} SpreadProps(base: Env, over: Env)
    ensures forall k :: Lookup(Spread(base, over), k) == if Lookup(over, k).Some? then Lookup(over, k) else Lookup(base, k)
    ensures |Keys(Spread(base, over))| >= |base| && Keys(Spread(base, over))[..|base|] == Keys(base)
  {
    if |over| > 0 {
      var init := over[..|over| - 1];
      SpreadProps(base, init);
      assert Keys(over) == Keys(init) + [over[|over| - 1].key];
    }
  }

  /** JavaScript truthiness of a possibly missing string property. */
  predicate Truthy(v: Option<string>)
  {
    v.Some? && v.value != ""
  }

  /** `if (!env[key]) env[key] = fallback`. */
  function WithDefault(env: Env, key: string, fallback: string): (r: Env)
    ensures Lookup(r, key) == if Truthy(Lookup(env, key)) then Lookup(env, key) else Some(fallback)
    ensures forall k :: k != key ==> Lookup(r, k) == Lookup(env, k)
    ensures |Keys(r)| >= |Keys(env)| && Keys(r)[..|env|] == Keys(env)
  {
    if Truthy(Lookup(env, key)) then env else Set(env, key, fallback)
  }

  /** The env `runSetup` writes: the answers over the existing entries, then the two defaults. */
  function NewEnv(current: Env, answers: Env): Env
  {
    WithDefault(WithDefault(Spread(current, answers), "NODE_ENV", "development"), "LOG_LEVEL", "info")
  }

  /** The answers override existing keys and every other existing key is kept. */
  lemma AnswersOverride(current: Env, answers: Env, k: string)
    requires k != "NODE_ENV" && k != "LOG_LEVEL"
    ensures Lookup(NewEnv(current, answers), k) == if Lookup(answers, k).Some? then Lookup(answers, k) else Lookup(current, k)
  {
    SpreadProps(current, answers);
  }

  /** NODE_ENV and LOG_LEVEL take their defaults exactly when they are missing or empty after the merge. */
  lemma DefaultsWhenMissing(current: Env, answers: Env)
    ensures var merged := Spread(current, answers); var env := NewEnv(current, answers);
      Lookup(env, "NODE_ENV") == (if Truthy(Lookup(merged, "NODE_ENV")) then Lookup(merged, "NODE_ENV") else Some("development"))
      && Lookup(env, "LOG_LEVEL") == (if Truthy(Lookup(merged, "LOG_LEVEL")) then Lookup(merged, "LOG_LEVEL") else Some("info"))
  {
  }

  /** The existing keys keep their places at the head of the written env. */
  lemma ExistingKeysKeepOrder(current: Env, answers: Env)
    ensures |Keys(NewEnv(current, answers))| >= |current| && Keys(NewEnv(current, answers))[..|current|] == Keys(current)
  {
    SpreadProps(current, answers);
    var merged := Spread(current, answers);
    var once := WithDefault(merged, "NODE_ENV", "development");
    var env := WithDefault(once, "LOG_LEVEL", "info");
    PrefixOfPrefix(Keys(current), Keys(merged), Keys(once));
    PrefixOfPrefix(Keys(current), Keys(once), Keys(env));
  }

  /** A prefix of a prefix is a prefix. */
  lemma PrefixOfPrefix(x: seq<string>, y: seq<string>, z: seq<string>)
    requires |x| <= |y| && y[..|x|] == x
    requires |y| <= |z| && z[..|y|] == y
    ensures |x| <= |z| && z[..|x|] == x
  {
    assert z[..|x|] == z[..|y|][..|x|];
  }

  /** Already-set defaults are left as they are: the defaults never override a value. */
  lemma DefaultsDoNotOverride(current: Env, answers: Env)
    requires Truthy(Lookup(current, "NODE_ENV")) && Lookup(answers, "NODE_ENV").None?
    ensures Lookup(NewEnv(current, answers), "NODE_ENV") == Lookup(current, "NODE_ENV")
  {
    SpreadProps(current, answers);
  }

  /** The merge and the defaults, as `runSetup` performs them on `newEnv`. */
  method BuildEnv(current: Env, answers: Env) returns (newEnv: Env)
    ensures newEnv == NewEnv(current, answers)
  {
    newEnv := current;
    for i := 0 to |answers|
      invariant newEnv == Spread(current, answers[..i])
    {
      newEnv := Set(newEnv, answers[i].key, answers[i].value);
      assert answers[..i + 1][..i] == answers[..i];
    }
    assert answers[..|answers|] == answers;
    if !Truthy(Lookup(newEnv, "NODE_ENV")) {
      newEnv := Set(newEnv, "NODE_ENV", "development");
    }
    if !Truthy(Lookup(newEnv, "LOG_LEVEL")) {
      newEnv := Set(newEnv, "LOG_LEVEL", "info");
    }
  }

  function Line(v: EnvVar): string
  {
    v.key + "=" + v.value
  }

  function Lines(env: Env): (lines: seq<string>)
    ensures |lines| == |env| && forall i :: 0 <= i < |env| ==> lines[i] == Line(env[i])
  {
    seq(|env|, i requires 0 <= i < |env| => Line(env[i]))
  }

  /** The `.env` text: one `key=value` line per entry, joined by newlines. */
  function EnvContent(env: Env): string
  {
    Join(Lines(env), "\n")
  }

  /**
   * Entries free of newlines come back line by line, and for keys without
   * `=` each line's text before its first `=` is the key.
   */
  lemma EnvContentLines(env: Env)
    requires |env| >= 1
    requires forall v :: v in env ==> '\n' !in v.key && '\n' !in v.value && '=' !in v.key
    ensures Split(EnvContent(env), '\n') == Lines(env)
    ensures forall i :: 0 <= i < |env| ==> UpTo(Lines(env)[i], '=') == env[i].key
  {
    var lines := Lines(env);
    forall i | 0 <= i < |lines|
      ensures '\n' !in lines[i]
    {
      assert env[i] in env;
    }
    SplitJoin(lines, '\n');
    forall i | 0 <= i < |env|
      ensures UpTo(lines[i], '=') == env[i].key
    {
      assert env[i] in env;
      SplitAfterFirst(env[i].key, '=', env[i].value);
      SplitHead(lines[i], '=');
      assert env[i].key + ['='] + env[i].value == lines[i];
    }
  }

  /** The datasource provider the database URL calls for. */
  function Provider(databaseUrl: string): (provider: string)
    ensures StartsWith(databaseUrl, "file:") ==> provider == "sqlite"
    ensures provider == "mysql" <==> !StartsWith(databaseUrl, "file:") && StartsWith(databaseUrl, "mysql:")
    ensures provider == "sqlserver" <==> !StartsWith(databaseUrl, "file:") && !StartsWith(databaseUrl, "mysql:") && StartsWith(databaseUrl, "sqlserver:")
    ensures provider == "mongodb" <==> !StartsWith(databaseUrl, "file:") && !StartsWith(databaseUrl, "mysql:")
                                        && !StartsWith(databaseUrl, "sqlserver:") && StartsWith(databaseUrl, "mongodb:")
    ensures provider == "cockroachdb" <==> !StartsWith(databaseUrl, "file:") && !StartsWith(databaseUrl, "mysql:")
                                            && !StartsWith(databaseUrl, "sqlserver:") && !StartsWith(databaseUrl, "mongodb:")
                                            && StartsWith(databaseUrl, "cockroachdb:")
    ensures provider == "postgresql" <==> !StartsWith(databaseUrl, "file:") && !StartsWith(databaseUrl, "mysql:")
                                           && !StartsWith(databaseUrl, "sqlserver:") && !StartsWith(databaseUrl, "mongodb:")
                                           && !StartsWith(databaseUrl, "cockroachdb:")
  {
    if StartsWith(databaseUrl, "file:") then "sqlite"
    else if StartsWith(databaseUrl, "mysql:") then "mysql"
    else if StartsWith(databaseUrl, "sqlserver:") then "sqlserver"
    else if StartsWith(databaseUrl, "mongodb:") then "mongodb"
    else if StartsWith(databaseUrl, "cockroachdb:") then "cockroachdb"
    else "postgresql"
  }

  /** The prompt's proposal for the database URL: the current one, or the local SQLite file. */
  function DatabaseUrlDefault(current: Env): (url: string)
    ensures Truthy(Lookup(current, "DATABASE_URL")) ==> Some(url) == Lookup(current, "DATABASE_URL")
    ensures !Truthy(Lookup(current, "DATABASE_URL")) ==> url == "file:./dev.db" && Provider(url) == "sqlite"
  {
    if Truthy(Lookup(current, "DATABASE_URL")) then Lookup(current, "DATABASE_URL").value
    else
      assert "file:./dev.db"[..5] == "file:";
      "file:./dev.db"
  }

  /** The schema file: absent, or present with the provider its datasource block names (None when the block is not found). */
  datatype Schema = NoSchema | SchemaFile(provider: Option<string>)

  /** What `updatePrismaProvider` did. */
  datatype SchemaAction = SchemaMissing | Unchanged | Rewritten(provider: string)

  /** `updatePrismaProvider`: the schema is rewritten, and the client regenerated, only when the detected provider differs. */
  method UpdatePrismaProvider(databaseUrl: string, schema: Schema) returns (action: SchemaAction)
    ensures schema.NoSchema? <==> action == SchemaMissing
    ensures action.Rewritten? <==> schema.SchemaFile? && schema.provider.Some? && schema.provider.value != Provider(databaseUrl)
    ensures action.Rewritten? ==> action.provider == Provider(databaseUrl)
  {
    if schema.NoSchema? {
      return SchemaMissing;
    }
    var provider := "postgresql";
    if StartsWith(databaseUrl, "file:") {
      provider := "sqlite";
    } else if StartsWith(databaseUrl, "mysql:") {
      provider := "mysql";
    } else if StartsWith(databaseUrl, "sqlserver:") {
      provider := "sqlserver";
    } else if StartsWith(databaseUrl, "mongodb:") {
      provider := "mongodb";
    } else if StartsWith(databaseUrl, "cockroachdb:") {
      provider := "cockroachdb";
    }
    if schema.provider.Some? && schema.provider.value != provider {
      action := Rewritten(provider);
    } else {
      action := Unchanged;
    }
  }

  /** How `runSetup` ended. */
  datatype SetupRun =
    | KeptExisting
    | Aborted
    | Saved(content: string, schema: SchemaAction)

  /**
   * `runSetup`. With an existing `.env`, a confirmation (or a prompt that
   * cannot be shown, `useExisting == None`) keeps it untouched. Otherwise
   * the answers (None when the prompt fails, which exits) are merged and
   * written, and the schema is updated when DATABASE_URL is set.
   */
  method RunSetup(existing: Option<Env>, useExisting: Option<bool>, answers: Option<Env>, schema: Schema)
    returns (run: SetupRun)
    ensures existing.Some? && useExisting != Some(false) <==> run == KeptExisting
    ensures run == Aborted <==> (existing.None? || useExisting == Some(false)) && answers.None?
    ensures run.Saved? ==>
      var env := NewEnv(if existing.Some? then existing.value else [], answers.value);
      var url := Lookup(env, "DATABASE_URL");
      run.content == EnvContent(env)
      && (!Truthy(url) ==> run.schema == Unchanged)
      && (Truthy(url) ==>
            (run.schema == SchemaMissing <==> schema.NoSchema?)
            && (run.schema.Rewritten? <==> schema.SchemaFile? && schema.provider.Some? && schema.provider.value != Provider(url.value))
            && (run.schema.Rewritten? ==> run.schema.provider == Provider(url.value)))
  {
    var current: Env := [];
    if existing.Some? {
      current := existing.value;
      if useExisting != Some(false) {
        return KeptExisting;
      }
    }
    if answers.None? {
      return Aborted;
    }
    var newEnv := BuildEnv(current, answers.value);
    var content := EnvContent(newEnv);
    var action := Unchanged;
    var url := Lookup(newEnv, "DATABASE_URL");
    if url.Some? && url.value != "" {
      action := UpdatePrismaProvider(url.value, schema);
    }
    run := Saved(content, action);
  }
}
