/** The runtime configuration store: a dictionary of settings filled from
    the environment when created, read with a default, and overwritten key by
    key. A value may be Python's None (an unset environment variable), which
    is modelled as `None`; the environment is an input. */
module Config {
  import opened Wrappers

  /** A stored value: a string, or None. */
  type Value = Option<string>

  /** `os.getenv(key)`: None when the variable is unset. */
  function GetEnv(env: map<string, string>, key: string): (v: Value)
    ensures v.Some? <==> key in env
    ensures key in env ==> v == Some(env[key])
  {
    if key in env then Some(env[key]) else None
  }

  /** `os.getenv(key, default)`. */
  function GetEnvOr(env: map<string, string>, key: string, default: string): (v: string)
    ensures key !in env ==> v == default
    ensures key in env ==> v == env[key]
  {
    if key in env then env[key] else default
  }

  const DefaultProvider: string := "anthropic"
  const DefaultModel: string := "claude-3-5-sonnet-20240620"

  /** The dictionary `__init__` builds. */
  function InitialEntries(env: map<string, string>): map<string, Value> {
    map[
      "OPENAI_API_KEY" := GetEnv(env, "OPENAI_API_KEY"),
      "ANTHROPIC_API_KEY" := GetEnv(env, "ANTHROPIC_API_KEY"),
      "GITHUB_TOKEN" := GetEnv(env, "GITHUB_TOKEN"),
      "MODEL_PROVIDER" := Some(GetEnvOr(env, "MODEL_PROVIDER", DefaultProvider)),
      "MODEL_NAME" := Some(GetEnvOr(env, "MODEL_NAME", DefaultModel))
    ]
  }

  /** `dict.get(key, default)`: the stored value whenever the key is
      present, even a stored None; the default only for an absent key. */
  function Lookup(entries: map<string, Value>, key: string, default: Value): Value {
    if key in entries then entries[key] else default
  }

  /** A fresh store holds exactly the five keys; provider and model are always
      set, to the defaults when the environment leaves them unset; the
      Google key is absent, so reading it gives the caller's default. */
  lemma InitialKeys(env: map<string, string>, default: Value)
    ensures var m := InitialEntries(env);
            m.Keys == {"OPENAI_API_KEY", "ANTHROPIC_API_KEY", "GITHUB_TOKEN", "MODEL_PROVIDER", "MODEL_NAME"} &&
            Lookup(m, "MODEL_PROVIDER", default) == Some(GetEnvOr(env, "MODEL_PROVIDER", DefaultProvider)) &&
            Lookup(m, "MODEL_NAME", default) == Some(GetEnvOr(env, "MODEL_NAME", DefaultModel)) &&
            Lookup(m, "GOOGLE_API_KEY", default) == default &&
            ("OPENAI_API_KEY" !in env ==> Lookup(m, "OPENAI_API_KEY", default) == None)
  {
    var m := InitialEntries(env);
    assert m.Keys == {"OPENAI_API_KEY", "ANTHROPIC_API_KEY", "GITHUB_TOKEN", "MODEL_PROVIDER", "MODEL_NAME"};
  }

  /** With an empty environment, provider and model read as the defaults. */
  lemma EmptyEnvironmentDefaults(default: Value)
    ensures Lookup(InitialEntries(map[]), "MODEL_PROVIDER", default) == Some("anthropic")
    ensures Lookup(InitialEntries(map[]), "MODEL_NAME", default) == Some("claude-3-5-sonnet-20240620")
    ensures Lookup(InitialEntries(map[]), "GITHUB_TOKEN", default) == None
  {
  }

  /** `set(key, value)` then `get(key)` gives the value; every other key
      reads as before. */
  lemma LookupAfterSet(m: map<string, Value>, key: string, value: Value, other: string, default: Value)
    ensures Lookup(m[key := value], key, default) == value
    ensures other != key ==> Lookup(m[key := value], other, default) == Lookup(m, other, default)
  {
  }

  /** After `update(u)`, a key of `u` reads as `u` gives it and every other
      key as before; an empty `u` changes nothing. */
  lemma LookupAfterUpdate(m: map<string, Value>, u: map<string, Value>, key: string, default: Value)
    ensures Lookup(m + u, key, default) == if key in u then u[key] else Lookup(m, key, default)
    ensures Lookup(m + map[], key, default) == Lookup(m, key, default)
  {
  }

  /** The part of `u` whose keys are in `done`. */
  function Restrict(u: map<string, Value>, done: set<string>): map<string, Value> {
    map k | k in u.Keys && k in done :: u[k]
  }

  class Config {
    var entries: map<string, Value>

    /** `__init__`, with the process environment as input. */
    constructor (env: map<string, string>)
      ensures entries == InitialEntries(env)
    {
      entries := InitialEntries(env);
    }

    /** `get(key, default)` */
    function Get(key: string, default: Value): (v: Value)
      reads this
      ensures key in entries ==> v == entries[key]
      ensures key !in entries ==> v == default
    {
      Lookup(entries, key, default)
    }

    /** `set(key, value)`: only that key changes; the value is kept in
        memory, nothing is written back. */
    method Set(key: string, value: Value)
      modifies this
      ensures entries == old(entries)[key := value]
    {
      entries := entries[key := value];
    }

    /** `update(updates)`: `set` for every pair, in the dictionary's order;
        since its keys are distinct, the order does not matter. */
    method Update(updates: map<string, Value>)
      modifies this
      ensures entries == old(entries) + updates
    {
      var todo := updates.Keys;
      while todo != {}
        invariant todo <= updates.Keys
        invariant entries == old(entries) + Restrict(updates, updates.Keys - todo)
        decreases |todo|
      {
        var k :| k in todo;
        Set(k, updates[k]);
        assert Restrict(updates, updates.Keys - (todo - {k})) == Restrict(updates, updates.Keys - todo)[k := updates[k]];
        todo := todo - {k};
      }
      assert Restrict(updates, updates.Keys) == updates;
    }
  }
}
