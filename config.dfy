/** The layered configuration store of src/config.js.  Object spreading is
    map union, later operands winning key by key; an undefined or null
    argument spreads no keys and is written as the empty map. */
module Configuration {
  import opened Js

  /** `Config.DEFAULTS` */
  const BuiltInDefaults: map<string, Value> :=
    map["appID" := Null, "appSecret" := Null, "tokenExpiresIn" := Str("30s"), "url" := Str("https://app.lateral.run")]

  /** The built-in defaults: no application identity or secret, tokens that
      expire after 30 seconds, and the hosted service's URL. */
  lemma BuiltInDefaultsValues()
    ensures BuiltInDefaults.Keys == {"appID", "appSecret", "tokenExpiresIn", "url"}
    ensures BuiltInDefaults["appID"] == Null && BuiltInDefaults["appSecret"] == Null
    ensures BuiltInDefaults["tokenExpiresIn"] == Str("30s") && BuiltInDefaults["url"] == Str("https://app.lateral.run")
  {
  }

  /** `{ ...defaults, ...current, ...supplied }`: every key of any layer is
      present, and the value comes from the highest layer that has the key. */
  function Layered(defaults: map<string, Value>, current: map<string, Value>, supplied: map<string, Value>)
    : (r: map<string, Value>)
    ensures r.Keys == defaults.Keys + current.Keys + supplied.Keys
    ensures forall k :: k in r ==>
              r[k] == if k in supplied then supplied[k] else if k in current then current[k] else defaults[k]
  {
    defaults + current + supplied
  }

  /** The class-level state of `Config`: the `_defaults` field behind the
      static `defaults` accessors, shared by every configuration. */
  class ConfigDefaults {
    var defaults: map<string, Value>

    /** Every built-in key stays defined, since the setter only merges. */
    ghost predicate Valid()
      reads this
    {
      BuiltInDefaults.Keys <= defaults.Keys
    }

    /** The module-load assignment `Config.defaults = Config.DEFAULTS`, made
        while `_defaults` is still undefined. */
    constructor ()
      ensures Valid()
      ensures defaults == BuiltInDefaults
    {
      defaults := map[];
      new;
      SetDefaults(BuiltInDefaults);
    }

    /** The static `defaults` setter merges the given entries into the existing
        defaults instead of replacing them. */
    method SetDefaults(entries: map<string, Value>)
      modifies this
      ensures defaults == old(defaults) + entries
      ensures old(Valid()) ==> Valid()
      ensures forall k :: k in old(defaults) && k !in entries ==> k in defaults && defaults[k] == old(defaults)[k]
    {
      defaults := defaults + entries;
    }
  }

  class Config {
    /** `this.constructor`, whose `defaults` every `set` reads. */
    const statics: ConfigDefaults
    /** `this._config` */
    var config: map<string, Value>

    ghost predicate Valid()
      reads this
    {
      BuiltInDefaults.Keys <= config.Keys
    }

    /** `new Config(supplied)` runs `set(supplied)` on an instance without stored
        configuration: the result is the current defaults overlaid by `supplied`. */
    constructor (statics: ConfigDefaults, supplied: map<string, Value>)
      requires statics.Valid()
      ensures this.statics == statics && Valid()
      ensures config == Layered(statics.defaults, map[], supplied)
      ensures forall k :: k in BuiltInDefaults ==>
                k in config && config[k] == if k in supplied then supplied[k] else statics.defaults[k]
    {
      this.statics := statics;
      config := map[];
      new;
      Set(supplied);
    }

    /** `set(c)` replaces the stored configuration by defaults < stored < c. */
    method Set(c: map<string, Value>)
      modifies this
      ensures config == Layered(statics.defaults, old(config), c)
      ensures old(Valid()) || statics.Valid() ==> Valid()
      ensures forall k :: k in old(config) && k !in c ==> k in config && config[k] == old(config)[k]
    {
      config := statics.defaults + config + c;
    }

    /** `get(key = null)`: a truthy key reads one entry (undefined when it is
        missing, never an error); a falsy or absent key returns the whole
        configuration. */
    function Get(key: Value): (r: Value)
      reads this
      ensures !Truthy(key) ==> r == Obj(config)
      ensures key.Str? && key.s != "" && key.s in config ==> r == config[key.s]
      ensures key.Str? && key.s != "" && key.s !in config ==> r == Undefined
    {
      if Truthy(key) then Lookup(config, ToStr(key)) else Obj(config)
    }
  }

  /** `set(c); set(c)` stores what one `set(c)` stores. */
  lemma SetIdempotent(defaults: map<string, Value>, current: map<string, Value>, c: map<string, Value>)
    ensures Layered(defaults, Layered(defaults, current, c), c) == Layered(defaults, current, c)
  {
  }

  /** `set({})` (and `set(undefined)`) leaves the stored configuration as it is,
      provided every current default key is already stored, which holds unless
      the defaults setter has added keys since the last `set`. */
  lemma SetNothingKeepsConfig(defaults: map<string, Value>, current: map<string, Value>)
    requires defaults.Keys <= current.Keys
    ensures Layered(defaults, current, map[]) == current
  {
  }

  /** The configuration after a series of `set` calls, the defaults staying fixed. */
  function AfterSets(defaults: map<string, Value>, current: map<string, Value>, updates: seq<map<string, Value>>)
    : map<string, Value>
    decreases |updates|
  {
    if updates == [] then current else AfterSets(defaults, Layered(defaults, current, updates[0]), updates[1..])
  }

  /** The key-by-key merge of several updates, later ones winning. */
  function MergeAll(updates: seq<map<string, Value>>): map<string, Value>
    decreases |updates|
  {
    if updates == [] then map[] else updates[0] + MergeAll(updates[1..])
  }

  /** Applying the defaults twice is applying them once, and spreads associate. */
  lemma RelayerTwice(defaults: map<string, Value>, current: map<string, Value>,
                     first: map<string, Value>, rest: map<string, Value>)
    ensures defaults + (defaults + current + first) + rest == defaults + current + (first + rest)
  {
    var lhs, rhs := defaults + (defaults + current + first) + rest, defaults + current + (first + rest);
    assert lhs.Keys == rhs.Keys;
    forall k | k in lhs ensures lhs[k] == rhs[k] {
    }
  }

  /** A series of `set` calls stores what one `set` of their merge stores: a key
      keeps its stored value until some update supplies it again. */
  lemma {:induction false} SuccessiveSets(defaults: map<string, Value>, current: map<string, Value>,
                                          updates: seq<map<string, Value>>)
    requires updates != []
    ensures AfterSets(defaults, current, updates) == Layered(defaults, current, MergeAll(updates))
    decreases |updates|
  {
    var next := Layered(defaults, current, updates[0]);
    assert AfterSets(defaults, current, updates) == AfterSets(defaults, next, updates[1..]);
    assert MergeAll(updates) == updates[0] + MergeAll(updates[1..]);
    if updates[1..] == [] {
      assert MergeAll(updates[1..]) == map[];
      assert updates[0] + map[] == updates[0];
    } else {
      SuccessiveSets(defaults, next, updates[1..]);
      RelayerTwice(defaults, current, updates[0], MergeAll(updates[1..]));
    }
  }

  /** `new Config({url: "A"})` followed by `set({tokenExpiresIn: "1h"})` keeps the
      other built-in defaults. */
  lemma ConfigPrecedenceExample()
    ensures var created := Layered(BuiltInDefaults, map[], map["url" := Str("A")]);
            Layered(BuiltInDefaults, created, map["tokenExpiresIn" := Str("1h")]) ==
              map["appID" := Null, "appSecret" := Null, "tokenExpiresIn" := Str("1h"), "url" := Str("A")]
  {
  }
}
