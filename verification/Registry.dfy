/** The registry of breakers by name (circuitbreaker.go) and the construction of a breaker
    (newCircuitBreaker in cb.go). */
module Registry {
  import opened Outcomes
  import opened Config
  import opened StateSpec
  import opened Protocol
  import opened Invariant
  import opened BreakerSteps
  import opened CircuitBreaker
  import Calls

  /** The Unicode characters with the property White_Space. */
  predicate IsSpace(c: char) {
    || '\U{0009}' <= c <= '\U{000D}' || c == ' ' || c == '\U{0085}' || c == '\U{00A0}' || c == '\U{1680}'
    || '\U{2000}' <= c <= '\U{200A}' || c == '\U{2028}' || c == '\U{2029}' || c == '\U{202F}'
    || c == '\U{205F}' || c == '\U{3000}'
  }

  /** Nothing is left of the name once surrounding space is trimmed. */
  predicate BlankName(name: string) {
    forall c :: c in name ==> IsSpace(c)
  }

  datatype UpdateError = BreakerNotFound(name: string) | InvalidConfig(name: string, errors: seq<ConfigError>)

  predicate Acceptable(config: Option<Config>) {
    config.Some? && ValidConfig(config.value)
  }

  /** newCircuitBreaker: no configuration stands for the default one. */
  method NewBreaker(name: string, config: Option<Config>, born: int)
    returns (cb: CircuitBreaker?, errors: seq<ConfigError>)
    ensures cb == null <==> errors != []
    ensures cb == null <==> config.Some? && !ValidConfig(config.value)
    ensures cb != null ==> Calls.Coherent(cb) && cb in cb.Repr && fresh(cb.Repr) && cb.name == name
    ensures cb != null ==> cb.setting == Fill(if config.Some? then config.value else DEFAULT)
    ensures cb != null ==> cb.state.kind == Closed
  {
    hide Inv, CircuitBreaker.Valid, FillConfig, Checkers, Usable;
    var c := if config.Some? then config.value else DEFAULT;
    cb := null;
    errors := IsValidConfig(Some(c));
    if errors == [] {
      ghost var time: int := *;
      StartSatisfiesInvariant(c, born, time);
      cb := new CircuitBreaker(name, c, born, time);
      NewlyStarted(cb, c, born, time);
      OwnsItself(cb);
    }
  }

  lemma NewlyStarted(cb: CircuitBreaker, c: Config, born: int, time: int)
    requires ValidConfig(c) && cb.Valid() && cb.world == Start(c, born, time)
    ensures cb.setting == Fill(c) && cb.state.kind == Closed
  {
    hide InstancesShow, LimitersShow, FillConfig, Checkers, Usable;
    FilledIsUsable(c);
    SameKind(cb.instances, cb.world.insts, cb.owned, 0);
  }

  /** updateSetting on one breaker. */
  method UpdateOne(cb: CircuitBreaker, config: Config, born: int)
    requires Calls.Coherent(cb) && ValidConfig(config)
    modifies cb
    ensures Calls.Coherent(cb) && fresh(cb.Repr - old(cb.Repr)) && cb in cb.Repr
    ensures cb.world == Step(old(cb.world), Update(Some(config), born)) && cb.setting.config == FillConfig(config)
  {
    hide Inv, Step, CircuitBreaker.Valid;
    StepKeepsInvariant(cb.world, Update(Some(config), born));
    cb.UpdateSetting(config, born);
    OwnsItself(cb);
  }

  lemma OwnsItself(cb: CircuitBreaker)
    requires cb.Valid()
    ensures cb in cb.Repr
  {
    hide InstancesShow, LimitersShow;
  }

  /** The breaker is in order, under its name, and owns nothing outside the set. */
  ghost predicate Registered(name: string, cb: CircuitBreaker, owned: set<object>)
    reads owned
  {
    cb in owned && cb in cb.Repr && cb.Repr <= owned && cb.name == name && !BlankName(name) && Calls.Coherent(cb)
  }

  /** Each breaker is kept under its own name, and no two share anything. */
  ghost predicate Sound(breakers: map<string, CircuitBreaker>, owned: set<object>)
    reads owned
  {
    && (forall k :: k in breakers ==> Registered(k, breakers[k], owned))
    && (forall j, k :: j in breakers && k in breakers && j != k ==> breakers[j].Repr !! breakers[k].Repr)
  }

  /** The registry without one breaker, which is free to change. */
  lemma Unregister(breakers: map<string, CircuitBreaker>, owned: set<object>, k: string)
    requires Sound(breakers, owned) && k in breakers
    ensures Registered(k, breakers[k], owned) && Sound(breakers - {k}, owned - breakers[k].Repr)
  {
    hide Calls.Coherent;
    var rest := owned - breakers[k].Repr;
    forall j | j in breakers - {k}
      ensures Registered(j, breakers[j], rest)
    {
      assert Registered(j, breakers[j], owned) && breakers[j].Repr !! breakers[k].Repr;
    }
  }

  /** The registry is injective. */
  lemma NamesAreUnique(breakers: map<string, CircuitBreaker>, owned: set<object>)
    requires Sound(breakers, owned)
    ensures forall j, k :: j in breakers && k in breakers && breakers[j] == breakers[k] ==> j == k
  {
    hide Calls.Coherent;
    forall j, k | j in breakers && k in breakers && breakers[j] == breakers[k]
      ensures j == k
    {
      assert Registered(j, breakers[j], owned) && Registered(k, breakers[k], owned);
    }
  }

  lemma Register(breakers: map<string, CircuitBreaker>, owned: set<object>, k: string, cb: CircuitBreaker)
    requires Sound(breakers, owned) && k !in breakers && Registered(k, cb, cb.Repr) && cb.Repr !! owned
    ensures Sound(breakers[k := cb], owned + cb.Repr)
  {
    hide Calls.Coherent;
    var all := breakers[k := cb];
    forall j | j in all
      ensures Registered(j, all[j], owned + cb.Repr)
    {
      if j != k {
        assert Registered(j, breakers[j], owned);
      }
    }
    forall i, j | i in all && j in all && i != j
      ensures all[i].Repr !! all[j].Repr
    {
      if i != k {
        assert Registered(i, breakers[i], owned);
      }
      if j != k {
        assert Registered(j, breakers[j], owned);
      }
    }
  }

  /** The breaker has taken the update. */
  ghost predicate Follows(before: World, cb: CircuitBreaker, config: Option<Config>, born: int)
    reads cb
  {
    config.Some? && cb.world == Step(before, Update(config, born)) && cb.setting.config == FillConfig(config.value)
  }

  predicate AllFit(breakers: map<string, CircuitBreaker>, configs: map<string, Option<Config>>) {
    forall k :: k in configs ==> k in breakers && Acceptable(configs[k])
  }

  class Registry {
    var breakers: map<string, CircuitBreaker>
    ghost var owned: set<object>     // the breakers and everything they own

    ghost predicate Valid()
      reads this, owned
    {
      Sound(breakers, owned) && this !in owned
    }

    constructor ()
      ensures Valid() && breakers == map[]
    {
      breakers, owned := map[], {};
    }

    /** What other callers of Get may do between a look and a store. */
    method OtherGets()
      requires Valid()
      modifies this
      ensures Valid() && Kept() && fresh(owned - old(owned))
    {
    }

    twostate predicate Kept()
      reads this
    {
      forall k :: k in old(breakers) ==> k in breakers && breakers[k] == old(breakers[k])
    }

    /** Get: a registered breaker is returned as it is, whatever the configuration; a blank name is
        never registered; otherwise a new breaker is, unless somebody else was faster. */
    method Get(name: string, config: Option<Config>, born: int) returns (cb: CircuitBreaker?, errors: seq<ConfigError>)
      requires Valid()
      modifies this
      ensures Valid() && Kept()
      ensures cb == null <==> errors != []
      ensures cb == null <==> (BlankName(name) || name !in old(breakers)) && config.Some? && !ValidConfig(config.value)
      ensures BlankName(name) ==> breakers == old(breakers) && (cb != null ==> fresh(cb))
      ensures !BlankName(name) && cb != null ==> name in breakers && breakers[name] == cb
      ensures !BlankName(name) && name in old(breakers) ==> breakers == old(breakers)
    {
      hide Calls.Coherent, Sound, ValidConfig, BlankName;
      if BlankName(name) {
        cb, errors := NewBreaker(name, config, born);
        return;
      }
      if name in breakers {
        return breakers[name], [];
      }
      cb, errors := NewBreaker(name, config, born);
      if errors != [] {
        return;
      }
      OtherGets();
      if name in breakers {
        cb := breakers[name];
      } else {
        Register(breakers, owned, name, cb);
        breakers, owned := breakers[name := cb], owned + cb.Repr;
      }
    }

    /** The first pass of UpdateConfigs: complains about some entry that is not fit, if there is one. */
    method CheckAll(configs: map<string, Option<Config>>) returns (error: Option<UpdateError>)
      ensures error.None? <==> AllFit(breakers, configs)
      ensures error.Some? ==> error.value.name in configs
      ensures error.Some? && error.value.BreakerNotFound? ==> error.value.name !in breakers
      ensures error.Some? && error.value.InvalidConfig? ==> !Acceptable(configs[error.value.name])
    {
      var left := configs.Keys;
      while left != {}
        invariant left <= configs.Keys
        invariant forall k :: k in configs && k !in left ==> k in breakers && Acceptable(configs[k])
        decreases |left|
      {
        var k :| k in left;
        if k !in breakers {
          return Some(BreakerNotFound(k));
        }
        var errors := IsValidConfig(configs[k]);
        if errors != [] {
          return Some(InvalidConfig(k, errors));
        }
        left := left - {k};
      }
      error := None;
    }

    method UpdateNamed(k: string, config: Config, born: int)
      requires Valid() && k in breakers && ValidConfig(config)
      modifies breakers[k], this`owned
      ensures Valid() && breakers == old(breakers)
      ensures Follows(old(breakers[k].world), breakers[k], Some(config), born)
    {
      hide Calls.Coherent, Sound, Step, FillConfig;
      ghost var rest := owned - breakers[k].Repr;
      Unregister(breakers, owned, k);
      UpdateOne(breakers[k], config, born);
      Register(breakers - {k}, rest, k, breakers[k]);
      assert (breakers - {k})[k := breakers[k]] == breakers;
      owned := rest + breakers[k].Repr;
    }

    /** UpdateConfigs changes every named breaker or, if one entry is not fit, none; the maps are gone
        through in any order, and the outcome does not depend on it. */
    method UpdateConfigs(configs: map<string, Option<Config>>, clock: string -> int)
      returns (error: Option<UpdateError>)
      requires Valid()
      modifies breakers.Values, this`owned
      ensures Valid() && breakers == old(breakers)
      ensures error.None? <==> AllFit(breakers, configs)
      ensures error.Some? ==> forall k :: k in breakers ==> unchanged(breakers[k])
      ensures error.None? ==> forall k :: k in breakers ==>
                if k in configs then Follows(old(breakers[k].world), breakers[k], configs[k], clock(k))
                else unchanged(breakers[k])
    {
      hide Calls.Coherent, Sound, Step, FillConfig;
      error := CheckAll(configs);
      if error.None? {
        UpdateAll(configs, clock);
      }
    }

    /** The second pass of UpdateConfigs. */
    method UpdateAll(configs: map<string, Option<Config>>, clock: string -> int)
      requires Valid() && AllFit(breakers, configs)
      modifies breakers.Values, this`owned
      ensures Valid() && breakers == old(breakers)
      ensures forall k :: k in breakers ==>
                if k in configs then Follows(old(breakers[k].world), breakers[k], configs[k], clock(k))
                else unchanged(breakers[k])
    {
      hide Calls.Coherent, Sound, Step, FillConfig;
      NamesAreUnique(breakers, owned);
      var left := configs.Keys;
      while left != {}
        invariant left <= configs.Keys && Valid() && breakers == old(breakers)
        invariant forall k :: k in breakers ==>
                    if k in configs
                      && k !in left then Follows(old(breakers[k].world), breakers[k], configs[k], clock(k))
                    else unchanged(breakers[k])
        decreases |left|
      {
        var k :| k in left;
        UpdateNamed(k, configs[k].value, clock(k));
        left := left - {k};
      }
    }
  }
}
