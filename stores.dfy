/**
  The store factory: rebuilds a store from its configuration record by
  dispatching on `canonical_name` through a fixed alias table.
*/
module Stores {
  import opened Wrappers
  import opened Config

  /** The three store classes the factory knows. */
  datatype StoreKind = Redis | Cached | Memory

  /** The class name of each store kind. */
  function ClassName(k: StoreKind): (name: string) {
    match k
    case Redis => "RedisStore"
    case Cached => "CachedStore"
    case Memory => "MemoryStore"
  }

  /** The alias table: the name a configuration record uses for each store class. */
  const StoreAliases: map<string, StoreKind> :=
    map["RedisStore" := Redis, "CachedStore" := Cached, "MemoryStore" := Memory]

  /** A constructed store: the class chosen and the keyword arguments its constructor received. */
  datatype Store = Store(kind: StoreKind, kwargs: Config)

  /**
    The failures of the factory: the record has no `canonical_name` (the lookup
    fails before anything is built), or names no known class (the message
    quotes the offending value).
  */
  datatype StoreError = MissingKey(key: string) | UnknownType(message: string)

  const UnknownTypePrefix: string := "Unknown search type: "

  /** True when `config` names one of the store classes of the alias table. */
  predicate NamesKnownStore(config: Config) {
    CanonicalNameKey in config && config[CanonicalNameKey].Str? && config[CanonicalNameKey].s in StoreAliases
  }

  /**
    Creates a store from its configuration record: the class the alias table
    maps `canonical_name` to, given every other field of the record unchanged.
    The caller's record is a value and is never modified.
  */
  function MakeStore(config: Config): (r: Result<Store, StoreError>)
    ensures r.Ok? <==> NamesKnownStore(config)
    ensures r.Ok? ==> r.value.kind == StoreAliases[config[CanonicalNameKey].s]
    ensures r.Ok? ==> CanonicalNameKey !in r.value.kwargs
    ensures r.Ok? ==> forall k :: k in config && k != CanonicalNameKey ==> k in r.value.kwargs && r.value.kwargs[k] == config[k]
    ensures r.Ok? ==> r.value.kwargs.Keys <= config.Keys
    ensures CanonicalNameKey !in config ==> r == Err(MissingKey(CanonicalNameKey))
    ensures CanonicalNameKey in config && r.Err? ==> r.error.UnknownType?
  {
    if CanonicalNameKey !in config then
      Err(MissingKey(CanonicalNameKey))
    else
      var v := config[CanonicalNameKey];
      if v.Str? && v.s in StoreAliases then
        Ok(Store(StoreAliases[v.s], Untagged(config)))
      else
        Err(UnknownType(UnknownTypePrefix + Show(v)))
  }

  /**
    Every alias is its class's own name, and every store class has an alias,
    so dispatching on a class name selects that same class.
  */
  lemma AliasesAreClassNames()
    ensures forall name :: name in StoreAliases ==> ClassName(StoreAliases[name]) == name
    ensures forall k: StoreKind :: ClassName(k) in StoreAliases && StoreAliases[ClassName(k)] == k
  {
  }

  /**
    `make_store` is the reverse of producing a record: tagging a store's
    constructor fields with its class name and handing the record back
    rebuilds that class from exactly those fields.
  */
  lemma MakeStoreInvertsConfig(k: StoreKind, fields: Config)
    requires CanonicalNameKey !in fields
    ensures MakeStore(Tagged(ClassName(k), fields)) == Ok(Store(k, fields))
  {
  }

  /**
    Conversely, an accepted record is exactly the built store's fields tagged
    with its class name: nothing in the record is lost or altered.
  */
  lemma MakeStoreLosesNothing(config: Config)
    requires MakeStore(config).Ok?
    ensures var st := MakeStore(config).value;
      config == Tagged(ClassName(st.kind), st.kwargs)
  {
  }

  /**
    A rejected `canonical_name` is quoted in the error message: a string is
    quoted verbatim, an integer as its canonical decimal literal, which reads
    back as that integer.
  */
  lemma UnknownTypeNamesValue(config: Config)
    requires CanonicalNameKey in config && !NamesKnownStore(config)
    ensures MakeStore(config).Err? && MakeStore(config).error.UnknownType?
    ensures var msg := MakeStore(config).error.message;
      var v := config[CanonicalNameKey];
      && |UnknownTypePrefix| <= |msg|
      && msg[..|UnknownTypePrefix|] == UnknownTypePrefix
      && (v.Str? ==> msg[|UnknownTypePrefix|..] == v.s)
      && (v.Int? ==> IsCanonicalDecimal(msg[|UnknownTypePrefix|..]) && ParseInt(msg[|UnknownTypePrefix|..]) == Some(v.i))
  {
  }
}
