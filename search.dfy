/**
  The abstract nearest-neighbour search index: the configuration state every
  backend shares, its configuration record, and the signatures (with their
  default arguments) of the operations each backend implements.
*/
module Search {
  import opened Wrappers
  import opened Config

  /** An embedding vector; the index never computes on it in this model. */
  type Embedding = seq<real>

  /** A canonical distance. The index only ever reads its name. */
  datatype Distance = Distance(name: string)

  /** What a caller may pass as `distance`: the name of a registered metric or a distance object. */
  datatype DistanceSpec = Named(name: string) | Given(distance: Distance)

  /** The concrete backend class an instance belongs to, identified by its class name. */
  datatype Backend = Backend(className: string)

  /** The configuration state that construction sets up. */
  datatype Settings = Settings(backend: Backend, distance: Distance, dim: int, verbose: int, name: string)

  /** The parameters of the constructor, with the source's defaults (`verbose=0`, `name=None`). */
  datatype InitArgs = InitArgs(distance: DistanceSpec, dim: int, verbose: int := 0, name: Option<string> := None)

  /** The five keys of a search configuration record. */
  const SearchConfigKeys: set<string> := {"distance", "dim", "verbose", "name", CanonicalNameKey}

  /**
    The settings an instance of `backend` receives from `args`; `canonicalize`
    stands for the distance canonicaliser, which is not part of this model.
  */
  function Init(backend: Backend, canonicalize: DistanceSpec -> Distance, args: InitArgs): (s: Settings) {
    Settings(backend, canonicalize(args.distance), args.dim, args.verbose,
             if args.name.Some? then args.name.value else backend.className)
  }

  /** Why a keyword record cannot be bound to the constructor's parameters. */
  datatype BindError = DuplicateArgument(param: string) | MissingArgument(param: string) | IllTyped(param: string)

  /**
    Binds a keyword record to the constructor's parameters, as a call
    `cls(**kwargs)` does. A `self` key collides with the instance, which is
    bound positionally, and is refused before anything else; `distance` and
    `dim` are required; `verbose` and `name` fall back to their defaults; any
    other key is absorbed by `**kwargs`.
  */
  function BindInit(kwargs: Config): (r: Result<InitArgs, BindError>)
    ensures r.Ok? <==>
      && "self" !in kwargs
      && "distance" in kwargs && kwargs["distance"].Str?
      && "dim" in kwargs && kwargs["dim"].Int?
      && ("verbose" in kwargs ==> kwargs["verbose"].Int?)
      && ("name" in kwargs ==> kwargs["name"].Str?)
    ensures "self" in kwargs ==> r == Err(DuplicateArgument("self"))
    ensures "self" !in kwargs && "distance" !in kwargs ==> r == Err(MissingArgument("distance"))
    ensures "self" !in kwargs && "distance" in kwargs && "dim" !in kwargs ==> r == Err(MissingArgument("dim"))
    ensures r.Ok? ==>
      && r.value.distance == Named(kwargs["distance"].s)
      && r.value.dim == kwargs["dim"].i
      && r.value.verbose == (if "verbose" in kwargs then kwargs["verbose"].i else 0)
      && r.value.name == (if "name" in kwargs then Some(kwargs["name"].s) else None)
  {
    if "self" in kwargs then Err(DuplicateArgument("self"))
    else if "distance" !in kwargs then Err(MissingArgument("distance"))
    else if "dim" !in kwargs then Err(MissingArgument("dim"))
    else if !kwargs["distance"].Str? then Err(IllTyped("distance"))
    else if !kwargs["dim"].Int? then Err(IllTyped("dim"))
    else if "verbose" in kwargs && !kwargs["verbose"].Int? then Err(IllTyped("verbose"))
    else if "name" in kwargs && !kwargs["name"].Str? then Err(IllTyped("name"))
    else
      var verbose := if "verbose" in kwargs then kwargs["verbose"].i else 0;
      var name := if "name" in kwargs then Some(kwargs["name"].s) else None;
      Ok(InitArgs(Named(kwargs["distance"].s), kwargs["dim"].i, verbose, name))
  }

  /**
    The operations a backend implements; the base class declares them abstract.
    Each constructor carries the operation's arguments, with the source's
    default values for the ones a caller may omit. Reset, whose documented
    effect is known, is the method `Search.Reset` instead.
  */
  datatype Request =
    | Add(embedding: Embedding, idx: int, verbose: int := 1)
    | BatchAdd(embeddings: seq<Embedding>, idxs: seq<int>, verbose: int := 1)
    | Lookup(embedding: Embedding, k: int := 5)
    | BatchLookup(embeddings: seq<Embedding>, k: int := 5)
    | Save(path: string)
    | Load(path: string)
    | IsBuilt

  /** Omitted arguments default to `verbose=1` when adding and `k=5` when looking up. */
  lemma DefaultArguments(e: Embedding, es: seq<Embedding>, idx: int, idxs: seq<int>)
    ensures Add(e, idx).verbose == 1 && BatchAdd(es, idxs).verbose == 1
    ensures Lookup(e).k == 5 && BatchLookup(es).k == 5
  {
  }

  /** Construction defaults: `verbose` is 0 and the name is the backend's class name. */
  lemma InitDefaults(backend: Backend, canonicalize: DistanceSpec -> Distance, distance: DistanceSpec, dim: int)
    ensures Init(backend, canonicalize, InitArgs(distance, dim)).verbose == 0
    ensures Init(backend, canonicalize, InitArgs(distance, dim)).name == backend.className
  {
  }

  /** An instance of a search backend: its configuration and its indexed content. */
  class Search {
    /** The concrete class of the instance; it never changes. */
    const backend: Backend
    var distance: Distance
    var dim: int
    var verbose: int
    var name: string
    /**
      The backend-private indexed content, as (id, embedding) pairs. The
      backends' add and batch_add fill it; they are not part of this model.
    */
    var entries: seq<(int, Embedding)>

    /** The configuration state of the instance. */
    function Current(): (s: Settings)
      reads this
    {
      Settings(backend, distance, dim, verbose, name)
    }

    /** The instance holds no indexed content, as when it was just created. */
    predicate Empty()
      reads this
    {
      entries == []
    }

    constructor (backend: Backend, canonicalize: DistanceSpec -> Distance, distance: DistanceSpec,
                 dim: int, verbose: int := 0, name: Option<string> := None)
      ensures this.backend == backend
      ensures this.distance == canonicalize(distance)
      ensures this.dim == dim && this.verbose == verbose
      ensures name.Some? ==> this.name == name.value
      ensures name.None? ==> this.name == backend.className
      ensures Current() == Init(backend, canonicalize, InitArgs(distance, dim, verbose, name))
      ensures Empty()
    {
      this.backend := backend;
      this.distance := canonicalize(distance);
      this.dim := dim;
      this.verbose := verbose;
      this.name := if name.Some? then name.value else backend.className;
      this.entries := [];
    }

    /**
      The configuration record of the instance. Its keys are exactly the five
      of `SearchConfigKeys`; `canonical_name` is the class name whatever the
      instance's own name is; and the other four fields bind back to the
      constructor as the instance's own distance name, dim, verbose and name.
    */
    function GetConfig(): (c: Config)
      reads this
      ensures c.Keys == SearchConfigKeys
      ensures c[CanonicalNameKey] == Str(backend.className)
      ensures BindInit(Untagged(c)) == Ok(InitArgs(Named(distance.name), dim, verbose, Some(name)))
    {
      Tagged(backend.className, map[
        "distance" := Str(distance.name),
        "dim" := Int(dim),
        "verbose" := Int(verbose),
        "name" := Str(name)
      ])
    }

    /** Removes all indexed content, as if the instance were just created empty. */
    method Reset()
      modifies this`entries
      ensures Empty()
      ensures Current() == old(Current())
      ensures GetConfig() == old(GetConfig())
    {
      entries := [];
    }

    /**
      Rebuilding from the configuration record gives back the same instance
      settings: binding the record's fields to the constructor of the class
      it names reproduces them, provided the canonicaliser maps a canonical
      distance's name back to that distance.
    */
    lemma RebuildFromConfig(canonicalize: DistanceSpec -> Distance)
      requires canonicalize(Named(distance.name)) == distance
      ensures BindInit(Untagged(GetConfig())).Ok?
      ensures Init(backend, canonicalize, BindInit(Untagged(GetConfig())).value) == Current()
    {
    }

    /** A custom name never changes `canonical_name`, so the two fields can differ. */
    lemma CanonicalNameIsClassName()
      ensures name != backend.className ==> GetConfig()["name"] != GetConfig()[CanonicalNameKey]
    {
    }
  }

  /** The configuration record depends on the settings only, never on indexed content. */
  lemma ConfigIgnoresContent(a: Search, b: Search)
    requires a.Current() == b.Current()
    ensures a.GetConfig() == b.GetConfig()
  {
  }
}
