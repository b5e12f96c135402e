# Similarity search index: configuration and store factory

This project models the configuration layer of a nearest-neighbour search
package, in Dafny.

- **The abstract search index (`Search`)** canonicalises the distance it is given. It then keeps `dim`, `verbose` and a `name`, and the name defaults to the concrete class name. It reports its configuration as a flat record of exactly five fields. The field `canonical_name` always names the concrete class, even when the instance has a custom name.
- **Backend operations.** Every backend implements add, batch add, lookup, batch lookup, save, load, reset and is-built. Here these are only signatures with their default arguments: `verbose=1` for adding and `k=5` for looking up. Reset promises one thing: the instance is left as if it were just created empty.
- **The store factory (`make_store`)** looks up `canonical_name` in a fixed table of three aliases (`RedisStore`, `CachedStore`, `MemoryStore`). On a hit it builds that class from every other field of the record. It fails when the key is missing. It also fails when the value is not an alias, and then the error message quotes the value.

The design intent, stated in the factory's docstring, is that the factory is the reverse of producing a configuration record. The model proves this both ways for stores. For a search instance, it proves that binding the record's fields back to the constructor gives the same settings, provided the distance canonicaliser maps a distance's name back to that distance.

Layout:

- `wrappers.dfy`: `Option` and `Result`.
- `config.dfy`: configuration records and the `canonical_name` discriminator. It also has Python's `str()` of a field value, which the error message uses, with the reading that inverts it.
- `search.dfy`: the `Search` class (constructor, `GetConfig`, `Reset`), the pure settings and keyword-binding functions, and the `Request` datatype of the abstract backend operations with their defaults. Reset is modelled by the class method instead.
- `stores.dfy`: the alias table, `MakeStore`, and the round-trip lemmas.

Configuration records are immutable `map<string, Value>` values. Removing `canonical_name` therefore cannot affect the caller's record, just as the source deletes it only from a private copy. The concrete backend is a tag, `Backend(className)`, and the class name is all that `canonical_name` reports. A built store is the pair of its class and the keyword arguments its constructor received.

Behaviour of the source worth noting:

- The store factory raises a `ValueError` whose message reads "Unknown search type: " followed by the value, although the factory builds stores.
- A missing `canonical_name` fails at the lookup as a missing key (`MissingKey`).
- `reset` is abstract, and its doc line says only that the instance is left as if just created empty. The model reads this as keeping the whole configuration, `verbose` included, as well as distance, dim and name.
- The search constructor accepts and ignores extra keyword arguments, so unknown keys are not rejected. The one exception is `self`, which Python refuses as a second value for the instance parameter.

## Model

| member | source | states |
|---|---|---|
| `Config.Untagged` | tensorflow_similarity/stores/utils.py:44-45 | The copy with `canonical_name` deleted has every other key of the record, each with the same value, and nothing else. |
| `Config.Tagged` | tensorflow_similarity/search/search.py:120-126 | Adding the discriminator to a record of fields gives the fields plus `canonical_name` set to the class name. Removing it again gives back exactly those fields. |
| `Config.TaggedUntagged` | tensorflow_similarity/stores/utils.py:43-45 | A record is fully determined by its `canonical_name` and the fields left after deleting it. |
| `Config.Show` | tensorflow_similarity/stores/utils.py:48 | The f-string renders a string value verbatim. It renders an integer as a canonical decimal literal (an optional minus sign, then digits without a leading zero) that reads back as that integer. |
| `Config.ParseShowNat` | tensorflow_similarity/stores/utils.py:48 | The decimal rendering of a natural number reads back as that number. |
| `Config.ParseShowInt` | tensorflow_similarity/stores/utils.py:48 | The rendering of any integer, sign included, reads back as that integer. |
| `Search.BindInit` | tensorflow_similarity/search/search.py:25-31 | Binding a keyword record to the constructor succeeds exactly when `distance` and `dim` are present and every value is well typed. `verbose` then defaults to 0 and `name` to none. A `self` key is refused as a duplicate argument before anything else. Other keys are absorbed. A missing `distance`, or else a missing `dim`, is reported as that missing argument. |
| `Search.DefaultArguments` | tensorflow_similarity/search/search.py:48-92 | The omitted `verbose` of add and batch add is 1. The omitted `k` of lookup and batch lookup is 5. |
| `Search.InitDefaults` | tensorflow_similarity/search/search.py:28-46 | Without `verbose` and `name`, construction sets `verbose` to 0 and the name to the concrete class name. |
| `Search.Search.constructor` | tensorflow_similarity/search/search.py:25-46 | The instance's distance is the canonicalised distance, and `dim` and `verbose` are the arguments. The name is the given name, or else the class name. The instance starts empty. |
| `Search.Search.GetConfig` | tensorflow_similarity/search/search.py:114-128 | The record has exactly the keys `distance`, `dim`, `verbose`, `name` and `canonical_name`. `canonical_name` is the class name. The other four fields bind back to the constructor as the instance's distance name, dim, verbose and name. |
| `Search.Search.Reset` | tensorflow_similarity/search/search.py:110-112 | After reset the instance holds no content, as when it was just created. Its settings, and hence its configuration record, are unchanged. |
| `Search.Search.RebuildFromConfig` | tensorflow_similarity/stores/utils.py:30-34 | Feeding the configuration record back to the constructor of the class it names reproduces the instance's settings. This holds when the canonicaliser maps a canonical distance's name back to that distance. |
| `Search.Search.CanonicalNameIsClassName` | tensorflow_similarity/search/search.py:124-125 | `canonical_name` stays the class name, so when the instance's name is not the class name, the record's `name` and `canonical_name` differ. |
| `Search.ConfigIgnoresContent` | tensorflow_similarity/search/search.py:114-128 | Two instances with the same settings report the same record, whatever content they hold. |
| `Stores.MakeStore` | tensorflow_similarity/stores/utils.py:30-50 | A store is built exactly when `canonical_name` is an alias, and its class is the one the alias maps to. It receives every other field unchanged and not `canonical_name`. A missing key fails as a missing key. Any other rejection is an unknown-type error. |
| `Stores.AliasesAreClassNames` | tensorflow_similarity/stores/utils.py:23-27 | Every alias is its class's own name, and every store class has one. |
| `Stores.MakeStoreInvertsConfig` | tensorflow_similarity/stores/utils.py:33-46 | A store's fields tagged with its class name rebuild that class from exactly those fields. |
| `Stores.MakeStoreLosesNothing` | tensorflow_similarity/stores/utils.py:43-46 | An accepted record equals the built store's fields tagged with its class name. |
| `Stores.UnknownTypeNamesValue` | tensorflow_similarity/stores/utils.py:47-48 | A rejected `canonical_name` follows the fixed prefix in the error message. A string appears verbatim. An integer appears as its canonical decimal literal and reads back as itself. |

## Left out

- The bodies of add, batch add, lookup, batch lookup, save, load and is-built are abstract in the source. They are floating-point k-nearest-neighbour search and file I/O. Only their signatures and defaults are modelled, as `Search.Request`. No ordering, tie-breaking or dimension-check contract is stated for them.
- The content of a search instance (`Search.Search.entries`) is filled only by the backends' add operations, which are not part of this model. Only reset's effect on it is modelled.
- The distance canonicaliser and the distance type are not part of this model. The canonicaliser is a parameter of the constructor, and its failure on an unknown name is not modelled. A distance is a value with a name.
- `Search.BindInit`: Python binds values of any type. The model's fields are typed, so a record whose `distance`, `dim`, `verbose` or `name` has the wrong type is refused with `IllTyped` instead of being stored.
- Config values are strings or integers only. Other Python values (floats, `None`, nested structures) are not modelled.
- The store classes' constructors are not part of this model, and one of them is a network client. A built store records only which class was chosen and the keyword arguments it received. A constructor rejecting unexpected keyword arguments is not modelled.
- Image augmentation helpers are thin wrappers over external image libraries and are not part of this model.
- The `**kwargs` passthrough and tensor typing carry no behaviour in the modelled code.
