# Lazy-loading serializer of FOSRestBundle, modelled in Dafny

`FOS\RestBundle\Serializer\Serializer` extends Symfony's base serializer.
It adds a bind-once layer that fetches normalizers and encoders from the
dependency-injection container the first time they are needed. Three tables
are given to the constructor:

- format → encoder service id;
- class name → normalizer service id;
- a list of default normalizer service ids.

`normalizeObject` and `denormalizeObject` look up a normalizer in three
tiers. The first tier is the base serializer's `normalizerCache[class][format]`.
The second is the class map: the mapped service is fetched, registered with
`addNormalizer`, cached and used without a supports check. The third loads
the default normalizers once and falls back to the base serializer's generic
algorithm. `encode`, `decode` and `getEncoder` first call `lazyLoadEncoder`.
That method installs the mapped encoder of a format when none is active and
the container has the service.

The project is in six modules:

- `Wrappers` (`wrappers.dfy`): the `Option` type.
- `Registry` (`registry.dfy`): the container as a map from service id to an
  opaque `Component`, with `Has`, `Get` and `GetAll`.
- `SerializerSpec` (`serializer_spec.dfy`): the serializer as a state machine
  over a `State` value. It holds the tables, the base serializer's normalizer
  list, cache and encoders, the defaults flag, the container and a log of
  every container call. Each log entry says which cache slot, default list or
  encoder format the call was for.
- `LazySerializer` (`serializer.dfy`): the PHP class as a Dafny class. Its
  fields are updated in place, and default loading is a loop. Each method
  is proved to move the object as the function of the same name in
  `SerializerSpec` moves its `Snapshot()`.
- `SerializerProperties` (`serializer_properties.dfy`): what one call does.
- `SerializerTraces` (`serializer_traces.dfy`): properties of every sequence
  of client calls from a freshly constructed serializer. The calls are
  `normalizeObject`, `denormalizeObject`, `encode`, `decode`, `getEncoder` and
  `setContainer`, so the container may be replaced between calls. Each
  lookup call must be answerable by the container that is set when it is
  made (`Enabled`, `Runnable`).

Calls into the base serializer and into normalizers and encoders are not
computed. Their reply is a `Reply` term that names who answered and with
which arguments. For the base serializer's generic algorithms, the reply also
carries the base state it worked on.

In two places the model follows the code rather than a broader reading of
the class's purpose. First, `lazyLoadEncoder` returns a boolean, so "already active" and
"could not be loaded" are both `false`. Second, an id the container does not
know makes `get` throw. The model makes that a precondition: `CanResolve`,
`DefaultsAvailable`, and per call in a sequence, `Enabled`.

## Model

| member | source | states |
|---|---|---|
| `LazySerializer.Serializer.constructor` | Serializer/Serializer.php:50-64 | Only the three tables are stored. No container call is made, nothing is registered or cached, no encoder is active and the defaults flag is false. |
| `LazySerializer.Serializer.SetContainer` | Serializer/Serializer.php:71-74 | Replaces the container and nothing else. |
| `LazySerializer.Serializer.NormalizeObject` | Serializer/Serializer.php:79-97 | The new state and the reply are those of the three-tier lookup `SerializerSpec.NormalizeObject`. The lemmas below state what that lookup does. |
| `LazySerializer.Serializer.DenormalizeObject` | Serializer/Serializer.php:102-119 | As `NormalizeObject`. The cache slot is (class, format), and a null format uses the "" slot. |
| `LazySerializer.Serializer.LoadDefaultNormalizer` | Serializer/Serializer.php:124-133 | The loop registers and logs the default ids one by one, in list order. The end state is `SerializerSpec.LoadDefaultNormalizer` of the old state. |
| `LazySerializer.Serializer.Encode` | Serializer/Serializer.php:138-143 | The state changes as `lazyLoadEncoder` changes it. The base serializer's `encode` is then asked with the same data and format. |
| `LazySerializer.Serializer.Decode` | Serializer/Serializer.php:148-153 | The same, with `decode`. |
| `LazySerializer.Serializer.GetEncoder` | Serializer/Serializer.php:158-163 | The same, with `getEncoder`. |
| `LazySerializer.Serializer.LazyLoadEncoder` | Serializer/Serializer.php:172-184 | The new state and the result are those of `SerializerSpec.LazyLoadEncoder`. |
| `Registry.Container.GetAll` | Serializer/Serializer.php:127-129 | The fetched list has one service per id, and the i-th element is the service of the i-th id. |
| `SerializerSpec.DefaultGets` | Serializer/Serializer.php:127-129 | The log of the default load has one `get` per id, in list order. |
| `SerializerProperties.ResolutionPrecedence` | Serializer/Serializer.php:82-96 | Exactly one tier answers. The cache answers if the slot is cached. Otherwise the class map answers if the class is mapped. Otherwise the generic path answers, and it is the only tier that loads the defaults. No tier changes the encoders, the tables or the container. |
| `SerializerProperties.NormalizeCacheHit` | Serializer/Serializer.php:82-84 | A cached slot is answered by its cached normalizer. The state, including the container log, is unchanged. |
| `SerializerProperties.DenormalizeCacheHit` | Serializer/Serializer.php:104-106 | The same for `denormalizeObject`. |
| `SerializerProperties.NormalizeClassMapped` | Serializer/Serializer.php:86-92 | A class-mapped miss makes exactly one `get`, with the mapped id. It appends that normalizer once and caches it under the slot, and the reply comes from that normalizer. The defaults flag and the encoders are unchanged. |
| `SerializerProperties.DenormalizeClassMapped` | Serializer/Serializer.php:108-114 | The same for `denormalizeObject`. |
| `SerializerProperties.RepeatedLookupHitsCache` | Serializer/Serializer.php:86-92 | After a class-mapped miss, a later lookup of the same slot is a cache hit with the same normalizer and changes nothing. This holds for another object of the class, another property filter, and a `denormalizeObject` with an equal format key. |
| `SerializerProperties.NormalizeGenericTier` | Serializer/Serializer.php:94-96 | With no cache entry and no mapping, the defaults are loaded and the cache is untouched. The flag ends set exactly when it was set or the list is non-empty. The base serializer answers on the resulting state. |
| `SerializerProperties.DenormalizeGenericTier` | Serializer/Serializer.php:116-118 | The same for `denormalizeObject`. |
| `SerializerProperties.LoadDefaultNormalizerOneShot` | Serializer/Serializer.php:124-133 | The first load of a non-empty list appends the services of all ids in list order, logs their `get`s and sets the flag. An empty list or a set flag changes nothing, and loading twice is the same as loading once. |
| `SerializerProperties.LazyLoadEncoderOutcomes` | Serializer/Serializer.php:172-184 | An active encoder gives false and no change. A mapped format whose service the container has gets that encoder and gives true. Otherwise the result is false and only the `has` probe is logged. An unmapped format never reaches the container. |
| `SerializerProperties.LazyLoadEncoderIdempotent` | Serializer/Serializer.php:174-183 | A second call for the same format returns false and changes nothing but the log. After a successful first call, it changes nothing at all. |
| `SerializerProperties.EncoderEntryPoints` | Serializer/Serializer.php:138-163 | `encode`, `decode` and `getEncoder` leave the state as `lazyLoadEncoder` leaves it. No other format's encoder and no normalizer state changes, and the base serializer gets the same arguments. |
| `SerializerProperties.LazyEncodeMatchesPreregistered` | Serializer/Serializer.php:138-153 | Encoding or decoding with a lazily loaded encoder gives the same reply as the same call on the serializer that had that encoder registered beforehand. |
| `SerializerProperties.GenericTierAbortsAsWritten` | Serializer/Serializer.php:94 | The lookup as written fails exactly where the intended lookup takes the generic tier, and agrees with it everywhere else. |
| `SerializerProperties.GenericTierAbortsAsWrittenExample` | Serializer/Serializer.php:116 | With no class map and one default, the lookup as written fails, while the intended one registers that default. |
| `SerializerTraces.Apply` | Serializer/Serializer.php:59-184 | No call changes the three tables. Only `setContainer` replaces the container, and then with the one it is given. |
| `SerializerTraces.RunKeepsFetchBound` | Serializer/Serializer.php:79-184 | Over every sequence of calls, `setContainer` included, the fetch counts stay bounded. A slot has at most one `get` if cached and none otherwise. The defaults have the whole list if the flag is set and nothing otherwise. An encoder format has at most one `get` if active and none otherwise. |
| `SerializerTraces.LoadDefaultNormalizerKeepsFetchBound` | Serializer/Serializer.php:124-133 | Loading the defaults adds one `get` per default id to the log, the first time only, and none for any slot or encoder; it keeps the fetch bound. |
| `SerializerTraces.ResolveKeepsFetchBound` | Serializer/Serializer.php:82-96 | A cache hit adds no `get`. A class-mapped miss, which happens only while the slot is uncached, adds exactly one `get`, for that slot. The generic tier adds what loading the defaults adds. Every tier keeps the fetch bound. |
| `SerializerTraces.LazyLoadEncoderKeepsFetchBound` | Serializer/Serializer.php:172-184 | `lazyLoadEncoder` adds one `get`, for its own format, exactly when that format had no active encoder, is mapped and the container has the service, and none otherwise. It keeps the fetch bound. |
| `SerializerTraces.ApplyKeepsFetchBound` | Serializer/Serializer.php:79-184 | Every public operation keeps the fetch bound, `setContainer` included. |
| `SerializerTraces.ApplyGrows` | Serializer/Serializer.php:79-184 | One call of any public operation, `setContainer` included, never changes the tables and never removes or replaces what is registered, cached or logged. |
| `SerializerTraces.NormalizerFetchedAtMostOncePerSlot` | Serializer/Serializer.php:86-92 | From a freshly constructed serializer, whatever the calls (containers replaced at any point included), each (class, format) slot causes at most one `get`. |
| `SerializerTraces.DefaultNormalizersFetchedAtMostOnce` | Serializer/Serializer.php:124-133 | From a freshly constructed serializer, whatever the calls (containers replaced at any point included), the default ids are fetched all together once or not at all. |
| `SerializerTraces.EncoderFetchedAtMostOncePerFormat` | Serializer/Serializer.php:172-184 | From a freshly constructed serializer, whatever the calls (containers replaced at any point included), each format's encoder is fetched at most once. |
| `SerializerTraces.RunGrows` | Serializer/Serializer.php:79-184 | Over every sequence of calls, `setContainer` included, the tables never change, and the log and the normalizer list only grow at the end. Cache entries and encoders are never removed or replaced, and the defaults flag is never reset. |

## Findings

| source | as written | input that shows it | evidently intended | confidence | as-written member | corrected member |
|---|---|---|---|---|---|---|
| Serializer/Serializer.php:94 | `$this-loadDefaultNormalizer();` (also line 116) subtracts the result of calling a global function `loadDefaultNormalizer`. No such function exists, so PHP stops with a fatal error. | Class map empty, defaults `["generic"]`, and `normalizeObject` or `denormalizeObject` on any class with no cache entry. | `$this->loadDefaultNormalizer();`, which loads the defaults once and falls back to the base serializer. | high (not executed) | `SerializerProperties.GenericTierAbortsAsWritten` (about `SerializerSpec.ResolveAsWritten`) | `SerializerProperties.NormalizeGenericTier` (about `SerializerSpec.Resolve`, which the class follows) |

## Left out

- Normalizing, denormalizing, encoding and decoding themselves are not modelled. The same goes for the base serializer's supports loop over its normalizers and its own write to `normalizerCache` when that loop finds a normalizer. Replies are terms that name the collaborator and its arguments, and the next state does not include those base-serializer writes.
- Exceptions are modelled as preconditions. A `get` for an id the container does not know throws in PHP. If that happens part-way through the default list, the normalizers fetched so far stay registered and the flag stays false; the model does not cover that partial load. The "no encoder" and "unsupported type" errors of the base serializer are not modelled either.
- LazySerializer.Serializer.LazyLoadEncoder: before `setContainer` is called, and after `setContainer(null)`, PHP fails on the null container. The model starts with an empty container, so `has` answers false and no encoder is loaded.
- `get_class` is left out: an object carries its class name.
- The format of `normalizeObject` is a string. The null format of `denormalizeObject` is `None`, and it shares the `""` cache slot as PHP's array-key coercion makes it.
- The container hands out one instance per service id, as Symfony's shared services do. A container that builds a fresh instance on every `get` is not modelled.
- The base serializer's own public API is not modelled, so clients cannot add or remove normalizers and encoders through it. The trace theorems cover the public calls of this class, `setContainer` included, but no call into the base serializer's own API.
- Concurrency is left out: the class is single-threaded and has no locking.
