/**
 * Properties of every sequence of client calls on one serializer, `setContainer`
 * included, whose `get`s the container of the moment can answer: the container is
 * asked for a class-mapped normalizer at most once per (class, format) slot,
 * for the default normalizers at most once as a batch, and for an encoder at
 * most once per format; and what the serializer has registered or cached is
 * never dropped or replaced.
 */
module SerializerTraces {
  import opened Wrappers
  import opened Registry
  import opened SerializerSpec

  /** A call a client makes on the serializer. */
  datatype Call =
    | NormalizeCall(obj: Object, format: string, properties: Properties)
    | DenormalizeCall(data: Data, cls: string, dformat: Option<string>)
    | EncodeCall(data: Data, format: string)
    | DecodeCall(data: Data, format: string)
    | GetEncoderCall(format: string)
    | SetContainerCall(c: Container)

  /** The call makes no `get` the container cannot answer (PHP would throw there). */
  predicate Enabled(s: State, call: Call) {
    match call
    case NormalizeCall(obj, format, _) => CanResolve(s, obj.cls, format)
    case DenormalizeCall(_, cls, dformat) => CanResolve(s, cls, FormatKey(dformat))
    case _ => true
  }

  /** One call: the tables are never changed, and only `setContainer` replaces the container. */
  function Apply(s: State, call: Call): (t: State)
    requires Enabled(s, call)
    ensures t.config == s.config
    ensures t.container == if call.SetContainerCall? then call.c else s.container
  {
    match call
    case NormalizeCall(obj, format, properties) => NormalizeObject(s, obj, format, properties).next
    case DenormalizeCall(data, cls, dformat) => DenormalizeObject(s, data, cls, dformat).next
    case EncodeCall(data, format) => Encode(s, data, format).next
    case DecodeCall(data, format) => Decode(s, data, format).next
    case GetEncoderCall(format) => GetEncoder(s, format).next
    case SetContainerCall(c) => SetContainer(s, c)
  }

  /** Every call is enabled in the state the calls before it leave. */
  predicate Runnable(s: State, calls: seq<Call>)
    decreases |calls|
  {
    calls == [] || (Enabled(s, calls[0]) && Runnable(Apply(s, calls[0]), calls[1..]))
  }

  /** The calls, one after the other. */
  function Run(s: State, calls: seq<Call>): State
    requires Runnable(s, calls)
    decreases |calls|
  {
    if calls == [] then s else Run(Apply(s, calls[0]), calls[1..])
  }

  function Tally(call: ContainerCall, purpose: Purpose): nat {
    if call.GetCall? && call.purpose == purpose then 1 else 0
  }

  /** The number of `get` calls in `log` made for `purpose`. */
  function Gets(log: seq<ContainerCall>, purpose: Purpose): nat {
    if log == [] then 0 else Gets(log[..|log| - 1], purpose) + Tally(log[|log| - 1], purpose)
  }

  lemma GetsSnoc(log: seq<ContainerCall>, call: ContainerCall, purpose: Purpose)
    ensures Gets(log + [call], purpose) == Gets(log, purpose) + Tally(call, purpose)
  {
    assert (log + [call])[..|log|] == log;
  }

  lemma {:induction false} GetsAppend(a: seq<ContainerCall>, b: seq<ContainerCall>, purpose: Purpose)
    ensures Gets(a + b, purpose) == Gets(a, purpose) + Gets(b, purpose)
  {
    if b == [] {
      assert a + b == a;
    } else {
      var front := b[..|b| - 1];
      GetsAppend(a, front, purpose);
      assert a + b == (a + front) + [b[|b| - 1]];
      GetsSnoc(a + front, b[|b| - 1], purpose);
      assert b == front + [b[|b| - 1]];
      GetsSnoc(front, b[|b| - 1], purpose);
    }
  }

  /** Loading the defaults logs one `get` per default id, and none for any other purpose. */
  lemma {:induction false} GetsDefaults(ids: seq<string>, purpose: Purpose)
    ensures Gets(DefaultGets(ids), purpose) == if purpose == ForDefaults then |ids| else 0
  {
    if ids != [] {
      var front := ids[..|ids| - 1];
      GetsDefaults(front, purpose);
      GetsSnoc(DefaultGets(front), GetCall(ids[|ids| - 1], ForDefaults), purpose);
    }
  }

  /**
   * The fetch counts a state can have: at most one `get` per cached slot and
   * none for an uncached one, the whole default list or nothing, and at most
   * one `get` per active encoder format and none for an inactive one.
   */
  ghost predicate FetchBound(s: State) {
    && (forall slot: CacheKey :: Gets(s.log, ForCacheSlot(slot)) <= if slot in s.base.normalizerCache then 1 else 0)
    && Gets(s.log, ForDefaults) == (if s.defaultNormalizersLoaded then |s.config.defaultNormalizers| else 0)
    && (forall format: string :: Gets(s.log, ForEncoder(format)) <= if format in s.base.encoders then 1 else 0)
  }

  /** Loading the defaults adds one `get` per default id, the first time only, and none for any slot or encoder. */
  lemma LoadDefaultNormalizerKeepsFetchBound(s: State)
    requires DefaultsAvailable(s) && FetchBound(s)
    ensures forall p: Purpose :: (Gets(LoadDefaultNormalizer(s).log, p) ==
          Gets(s.log, p) + (if !s.defaultNormalizersLoaded && p == ForDefaults then |s.config.defaultNormalizers| else 0))
    ensures FetchBound(LoadDefaultNormalizer(s))
  {
    var ids := s.config.defaultNormalizers;
    if !s.defaultNormalizersLoaded && |ids| > 0 {
      var t := LoadDefaultNormalizer(s);
      forall p: Purpose ensures Gets(t.log, p) == Gets(s.log, p) + (if p == ForDefaults then |ids| else 0) {
        GetsAppend(s.log, DefaultGets(ids), p);
        GetsDefaults(ids, p);
      }
    }
  }

  /**
   * A lookup adds no `get` on a cache hit, one `get` for its own slot on a
   * class-mapped miss, and on the generic tier what loading the defaults adds.
   */
  lemma ResolveKeepsFetchBound(s: State, cls: string, format: string)
    requires CanResolve(s, cls, format) && FetchBound(s)
    ensures forall p: Purpose :: (Gets(Resolve(s, cls, format).next.log, p) ==
          Gets(s.log, p) +
          if (cls, format) in s.base.normalizerCache then 0
          else if cls in s.config.normalizerClassMap then (if p == ForCacheSlot((cls, format)) then 1 else 0)
          else if !s.defaultNormalizersLoaded && p == ForDefaults then |s.config.defaultNormalizers|
          else 0)
    ensures FetchBound(Resolve(s, cls, format).next)
  {
    var slot := (cls, format);
    if slot in s.base.normalizerCache {
    } else if cls in s.config.normalizerClassMap {
      var id := s.config.normalizerClassMap[cls];
      var t := Resolve(s, cls, format).next;
      forall p: Purpose ensures Gets(t.log, p) == Gets(s.log, p) + (if p == ForCacheSlot(slot) then 1 else 0) {
        GetsSnoc(s.log, GetCall(id, ForCacheSlot(slot)), p);
      }
    } else {
      LoadDefaultNormalizerKeepsFetchBound(s);
    }
  }

  /**
   * `lazyLoadEncoder` adds one `get`, for its own format, exactly when that
   * format had no active encoder, is mapped and the container has the service.
   */
  lemma LazyLoadEncoderKeepsFetchBound(s: State, format: string)
    requires FetchBound(s)
    ensures forall p: Purpose :: (Gets(LazyLoadEncoder(s, format).next.log, p) ==
          Gets(s.log, p) +
          if && p == ForEncoder(format) && format !in s.base.encoders && format in s.config.encoderFormatMap
             && s.container.Has(s.config.encoderFormatMap[format])
          then 1 else 0)
    ensures FetchBound(LazyLoadEncoder(s, format).next)
  {
    if format !in s.base.encoders && format in s.config.encoderFormatMap {
      var id := s.config.encoderFormatMap[format];
      var probed := s.log + [HasCall(id)];
      var t := LazyLoadEncoder(s, format).next;
      forall p: Purpose
        ensures Gets(t.log, p) == Gets(s.log, p) + (if t.log != probed && p == ForEncoder(format) then 1 else 0)
      {
        GetsSnoc(s.log, HasCall(id), p);
        if s.container.Has(id) {
          GetsSnoc(probed, GetCall(id, ForEncoder(format)), p);
        }
      }
    }
  }

  lemma ApplyKeepsFetchBound(s: State, call: Call)
    requires Enabled(s, call) && FetchBound(s)
    ensures FetchBound(Apply(s, call))
  {
    match call
    case NormalizeCall(obj, format, _) => ResolveKeepsFetchBound(s, obj.cls, format);
    case DenormalizeCall(_, cls, dformat) => ResolveKeepsFetchBound(s, cls, FormatKey(dformat));
    case EncodeCall(_, format) => LazyLoadEncoderKeepsFetchBound(s, format);
    case DecodeCall(_, format) => LazyLoadEncoderKeepsFetchBound(s, format);
    case GetEncoderCall(format) => LazyLoadEncoderKeepsFetchBound(s, format);
    case SetContainerCall(_) =>
  }

  /** Every sequence of calls keeps the fetch counts within FetchBound. */
  lemma {:induction false} RunKeepsFetchBound(s: State, calls: seq<Call>)
    requires Runnable(s, calls) && FetchBound(s)
    ensures FetchBound(Run(s, calls))
    decreases |calls|
  {
    if calls != [] {
      ApplyKeepsFetchBound(s, calls[0]);
      RunKeepsFetchBound(Apply(s, calls[0]), calls[1..]);
    }
  }

  /**
   * From a freshly constructed serializer, whatever the calls (`setContainer`
   * included), a class-mapped normalizer is fetched at most once per (class, format) slot.
   */
  lemma NormalizerFetchedAtMostOncePerSlot(config: Config, calls: seq<Call>, slot: CacheKey)
    requires Runnable(Initial(config), calls)
    ensures Gets(Run(Initial(config), calls).log, ForCacheSlot(slot)) <= 1
  {
    RunKeepsFetchBound(Initial(config), calls);
  }

  /**
   * From a freshly constructed serializer, whatever the calls (`setContainer`
   * included), the default normalizers are fetched all together once, or not at all.
   */
  lemma DefaultNormalizersFetchedAtMostOnce(config: Config, calls: seq<Call>)
    requires Runnable(Initial(config), calls)
    ensures var t := Run(Initial(config), calls);
      Gets(t.log, ForDefaults) == (if t.defaultNormalizersLoaded then |config.defaultNormalizers| else 0)
  {
    RunKeepsFetchBound(Initial(config), calls);
    RunGrows(Initial(config), calls);
  }

  /**
   * From a freshly constructed serializer, whatever the calls (`setContainer`
   * included), the encoder of a format is fetched at most once.
   */
  lemma EncoderFetchedAtMostOncePerFormat(config: Config, calls: seq<Call>, format: string)
    requires Runnable(Initial(config), calls)
    ensures Gets(Run(Initial(config), calls).log, ForEncoder(format)) <= 1
  {
    RunKeepsFetchBound(Initial(config), calls);
  }

  /**
   * `t` extends `s`: same tables, the log and the normalizer
   * list only grow at the end, no cache entry or encoder is removed or
   * replaced, and the defaults flag is never reset.
   */
  ghost predicate Grows(s: State, t: State) {
    && t.config == s.config
    && s.log <= t.log
    && s.base.normalizers <= t.base.normalizers
    && (forall slot | slot in s.base.normalizerCache ::
          slot in t.base.normalizerCache && t.base.normalizerCache[slot] == s.base.normalizerCache[slot])
    && (forall f | f in s.base.encoders :: f in t.base.encoders && t.base.encoders[f] == s.base.encoders[f])
    && (s.defaultNormalizersLoaded ==> t.defaultNormalizersLoaded)
  }

  lemma ApplyGrows(s: State, call: Call)
    requires Enabled(s, call)
    ensures Grows(s, Apply(s, call))
  {
  }

  /** Every sequence of calls only adds to what the serializer has registered, cached and logged. */
  lemma {:induction false} RunGrows(s: State, calls: seq<Call>)
    requires Runnable(s, calls)
    ensures Grows(s, Run(s, calls))
    decreases |calls|
  {
    if calls != [] {
      var t := Apply(s, calls[0]);
      ApplyGrows(s, calls[0]);
      RunGrows(t, calls[1..]);
    }
  }
}
