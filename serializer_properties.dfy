/**
 * What one call of each operation does, stated against SerializerSpec:
 * the precedence of the three lookup tiers, what each tier changes and leaves
 * alone, the one-shot loading of the default normalizers, and the outcomes
 * of lazy encoder loading.
 */
module SerializerProperties {
  import opened Wrappers
  import opened Registry
  import opened SerializerSpec

  /**
   * The cache answers first, the class map second, the generic path last;
   * only the generic path loads the default normalizers, and no tier touches
   * the encoders, the tables or the container.
   */
  lemma ResolutionPrecedence(s: State, cls: string, format: string)
    requires CanResolve(s, cls, format)
    ensures var r := Resolve(s, cls, format);
      && (r.out.CacheHit? <==> (cls, format) in s.base.normalizerCache)
      && (r.out.ClassMapped? <==> (cls, format) !in s.base.normalizerCache && cls in s.config.normalizerClassMap)
      && (r.out.Generic? <==> (cls, format) !in s.base.normalizerCache && cls !in s.config.normalizerClassMap)
      && (r.out.Generic? ==> DefaultsAvailable(s) && r.next == LoadDefaultNormalizer(s))
      && (!r.out.Generic? ==> r.next.defaultNormalizersLoaded == s.defaultNormalizersLoaded)
      && r.next.base.encoders == s.base.encoders
      && r.next.config == s.config && r.next.container == s.container
  {
  }

  /** A cached slot is answered by its cached normalizer, and nothing changes. */
  lemma NormalizeCacheHit(s: State, obj: Object, format: string, properties: Properties)
    requires (obj.cls, format) in s.base.normalizerCache
    ensures NormalizeObject(s, obj, format, properties)
         == Step(s, Normalized(s.base.normalizerCache[(obj.cls, format)], obj, format, properties))
  {
  }

  lemma DenormalizeCacheHit(s: State, data: Data, cls: string, format: Option<string>)
    requires (cls, FormatKey(format)) in s.base.normalizerCache
    ensures DenormalizeObject(s, data, cls, format)
         == Step(s, Denormalized(s.base.normalizerCache[(cls, FormatKey(format))], data, cls, format))
  {
  }

  /**
   * A class-mapped miss makes exactly one `get` call, for the mapped id,
   * registers that normalizer once, caches it under the slot, and asks it
   * directly (no supports check); the defaults are not loaded.
   */
  lemma NormalizeClassMapped(s: State, obj: Object, format: string, properties: Properties)
    requires (obj.cls, format) !in s.base.normalizerCache
    requires obj.cls in s.config.normalizerClassMap
    requires s.container.Has(s.config.normalizerClassMap[obj.cls])
    ensures var id := s.config.normalizerClassMap[obj.cls];
            var n := s.container.Get(id);
            var t := NormalizeObject(s, obj, format, properties);
      && t.out == Normalized(n, obj, format, properties)
      && t.next.log == s.log + [GetCall(id, ForCacheSlot((obj.cls, format)))]
      && t.next.base.normalizers == s.base.normalizers + [n]
      && t.next.base.normalizerCache == s.base.normalizerCache[(obj.cls, format) := n]
      && t.next.base.encoders == s.base.encoders
      && t.next.defaultNormalizersLoaded == s.defaultNormalizersLoaded
      && t.next.config == s.config && t.next.container == s.container
  {
  }

  lemma DenormalizeClassMapped(s: State, data: Data, cls: string, format: Option<string>)
    requires (cls, FormatKey(format)) !in s.base.normalizerCache
    requires cls in s.config.normalizerClassMap
    requires s.container.Has(s.config.normalizerClassMap[cls])
    ensures var id := s.config.normalizerClassMap[cls];
            var n := s.container.Get(id);
            var t := DenormalizeObject(s, data, cls, format);
      && t.out == Denormalized(n, data, cls, format)
      && t.next.log == s.log + [GetCall(id, ForCacheSlot((cls, FormatKey(format))))]
      && t.next.base.normalizers == s.base.normalizers + [n]
      && t.next.base.normalizerCache == s.base.normalizerCache[(cls, FormatKey(format)) := n]
      && t.next.base.encoders == s.base.encoders
      && t.next.defaultNormalizersLoaded == s.defaultNormalizersLoaded
      && t.next.config == s.config && t.next.container == s.container
  {
  }

  /**
   * After a class-mapped miss, the same slot is a cache hit for every later
   * lookup: another object of the class, another property filter, and a
   * `denormalizeObject` into the class, including one without a format when
   * the slot's format is "" (normalize and denormalize share the cache).
   */
  lemma RepeatedLookupHitsCache(s: State, obj: Object, format: string, properties: Properties,
                                other: Object, otherProperties: Properties,
                                data: Data, dformat: Option<string>)
    requires (obj.cls, format) !in s.base.normalizerCache
    requires obj.cls in s.config.normalizerClassMap
    requires s.container.Has(s.config.normalizerClassMap[obj.cls])
    requires other.cls == obj.cls && FormatKey(dformat) == format
    ensures var n := s.container.Get(s.config.normalizerClassMap[obj.cls]);
            var t := NormalizeObject(s, obj, format, properties).next;
      && NormalizeObject(t, other, format, otherProperties) == Step(t, Normalized(n, other, format, otherProperties))
      && DenormalizeObject(t, data, obj.cls, dformat) == Step(t, Denormalized(n, data, obj.cls, dformat))
  {
  }

  /**
   * Without a cache entry or a class mapping, the defaults are loaded (once)
   * and the base serializer's generic algorithm answers on the state that
   * results; the cache is left to the base serializer.
   */
  lemma NormalizeGenericTier(s: State, obj: Object, format: string, properties: Properties)
    requires (obj.cls, format) !in s.base.normalizerCache
    requires obj.cls !in s.config.normalizerClassMap
    requires DefaultsAvailable(s)
    ensures var t := NormalizeObject(s, obj, format, properties);
      && t.next == LoadDefaultNormalizer(s)
      && t.out == BaseNormalized(t.next.base, obj, format, properties)
      && t.next.base.normalizerCache == s.base.normalizerCache
      && t.next.defaultNormalizersLoaded == (s.defaultNormalizersLoaded || |s.config.defaultNormalizers| > 0)
  {
  }

  lemma DenormalizeGenericTier(s: State, data: Data, cls: string, format: Option<string>)
    requires (cls, FormatKey(format)) !in s.base.normalizerCache
    requires cls !in s.config.normalizerClassMap
    requires DefaultsAvailable(s)
    ensures var t := DenormalizeObject(s, data, cls, format);
      && t.next == LoadDefaultNormalizer(s)
      && t.out == BaseDenormalized(t.next.base, data, cls, format)
      && t.next.base.normalizerCache == s.base.normalizerCache
      && t.next.defaultNormalizersLoaded == (s.defaultNormalizersLoaded || |s.config.defaultNormalizers| > 0)
  {
  }

  /**
   * The first load with a non-empty list fetches every id and registers it,
   * in list order, then sets the flag; an empty list or a set flag changes
   * nothing; and a second load changes nothing.
   */
  lemma LoadDefaultNormalizerOneShot(s: State)
    requires DefaultsAvailable(s)
    ensures var ids := s.config.defaultNormalizers;
            var t := LoadDefaultNormalizer(s);
      && (!s.defaultNormalizersLoaded && |ids| > 0 ==>
            && t.defaultNormalizersLoaded
            && |t.base.normalizers| == |s.base.normalizers| + |ids|
            && t.base.normalizers[..|s.base.normalizers|] == s.base.normalizers
            && (forall i | 0 <= i < |ids| :: t.base.normalizers[|s.base.normalizers| + i] == s.container.Get(ids[i]))
            && t.log == s.log + DefaultGets(ids)
            && t.base.normalizerCache == s.base.normalizerCache
            && t.base.encoders == s.base.encoders)
      && (s.defaultNormalizersLoaded || |ids| == 0 ==> t == s)
      && DefaultsAvailable(t) && LoadDefaultNormalizer(t) == t
  {
  }

  /**
   * The three outcomes of `lazyLoadEncoder`: an active encoder is kept; a
   * mapped format whose service the container has gets that encoder; anything
   * else leaves the serializer as it was. An unmapped format (or one already
   * active) does not reach the container at all.
   */
  lemma LazyLoadEncoderOutcomes(s: State, format: string)
    ensures var l := LazyLoadEncoder(s, format);
      && (format in s.base.encoders || format !in s.config.encoderFormatMap ==> l == Step(s, false))
      && (format !in s.base.encoders && format in s.config.encoderFormatMap ==>
            var id := s.config.encoderFormatMap[format];
            if s.container.Has(id) then
              && l.out
              && l.next.base.encoders == s.base.encoders[format := s.container.Get(id)]
              && l.next.log == s.log + [HasCall(id), GetCall(id, ForEncoder(format))]
            else
              l == Step(s.(log := s.log + [HasCall(id)]), false))
      && (l.out <==> format !in s.base.encoders && format in s.config.encoderFormatMap
                     && s.container.Has(s.config.encoderFormatMap[format]))
      && (l.out ==> format in l.next.base.encoders)
      && l.next.base.normalizers == s.base.normalizers
      && l.next.base.normalizerCache == s.base.normalizerCache
      && l.next.defaultNormalizersLoaded == s.defaultNormalizersLoaded
      && l.next.config == s.config && l.next.container == s.container
  {
  }

  /** A second `lazyLoadEncoder` for the same format returns false and changes nothing but the log. */
  lemma LazyLoadEncoderIdempotent(s: State, format: string)
    ensures var t := LazyLoadEncoder(s, format);
            var u := LazyLoadEncoder(t.next, format);
      && !u.out
      && u.next.(log := t.next.log) == t.next
      && (t.out ==> u == Step(t.next, false))
  {
  }

  /**
   * `encode`, `decode` and `getEncoder` change the state exactly as
   * `lazyLoadEncoder` does, touch no other format's encoder and no normalizer
   * state, and hand the same arguments to the base serializer.
   */
  lemma EncoderEntryPoints(s: State, data: Data, format: string)
    ensures var t := LazyLoadEncoder(s, format).next;
      && Encode(s, data, format) == Step(t, BaseEncoded(t.base, data, format))
      && Decode(s, data, format) == Step(t, BaseDecoded(t.base, data, format))
      && GetEncoder(s, format) == Step(t, BaseEncoder(t.base, format))
      && (forall f | f != format :: (f in t.base.encoders <==> f in s.base.encoders))
      && (forall f | f != format && f in s.base.encoders :: t.base.encoders[f] == s.base.encoders[f])
      && t.base.normalizers == s.base.normalizers
      && t.base.normalizerCache == s.base.normalizerCache
      && t.defaultNormalizersLoaded == s.defaultNormalizersLoaded
  {
  }

  /**
   * Encoding or decoding with a lazily loaded encoder gives the same reply as
   * the same call on a serializer that had that encoder registered beforehand.
   */
  lemma LazyEncodeMatchesPreregistered(s: State, data: Data, format: string)
    requires format !in s.base.encoders && format in s.config.encoderFormatMap
    requires s.container.Has(s.config.encoderFormatMap[format])
    ensures var pre := s.base.(encoders := s.base.encoders[format := s.container.Get(s.config.encoderFormatMap[format])]);
      && Encode(s, data, format).out == Encode(s.(base := pre), data, format).out
      && Decode(s, data, format).out == Decode(s.(base := pre), data, format).out
  {
  }

  /**
   * As written, the third tier of both lookups (lines 94 and 116) stops with
   * a fatal error where the intended code loads the defaults; the other two
   * tiers agree with the intended lookup.
   */
  lemma GenericTierAbortsAsWritten(s: State, cls: string, format: string)
    requires CanResolve(s, cls, format)
    ensures ResolveAsWritten(s, cls, format).None? <==> Resolve(s, cls, format).out.Generic?
    ensures ResolveAsWritten(s, cls, format).Some? ==> ResolveAsWritten(s, cls, format).value == Resolve(s, cls, format)
  {
  }

  /** A concrete configuration on which the as-written code fails and the intended code loads a default. */
  lemma GenericTierAbortsAsWrittenExample()
    ensures var c := Container(map["generic" := Component(7)]);
            var s := SetContainer(Initial(Config(map[], map[], ["generic"])), c);
      && ResolveAsWritten(s, "Acme\\User", "json") == None
      && Resolve(s, "Acme\\User", "json").next.base.normalizers == [Component(7)]
  {
    var c := Container(map["generic" := Component(7)]);
    var s := SetContainer(Initial(Config(map[], map[], ["generic"])), c);
    assert c.GetAll(["generic"]) == [Component(7)];
  }
}
