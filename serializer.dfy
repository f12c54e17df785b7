/**
 * FOS\RestBundle\Serializer\Serializer: a serializer that fetches its
 * normalizers and encoders from the service container on first use.
 *
 * The fields `normalizers`, `normalizerCache` and `encoders` belong to the
 * base serializer the PHP class extends; its `addNormalizer`, `setEncoder` and
 * `hasEncoder` are written out here as the append, store and lookup they are.
 * Every method is proved to move the object exactly as the function of the
 * same name in SerializerSpec moves a state value.
 */
module LazySerializer {
  import opened Wrappers
  import opened Registry
  import Spec = SerializerSpec

  class Serializer {
    const encoderFormatMap: map<string, string>
    const normalizerClassMap: map<string, string>
    const defaultNormalizers: seq<string>
    var defaultNormalizersLoaded: bool
    var container: Container

    // inherited from the base serializer
    var normalizers: seq<Component>
    var normalizerCache: map<Spec.CacheKey, Component>
    var encoders: map<string, Component>

    /** Every call made on the container, oldest first. */
    ghost var containerCalls: seq<Spec.ContainerCall>

    /** The state the base serializer's generic algorithms work on. */
    function BaseState(): Spec.Base
      reads this
    {
      Spec.Base(normalizers, normalizerCache, encoders)
    }

    /** The object's whole state as a value. */
    ghost function Snapshot(): Spec.State
      reads this
    {
      Spec.State(Spec.Config(encoderFormatMap, normalizerClassMap, defaultNormalizers),
                 BaseState(), defaultNormalizersLoaded, container, containerCalls)
    }

    /** Stores the three tables and nothing else: nothing is fetched or registered. */
    constructor (encoderFormatMap: map<string, string> := map[],
                 normalizerClassMap: map<string, string> := map[],
                 defaultNormalizers: seq<string> := [])
      ensures Snapshot() == Spec.Initial(Spec.Config(encoderFormatMap, normalizerClassMap, defaultNormalizers))
      ensures containerCalls == [] && !defaultNormalizersLoaded
      ensures normalizers == [] && normalizerCache == map[] && encoders == map[]
    {
      this.encoderFormatMap := encoderFormatMap;
      this.normalizerClassMap := normalizerClassMap;
      this.defaultNormalizers := defaultNormalizers;
      defaultNormalizersLoaded := false;
      container := Container(map[]);
      normalizers := [];
      normalizerCache := map[];
      encoders := map[];
      containerCalls := [];
    }

    method SetContainer(c: Container)
      modifies this
      ensures Snapshot() == Spec.SetContainer(old(Snapshot()), c)
    {
      container := c;
    }

    method NormalizeObject(obj: Spec.Object, format: string, properties: Spec.Properties := None)
      returns (r: Spec.Reply)
      requires Spec.CanResolve(Snapshot(), obj.cls, format)
      modifies this
      ensures Snapshot() == Spec.NormalizeObject(old(Snapshot()), obj, format, properties).next
      ensures r == Spec.NormalizeObject(old(Snapshot()), obj, format, properties).out
    {
      var cls := obj.cls;
      if (cls, format) in normalizerCache {
        return Spec.Normalized(normalizerCache[(cls, format)], obj, format, properties);
      }
      if cls in normalizerClassMap {
        // the mapped normalizer is trusted to support `cls`: no supports check
        var id := normalizerClassMap[cls];
        var normalizer := container.Get(id);
        containerCalls := containerCalls + [Spec.GetCall(id, Spec.ForCacheSlot((cls, format)))];
        normalizers := normalizers + [normalizer];
        normalizerCache := normalizerCache[(cls, format) := normalizer];
        return Spec.Normalized(normalizer, obj, format, properties);
      }
      // The source reads `$this-loadDefaultNormalizer();` here, which calls an
      // undefined global function; the intended method call is modelled
      // (Spec.ResolveAsWritten models the line as written).
      LoadDefaultNormalizer();
      r := Spec.BaseNormalized(BaseState(), obj, format, properties);
    }

    method DenormalizeObject(data: Spec.Data, cls: string, format: Option<string> := None)
      returns (r: Spec.Reply)
      requires Spec.CanResolve(Snapshot(), cls, Spec.FormatKey(format))
      modifies this
      ensures Snapshot() == Spec.DenormalizeObject(old(Snapshot()), data, cls, format).next
      ensures r == Spec.DenormalizeObject(old(Snapshot()), data, cls, format).out
    {
      var key := Spec.FormatKey(format);
      if (cls, key) in normalizerCache {
        return Spec.Denormalized(normalizerCache[(cls, key)], data, cls, format);
      }
      if cls in normalizerClassMap {
        var id := normalizerClassMap[cls];
        var normalizer := container.Get(id);
        containerCalls := containerCalls + [Spec.GetCall(id, Spec.ForCacheSlot((cls, key)))];
        normalizers := normalizers + [normalizer];
        normalizerCache := normalizerCache[(cls, key) := normalizer];
        return Spec.Denormalized(normalizer, data, cls, format);
      }
      // same typo as in NormalizeObject; the intended call is modelled
      LoadDefaultNormalizer();
      r := Spec.BaseDenormalized(BaseState(), data, cls, format);
    }

    /** Registers every default normalizer, in list order, the first time there are any. */
    method LoadDefaultNormalizer()
      requires Spec.DefaultsAvailable(Snapshot())
      modifies this
      ensures Snapshot() == Spec.LoadDefaultNormalizer(old(Snapshot()))
    {
      if !defaultNormalizersLoaded && |defaultNormalizers| > 0 {
        for i := 0 to |defaultNormalizers|
          invariant container == old(container) && container.HasAll(defaultNormalizers[..i])
          invariant normalizers == old(normalizers) + container.GetAll(defaultNormalizers[..i])
          invariant containerCalls == old(containerCalls) + Spec.DefaultGets(defaultNormalizers[..i])
          invariant normalizerCache == old(normalizerCache) && encoders == old(encoders)
          invariant defaultNormalizersLoaded == old(defaultNormalizersLoaded)
        {
          var id := defaultNormalizers[i];
          assert defaultNormalizers[..i + 1][..i] == defaultNormalizers[..i];
          normalizers := normalizers + [container.Get(id)];
          containerCalls := containerCalls + [Spec.GetCall(id, Spec.ForDefaults)];
        }
        assert defaultNormalizers[..|defaultNormalizers|] == defaultNormalizers;
        defaultNormalizersLoaded := true;
      }
    }

    method Encode(data: Spec.Data, format: string) returns (r: Spec.Reply)
      modifies this
      ensures Snapshot() == Spec.Encode(old(Snapshot()), data, format).next
      ensures r == Spec.Encode(old(Snapshot()), data, format).out
    {
      var _ := LazyLoadEncoder(format);
      r := Spec.BaseEncoded(BaseState(), data, format);
    }

    method Decode(data: Spec.Data, format: string) returns (r: Spec.Reply)
      modifies this
      ensures Snapshot() == Spec.Decode(old(Snapshot()), data, format).next
      ensures r == Spec.Decode(old(Snapshot()), data, format).out
    {
      var _ := LazyLoadEncoder(format);
      r := Spec.BaseDecoded(BaseState(), data, format);
    }

    method GetEncoder(format: string) returns (r: Spec.Reply)
      modifies this
      ensures Snapshot() == Spec.GetEncoder(old(Snapshot()), format).next
      ensures r == Spec.GetEncoder(old(Snapshot()), format).out
    {
      var _ := LazyLoadEncoder(format);
      r := Spec.BaseEncoder(BaseState(), format);
    }

    /** Installs the mapped encoder of `format` if none is active and the container has it. */
    method LazyLoadEncoder(format: string) returns (loaded: bool)
      modifies this
      ensures Snapshot() == Spec.LazyLoadEncoder(old(Snapshot()), format).next
      ensures loaded == Spec.LazyLoadEncoder(old(Snapshot()), format).out
    {
      if format !in encoders && format in encoderFormatMap {
        var id := encoderFormatMap[format];
        containerCalls := containerCalls + [Spec.HasCall(id)];
        if container.Has(id) {
          containerCalls := containerCalls + [Spec.GetCall(id, Spec.ForEncoder(format))];
          encoders := encoders[format := container.Get(id)];
          return true;
        }
      }
      return false;
    }
  }
}
