/**
 * The lazy-loading serializer as a state machine over values: every public
 * operation of FOS\RestBundle\Serializer\Serializer is a function from the
 * serializer's state (and its arguments) to the next state and a reply.
 * The class in LazySerializer is proved to follow these functions, and the
 * lemmas in SerializerProperties and SerializerTraces are stated about them.
 */
module SerializerSpec {
  import opened Wrappers
  import opened Registry

  /** A payload handed through to normalizers and encoders; its content is never inspected. */
  type Data = string

  /** A PHP object: `get_class($object)` is `cls`. */
  datatype Object = Object(cls: string, payload: Data)

  /** The optional `$properties` filter of `normalizeObject`. */
  type Properties = Option<seq<string>>

  /** `normalizerCache[$class][$format]`: a (class name, format) slot. */
  type CacheKey = (string, string)

  /**
   * The array key PHP uses for a format: a null format is coerced to "",
   * so `denormalizeObject` without a format shares the "" slot.
   */
  function FormatKey(format: Option<string>): string {
    match format
    case None => ""
    case Some(f) => f
  }

  /** Why the serializer asked the container for a service. */
  datatype Purpose =
    | ForCacheSlot(slot: CacheKey)   // a class-mapped normalizer, cached under `slot`
    | ForDefaults                    // one of the default normalizers
    | ForEncoder(format: string)     // the mapped encoder of `format`

  /** One call the serializer made on its container. */
  datatype ContainerCall = HasCall(id: string) | GetCall(id: string, purpose: Purpose)

  /** The three tables given to the constructor; never changed afterwards. */
  datatype Config = Config(
    encoderFormatMap: map<string, string>,    // format -> encoder service id
    normalizerClassMap: map<string, string>,  // class name -> normalizer service id
    defaultNormalizers: seq<string>)          // normalizer service ids, in order

  /** The state the base (Symfony) serializer owns and this class writes into. */
  datatype Base = Base(
    normalizers: seq<Component>,
    normalizerCache: map<CacheKey, Component>,
    encoders: map<string, Component>)

  datatype State = State(
    config: Config,
    base: Base,
    defaultNormalizersLoaded: bool,
    container: Container,
    log: seq<ContainerCall>)   // every container call made so far, oldest first

  /**
   * What a call evaluates to. The model does not compute serialized values:
   * a reply names the collaborator that answered and the arguments it was
   * handed, so two replies are equal when the same collaborator was asked the
   * same question. The base serializer's generic algorithms may depend on
   * all of its state, so their replies carry it.
   */
  datatype Reply =
    | Normalized(normalizer: Component, obj: Object, format: string, properties: Properties)
    | Denormalized(normalizer: Component, data: Data, cls: string, dformat: Option<string>)
    | BaseNormalized(base: Base, obj: Object, format: string, properties: Properties)
    | BaseDenormalized(base: Base, data: Data, cls: string, dformat: Option<string>)
    | BaseEncoded(base: Base, data: Data, format: string)
    | BaseDecoded(base: Base, data: Data, format: string)
    | BaseEncoder(base: Base, format: string)

  /** The tier that answered a normalizer lookup. */
  datatype Tier = CacheHit(normalizer: Component) | ClassMapped(normalizer: Component) | Generic

  /** The next state and the result of one operation. */
  datatype Step<T> = Step(next: State, out: T)

  /** `__construct`: only the three tables are stored; there is no container yet. */
  function Initial(config: Config): State {
    State(config, Base([], map[], map[]), false, Container(map[]), [])
  }

  /** `setContainer`. */
  function SetContainer(s: State, c: Container): State {
    s.(container := c)
  }

  /** The container can supply every default normalizer that would still be fetched. */
  predicate DefaultsAvailable(s: State) {
    s.defaultNormalizersLoaded || s.container.HasAll(s.config.defaultNormalizers)
  }

  /** A lookup of (`cls`, `format`) makes no `get` call the container cannot answer. */
  predicate CanResolve(s: State, cls: string, format: string) {
    || (cls, format) in s.base.normalizerCache
    || (if cls in s.config.normalizerClassMap
        then s.container.Has(s.config.normalizerClassMap[cls])
        else DefaultsAvailable(s))
  }

  /** The log entries of fetching `ids` as default normalizers, in order. */
  function DefaultGets(ids: seq<string>): (r: seq<ContainerCall>)
    ensures |r| == |ids|
    ensures forall i | 0 <= i < |ids| :: r[i] == GetCall(ids[i], ForDefaults)
  {
    if ids == [] then [] else DefaultGets(ids[..|ids| - 1]) + [GetCall(ids[|ids| - 1], ForDefaults)]
  }

  /** `loadDefaultNormalizer`: a one-shot registration of the default normalizers. */
  function LoadDefaultNormalizer(s: State): State
    requires DefaultsAvailable(s)
  {
    if !s.defaultNormalizersLoaded && |s.config.defaultNormalizers| > 0 then
      var ids := s.config.defaultNormalizers;
      s.(base := s.base.(normalizers := s.base.normalizers + s.container.GetAll(ids)),
         defaultNormalizersLoaded := true,
         log := s.log + DefaultGets(ids))
    else
      s
  }

  /**
   * The three-tier lookup shared by `normalizeObject` and `denormalizeObject`:
   * the cache, then the class map (fetch, register, cache), then the default
   * normalizers followed by the base serializer's generic path.
   */
  function Resolve(s: State, cls: string, format: string): Step<Tier>
    requires CanResolve(s, cls, format)
  {
    var slot := (cls, format);
    if slot in s.base.normalizerCache then
      Step(s, CacheHit(s.base.normalizerCache[slot]))
    else if cls in s.config.normalizerClassMap then
      var id := s.config.normalizerClassMap[cls];
      var normalizer := s.container.Get(id);
      Step(s.(base := s.base.(normalizers := s.base.normalizers + [normalizer],
                              normalizerCache := s.base.normalizerCache[slot := normalizer]),
              log := s.log + [GetCall(id, ForCacheSlot(slot))]),
           ClassMapped(normalizer))
    else
      Step(LoadDefaultNormalizer(s), Generic)
  }

  /**
   * The lookup as the source writes it: the third tier reads
   * `$this-loadDefaultNormalizer();`, a subtraction whose right operand calls an
   * undefined global function, so PHP stops with a fatal error (None) there.
   */
  function ResolveAsWritten(s: State, cls: string, format: string): Option<Step<Tier>>
    requires (cls, format) !in s.base.normalizerCache && cls in s.config.normalizerClassMap
             ==> s.container.Has(s.config.normalizerClassMap[cls])
  {
    if (cls, format) !in s.base.normalizerCache && cls !in s.config.normalizerClassMap then None
    else Some(Resolve(s, cls, format))
  }

  /** `normalizeObject($obj, $format, $properties)`. */
  function NormalizeObject(s: State, obj: Object, format: string, properties: Properties): Step<Reply>
    requires CanResolve(s, obj.cls, format)
  {
    var r := Resolve(s, obj.cls, format);
    Step(r.next,
      match r.out
      case CacheHit(n) => Normalized(n, obj, format, properties)
      case ClassMapped(n) => Normalized(n, obj, format, properties)
      case Generic => BaseNormalized(r.next.base, obj, format, properties))
  }

  /** `denormalizeObject($data, $class, $format = null)`. */
  function DenormalizeObject(s: State, data: Data, cls: string, format: Option<string>): Step<Reply>
    requires CanResolve(s, cls, FormatKey(format))
  {
    var r := Resolve(s, cls, FormatKey(format));
    Step(r.next,
      match r.out
      case CacheHit(n) => Denormalized(n, data, cls, format)
      case ClassMapped(n) => Denormalized(n, data, cls, format)
      case Generic => BaseDenormalized(r.next.base, data, cls, format))
  }

  /**
   * `lazyLoadEncoder($format)`: the conditions are evaluated left to right and
   * stop at the first false one, so the container is asked `has` only for a
   * mapped format that has no encoder yet.
   */
  function LazyLoadEncoder(s: State, format: string): Step<bool> {
    if format !in s.base.encoders && format in s.config.encoderFormatMap then
      var id := s.config.encoderFormatMap[format];
      var probed := s.(log := s.log + [HasCall(id)]);
      if s.container.Has(id) then
        Step(probed.(base := s.base.(encoders := s.base.encoders[format := s.container.Get(id)]),
                     log := probed.log + [GetCall(id, ForEncoder(format))]),
             true)
      else
        Step(probed, false)
    else
      Step(s, false)
  }

  /** `encode($data, $format)`. */
  function Encode(s: State, data: Data, format: string): Step<Reply> {
    var l := LazyLoadEncoder(s, format);
    Step(l.next, BaseEncoded(l.next.base, data, format))
  }

  /** `decode($data, $format)`. */
  function Decode(s: State, data: Data, format: string): Step<Reply> {
    var l := LazyLoadEncoder(s, format);
    Step(l.next, BaseDecoded(l.next.base, data, format))
  }

  /** `getEncoder($format)`. */
  function GetEncoder(s: State, format: string): Step<Reply> {
    var l := LazyLoadEncoder(s, format);
    Step(l.next, BaseEncoder(l.next.base, format))
  }
}
