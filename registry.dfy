/**
 * The dependency-injection container the serializer pulls its normalizers and
 * encoders from, seen only through its `has` and `get` operations.
 */
module Registry {

  /** An opaque handle on a constructed service (a normalizer or an encoder). */
  datatype Component = Component(handle: nat)

  /** A container as a registry from service id to the instance it hands out. */
  datatype Container = Container(services: map<string, Component>) {

    /** `has($id)`: whether the container can supply the service, without building it. */
    predicate Has(id: string) {
      id in services
    }

    /** `get($id)`: the service instance; an unknown id is a caller error. */
    function Get(id: string): Component
      requires Has(id)
    {
      services[id]
    }

    predicate HasAll(ids: seq<string>) {
      forall i | 0 <= i < |ids| :: Has(ids[i])
    }

    /** The services named by `ids`, fetched one after the other in list order. */
    function GetAll(ids: seq<string>): (r: seq<Component>)
      requires HasAll(ids)
      ensures |r| == |ids|
      ensures forall i | 0 <= i < |ids| :: r[i] == Get(ids[i])
    {
      if ids == [] then [] else GetAll(ids[..|ids| - 1]) + [Get(ids[|ids| - 1])]
    }
  }
}
