/**
 * `ResourceManager` (packages/engine/src/resources/resource-manager.ts): loaders keyed by
 * resource type, and the resources loaded so far in load order.
 *
 * A loader fetches and decodes asynchronously; here it is an abstract function from a URL
 * to the resource it yields, so `load` completes in one step.
 */
module Resources {
  import opened Wrappers

  type ResourceType = string

  /** A loaded resource (`./resource`, which is not part of this model): its id, type and payload. */
  datatype Resource = Resource(id: string, resourceType: ResourceType, payload: nat)

  type Loader = string -> Resource

  datatype LoadError = NoLoaderFound(resourceType: ResourceType)

  datatype Outcome = Loaded | Failed(error: LoadError)

  /** The index of the first resource with that id, or -1 when there is none. */
  function FirstWithId(resources: seq<Resource>, url: string): (k: int)
    ensures -1 <= k < |resources|
    ensures k >= 0 ==> resources[k].id == url
    ensures forall j :: 0 <= j < |resources| && (k < 0 || j < k) ==> resources[j].id != url
    decreases |resources|
  {
    if resources == [] then -1
    else if resources[0].id == url then 0
    else
      var k := FirstWithId(resources[1..], url);
      if k < 0 then -1 else k + 1
  }

  /** `resources.find(r => r.id === url)`: the earliest resource with that id. */
  function Find(resources: seq<Resource>, url: string): Option<Resource>
  {
    var k := FirstWithId(resources, url);
    if k < 0 then None else Some(resources[k])
  }

  /** `resources.filter(r => r.type === type)`: exactly the resources of that type, in order. */
  function OfType(resources: seq<Resource>, resourceType: ResourceType): (r: seq<Resource>)
    ensures forall x :: x in r <==> x in resources && x.resourceType == resourceType
    ensures |r| <= |resources|
    decreases |resources|
  {
    if resources == [] then []
    else
      var rest := OfType(resources[..|resources| - 1], resourceType);
      var last := resources[|resources| - 1];
      assert resources == resources[..|resources| - 1] + [last];
      if last.resourceType == resourceType then rest + [last] else rest
  }

  /** Filtering the extended list extends the filtered list by the new resource, if it matches. */
  lemma OfTypeAppend(resources: seq<Resource>, x: Resource, resourceType: ResourceType)
    ensures OfType(resources + [x], resourceType)
            == OfType(resources, resourceType) + if x.resourceType == resourceType then [x] else []
  {
    assert (resources + [x])[..|resources + [x]| - 1] == resources;
  }

  /** A later resource with the same id does not change what `get` finds. */
  lemma {:induction false} FindEarliestWins(resources: seq<Resource>, x: Resource, url: string)
    requires Find(resources, url).Some?
    ensures Find(resources + [x], url) == Find(resources, url)
    decreases |resources|
  {
    if resources[0].id != url {
      assert (resources + [x])[1..] == resources[1..] + [x];
      FindEarliestWins(resources[1..], x, url);
    }
  }

  class ResourceManager {
    var resources: seq<Resource>
    var loaders: map<ResourceType, Loader>

    constructor ()
      ensures resources == [] && loaders == map[]
    {
      resources, loaders := [], map[];
    }

    /** `addLoader`: installs or replaces the loader for that type. */
    method AddLoader(resourceType: ResourceType, loader: Loader)
      modifies this
      ensures loaders == old(loaders)[resourceType := loader] && resources == old(resources)
    {
      loaders := loaders[resourceType := loader];
    }

    /** `load`: fails without a loader for the type; otherwise appends what the loader yields. */
    method Load(url: string, resourceType: ResourceType) returns (o: Outcome)
      modifies this
      ensures o.Failed? <==> resourceType !in old(loaders)
      ensures o.Failed? ==> o.error == NoLoaderFound(resourceType) && resources == old(resources)
      ensures o.Loaded? ==> resources == old(resources) + [old(loaders)[resourceType](url)]
      ensures loaders == old(loaders)
    {
      if resourceType !in loaders {
        return Failed(NoLoaderFound(resourceType));
      }
      var loader := loaders[resourceType];
      var resource := loader(url);
      resources := resources + [resource];
      o := Loaded;
    }

    function Get(url: string): Option<Resource>
      reads this
    {
      Find(resources, url)
    }

    function GetAll(resourceType: ResourceType): seq<Resource>
      reads this
    {
      OfType(resources, resourceType)
    }
  }
}
