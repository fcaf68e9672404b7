/** kube/load_api_resources.go: the resource types and subcommands offered after
    a command, read from the API server's list of resources. */
module ApiResources {
  import opened Prompt
  import opened Results

  /** metav1.APIResource: the fields the loader reads. */
  datatype APIResource = APIResource(name: string, shortNames: seq<string>)

  /** metav1.APIResourceList: the resources of one API group version. */
  datatype ResourceList = ResourceList(apiResources: seq<APIResource>)

  /** The two package tables the loader replaces. */
  datatype Tables = Tables(resourceTypes: seq<Suggest>, subcommands: seq<Suggest>)

  /** Suggestions without description, one per text. */
  function Bare(texts: seq<string>): (r: seq<Suggest>)
    ensures |r| == |texts|
    ensures forall i :: 0 <= i < |r| ==> r[i] == Suggest(texts[i], "")
  {
    seq(|texts|, i requires 0 <= i < |texts| => Suggest(texts[i], ""))
  }

  /** One resource: its name, then its short names in order. */
  function ResourceNames(resource: APIResource): seq<Suggest>
  {
    Bare([resource.name] + resource.shortNames)
  }

  function GroupNames(group: ResourceList): seq<Suggest>
  {
    FlatMap(group.apiResources, ResourceNames)
  }

  /** The loop of loadApiResources: every group in order, every resource of a
      group in order. */
  function Flatten(groups: seq<ResourceList>): seq<Suggest>
  {
    FlatMap(groups, GroupNames)
  }

  /** The number of names of some resources: each counts itself and its short names. */
  function Count(resources: seq<APIResource>): nat
  {
    if resources == [] then 0
    else Count(resources[..|resources| - 1]) + 1 + |Last(resources).shortNames|
  }

  function Total(groups: seq<ResourceList>): nat
  {
    if groups == [] then 0
    else Total(groups[..|groups| - 1]) + Count(Last(groups).apiResources)
  }

  lemma {:induction false} GroupLength(resources: seq<APIResource>)
    ensures |FlatMap(resources, ResourceNames)| == Count(resources)
    decreases |resources|
  {
    if resources != [] {
      GroupLength(resources[..|resources| - 1]);
    }
  }

  /** There are as many suggestions as names and short names. */
  lemma {:induction false} FlattenLength(groups: seq<ResourceList>)
    ensures |Flatten(groups)| == Total(groups)
    decreases |groups|
  {
    if groups != [] {
      FlattenLength(groups[..|groups| - 1]);
      GroupLength(Last(groups).apiResources);
    }
  }

  /** Every suggestion has an empty description. */
  lemma {:induction false} FlattenUndescribed(groups: seq<ResourceList>)
    ensures forall s :: s in Flatten(groups) ==> s.description == ""
    decreases |groups|
  {
    if groups != [] {
      FlattenUndescribed(groups[..|groups| - 1]);
      GroupUndescribed(Last(groups).apiResources);
    }
  }

  lemma {:induction false} GroupUndescribed(resources: seq<APIResource>)
    ensures forall s :: s in FlatMap(resources, ResourceNames) ==> s.description == ""
    decreases |resources|
  {
    if resources != [] {
      GroupUndescribed(resources[..|resources| - 1]);
    }
  }

  /** The groups of two lists follow one another. */
  lemma FlattenAppend(a: seq<ResourceList>, b: seq<ResourceList>)
    ensures Flatten(a + b) == Flatten(a) + Flatten(b)
  {
    FlatMapAppend(a, b, GroupNames);
  }

  /** A single resource contributes its name, then its short names. */
  lemma OneResource(resource: APIResource)
    ensures Flatten([ResourceList([resource])])
      == [Suggest(resource.name, "")] + Bare(resource.shortNames)
  {
    FlatMapOne(resource, ResourceNames);
    FlatMapOne(ResourceList([resource]), GroupNames);
    var r := Bare([resource.name] + resource.shortNames);
    assert r == [Suggest(resource.name, "")] + Bare(resource.shortNames);
  }

  /** A text is offered exactly when it names, or is a short name of, some
      resource of some group. */
  lemma {:induction false} FlattenOffers(groups: seq<ResourceList>, text: string)
    ensures Suggest(text, "") in Flatten(groups)
      <==> exists g, k :: 0 <= g < |groups| && 0 <= k < |groups[g].apiResources|
             && Named(groups[g].apiResources[k], text)
    decreases |groups|
  {
    if groups != [] {
      var init, last := groups[..|groups| - 1], Last(groups);
      FlattenOffers(init, text);
      GroupOffers(last.apiResources, text);
      assert forall g :: 0 <= g < |init| ==> groups[g] == init[g];
      if Suggest(text, "") in GroupNames(last) {
        var k :| 0 <= k < |last.apiResources| && Named(last.apiResources[k], text);
        assert groups[|groups| - 1] == last;
      }
    }
  }

  /** Whether a resource is called `text`, by name or short name. */
  predicate Named(resource: APIResource, text: string)
  {
    text == resource.name || text in resource.shortNames
  }

  lemma {:induction false} GroupOffers(resources: seq<APIResource>, text: string)
    ensures Suggest(text, "") in FlatMap(resources, ResourceNames)
      <==> exists k :: 0 <= k < |resources| && Named(resources[k], text)
    decreases |resources|
  {
    if resources != [] {
      var init, last := resources[..|resources| - 1], Last(resources);
      GroupOffers(init, text);
      ResourceOffers(last, text);
      assert forall k :: 0 <= k < |init| ==> resources[k] == init[k];
      if Named(last, text) {
        assert resources[|resources| - 1] == last;
      }
    }
  }

  lemma ResourceOffers(resource: APIResource, text: string)
    ensures Suggest(text, "") in ResourceNames(resource) <==> Named(resource, text)
  {
    var texts := [resource.name] + resource.shortNames;
    var r := ResourceNames(resource);
    if Suggest(text, "") in r {
      var i :| 0 <= i < |r| && r[i] == Suggest(text, "");
      assert text == texts[i];
      if i > 0 {
        assert texts[i] == resource.shortNames[i - 1];
      }
    }
    if text in resource.shortNames {
      var j :| 0 <= j < |resource.shortNames| && resource.shortNames[j] == text;
      assert r[j + 1] == Suggest(text, "");
    }
    if text == resource.name {
      assert r[0] == Suggest(text, "");
    }
  }

  /** loadApiResources, with the server's answer as a parameter: an error is
      returned and leaves the tables alone; otherwise both tables become the
      flattened list. */
  function LoadApiResources(fetched: Result<seq<ResourceList>>, tables: Tables): (r: (Tables, Option<string>))
    ensures fetched.Err? ==> r == (tables, Some(fetched.message))
    ensures fetched.Ok? ==>
      r.1 == None && r.0.resourceTypes == r.0.subcommands == Flatten(fetched.value)
  {
    match fetched
    case Err(message) => (tables, Some(message))
    case Ok(groups) =>
      var result := Flatten(groups);
      (Tables(result, result), None)
  }
}
