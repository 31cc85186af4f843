/** The CloudFormation template as a JSON value, the choice of the newest
    Kurento Media Server image, and the `Mappings` section that points the
    template at that image. */
module Template {
  import opened Common

  datatype Json =
    | JNull
    | JBool(b: bool)
    | JNumber(n: int)
    | JString(s: string)
    | JArray(items: seq<Json>)
    | JObject(members: map<string, Json>)

  /** One image `describe_images` returns, with its creation date already
      converted to seconds since the epoch. */
  datatype Image = Image(imageId: string, creationTs: int)

  /** Image `k` is the one the selection loop keeps: a timestamp above 0,
      none later in the list, and none as late before it. */
  predicate IsLatest(images: seq<Image>, k: nat)
  {
    k < |images| && images[k].creationTs > 0
    && (forall j :: 0 <= j < |images| ==> images[j].creationTs <= images[k].creationTs)
    && (forall j :: 0 <= j < k ==> images[j].creationTs < images[k].creationTs)
  }

  /** At most one image is the latest, so the selection is determined. */
  lemma LatestIsUnique(images: seq<Image>, a: nat, b: nat)
    requires IsLatest(images, a) && IsLatest(images, b)
    ensures a == b
  {
  }

  /** The loop of `_build_cloudformation_template` that keeps the image with
      the largest timestamp, replacing the running best only on a strictly
      larger one; the running best starts at 0. */
  method LatestImage(images: seq<Image>) returns (imageId: Option<string>)
    ensures imageId.None? <==> forall j :: 0 <= j < |images| ==> images[j].creationTs <= 0
    ensures imageId.Some? ==> exists k: nat :: IsLatest(images, k) && images[k].imageId == imageId.value
  {
    var latestTs := 0;
    imageId := None;
    ghost var best := 0;
    for i := 0 to |images|
      invariant imageId.None? ==> latestTs == 0
      invariant imageId.None? <==> forall j :: 0 <= j < i ==> images[j].creationTs <= 0
      invariant imageId.Some? ==> best < i && images[best].imageId == imageId.value
      invariant imageId.Some? ==> latestTs == images[best].creationTs > 0
      invariant forall j :: 0 <= j < i ==> images[j].creationTs <= latestTs
      invariant 0 <= best <= i
      invariant forall j :: 0 <= j < best ==> images[j].creationTs < latestTs
    {
      if latestTs < images[i].creationTs {
        imageId := Some(images[i].imageId);
        latestTs := images[i].creationTs;
        best := i;
      }
    }
    if imageId.Some? {
      assert IsLatest(images, best);
    }
  }

  /** `{'RegionMap': {region: {'KmsImageId': imageId}}}`. */
  function RegionMap(region: string, imageId: string): Json
  {
    JObject(map["RegionMap" := JObject(map[region := JObject(map["KmsImageId" := JString(imageId)])])])
  }

  /** `template['Mappings'] = mappings`. */
  function WithMappings(template: map<string, Json>, mappings: Json): (t: map<string, Json>)
    ensures t.Keys == template.Keys + {"Mappings"}
    ensures t["Mappings"] == mappings
    ensures forall k :: k in template && k != "Mappings" ==> t[k] == template[k]
  {
    template["Mappings" := mappings]
  }

  /** CloudFormation's `Fn::FindInMap [mapName, key, attribute]` on a template. */
  function FindInMap(template: map<string, Json>, mapName: string, key: string, attribute: string): Option<Json>
  {
    if "Mappings" in template && template["Mappings"].JObject?
       && mapName in template["Mappings"].members && template["Mappings"].members[mapName].JObject?
       && key in template["Mappings"].members[mapName].members
       && template["Mappings"].members[mapName].members[key].JObject?
       && attribute in template["Mappings"].members[mapName].members[key].members
    then Some(template["Mappings"].members[mapName].members[key].members[attribute])
    else None
  }

  /** After the injection, the template finds the chosen image for the
      region. */
  lemma RegionMapFindsImage(template: map<string, Json>, region: string, imageId: string)
    ensures FindInMap(WithMappings(template, RegionMap(region, imageId)), "RegionMap", region, "KmsImageId")
            == Some(JString(imageId))
  {
  }

  /** After the injection, the template has no image for any other region,
      whatever mappings it had before. */
  lemma RegionMapOtherRegion(template: map<string, Json>, region: string, imageId: string, other: string)
    requires other != region
    ensures FindInMap(WithMappings(template, RegionMap(region, imageId)), "RegionMap", other, "KmsImageId")
            == None
  {
  }
}
