/**
 * The tile set descriptor the provider returns (`MVTTilesJson`) and the
 * copy-if-present reshaping both renderers apply to a fetched descriptor.
 */
module MvtModel {
  import opened Wrappers
  import opened Json
  import opened ProviderBase

  /** The one descriptor key the renderers read unconditionally. */
  const VectorLayers := "vector_layers"

  /** The descriptor keys the renderers copy only when present. */
  const OptionalKeys: set<string> :=
    {"name", "description", "attribution", "bounds", "center", "minzoom", "maxzoom"}

  /**
   * `MVTTilesJson`: every field starts at its default (`None` here) and is set
   * by attribute assignment.
   */
  datatype MvtTilesJson = MvtTilesJson(
    name: Option<Value>,
    description: Option<Value>,
    attribution: Option<Value>,
    bounds: Option<Value>,
    center: Option<Value>,
    minzoom: Option<Value>,
    maxzoom: Option<Value>,
    tiles: Option<seq<string>>,
    vectorLayers: Option<Value>)
  {
    /** The field an optional descriptor key is copied into. */
    function Get(key: string): Option<Value>
      requires key in OptionalKeys
    {
      if key == "name" then name
      else if key == "description" then description
      else if key == "attribution" then attribution
      else if key == "bounds" then bounds
      else if key == "center" then center
      else if key == "minzoom" then minzoom
      else maxzoom
    }
  }

  /** `MVTTilesJson()`: a descriptor with every field at its default. */
  function Blank(): MvtTilesJson {
    MvtTilesJson(None, None, None, None, None, None, None, None, None)
  }

  /** `doc[key]` when `doc` holds `key`, else the field's current value. */
  function CopyIfPresent(doc: Doc, key: string, current: Option<Value>): Option<Value> {
    if key in doc then Some(doc[key]) else current
  }

  /**
   * The descriptor a renderer builds from a fetched document `doc` whose
   * tiles are served at `tileUrl`. Present optional keys are copied, absent
   * ones keep the default, `tiles` names `tileUrl` alone and `vector_layers`
   * must be present, failing the lookup otherwise.
   */
  function Reshape(doc: Doc, tileUrl: string): (r: Result<MvtTilesJson, Error>)
    ensures r.Success? <==> VectorLayers in doc
    ensures r.Failure? ==> r.error == KeyError(VectorLayers)
    ensures r.Success? ==> r.value.tiles == Some([tileUrl])
    ensures r.Success? ==> r.value.vectorLayers == Some(doc[VectorLayers])
    ensures r.Success? ==> forall k :: k in OptionalKeys && k in doc ==> r.value.Get(k) == Some(doc[k])
    ensures r.Success? ==> forall k :: k in OptionalKeys && k !in doc ==> r.value.Get(k) == Blank().Get(k)
  {
    if VectorLayers !in doc then Failure(KeyError(VectorLayers))
    else
      var b := Blank();
      Success(MvtTilesJson(
        CopyIfPresent(doc, "name", b.name),
        CopyIfPresent(doc, "description", b.description),
        CopyIfPresent(doc, "attribution", b.attribution),
        CopyIfPresent(doc, "bounds", b.bounds),
        CopyIfPresent(doc, "center", b.center),
        CopyIfPresent(doc, "minzoom", b.minzoom),
        CopyIfPresent(doc, "maxzoom", b.maxzoom),
        Some([tileUrl]),
        Some(doc[VectorLayers])))
  }

  /**
   * The attribute-by-attribute construction both renderers perform on a
   * fetched document: start from the defaults, copy each present optional
   * key, set `tiles`, then look up `vector_layers`.
   */
  method BuildContent(doc: Doc, tileUrl: string) returns (r: Result<MvtTilesJson, Error>)
    ensures r == Reshape(doc, tileUrl)
  {
    var content := Blank();
    if "name" in doc { content := content.(name := Some(doc["name"])); }
    if "description" in doc { content := content.(description := Some(doc["description"])); }
    if "attribution" in doc { content := content.(attribution := Some(doc["attribution"])); }
    if "bounds" in doc { content := content.(bounds := Some(doc["bounds"])); }
    if "center" in doc { content := content.(center := Some(doc["center"])); }
    if "minzoom" in doc { content := content.(minzoom := Some(doc["minzoom"])); }
    if "maxzoom" in doc { content := content.(maxzoom := Some(doc["maxzoom"])); }
    content := content.(tiles := Some([tileUrl]));
    if VectorLayers !in doc {
      return Failure(KeyError(VectorLayers));
    }
    content := content.(vectorLayers := Some(doc[VectorLayers]));
    r := Success(content);
  }

  /**
   * The reshaped descriptor depends on nothing but the eight keys it reads:
   * two documents that agree on them give the same descriptor.
   */
  lemma ReshapeReadsOnlyKnownKeys(d1: Doc, d2: Doc, tileUrl: string)
    requires forall k :: k in OptionalKeys + {VectorLayers} ==> (k in d1 <==> k in d2)
    requires forall k :: k in OptionalKeys + {VectorLayers} && k in d1 ==> d1[k] == d2[k]
    ensures Reshape(d1, tileUrl) == Reshape(d2, tileUrl)
  {
  }

  /** Reshaping the same document for two tile URLs differs in `tiles` alone. */
  lemma ReshapeDiffersOnlyInTiles(doc: Doc, u1: string, u2: string)
    requires VectorLayers in doc
    ensures Reshape(doc, u1).value.(tiles := None) == Reshape(doc, u2).value.(tiles := None)
  {
  }
}
