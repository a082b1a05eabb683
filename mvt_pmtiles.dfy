/**
 * The PMTiles vector tile provider: where the tiles and their descriptor
 * live, and the two metadata views rendered from that descriptor.
 */
module MvtPmtiles {
  import opened Wrappers
  import opened Json
  import opened ProviderBase
  import opened Strings
  import opened MvtModel

  /** A location the provider records: a URL, or a filesystem path as its parts. */
  datatype Location = Url(text: string) | FsPath(parts: seq<string>)

  /** The parts of `urlparse(data)` the provider reads. */
  datatype ParsedUrl = ParsedUrl(scheme: string, netloc: string)

  /** The service location and the descriptor location fixed at construction. */
  datatype Locations = Locations(service: Location, serviceMetadata: Location)

  /** A path's text, its parts separated by `/` (no normalisation). */
  function PathText(parts: seq<string>): string {
    if parts == [] then ""
    else if |parts| == 1 then parts[0]
    else PathText(parts[..|parts| - 1]) + "/" + parts[|parts| - 1]
  }

  /** How a location reads when formatted into a message. */
  function Show(loc: Location): string {
    match loc
    case Url(text) => text
    case FsPath(parts) => PathText(parts)
  }

  /** The placeholders of the per-tile templates. */
  const TileMatrixSetId := "{tileMatrixSetId}"
  const TileMatrixRowCol := "{tileMatrix}/{tileRow}/{tileCol}"
  const ZXY := "{z}/{x}/{y}"

  /** Prefix of the message raised when the configured local path is missing. */
  const ServiceMissing := "Service does not exist: "
  /** Prefix of the message the vendor view raises when the descriptor is unreachable. */
  const NoTilesMetadata := "No tiles metadata json available: "

  /** `scheme://netloc` of the configured URL. */
  function BaseUrl(url: ParsedUrl): string {
    url.scheme + "://" + url.netloc
  }

  /** The descriptor location `__init__` finally records for a remote tile set:
   * the layer already starts with `/`, so the path begins with `//`. */
  function BaseUrlJson(baseurl: string, layer: string): string {
    baseurl + "//" + layer + ".json"
  }

  /** The templated per-tile path below the base URL of a remote tile set. */
  function ServicePath(layer: string): string {
    "/" + layer + "/tiles" + "/" + TileMatrixSetId + "/" + TileMatrixRowCol + "?f=mvt"
  }

  /**
   * The descriptor location `__init__` derives first for a remote tile set:
   * the service URL cut before `{tileMatrix}/{tileRow}/{tileCol}`, joined
   * with `metadata`. `Init` overwrites it before returning.
   */
  function DerivedMetadataUrl(baseurl: string, layer: string, urlJoin: (string, string) -> string): string {
    urlJoin(SplitHead(urlJoin(baseurl, ServicePath(layer)), TileMatrixRowCol), "metadata")
  }

  /**
   * The locations `__init__` settles on for configured `data` and layer
   * `layer`, given what `is_url`, `urlparse` and `Path.exists` report for
   * `data`, and `head`, the outcome of the HEAD request for the remote
   * descriptor: a status code, or the error the request raised. The status
   * code itself and the existence of a local `metadata` file are only
   * logged; an error from the HEAD request fails construction.
   */
  function Locate(data: string, layer: string, isUrl: bool, url: ParsedUrl, head: Result<int, Error>,
                  dataExists: bool, urlJoin: (string, string) -> string): (r: Result<Locations, Error>)
    ensures isUrl ==> (r.Success? <==> head.Success?)
    ensures isUrl && head.Failure? ==> r == Failure(head.error)
    ensures isUrl && r.Success? ==> r.value.service == Url(urlJoin(BaseUrl(url), ServicePath(layer)))
    ensures isUrl && r.Success? ==> r.value.serviceMetadata == Url(BaseUrlJson(BaseUrl(url), layer))
    ensures !isUrl ==> (r.Failure? <==> !dataExists)
    ensures !isUrl && r.Failure? ==> r.error.ConnectionError? && EndsWith(r.error.message, data)
    ensures !isUrl && r.Success? ==> r.value.service == FsPath([data])
    ensures !isUrl && r.Success? ==> r.value.serviceMetadata == FsPath([data, "metadata"])
  {
    if isUrl then
      var baseurl := BaseUrl(url);
      var layerPath := "/" + layer;
      assert baseurl + "/" + layerPath + ".json" == BaseUrlJson(baseurl, layer);
      match head
      case Failure(e) => Failure(e)
      case Success(_) =>
        Success(Locations(Url(urlJoin(baseurl, ServicePath(layer))),
                          Url(baseurl + "/" + layerPath + ".json")))
    else if !dataExists then
      Failure(ConnectionError(ServiceMissing + data))
    else
      assert [data] + ["metadata"] == [data, "metadata"];
      Success(Locations(FsPath([data]), FsPath([data] + ["metadata"])))
  }

  /** Whatever status code the HEAD request returns, `__init__` settles on the same locations. */
  lemma LocateIgnoresHeadStatus(data: string, layer: string, isUrl: bool, url: ParsedUrl,
                                status1: int, status2: int, dataExists: bool,
                                urlJoin: (string, string) -> string)
    ensures Locate(data, layer, isUrl, url, Success(status1), dataExists, urlJoin)
         == Locate(data, layer, isUrl, url, Success(status2), dataExists, urlJoin)
  {
  }

  /** `url_join(server_url, 'collections/<dataset>/tiles/<tileset>/<suffix>')`. */
  function TilesetUrl(urlJoin: (string, string) -> string, serverUrl: string, dataset: string,
                      tileset: string, suffix: string): string {
    urlJoin(serverUrl, "collections/" + dataset + "/tiles/" + tileset + "/" + suffix)
  }

  /** The tile URL of the HTML view (OGC API placeholders). */
  function HtmlTileUrl(urlJoin: (string, string) -> string, serverUrl: string, dataset: string,
                       tileset: string): string {
    TilesetUrl(urlJoin, serverUrl, dataset, tileset, TileMatrixRowCol + "?f=mvt")
  }

  /** The tile URL of the vendor view (`{z}/{x}/{y}` placeholders). */
  function VendorTileUrl(urlJoin: (string, string) -> string, serverUrl: string, dataset: string,
                         tileset: string): string {
    TilesetUrl(urlJoin, serverUrl, dataset, tileset, ZXY + "?f=mvt")
  }

  /** The tile set's metadata resource on this server. */
  function MetadataUrl(urlJoin: (string, string) -> string, serverUrl: string, dataset: string,
                       tileset: string): string {
    TilesetUrl(urlJoin, serverUrl, dataset, tileset, "metadata")
  }

  /** A value of the dictionary the HTML view returns. */
  datatype HtmlValue = Text(s: string) | Reshaped(content: MvtTilesJson)

  /** The five keys the HTML view always returns. */
  const EnvelopeKeys: set<string> := {"id", "title", "tileset", "collections_path", "json_url"}

  /** The part of the HTML view built before the descriptor is fetched. */
  function Envelope(dataset: string, title: string, tileset: string, collectionsPath: string,
                    metadataUrl: string): (m: map<string, HtmlValue>)
    ensures m.Keys == EnvelopeKeys
    ensures m["id"] == Text(dataset) && m["title"] == Text(title) && m["tileset"] == Text(tileset)
    ensures m["collections_path"] == Text(collectionsPath)
    ensures m["json_url"] == Text(metadataUrl + "?f=json")
  {
    map["id" := Text(dataset), "title" := Text(title), "tileset" := Text(tileset),
        "collections_path" := Text(collectionsPath), "json_url" := Text(metadataUrl + "?f=json")]
  }

  /**
   * The HTML view for a descriptor fetch that ended in `fetched`. A connection
   * error leaves exactly the envelope; any other error, or a fetched document
   * without `vector_layers`, fails the call; otherwise the envelope gains the
   * reshaped descriptor and the tilejson link.
   */
  function HtmlView(dataset: string, serverUrl: string, tileset: string, title: string,
                    urlJoin: (string, string) -> string, fetched: Result<Doc, Error>)
    : (r: Result<map<string, HtmlValue>, Error>)
    ensures
      var envelope := Envelope(dataset, title, tileset, HtmlTileUrl(urlJoin, serverUrl, dataset, tileset),
                               MetadataUrl(urlJoin, serverUrl, dataset, tileset));
      r.Success? ==> forall k :: k in envelope ==> k in r.value && r.value[k] == envelope[k]
    ensures fetched.Failure? && fetched.error.ConnectionError? ==>
      r.Success? && r.value.Keys == EnvelopeKeys
    ensures fetched.Failure? && !fetched.error.ConnectionError? ==> r == Failure(fetched.error)
    ensures fetched.Success? ==> (r.Failure? <==> VectorLayers !in fetched.value)
    ensures fetched.Success? && r.Failure? ==> r.error == KeyError(VectorLayers)
    ensures fetched.Success? && r.Success? ==>
      && r.value.Keys == EnvelopeKeys + {"metadata", "tilejson_url"}
      && r.value["metadata"] == Reshaped(Reshape(fetched.value, HtmlTileUrl(urlJoin, serverUrl, dataset, tileset)).value)
      && r.value["tilejson_url"] == Text(MetadataUrl(urlJoin, serverUrl, dataset, tileset) + "?f=tilejson")
  {
    var tileUrl := HtmlTileUrl(urlJoin, serverUrl, dataset, tileset);
    var metadataUrl := MetadataUrl(urlJoin, serverUrl, dataset, tileset);
    var envelope := Envelope(dataset, title, tileset, tileUrl, metadataUrl);
    match fetched
    case Failure(e) => if e.ConnectionError? then Success(envelope) else Failure(e)
    case Success(doc) =>
      match Reshape(doc, tileUrl)
      case Failure(e) => Failure(e)
      case Success(content) =>
        Success(envelope["metadata" := Reshaped(content)]["tilejson_url" := Text(metadataUrl + "?f=tilejson")])
  }

  /**
   * The vendor (tilejson) view for a descriptor fetch at `metadataLocation`
   * that ended in `fetched`: the reshaped descriptor alone. A connection error
   * is raised again with a message naming `metadataLocation`; any other error,
   * or a missing `vector_layers`, fails the call as it is.
   */
  function VendorView(dataset: string, serverUrl: string, tileset: string,
                      urlJoin: (string, string) -> string, metadataLocation: Location,
                      fetched: Result<Doc, Error>): (r: Result<MvtTilesJson, Error>)
    ensures fetched.Failure? && fetched.error.ConnectionError? ==>
      r.Failure? && r.error.ConnectionError? && EndsWith(r.error.message, Show(metadataLocation))
    ensures fetched.Failure? && !fetched.error.ConnectionError? ==> r == Failure(fetched.error)
    ensures fetched.Success? ==> (r.Failure? <==> VectorLayers !in fetched.value)
    ensures fetched.Success? && r.Failure? ==> r.error == KeyError(VectorLayers)
    ensures fetched.Success? ==> r == Reshape(fetched.value, VendorTileUrl(urlJoin, serverUrl, dataset, tileset))
  {
    match fetched
    case Failure(e) =>
      if e.ConnectionError? then Failure(ConnectionError(NoTilesMetadata + Show(metadataLocation)))
      else Failure(e)
    case Success(doc) =>
      Reshape(doc, VendorTileUrl(urlJoin, serverUrl, dataset, tileset))
  }

  /**
   * `MVTPmtilesProvider`. `data` and `layer` come from the provider
   * definition; `__init__` fixes the service and descriptor locations, which
   * the renderers read.
   */
  class MvtPmtilesProvider {
    /** The configured data location: a URL or a filesystem path. */
    const data: string
    /** The configured layer name (`get_layer()`). */
    const layer: string
    /** `_service_url`; `None` until `Init` has set it. */
    var serviceUrl: Option<Location>
    /** `_service_metadata_url`; `None` until `Init` has set it. */
    var serviceMetadataUrl: Option<Location>

    /** Both locations are set. */
    predicate Located()
      reads this
    {
      serviceUrl.Some? && serviceMetadataUrl.Some?
    }

    /** The base provider's part of construction: it records the configuration. */
    constructor (data: string, layer: string)
      ensures this.data == data && this.layer == layer
      ensures serviceUrl == None && serviceMetadataUrl == None
    {
      this.data := data;
      this.layer := layer;
      serviceUrl := None;
      serviceMetadataUrl := None;
    }

    /**
     * The rest of `__init__`. `isUrl`, `url`, `head`, `dataExists` and
     * `metadataExists` are what `is_url(data)`, `urlparse(data)`, the HEAD
     * request for the remote descriptor (a status code or a raised error),
     * and `Path.exists` on the data path and on its `metadata` file report.
     * On success both locations are those of `Locate`. When the HEAD request
     * raises, the locations assigned before it remain; a missing local data
     * path fails and changes nothing.
     */
    method Init(isUrl: bool, url: ParsedUrl, head: Result<int, Error>, dataExists: bool, metadataExists: bool,
                urlJoin: (string, string) -> string) returns (outcome: Outcome<Error>)
      modifies this
      ensures
        match Locate(data, layer, isUrl, url, head, dataExists, urlJoin)
        case Success(locs) =>
          outcome == Pass && serviceUrl == Some(locs.service) && serviceMetadataUrl == Some(locs.serviceMetadata)
        case Failure(e) =>
          && outcome == Fail(e)
          && (isUrl ==>
                serviceUrl == Some(Url(urlJoin(BaseUrl(url), ServicePath(layer))))
                && serviceMetadataUrl == Some(Url(DerivedMetadataUrl(BaseUrl(url), layer, urlJoin))))
          && (!isUrl ==> serviceUrl == old(serviceUrl) && serviceMetadataUrl == old(serviceMetadataUrl))
    {
      if isUrl {
        var baseurl := BaseUrl(url);
        var layerPath := "/" + layer;
        var tilepath := layerPath + "/tiles";
        var servicepath := tilepath + "/" + TileMatrixSetId + "/" + TileMatrixRowCol + "?f=mvt";
        assert servicepath == ServicePath(layer);
        serviceUrl := Some(Url(urlJoin(baseurl, servicepath)));
        serviceMetadataUrl := Some(Url(DerivedMetadataUrl(baseurl, layer, urlJoin)));
        var metadataPath := baseurl + "/" + layerPath + ".json";
        if head.Failure? {
          // The HEAD request raised: construction fails with its error.
          return Fail(head.error);
        }
        if head.value != 200 {
          // The missing remote descriptor is logged, not raised.
        }
        serviceMetadataUrl := Some(Url(metadataPath));
        outcome := Pass;
      } else {
        if !dataExists {
          return Fail(ConnectionError(ServiceMissing + data));
        }
        serviceUrl := Some(FsPath([data]));
        var metadataPath := FsPath([data] + ["metadata"]);
        if !metadataExists {
          // The missing local descriptor is logged, not raised.
        }
        serviceMetadataUrl := Some(metadataPath);
        outcome := Pass;
      }
    }

    /**
     * `get_html_metadata`, for a call in which fetching the descriptor at
     * `serviceMetadataUrl` ends in `fetch(serviceMetadataUrl)`. `layer`,
     * `description` and `keywords` are accepted and ignored.
     */
    method GetHtmlMetadata(dataset: string, serverUrl: string, layer: string, tileset: string,
                           title: string, description: string, keywords: seq<string>,
                           urlJoin: (string, string) -> string, fetch: Location -> Result<Doc, Error>)
      returns (r: Result<map<string, HtmlValue>, Error>)
      requires Located()
      ensures r == HtmlView(dataset, serverUrl, tileset, title, urlJoin, fetch(serviceMetadataUrl.value))
    {
      var tileUrl := HtmlTileUrl(urlJoin, serverUrl, dataset, tileset);
      var metadataUrl := MetadataUrl(urlJoin, serverUrl, dataset, tileset);
      var metadata: map<string, HtmlValue> := map[];
      metadata := metadata["id" := Text(dataset)];
      metadata := metadata["title" := Text(title)];
      metadata := metadata["tileset" := Text(tileset)];
      metadata := metadata["collections_path" := Text(tileUrl)];
      metadata := metadata["json_url" := Text(metadataUrl + "?f=json")];
      var fetched := fetch(serviceMetadataUrl.value);
      if fetched.Failure? {
        if fetched.error.ConnectionError? {
          // No vendor metadata: the envelope alone is returned.
          return Success(metadata);
        }
        return Failure(fetched.error);
      }
      var content := BuildContent(fetched.value, tileUrl);
      if content.Failure? {
        return Failure(content.error);
      }
      metadata := metadata["metadata" := Reshaped(content.value)];
      metadata := metadata["tilejson_url" := Text(metadataUrl + "?f=tilejson")];
      r := Success(metadata);
    }

    /**
     * `get_vendor_metadata`, for a call in which fetching the descriptor at
     * `serviceMetadataUrl` ends in `fetch(serviceMetadataUrl)`. `layer`,
     * `title`, `description` and `keywords` are accepted and ignored.
     */
    method GetVendorMetadata(dataset: string, serverUrl: string, layer: string, tileset: string,
                             title: string, description: string, keywords: seq<string>,
                             urlJoin: (string, string) -> string, fetch: Location -> Result<Doc, Error>)
      returns (r: Result<MvtTilesJson, Error>)
      requires Located()
      ensures r == VendorView(dataset, serverUrl, tileset, urlJoin, serviceMetadataUrl.value,
                              fetch(serviceMetadataUrl.value))
    {
      var fetched := fetch(serviceMetadataUrl.value);
      if fetched.Failure? {
        if fetched.error.ConnectionError? {
          return Failure(ConnectionError(NoTilesMetadata + Show(serviceMetadataUrl.value)));
        }
        return Failure(fetched.error);
      }
      var tileUrl := VendorTileUrl(urlJoin, serverUrl, dataset, tileset);
      r := BuildContent(fetched.value, tileUrl);
    }
  }

  /**
   * The remote per-tile template holds the placeholders for the tile matrix
   * set, the matrix, the row and the column, in that order.
   */
  lemma {:induction false} ServicePathHasPlaceholders(layer: string)
    ensures exists i, j :: i < j && OccursAt(ServicePath(layer), TileMatrixSetId, i)
                                 && OccursAt(ServicePath(layer), TileMatrixRowCol, j)
    ensures EndsWith(ServicePath(layer), "?f=mvt")
  {
    var p := ServicePath(layer);
    var k := |layer| + 8;
    assert p[k..k + |TileMatrixSetId|] == TileMatrixSetId;
    assert OccursAt(p, TileMatrixSetId, k);
    var m := k + |TileMatrixSetId| + 1;
    assert p[m..m + |TileMatrixRowCol|] == TileMatrixRowCol;
    assert OccursAt(p, TileMatrixRowCol, m);
  }

  /** No `{` occurs in `s`. */
  predicate NoBrace(s: string) {
    forall i :: 0 <= i < |s| ==> s[i] != '{'
  }

  /** The remote service path up to the matrix placeholders. */
  function ServiceHead(baseurl: string, layer: string): string {
    baseurl + "/" + layer + "/tiles/" + TileMatrixSetId + "/"
  }

  /** In that head, the only `{` opens `{tileMatrixSetId}`. */
  lemma {:induction false} ServiceHeadBraces(baseurl: string, layer: string)
    requires NoBrace(baseurl) && NoBrace(layer)
    ensures var h, k := ServiceHead(baseurl, layer), |baseurl| + |layer| + 8;
      && k + 11 < |h| && h[k + 11] == 'S'
      && forall i :: 0 <= i < |h| && i != k ==> h[i] != '{'
  {
  }

  /** A `url_join` that keeps both parts as they are. */
  function PlainJoin(a: string, b: string): string {
    a + b
  }

  /** The matrix placeholders do not occur in the service path before the head ends. */
  lemma {:induction false} ServiceHeadFirstMatch(baseurl: string, layer: string, tail: string)
    requires NoBrace(baseurl) && NoBrace(layer)
    ensures var head := ServiceHead(baseurl, layer);
      forall i :: 0 <= i < |head| ==> !OccursAt(head + TileMatrixRowCol + tail, TileMatrixRowCol, i)
  {
    var head := ServiceHead(baseurl, layer);
    var sep := TileMatrixRowCol;
    var s := head + sep + tail;
    ServiceHeadBraces(baseurl, layer);
    var k := |baseurl| + |layer| + 8;
    forall i | 0 <= i < |head|
      ensures !OccursAt(s, sep, i)
    {
      if i == k {
        assert s[k + 11] == head[k + 11];
        MismatchAt(s, sep, i, 11);
      } else {
        assert s[i] == head[i];
        MismatchAt(s, sep, i, 0);
      }
    }
  }

  /**
   * When `url_join` keeps its parts as they are and neither the base URL nor
   * the layer holds a `{`, the descriptor location derived first (and then
   * overwritten) is `<baseurl>/<layer>/tiles/{tileMatrixSetId}/` joined with
   * `metadata`: it never equals the final `<baseurl>//<layer>.json`.
   */
  lemma {:induction false} DerivedMetadataUrlOfPlainJoin(baseurl: string, layer: string)
    requires NoBrace(baseurl) && NoBrace(layer)
    ensures DerivedMetadataUrl(baseurl, layer, PlainJoin) == ServiceHead(baseurl, layer) + "metadata"
    ensures DerivedMetadataUrl(baseurl, layer, PlainJoin) != BaseUrlJson(baseurl, layer)
  {
    var head := ServiceHead(baseurl, layer);
    var sep, tail := TileMatrixRowCol, "?f=mvt";
    assert ServicePath(layer) == "/" + layer + "/tiles/" + TileMatrixSetId + "/" + sep + tail;
    assert PlainJoin(baseurl, ServicePath(layer)) == head + sep + tail;
    ServiceHeadFirstMatch(baseurl, layer, tail);
    SplitHeadOfJoined(head, sep, tail);
    var d := DerivedMetadataUrl(baseurl, layer, PlainJoin);
    assert d == head + "metadata";
    var f := BaseUrlJson(baseurl, layer);
    assert d[|d| - 1] == 'a' && f[|f| - 1] == 'n';
  }

  /**
   * The two views reshape the fetched descriptor alike: the HTML view's
   * `metadata` and the vendor view differ in `tiles` alone, each naming its
   * own tile template.
   */
  lemma ViewsShareDescriptor(dataset: string, serverUrl: string, tileset: string, title: string,
                             urlJoin: (string, string) -> string, loc: Location, doc: Doc)
    requires VectorLayers in doc
    ensures HtmlView(dataset, serverUrl, tileset, title, urlJoin, Success(doc)).Success?
    ensures VendorView(dataset, serverUrl, tileset, urlJoin, loc, Success(doc)).Success?
    ensures
      var html := HtmlView(dataset, serverUrl, tileset, title, urlJoin, Success(doc)).value["metadata"].content;
      var vendor := VendorView(dataset, serverUrl, tileset, urlJoin, loc, Success(doc)).value;
      && html.(tiles := None) == vendor.(tiles := None)
      && html.tiles == Some([HtmlTileUrl(urlJoin, serverUrl, dataset, tileset)])
      && vendor.tiles == Some([VendorTileUrl(urlJoin, serverUrl, dataset, tileset)])
  {
  }

  /**
   * A local tile set whose directory exists but holds no readable `metadata`
   * file is located all the same; the vendor view then raises a connection
   * error naming `<data>/metadata`.
   */
  lemma LocalMissingMetadataFailsVendorView(data: string, layer: string, url: ParsedUrl, head: Result<int, Error>,
                                            urlJoin: (string, string) -> string, dataset: string,
                                            serverUrl: string, tileset: string, message: string)
    ensures Locate(data, layer, false, url, head, true, urlJoin).Success?
    ensures
      var loc := Locate(data, layer, false, url, head, true, urlJoin).value.serviceMetadata;
      var r := VendorView(dataset, serverUrl, tileset, urlJoin, loc, Failure(ConnectionError(message)));
      r.Failure? && r.error.ConnectionError? && EndsWith(r.error.message, data + "/metadata")
  {
    var parts := [data, "metadata"];
    assert parts[..1] == [data];
    assert PathText(parts) == PathText([data]) + "/" + "metadata";
    assert PathText(parts) == data + "/metadata";
  }

  /**
   * A descriptor with a zoom range and layers but none of the other optional
   * keys renders in the HTML view with those values and defaults elsewhere.
   */
  lemma HtmlViewOfZoomOnlyDescriptor(dataset: string, serverUrl: string, tileset: string, title: string,
                                     urlJoin: (string, string) -> string)
    ensures
      var layers := Arr([Obj(map["id" := Str("roads")])]);
      var doc := map["minzoom" := Num(0), "maxzoom" := Num(14), VectorLayers := layers];
      var r := HtmlView(dataset, serverUrl, tileset, title, urlJoin, Success(doc));
      && r.Success?
      && r.value["metadata"].content.minzoom == Some(Num(0))
      && r.value["metadata"].content.maxzoom == Some(Num(14))
      && r.value["metadata"].content.vectorLayers == Some(layers)
      && r.value["metadata"].content.name == None
      && r.value["metadata"].content.description == None
      && r.value["metadata"].content.attribution == None
      && r.value["metadata"].content.bounds == None
      && r.value["metadata"].content.center == None
  {
  }
}
