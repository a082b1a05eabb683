# PMTiles vector tile provider — a Dafny model

This project models the core of pygeoapi's PMTiles vector tile provider,
`MVTPmtilesProvider` (`pygeoapi/provider/mvt_pmtiles.py`). The provider serves
pre-rendered Mapbox Vector Tiles. The tiles come either from a remote
go-pmtiles server (a URL) or from a local directory.

The model covers three parts of the provider:

- **Construction** (`__init__`). The configured `data` is a URL or a local
  path. Construction fixes two locations from it: where the tiles are served
  (`service_url`) and where the tile set's descriptor document lives
  (`service_metadata_url`).
  - For a URL, construction sends a HEAD request for the descriptor and fails
    only if that request itself raises an error. When it returns a response,
    the descriptor location is `<scheme>://<netloc>//<layer>.json`, and the
    response status only decides whether a message is logged. The value
    first derived at lines 83-85 is then always overwritten. The double slash
    is what the code builds, because the layer path already starts with `/`.
  - For a local path, construction fails with a connection error only when
    the path itself is missing. Otherwise the descriptor location is
    `<path>/metadata`, whether or not that file exists.
- **Descriptor reshaping.** Both renderers start from an `MVTTilesJson` with
  every field at its default. They copy each of `name`, `description`,
  `attribution`, `bounds`, `center`, `minzoom` and `maxzoom` only when the
  fetched document holds it. They set `tiles` to the renderer's one
  templated tile URL. Then they look up `vector_layers`, which must be present.
- **Error policy of the two renderers.**
  - `get_html_metadata` swallows a connection error from the descriptor fetch
    and returns the five envelope keys alone. On success it adds `metadata`
    and `tilejson_url`.
  - `get_vendor_metadata` raises a new connection error whose message names
    the descriptor location. On success it returns the reshaped descriptor
    alone.
  - Neither renderer catches a missing `vector_layers` (a `KeyError`) or any
    error other than a connection error.

The model has these modules:

- `Wrappers`: `Option`, `Result`, `Outcome`.
- `Json`: the JSON values a fetched descriptor holds.
- `ProviderBase`: the error kinds (connection error, missing key, any other
  error).
- `Strings`: Python's `str.split(sep)[0]`.
- `MvtModel`: the `MVTTilesJson` record and the reshaping. `Reshape` is the
  reference function. `BuildContent` is the attribute-by-attribute
  construction, proved equal to `Reshape`.
- `MvtPmtiles`: the provider.
  - `Locate`, `HtmlView` and `VendorView` are reference functions; their
    contracts state the properties above.
  - The class `MvtPmtilesProvider` has the fields `serviceUrl` and
    `serviceMetadataUrl`.
  - Its method `Init` assigns those fields step by step as `__init__` does,
    including the assignment that is later overwritten.
  - Its methods `GetHtmlMetadata` and `GetVendorMetadata` build the result
    dictionary key by key.
  - Each method is proved equal to its reference function.

External calls become parameters:

- `is_url(data)`, `urlparse(data)` and the two `Path.exists` results are
  plain parameters of `Init`. The HEAD request's outcome is a parameter too:
  a status code, or the error the request raised.
- `url_join` is an uninterpreted `urlJoin: (string, string) -> string`
  parameter.
- The inherited `get_metadata_from_URL` is a `fetch: Location -> Result<Doc, Error>`
  parameter of each render call. Each call therefore sees its own fetch
  outcome, and nothing is cached between calls.

The remote descriptor location reads naturally as `<baseurl>/<layer>.json`,
but the code builds `<baseurl>//<layer>.json`, and the model keeps what the
code builds (`MvtPmtiles.Locate`, `MvtPmtiles.BaseUrlJson`).

## Model

| member | source | states |
|---|---|---|
| `Strings.SplitHead` | pygeoapi/provider/mvt_pmtiles.py:84 | `s.split(sep)[0]` is a prefix of `s`. No occurrence of `sep` starts inside it. When it is shorter than `s`, `sep` occurs right after it. When it is all of `s`, `sep` does not occur at all. |
| `Strings.SplitHeadOfJoined` | pygeoapi/provider/mvt_pmtiles.py:84 | Take a head with no earlier occurrence of `sep`, then `sep`, then any tail. Splitting that string at `sep` yields exactly the head. |
| `MvtModel.Reshape` | pygeoapi/provider/mvt_pmtiles.py:134-150 | Reshaping succeeds iff `vector_layers` is in the document. Otherwise it fails with a `KeyError` for `vector_layers`. Each of the seven optional keys present in the document is copied into its field. Each absent one leaves the field at its default. `tiles` is the one-element list of the tile URL. `vector_layers` is copied as it is. |
| `MvtModel.BuildContent` | pygeoapi/provider/mvt_pmtiles.py:173-189 | The attribute-by-attribute construction (seven conditional copies, `tiles`, then the `vector_layers` lookup) yields exactly `Reshape`'s result, error included. |
| `MvtModel.ReshapeReadsOnlyKnownKeys` | pygeoapi/provider/mvt_pmtiles.py:135-150 | Two documents that agree on the eight keys read give the same reshaped descriptor. Any other key is ignored. |
| `MvtModel.ReshapeDiffersOnlyInTiles` | pygeoapi/provider/mvt_pmtiles.py:188 | Reshaping one document for two tile URLs gives descriptors that differ in `tiles` alone. |
| `MvtPmtiles.Locate` | pygeoapi/provider/mvt_pmtiles.py:70-108 | A URL is located iff the HEAD request returns a response, whatever its status. If the request raises, its error is the result. Once located, the service URL is `url_join(<scheme>://<netloc>, /<layer>/tiles/{tileMatrixSetId}/{tileMatrix}/{tileRow}/{tileCol}?f=mvt)` and the descriptor location is `<scheme>://<netloc>//<layer>.json`. A local path fails iff it does not exist, with a connection error whose message ends with the path. Otherwise the service location is the path and the descriptor location is the path joined with `metadata`. |
| `MvtPmtiles.LocateIgnoresHeadStatus` | pygeoapi/provider/mvt_pmtiles.py:88-93 | Any two HEAD status codes lead to the same located result. |
| `MvtPmtiles.MvtPmtilesProvider.constructor` | pygeoapi/provider/mvt_pmtiles.py:67 | The base provider's part of construction records `data` and the layer. Neither location is set yet. |
| `MvtPmtiles.MvtPmtilesProvider.Init` | pygeoapi/provider/mvt_pmtiles.py:69-108 | On success both fields hold `Locate`'s locations, whatever the HEAD status and whether or not the local `metadata` file exists. So the value assigned at lines 83-85 never survives a successful construction. If the HEAD request raises, `Init` returns that error, and the fields keep the values assigned at lines 81-85. A missing local path returns that connection error and leaves both fields unchanged. |
| `MvtPmtiles.Envelope` | pygeoapi/provider/mvt_pmtiles.py:123-128 | The HTML view's envelope has exactly the keys `id`, `title`, `tileset`, `collections_path` and `json_url`. They hold the dataset, the title, the tileset, the tile URL and the metadata URL followed by `?f=json`. |
| `MvtPmtiles.HtmlView` | pygeoapi/provider/mvt_pmtiles.py:113-158 | On any success the five envelope keys hold `id`=dataset, `title`, `tileset`, `collections_path`=the `{tileMatrix}/{tileRow}/{tileCol}` tile URL and `json_url`=metadata URL+`?f=json`. A connection error from the fetch yields exactly those five keys and no failure. Any other fetch error propagates unchanged. A fetched document fails the call iff it lacks `vector_layers`, with that `KeyError`. Otherwise the keys are the envelope plus `metadata` (the reshaped descriptor) and `tilejson_url` (metadata URL+`?f=tilejson`). |
| `MvtPmtiles.VendorView` | pygeoapi/provider/mvt_pmtiles.py:160-194 | A connection error from the fetch becomes a connection error whose message ends with the descriptor location. Any other fetch error propagates unchanged. A fetched document fails the call iff it lacks `vector_layers`, with that `KeyError`. On success the result is the reshaped descriptor alone, its `tiles` the one `{z}/{x}/{y}` tile URL. |
| `MvtPmtiles.MvtPmtilesProvider.GetHtmlMetadata` | pygeoapi/provider/mvt_pmtiles.py:113-158 | The key-by-key construction returns exactly `HtmlView` of the outcome of fetching `serviceMetadataUrl`. `layer`, `description` and `keywords` have no influence. |
| `MvtPmtiles.MvtPmtilesProvider.GetVendorMetadata` | pygeoapi/provider/mvt_pmtiles.py:160-194 | The construction returns exactly `VendorView` of `serviceMetadataUrl` and of the outcome of fetching it. `layer`, `title`, `description` and `keywords` have no influence. |
| `MvtPmtiles.ServicePathHasPlaceholders` | pygeoapi/provider/mvt_pmtiles.py:78-79 | The remote per-tile path holds `{tileMatrixSetId}`, and after it `{tileMatrix}/{tileRow}/{tileCol}`. It ends with `?f=mvt`. |
| `MvtPmtiles.DerivedMetadataUrlOfPlainJoin` | pygeoapi/provider/mvt_pmtiles.py:83-85 | Suppose `url_join` concatenates and neither base URL nor layer holds `{`. Then the descriptor location first derived is `<baseurl>/<layer>/tiles/{tileMatrixSetId}/metadata`. It differs from the `<baseurl>//<layer>.json` that replaces it. |
| `MvtPmtiles.ViewsShareDescriptor` | pygeoapi/provider/mvt_pmtiles.py:169-189 | For a document with `vector_layers`, the HTML view's `metadata` and the vendor view agree on every field but `tiles`. Each names its own template: `{tileMatrix}/{tileRow}/{tileCol}` and `{z}/{x}/{y}`. |
| `MvtPmtiles.LocalMissingMetadataFailsVendorView` | pygeoapi/provider/mvt_pmtiles.py:191-194 | An existing local directory is located even without a `metadata` file. A connection error when fetching that file makes the vendor view raise a connection error whose message ends with `<data>/metadata`. |
| `MvtPmtiles.HtmlViewOfZoomOnlyDescriptor` | pygeoapi/provider/mvt_pmtiles.py:133-153 | Take `{"minzoom": 0, "maxzoom": 14, "vector_layers": [{"id": "roads"}]}`. It renders without error, with `minzoom` 0, `maxzoom` 14 and those layers. `name`, `description`, `attribution`, `bounds` and `center` stay at their defaults. |

## Left out

- Network and filesystem I/O (`requests.head`, `Path.exists`) are not performed. `Init` receives their outcomes as parameters: the HEAD request's status code or raised error, and the two exists flags. `Path.exists` is assumed not to raise.
- `MvtPmtiles.MvtPmtilesProvider.constructor`: the base-class constructor (`super().__init__`) is not part of this model. The constructor only records `data` and the layer. Any failure of the base constructor is not modelled.
- `get_metadata_from_URL` belongs to the tippecanoe/base provider and is not part of this model. Each render call receives its outcome through the `fetch` parameter: a parsed document or an error.
- `url_join`, `is_url` and `urlparse` come from `pygeoapi.util` and the standard library and are not part of this model. `url_join` stays uninterpreted. `is_url(data)` is a boolean parameter. Of `urlparse(data)`, only `scheme` and `netloc` are passed in.
- `pathlib.Path` normalisation is not modelled. A local location is the list of its parts. `joinpath('metadata')` appends a part, and a message shows the parts joined by `/`.
- `MVTTilesJson` (pydantic) is not part of this model. Each field's default is modelled as `None`. `.dict()` serialisation is not modelled: the HTML view stores the record itself under `metadata`, and the vendor view returns the record.
- `self.service_url` is assumed to read back `_service_url`. `get_layer()` is assumed to return the configured layer name. Both are base-class members not shown.
- In Python, `__init__` does both steps. The model splits it: the constructor records `data` and the layer, and the method `Init` does the rest, because a Dafny constructor cannot raise. The location fields are `None` until `Init` succeeds, and the renderers require them set.
- Logging calls and `__repr__` have no behaviour to verify. The two "missing metadata" branches keep their conditions with empty bodies.
- JSON numbers are modelled as integers. Floats are not modelled.
- Types of `title`, `description` and `keywords` are fixed as strings. The renderers ignore `description`, `keywords` and their `layer` argument, as the source does.
