/**
 * The server's `POST /forge-enemy` handler: it validates the request, strips
 * the PNG data-URL prefix from the sketch, sends it through two remote
 * Stability calls (sketch to image, image to 3D model) and a local mesh
 * optimisation, and answers with the optimised GLB bytes or an error.
 *
 * The remote services and the optimiser are not modelled; their outcomes are
 * inputs, and the handler records which calls it made, with what arguments.
 */
module ForgeRoute {
  import opened Wrappers

  type Bytes = seq<bv8>

  /** The prefix of a PNG `data:` URL with base64 data (RFC 2397, section 3). */
  const PngPrefix: string := "data:image/png;base64,"

  /** The media type of a binary glTF 2.0 file. */
  const GlbMediaType: string := "model/gltf-binary"

  /** `sketch.replace(/^data:image\/png;base64,/, '')`: the prefix is removed only at the very start. */
  function StripPngDataUrl(s: string): (r: string)
    ensures |r| <= |s| && r == s[|s| - |r|..]
    ensures |s| >= |PngPrefix| && s[..|PngPrefix|] == PngPrefix ==> s == PngPrefix + r
    ensures !(|s| >= |PngPrefix| && s[..|PngPrefix|] == PngPrefix) ==> r == s
  {
    if |s| >= |PngPrefix| && s[..|PngPrefix|] == PngPrefix then s[|PngPrefix|..] else s
  }

  /** A client that prefixes its base64 data gets exactly that data through. */
  lemma StripPrefixed(data: string)
    ensures StripPngDataUrl(PngPrefix + data) == data
  {
    assert (PngPrefix + data)[..|PngPrefix|] == PngPrefix;
  }

  /** Only one prefix is removed: a doubled prefix leaves one behind. */
  lemma StripOnce(data: string)
    ensures StripPngDataUrl(PngPrefix + PngPrefix + data) == PngPrefix + data
  {
    assert (PngPrefix + PngPrefix + data)[..|PngPrefix|] == PngPrefix;
    assert (PngPrefix + PngPrefix + data)[|PngPrefix|..] == PngPrefix + data;
  }

  /** Bare base64 (which never contains `:`) is passed through unchanged. */
  lemma StripBare(data: string)
    requires forall i :: 0 <= i < |data| ==> data[i] != ':'
    ensures StripPngDataUrl(data) == data
  {
    if |data| >= |PngPrefix| {
      assert data[..|PngPrefix|][4] != PngPrefix[4];
    }
  }

  /** What a `fetch` to a Stability endpoint produced, as far as the handler reads it. */
  datatype Fetched =
    | Fetched(ok: bool, text: string, bytes: Bytes)
    | FetchThrew

  /** What `optimizeGlb` produced. */
  datatype Optimised = Optimised(bytes: Bytes) | OptimiseThrew

  /** A call the handler makes outside itself, with the arguments that matter. */
  datatype RemoteCall =
    | SketchToImage(apiKey: string, base64Sketch: string)
    | ImageTo3D(apiKey: string, image: Bytes)
    | OptimiseGlb(glb: Bytes)

  datatype Body = ErrorJson(error: string, details: Option<string>) | BinaryBody(contentType: string, bytes: Bytes)

  datatype Response = Response(status: nat, body: Body)

  /** A JavaScript string value is falsy when absent or empty. */
  predicate Falsy(s: Option<string>) {
    s.None? || s.value == ""
  }

  function InternalError(): Response {
    Response(500, ErrorJson("Internal server error", None))
  }

  /**
   * The handler. `sketch` is the request body's field, `apiKey` the
   * environment variable; `step1` to `step3` are what the two remote calls and
   * the optimiser produce when the handler gets as far as making them.
   */
  method HandleForgeEnemy(sketch: Option<string>, apiKey: Option<string>, step1: Fetched, step2: Fetched, step3: Optimised)
    returns (res: Response, calls: seq<RemoteCall>)
    ensures Falsy(sketch) ==> res == Response(400, ErrorJson("Missing sketch data", None)) && calls == []
    ensures !Falsy(sketch) && Falsy(apiKey) ==> res == Response(500, ErrorJson("Missing STABILITY_API_KEY", None)) && calls == []
    ensures !Falsy(sketch) && !Falsy(apiKey) ==>
      && 1 <= |calls| <= 3
      && calls[0] == SketchToImage(apiKey.value, StripPngDataUrl(sketch.value))
      && (step1.FetchThrew? ==> res == InternalError() && |calls| == 1)
      && (step1.Fetched? && !step1.ok ==>
            res == Response(502, ErrorJson("Sketch-to-image failed", Some(step1.text))) && |calls| == 1)
      && (step1.Fetched? && step1.ok ==> |calls| >= 2 && calls[1] == ImageTo3D(apiKey.value, step1.bytes))
    ensures !Falsy(sketch) && !Falsy(apiKey) && step1.Fetched? && step1.ok ==>
      && (step2.FetchThrew? ==> res == InternalError() && |calls| == 2)
      && (step2.Fetched? && !step2.ok ==>
            res == Response(502, ErrorJson("SF3D API failed", Some(step2.text))) && |calls| == 2)
      && (step2.Fetched? && step2.ok ==> |calls| == 3 && calls[2] == OptimiseGlb(step2.bytes))
    ensures !Falsy(sketch) && !Falsy(apiKey) && step1.Fetched? && step1.ok && step2.Fetched? && step2.ok ==>
      && (step3.OptimiseThrew? ==> res == InternalError())
      && (step3.Optimised? ==> res == Response(200, BinaryBody(GlbMediaType, step3.bytes)))
    ensures res.status == 200 <==> res.body.BinaryBody?
  {
    calls := [];
    if Falsy(sketch) {
      return Response(400, ErrorJson("Missing sketch data", None)), calls;
    }
    if Falsy(apiKey) {
      return Response(500, ErrorJson("Missing STABILITY_API_KEY", None)), calls;
    }
    var key := apiKey.value;
    var base64Data := StripPngDataUrl(sketch.value);

    calls := calls + [SketchToImage(key, base64Data)];
    if step1.FetchThrew? {
      return InternalError(), calls;
    }
    if !step1.ok {
      return Response(502, ErrorJson("Sketch-to-image failed", Some(step1.text))), calls;
    }
    var renderedImage := step1.bytes;

    calls := calls + [ImageTo3D(key, renderedImage)];
    if step2.FetchThrew? {
      return InternalError(), calls;
    }
    if !step2.ok {
      return Response(502, ErrorJson("SF3D API failed", Some(step2.text))), calls;
    }
    var rawGlb := step2.bytes;

    calls := calls + [OptimiseGlb(rawGlb)];
    if step3.OptimiseThrew? {
      return InternalError(), calls;
    }
    res := Response(200, BinaryBody(GlbMediaType, step3.bytes));
  }
}
