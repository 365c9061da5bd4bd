/**
 * The three model loaders. Each takes a base path, the runtime capabilities
 * the page has, the outcome of loading the model file and the page's
 * `fetch` of JSON documents, and returns the loaded bundle or the error the
 * loader throws.
 */
module ModelLoader {
  import opened Wrappers

  /**
   * A field of the metadata document, by JSON type. Arrays are taken to
   * hold strings; any other JSON value is `Other`.
   */
  datatype Field = Absent | Number(n: real) | Array(items: seq<string>) | Other

  /** A parsed metadata object. */
  type Metadata = map<string, Field>

  /**
   * `fetch(url)` followed by `res.json()`: the parsed object, or None when
   * the fetch threw, the response was not ok or its body was not JSON
   * (every one of these leaves the defaults).
   */
  type Fetch = string -> Option<Metadata>

  /** `meta.<key>`, `Absent` when there is no metadata object. */
  function FieldOf(meta: Option<Metadata>, key: string): Field {
    if meta.Some? && key in meta.value then meta.value[key] else Absent
  }

  /** Which loading functions the page's globals provide. */
  datatype Runtime = Runtime(tmImageLoad: bool, tf: bool, tfLoadLayersModel: bool)

  /** A loaded model, recorded by how and from which URLs it was loaded. */
  datatype Handle =
    | TmImageModel(modelUrl: string, metadataUrl: string)
    | LayersModel(modelUrl: string)

  /** The model Teachable Machine's `tmImage.load` returns, as far as the loader looks at it. */
  datatype TmImage = TmImage(
    getClassLabels: Option<seq<string>>,  // what `getClassLabels()` returns; None when it is not a function
    metadataLabels: Option<seq<string>>)  // `model.metadata?.labels`; None when that is nullish

  datatype LoadError =
    | NoRuntime   // no loading function is available
    | LoadFailed  // the loading function rejected

  function ModelUrl(basePath: string): string {
    basePath + "/model.json"
  }

  function MetadataUrl(basePath: string): string {
    basePath + "/metadata.json"
  }

  /** `typeof meta[key] === 'number' ? meta[key] : fallback` */
  function NumberOr(f: Field, fallback: real): real {
    if f.Number? then f.n else fallback
  }

  /** `Array.isArray(meta[key]) ? meta[key] : fallback` */
  function ArrayOr(f: Field, fallback: seq<string>): seq<string> {
    if f.Array? then f.items else fallback
  }

  // ---------------------------------------------------------------- images

  datatype ImageLoaded = ImageLoaded(model: Handle, labels: seq<string>)

  /**
   * `loadTMImageModel`: Teachable Machine's loader whenever it exists, else
   * TensorFlow.js's layers loader, else an error. `tm` is what `tmImage.load`
   * resolved to (None when it rejected); `layersOk` says whether
   * `tf.loadLayersModel` resolved. Only the fallback fetches the metadata.
   */
  function LoadTMImageModel(basePath: string, rt: Runtime, tm: Option<TmImage>, layersOk: bool,
                            fetch: Fetch): (r: Result<ImageLoaded, LoadError>)
    ensures r.Err? <==> (if rt.tmImageLoad then tm.None? else !(rt.tf && rt.tfLoadLayersModel) || !layersOk)
    ensures r.Err? ==> (r.error == NoRuntime <==> !rt.tmImageLoad && !(rt.tf && rt.tfLoadLayersModel))
    ensures r.Ok? && rt.tmImageLoad ==>
      r.value.model == TmImageModel(basePath + "/model.json", basePath + "/metadata.json") &&
      r.value.labels == (if tm.value.getClassLabels.Some? then tm.value.getClassLabels.value
                         else if tm.value.metadataLabels.Some? then tm.value.metadataLabels.value
                         else [])
    ensures r.Ok? && !rt.tmImageLoad ==>
      var meta := fetch(basePath + "/metadata.json");
      r.value.model == LayersModel(basePath + "/model.json") &&
      (FieldOf(meta, "labels").Array? ==> r.value.labels == FieldOf(meta, "labels").items) &&
      (!FieldOf(meta, "labels").Array? ==> r.value.labels == [])
  {
    if rt.tmImageLoad then
      match tm
      case None => Err(LoadFailed)
      case Some(m) =>
        var labels :=
          if m.getClassLabels.Some? then m.getClassLabels.value
          else if m.metadataLabels.Some? then m.metadataLabels.value
          else [];
        Ok(ImageLoaded(TmImageModel(ModelUrl(basePath), MetadataUrl(basePath)), labels))
    else if rt.tf && rt.tfLoadLayersModel then
      if !layersOk then Err(LoadFailed)
      else
        var meta := fetch(MetadataUrl(basePath));
        Ok(ImageLoaded(LayersModel(ModelUrl(basePath)), ArrayOr(FieldOf(meta, "labels"), [])))
    else
      Err(NoRuntime)
  }

  /**
   * The strategy order: `tmImage.load` is used whenever it exists, whatever
   * TensorFlow.js offers and whatever the metadata document holds.
   */
  lemma ImageLoaderPrefersTeachableMachine(basePath: string, rt: Runtime, tm: TmImage, layersOk: bool,
                                           fetch: Fetch, other: Fetch)
    requires rt.tmImageLoad
    ensures LoadTMImageModel(basePath, rt, Some(tm), layersOk, fetch).Ok?
    ensures LoadTMImageModel(basePath, rt, Some(tm), layersOk, fetch).value.model.TmImageModel?
    ensures LoadTMImageModel(basePath, rt, Some(tm), layersOk, fetch)
         == LoadTMImageModel(basePath, rt.(tf := !rt.tf), Some(tm), !layersOk, other)
  {
  }

  // ---------------------------------------------------------------- audio

  datatype AudioConfig = AudioConfig(sampleRate: real, duration: real)

  datatype AudioLoaded = AudioLoaded(model: Handle, labels: seq<string>, audioConfig: AudioConfig)

  const DefaultAudioConfig := AudioConfig(16000.0, 5.0)

  /** `loadTMAudioModel`: TensorFlow.js's layers loader plus the optional metadata. */
  function LoadTMAudioModel(basePath: string, rt: Runtime, layersOk: bool, fetch: Fetch)
    : (r: Result<AudioLoaded, LoadError>)
    ensures r.Err? <==> !rt.tf || !rt.tfLoadLayersModel || !layersOk
    ensures r.Err? ==> (r.error == NoRuntime <==> !rt.tf || !rt.tfLoadLayersModel)
    ensures r.Ok? ==> r.value.model == LayersModel(basePath + "/model.json")
    ensures r.Ok? ==>
      var meta := fetch(basePath + "/metadata.json");
      (FieldOf(meta, "labels").Array? ==> r.value.labels == FieldOf(meta, "labels").items) &&
      (!FieldOf(meta, "labels").Array? ==> r.value.labels == [])
    ensures r.Ok? ==>
      var meta := fetch(basePath + "/metadata.json");
      (FieldOf(meta, "sampleRate").Number? ==> r.value.audioConfig.sampleRate == FieldOf(meta, "sampleRate").n) &&
      (!FieldOf(meta, "sampleRate").Number? ==> r.value.audioConfig.sampleRate == 16000.0) &&
      (FieldOf(meta, "duration").Number? ==> r.value.audioConfig.duration == FieldOf(meta, "duration").n) &&
      (!FieldOf(meta, "duration").Number? ==> r.value.audioConfig.duration == 5.0)
  {
    if !rt.tf || !rt.tfLoadLayersModel then Err(NoRuntime)
    else if !layersOk then Err(LoadFailed)
    else
      var meta := fetch(MetadataUrl(basePath));
      var labels := ArrayOr(FieldOf(meta, "labels"), []);
      var sampleRate := NumberOr(FieldOf(meta, "sampleRate"), 16000.0);
      var duration := NumberOr(FieldOf(meta, "duration"), 5.0);
      Ok(AudioLoaded(LayersModel(ModelUrl(basePath)), labels, AudioConfig(sampleRate, duration)))
  }

  /** Without a readable metadata document every field keeps its default and the load still succeeds. */
  lemma AudioDefaultsWithoutMetadata(basePath: string, rt: Runtime, fetch: Fetch)
    requires rt.tf && rt.tfLoadLayersModel
    requires fetch(basePath + "/metadata.json").None?
    ensures LoadTMAudioModel(basePath, rt, true, fetch)
         == Ok(AudioLoaded(LayersModel(basePath + "/model.json"), [], DefaultAudioConfig))
  {
  }

  /** A well-typed metadata document supplies all three fields. */
  lemma AudioMetadataAdopted(basePath: string, rt: Runtime, fetch: Fetch,
                             labels: seq<string>, sampleRate: real, duration: real)
    requires rt.tf && rt.tfLoadLayersModel
    requires fetch(basePath + "/metadata.json")
          == Some(map["labels" := Array(labels), "sampleRate" := Number(sampleRate), "duration" := Number(duration)])
    ensures LoadTMAudioModel(basePath, rt, true, fetch) == Ok(AudioLoaded(LayersModel(basePath + "/model.json"), labels, AudioConfig(sampleRate, duration)))
  {
  }

  // ---------------------------------------------------------------- poses

  datatype InputShape = InputShape(imgHeight: real, imgWidth: real)

  datatype PoseLoaded = PoseLoaded(model: Handle, labels: seq<string>, inputShape: InputShape)

  const DefaultPoseLabels: seq<string> := ["atento", "no_atento"]

  /** `loadTMPoseModel`: like the audio loader, but an empty label list becomes the two defaults. */
  function LoadTMPoseModel(basePath: string, rt: Runtime, layersOk: bool, fetch: Fetch)
    : (r: Result<PoseLoaded, LoadError>)
    ensures r.Err? <==> !rt.tf || !rt.tfLoadLayersModel || !layersOk
    ensures r.Err? ==> (r.error == NoRuntime <==> !rt.tf || !rt.tfLoadLayersModel)
    ensures r.Ok? ==> r.value.model == LayersModel(basePath + "/model.json")
    ensures r.Ok? ==> r.value.labels != []
    ensures r.Ok? ==>
      var meta := fetch(basePath + "/metadata.json");
      r.value.labels == (if FieldOf(meta, "labels").Array? && FieldOf(meta, "labels").items != []
                         then FieldOf(meta, "labels").items else ["atento", "no_atento"])
    ensures r.Ok? ==>
      var meta := fetch(basePath + "/metadata.json");
      (FieldOf(meta, "imgHeight").Number? ==> r.value.inputShape.imgHeight == FieldOf(meta, "imgHeight").n) &&
      (!FieldOf(meta, "imgHeight").Number? ==> r.value.inputShape.imgHeight == 160.0) &&
      (FieldOf(meta, "imgWidth").Number? ==> r.value.inputShape.imgWidth == FieldOf(meta, "imgWidth").n) &&
      (!FieldOf(meta, "imgWidth").Number? ==> r.value.inputShape.imgWidth == 160.0)
  {
    if !rt.tf || !rt.tfLoadLayersModel then Err(NoRuntime)
    else if !layersOk then Err(LoadFailed)
    else
      var meta := fetch(MetadataUrl(basePath));
      var read := ArrayOr(FieldOf(meta, "labels"), []);
      var imgHeight := NumberOr(FieldOf(meta, "imgHeight"), 160.0);
      var imgWidth := NumberOr(FieldOf(meta, "imgWidth"), 160.0);
      var labels := if |read| == 0 then DefaultPoseLabels else read;
      Ok(PoseLoaded(LayersModel(ModelUrl(basePath)), labels, InputShape(imgHeight, imgWidth)))
  }

  /** Every loader that succeeds loads its model from `<basePath>/model.json`. */
  lemma ModelUrls(basePath: string, rt: Runtime, tm: Option<TmImage>, layersOk: bool, fetch: Fetch)
    ensures LoadTMImageModel(basePath, rt, tm, layersOk, fetch).Ok? ==>
      LoadTMImageModel(basePath, rt, tm, layersOk, fetch).value.model.modelUrl == ModelUrl(basePath)
    ensures LoadTMAudioModel(basePath, rt, layersOk, fetch).Ok? ==>
      LoadTMAudioModel(basePath, rt, layersOk, fetch).value.model.modelUrl == ModelUrl(basePath)
    ensures LoadTMPoseModel(basePath, rt, layersOk, fetch).Ok? ==>
      LoadTMPoseModel(basePath, rt, layersOk, fetch).value.model.modelUrl == ModelUrl(basePath)
  {
  }

  /**
   * The only document any loader fetches is `<basePath>/metadata.json`: two
   * fetches that agree on it give every loader the same result.
   */
  lemma MetadataUrlOnly(basePath: string, rt: Runtime, tm: Option<TmImage>, layersOk: bool, f: Fetch, g: Fetch)
    requires f(basePath + "/metadata.json") == g(basePath + "/metadata.json")
    ensures LoadTMImageModel(basePath, rt, tm, layersOk, f) == LoadTMImageModel(basePath, rt, tm, layersOk, g)
    ensures LoadTMAudioModel(basePath, rt, layersOk, f) == LoadTMAudioModel(basePath, rt, layersOk, g)
    ensures LoadTMPoseModel(basePath, rt, layersOk, f) == LoadTMPoseModel(basePath, rt, layersOk, g)
  {
  }
}
