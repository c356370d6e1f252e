/**
 * The media renderers of the generator (`Location` and its subclasses): FITS image
 * selection, the single-image and triplet PNG renderers and the JSON light curve.
 * FITS decoding and PNG drawing are collaborators passed in as functions; an image
 * stands for the pixels of one HDU, which stay abstract.
 */
module Locations {
  import opened Wrappers
  import opened Photometry
  import opened LightCurve

  type Url = string

  /**
   * One entry of `lasairData.imageUrls`: cutout URLs keyed by label ("Science",
   * "Template", "Difference") and the `diaSourceId` key, which may be absent.
   */
  datatype UrlGroup = UrlGroup(diaSourceId: Option<SourceId>, images: map<string, Url>)

  /** What `hdu.data` holds: nothing, a value without `ndim`, or an array of some shape. */
  datatype HduData = NoData | NonArray | Array(shape: seq<nat>)

  datatype Hdu = Hdu(data: HduData)

  /** The shape of the pixels of HDU `hdu` of the FITS file at `url`, squeezed. */
  datatype Image = Image(url: Url, hdu: nat, shape: seq<nat>)

  /** The exceptions a renderer raises. */
  datatype LocationError =
    | KeyError(key: string)     // `urls[IMAGE_KEY]` on a group without that label
    | NoImageData(key: string)  // the ValueError "No 2D image data found in FITS file for key ..."

  /** `np.squeeze`: the shape with every axis of length 1 removed. */
  function Squeeze(shape: seq<nat>): (r: seq<nat>)
    ensures |r| <= |shape|
    ensures forall k :: 0 <= k < |r| ==> r[k] != 1
    ensures forall d :: d != 1 ==> multiset(r)[d] == multiset(shape)[d]
  {
    if shape == [] then []
    else
      assert shape == [shape[0]] + shape[1..];
      (if shape[0] == 1 then [] else [shape[0]]) + Squeeze(shape[1..])
  }

  /**
   * The test `fits_data` applies to one HDU: skip missing data, skip data with fewer
   * than two dimensions (a value without `ndim` counts as 0), and accept it when the
   * squeezed array has exactly two.
   */
  function SqueezedImage(h: Hdu): (r: Option<seq<nat>>)
    ensures r.Some? <==> h.data.Array? && |h.data.shape| >= 2 && |Squeeze(h.data.shape)| == 2
    ensures r.Some? ==> r.value == Squeeze(h.data.shape) && |r.value| == 2
  {
    match h.data
    case NoData => None
    case NonArray => None  // getattr(data, "ndim", 0) < 2
    case Array(shape) =>
      if |shape| < 2 then None
      else if |Squeeze(shape)| == 2 then Some(Squeeze(shape))
      else None
  }

  predicate Selectable(h: Hdu) { SqueezedImage(h).Some? }

  /** The loop over the HDU list from position `from`: the first selectable HDU. */
  function FirstImage(hdus: seq<Hdu>, from: nat): (r: Option<nat>)
    requires from <= |hdus|
    decreases |hdus| - from
    ensures r.Some? ==> from <= r.value < |hdus| && Selectable(hdus[r.value])
    ensures r.Some? ==> forall j :: from <= j < r.value ==> !Selectable(hdus[j])
    ensures r.None? <==> forall j :: from <= j < |hdus| ==> !Selectable(hdus[j])
  {
    if from == |hdus| then None
    else if Selectable(hdus[from]) then Some(from)
    else FirstImage(hdus, from + 1)
  }

  /**
   * `ImageLocation.fits_data` for label `key`: a missing label fails before the file is
   * opened; otherwise the first HDU whose data squeezes to two dimensions, or the
   * ValueError naming the label.
   */
  function FitsData(urls: UrlGroup, key: string, openFits: Url -> seq<Hdu>): (r: Result<Image, LocationError>)
    ensures key !in urls.images <==> r == Err(KeyError(key))
    ensures key in urls.images ==>
      var hdus := openFits(urls.images[key]);
      && (r.Ok? <==> exists i :: 0 <= i < |hdus| && Selectable(hdus[i]))
      && (r.Err? ==> r.error == NoImageData(key))
      && (r.Ok? ==>
            && r.value.url == urls.images[key]
            && r.value.hdu < |hdus|
            && Selectable(hdus[r.value.hdu])
            && (forall j :: 0 <= j < r.value.hdu ==> !Selectable(hdus[j]))
            && r.value.shape == Squeeze(hdus[r.value.hdu].data.shape)
            && |r.value.shape| == 2)
  {
    if key !in urls.images then Err(KeyError(key))
    else
      var url := urls.images[key];
      var hdus := openFits(url);
      match FirstImage(hdus, 0)
      case None => Err(NoImageData(key))
      case Some(i) => Ok(Image(url, i, SqueezedImage(hdus[i]).value))
  }

  /**
   * The media generator classes a subject generator can be configured with.
   * `ScienceImage`, `TemplateImage` and `DifferenceImage` render one cutout,
   * `TripletImage` the three side by side, `LightCurveJson` is `JSONLocation`.
   */
  datatype MediaGenerator = ScienceImage | TemplateImage | DifferenceImage | TripletImage | LightCurveJson

  /** `LSSTSubjectGenerator.DEFAULT_MEDIA_GENERATORS` */
  const DEFAULT_MEDIA_GENERATORS: seq<MediaGenerator> := [ScienceImage, TemplateImage, DifferenceImage]

  /** `TripletImageLocation.IMAGE_LOCATIONS`, by their `IMAGE_KEY`s. */
  const TRIPLET_KEYS: seq<string> := ["Science", "Template", "Difference"]

  /** The cutout labels a generator reads, one per panel, in panel order. */
  function PanelKeys(g: MediaGenerator): seq<string>
  {
    match g
    case ScienceImage => ["Science"]
    case TemplateImage => ["Template"]
    case DifferenceImage => ["Difference"]
    case TripletImage => TRIPLET_KEYS
    case LightCurveJson => []
  }

  /** The MIME type `as_file` returns for a generator. */
  function MimeType(g: MediaGenerator): string
  {
    if g.LightCurveJson? then "application/json" else "image/png"
  }

  /** The collaborators the renderers call: FITS opening and figure drawing plus PNG encoding. */
  datatype Media = Media(openFits: Url -> seq<Hdu>, renderPng: seq<Image> -> seq<bv8>)

  /** A rendered payload: PNG bytes or the light-curve document. */
  datatype Payload = Png(bytes: seq<bv8>) | Json(doc: LightCurveDoc)

  /** One `(payload, MIME type)` pair returned by `as_file`. */
  datatype Location = Location(payload: Payload, mimeType: string)

  /**
   * The images of the panels, loaded in order with `fits_data`; the first failure is
   * raised and the later labels are not looked at.
   */
  function Panels(urls: UrlGroup, keys: seq<string>, openFits: Url -> seq<Hdu>): (r: Result<seq<Image>, LocationError>)
    ensures r.Ok? <==> forall i :: 0 <= i < |keys| ==> FitsData(urls, keys[i], openFits).Ok?
    ensures r.Ok? ==> |r.value| == |keys|
    ensures r.Ok? ==> forall i :: 0 <= i < |keys| ==> FitsData(urls, keys[i], openFits) == Ok(r.value[i])
    ensures r.Err? ==>
              exists i :: (0 <= i < |keys| && FitsData(urls, keys[i], openFits) == Err(r.error) &&
                           forall j :: 0 <= j < i ==> FitsData(urls, keys[j], openFits).Ok?)
  {
    if keys == [] then Ok([])
    else
      match FitsData(urls, keys[0], openFits)
      case Err(e) => Err(e)
      case Ok(image) =>
        match Panels(urls, keys[1..], openFits)
        case Err(e) =>
          assert forall i :: 1 <= i < |keys| ==> keys[i] == keys[1..][i - 1];
          Err(e)
        case Ok(rest) =>
          assert forall i :: 1 <= i < |keys| ==> keys[i] == keys[1..][i - 1];
          Ok([image] + rest)
  }

  /**
   * `g(urls, photometry).as_file()`: image generators plot their panels and encode a
   * PNG; `JSONLocation` serialises `generate()` with its default label and glyphs.
   */
  function AsFile(g: MediaGenerator, media: Media, urls: UrlGroup, photometry: seq<Record>): (r: Result<Location, LocationError>)
    ensures r.Ok? ==> r.value.mimeType == MimeType(g)
    ensures g.LightCurveJson? ==>
              r == Ok(Location(Json(Document(photometry, Scalar("Lightcurve"), GLYPHS)), "application/json"))
    ensures g.ScienceImage? || g.TemplateImage? || g.DifferenceImage? ==>
              var image := FitsData(urls, PanelKeys(g)[0], media.openFits);
              && (r.Ok? <==> image.Ok?)
              && (r.Ok? ==> r.value.payload == Png(media.renderPng([image.value])))
              && (r.Err? ==> r.error == image.error)
    ensures g.TripletImage? ==>
              var science := FitsData(urls, "Science", media.openFits);
              var template := FitsData(urls, "Template", media.openFits);
              var difference := FitsData(urls, "Difference", media.openFits);
              && (r.Ok? <==> science.Ok? && template.Ok? && difference.Ok?)
              && (r.Ok? ==> r.value.payload == Png(media.renderPng([science.value, template.value, difference.value])))
              && (science.Err? ==> r == Err(science.error))
              && (science.Ok? && template.Err? ==> r == Err(template.error))
              && (science.Ok? && template.Ok? && difference.Err? ==> r == Err(difference.error))
  {
    if g.LightCurveJson? then
      Ok(Location(Json(Document(photometry, Scalar("Lightcurve"), GLYPHS)), MimeType(g)))
    else
      var keys := PanelKeys(g);
      match Panels(urls, keys, media.openFits)
      case Err(e) =>
        assert g.TripletImage? ==> |keys| == 3 && keys[0] == "Science" && keys[1] == "Template" && keys[2] == "Difference";
        Err(e)
      case Ok(images) =>
        assert g.TripletImage? ==> images == [images[0], images[1], images[2]];
        assert !g.TripletImage? ==> images == [images[0]];
        Ok(Location(Png(media.renderPng(images)), MimeType(g)))
  }

  /**
   * A group without a "Template" cutout fails the template renderer with an error
   * naming that label, while the science renderer on the same group is unaffected.
   */
  lemma MissingTemplate(media: Media, urls: UrlGroup, photometry: seq<Record>)
    requires "Template" !in urls.images
    ensures AsFile(TemplateImage, media, urls, photometry) == Err(KeyError("Template"))
    ensures AsFile(TripletImage, media, urls, photometry).Err?
    ensures AsFile(ScienceImage, media, urls, photometry) ==
            AsFile(ScienceImage, media, urls.(images := urls.images["Template" := "any"]), photometry)
  {
    var other := urls.(images := urls.images["Template" := "any"]);
    assert FitsData(urls, "Science", media.openFits) == FitsData(other, "Science", media.openFits);
  }
}
