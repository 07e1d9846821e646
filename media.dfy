/**
 * The framework services the serializers call, kept uninterpreted, and the
 * seven-field image record that both serializers build.
 */
module Media {
  import opened Wrappers
  import opened Values

  /** The incoming HTTP request: its scheme, its host (`request.get_host()`)
      and `request.build_absolute_uri`, whose behaviour is the framework's. */
  datatype Request = Request(scheme: string, host: string, absoluteUri: string -> string)

  /** `image.get_rendition(spec).url`: the URL of the rendition of an image
      for a resize specification; generating it is the framework's job. */
  type Renditions = (Image, string) -> string

  const ThumbnailSpec: string := "max-500x500"
  const LargeSpec: string := "max-1920x1080"

  const ImageRecordKeys: seq<string> :=
    ["id", "title", "original", "width", "height", "thumbnail", "large"]

  /** The JSON record of an image, given the three URLs already resolved. */
  function ImageRecord(im: Image, original: string, thumbnail: string, large: string): (r: Value)
    ensures r.Mapping? && Keys(r.entries) == ImageRecordKeys && DistinctKeys(r.entries)
    ensures Get(r.entries, "id") == Some(Scalar(Int(im.id)))
    ensures Get(r.entries, "title") == Some(Scalar(Str(im.title)))
    ensures Get(r.entries, "width") == Some(Scalar(Int(im.width)))
    ensures Get(r.entries, "height") == Some(Scalar(Int(im.height)))
    ensures Get(r.entries, "original") == Some(Scalar(Str(original)))
    ensures Get(r.entries, "thumbnail") == Some(Scalar(Str(thumbnail)))
    ensures Get(r.entries, "large") == Some(Scalar(Str(large)))
  {
    var es := [
      ("id", Scalar(Int(im.id))),
      ("title", Scalar(Str(im.title))),
      ("original", Scalar(Str(original))),
      ("width", Scalar(Int(im.width))),
      ("height", Scalar(Int(im.height))),
      ("thumbnail", Scalar(Str(thumbnail))),
      ("large", Scalar(Str(large)))
    ];
    assert Keys(es) == ImageRecordKeys;
    assert DistinctKeys(es) by {
      forall i, j | 0 <= i < j < |es| ensures es[i].0 != es[j].0 {
        assert es[i].0 == ImageRecordKeys[i] && es[j].0 == ImageRecordKeys[j];
      }
    }
    GetDistinct(es, 0); GetDistinct(es, 1); GetDistinct(es, 2); GetDistinct(es, 3);
    GetDistinct(es, 4); GetDistinct(es, 5); GetDistinct(es, 6);
    Mapping(es)
  }

  /** An image record holds no image object and no tuple, and its keys are distinct. */
  lemma ImageRecordShape(im: Image, original: string, thumbnail: string, large: string)
    ensures Serialized(ImageRecord(im, original, thumbnail, large))
    ensures WellFormed(ImageRecord(im, original, thumbnail, large))
  {
    var es := ImageRecord(im, original, thumbnail, large).entries;
    assert forall i :: 0 <= i < |es| ==> es[i].1.Scalar?;
  }
}
