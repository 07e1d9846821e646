/**
 * `APIImageChooserBlock.get_api_representation`: the image chooser block of
 * the page schema, which renders a chosen image as a seven-field record whose
 * URLs are prefixed with `scheme://host` of the request found in the
 * serializer context, or with nothing when there is none.
 */
module ImageBlocks {
  import opened Wrappers
  import opened Values
  import opened Media

  /** The serializer context. Only its `request` entry is read; how the other
      entries are stored does not matter to this code, so every entry is
      modelled as an optional request. */
  type Context = map<string, Option<Request>>

  /** `context.get('request') if context else None`: a missing or empty
      context, a missing key and a stored `None` all give no request. */
  function RequestOf(context: Option<Context>): (r: Option<Request>)
    ensures r.Some? <==> context.Some? && "request" in context.value && context.value["request"].Some?
  {
    if context.Some? && |context.value| > 0 then
      if "request" in context.value then context.value["request"] else None
    else None
  }

  /** The prefix of every URL in the record. */
  function BaseUrl(context: Option<Context>): (r: string)
    ensures r == "" <==> RequestOf(context).None?
  {
    var request := RequestOf(context);
    if request.Some? then request.value.scheme + "://" + request.value.host else ""
  }

  /** The API representation of an optional image value. The inner
      `if value` guards of the thumbnail and large fields sit inside the
      branch where the value is present, so both always resolve. */
  function GetApiRepresentation(value: Option<Image>, context: Option<Context>, renditions: Renditions): (r: Value)
    ensures r == Scalar(Null) <==> value.None?
    ensures value.Some? ==> r.Mapping? && Keys(r.entries) == ImageRecordKeys && DistinctKeys(r.entries)
    ensures value.Some? ==>
      && Get(r.entries, "id") == Some(Scalar(Int(value.value.id)))
      && Get(r.entries, "title") == Some(Scalar(Str(value.value.title)))
      && Get(r.entries, "width") == Some(Scalar(Int(value.value.width)))
      && Get(r.entries, "height") == Some(Scalar(Int(value.value.height)))
  {
    if value.Some? then
      var image := value.value;
      var base := BaseUrl(context);
      ImageRecord(image, base + image.fileUrl,
                  base + renditions(image, ThumbnailSpec),
                  base + renditions(image, LargeSpec))
    else
      Scalar(Null)
  }

  /** With no context, or no request in it, the base URL is empty and
      `original` is exactly the image's file URL. */
  lemma NoRequestGivesBareUrls(image: Image, context: Option<Context>, renditions: Renditions)
    requires context.None? || "request" !in context.value || context.value["request"].None?
    ensures BaseUrl(context) == ""
    ensures Get(GetApiRepresentation(Some(image), context, renditions).entries, "original")
            == Some(Scalar(Str(image.fileUrl)))
    ensures Get(GetApiRepresentation(Some(image), context, renditions).entries, "thumbnail")
            == Some(Scalar(Str(renditions(image, ThumbnailSpec))))
    ensures Get(GetApiRepresentation(Some(image), context, renditions).entries, "large")
            == Some(Scalar(Str(renditions(image, LargeSpec))))
  {
    assert RequestOf(context).None?;
    assert "" + image.fileUrl == image.fileUrl;
    assert "" + renditions(image, ThumbnailSpec) == renditions(image, ThumbnailSpec);
    assert "" + renditions(image, LargeSpec) == renditions(image, LargeSpec);
    UrlsShareBase(image, context, renditions);
  }

  /** With a request in the context, the base URL is `scheme://host`. */
  lemma RequestGivesSchemeAndHost(context: Context, request: Request)
    requires "request" in context && context["request"] == Some(request)
    ensures BaseUrl(Some(context)) == request.scheme + "://" + request.host
  {
    assert |context| > 0 by {
      assert "request" in context.Keys;
    }
  }

  /** The same base URL prefixes all three URL fields: the file URL, the
      `max-500x500` rendition and the `max-1920x1080` rendition. */
  lemma UrlsShareBase(image: Image, context: Option<Context>, renditions: Renditions)
    ensures var es := GetApiRepresentation(Some(image), context, renditions).entries;
      && Get(es, "original") == Some(Scalar(Str(BaseUrl(context) + image.fileUrl)))
      && Get(es, "thumbnail") == Some(Scalar(Str(BaseUrl(context) + renditions(image, ThumbnailSpec))))
      && Get(es, "large") == Some(Scalar(Str(BaseUrl(context) + renditions(image, LargeSpec))))
  {
  }

  /** For a present image, `thumbnail` and `large` are strings, never `None`. */
  lemma RenditionFieldsNeverNull(image: Image, context: Option<Context>, renditions: Renditions)
    ensures var es := GetApiRepresentation(Some(image), context, renditions).entries;
      && Get(es, "thumbnail").Some? && Get(es, "thumbnail").value != Scalar(Null)
      && Get(es, "large").Some? && Get(es, "large").value != Scalar(Null)
  {
    UrlsShareBase(image, context, renditions);
  }
}
