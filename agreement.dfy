/**
 * How the two image serializers relate. The settings view resolves URLs with
 * `request.build_absolute_uri`, the image chooser block by prefixing
 * `scheme://host`. For a URL that is a path (it starts with "/", as media
 * URLs under `MEDIA_URL = "/media/"` do), Django's `build_absolute_uri`
 * gives exactly `scheme://host` followed by the path; under that assumption
 * both serializers build the same record for the same image.
 */
module Agreement {
  import opened Values
  import opened Media
  import opened ImageBlocks
  import opened SettingsApi
  import opened Wrappers

  /** `build_absolute_uri` prefixes `scheme://host` to the given URL. */
  predicate PrefixesHost(request: Request, url: string) {
    request.absoluteUri(url) == request.scheme + "://" + request.host + url
  }

  /** Under that assumption the settings view's logo record, which by the
      contract of `SiteLogo` is also what `serialize_value` makes of the
      image, equals the chooser block's representation with the request in
      its context. */
  lemma ImageRecordsAgree(image: Image, request: Request, renditions: Renditions)
    requires PrefixesHost(request, image.fileUrl)
    requires PrefixesHost(request, renditions(image, ThumbnailSpec))
    requires PrefixesHost(request, renditions(image, LargeSpec))
    ensures SiteLogo(Some(image), request, renditions)
            == GetApiRepresentation(Some(image), Some(map["request" := Some(request)]), renditions)
  {
    RequestGivesSchemeAndHost(map["request" := Some(request)], request);
  }
}
