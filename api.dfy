/**
 * The settings endpoint `GET /api/v2/settings/` (`SiteSettingsAPIView.get`):
 * it finds the default site, serializes the site settings record together
 * with its five block streams, and answers with the resulting tree.
 */
module SettingsApi {
  import opened Wrappers
  import opened Values
  import opened Media

  /** `serialize_value`: images become image records whose URLs are resolved
      by `request.build_absolute_uri`, mappings and sequences are rebuilt
      entry by entry (tuples become lists), everything else is kept as is. */
  function SerializeValue(v: Value, request: Request, renditions: Renditions): (r: Value)
    ensures v.Img? ==> r.Mapping? && Keys(r.entries) == ImageRecordKeys
    ensures v.Mapping? ==> r.Mapping? && Keys(r.entries) == Keys(v.entries)
    ensures v.Sequence? ==> r.Sequence? && r.kind == List && |r.items| == |v.items|
    ensures v.Scalar? ==> r == v
    decreases v
  {
    match v
    case Img(image) =>
      ImageRecord(image,
                  request.absoluteUri(image.fileUrl),
                  request.absoluteUri(renditions(image, ThumbnailSpec)),
                  request.absoluteUri(renditions(image, LargeSpec)))
    case Mapping(es) =>
      Mapping(seq(|es|, i requires 0 <= i < |es| => (es[i].0, SerializeValue(es[i].1, request, renditions))))
    case Sequence(_, xs) =>
      Sequence(List, seq(|xs|, i requires 0 <= i < |xs| => SerializeValue(xs[i], request, renditions)))
    case Scalar(_) => v
  }

  /** An image becomes the seven-field record: id, title, width and height
      copied, and the file URL and the two rendition URLs made absolute. */
  lemma SerializeImage(image: Image, request: Request, renditions: Renditions)
    ensures var r := SerializeValue(Img(image), request, renditions);
      && r.Mapping? && Keys(r.entries) == ImageRecordKeys
      && Get(r.entries, "id") == Some(Scalar(Int(image.id)))
      && Get(r.entries, "title") == Some(Scalar(Str(image.title)))
      && Get(r.entries, "width") == Some(Scalar(Int(image.width)))
      && Get(r.entries, "height") == Some(Scalar(Int(image.height)))
      && Get(r.entries, "original") == Some(Scalar(Str(request.absoluteUri(image.fileUrl))))
      && Get(r.entries, "thumbnail") == Some(Scalar(Str(request.absoluteUri(renditions(image, ThumbnailSpec)))))
      && Get(r.entries, "large") == Some(Scalar(Str(request.absoluteUri(renditions(image, LargeSpec)))))
  {
  }

  /** Looking a key up in a serialized mapping finds the serialized value of
      the original mapping's entry for that key, and nothing for an absent key. */
  lemma {:induction false} GetSerialized(es: seq<(string, Value)>, k: string, request: Request, renditions: Renditions)
    ensures var out := SerializeValue(Mapping(es), request, renditions).entries;
      Get(out, k) == if k in Keys(es) then Some(SerializeValue(Get(es, k).value, request, renditions)) else None
  {
    var out := SerializeValue(Mapping(es), request, renditions).entries;
    if |es| > 0 && es[0].0 != k {
      var rest := SerializeValue(Mapping(es[1..]), request, renditions).entries;
      assert out[1..] == rest;
      assert Keys(es) == [es[0].0] + Keys(es[1..]);
      GetSerialized(es[1..], k, request, renditions);
    }
  }

  /** A mapping keeps its keys in their order, and each value is serialized. */
  lemma SerializeMapping(es: seq<(string, Value)>, request: Request, renditions: Renditions)
    ensures var r := SerializeValue(Mapping(es), request, renditions);
      && r.Mapping? && Keys(r.entries) == Keys(es)
      && forall k :: Get(r.entries, k) == if k in Keys(es) then Some(SerializeValue(Get(es, k).value, request, renditions)) else None
  {
    forall k ensures Get(SerializeValue(Mapping(es), request, renditions).entries, k)
                     == if k in Keys(es) then Some(SerializeValue(Get(es, k).value, request, renditions)) else None {
      GetSerialized(es, k, request, renditions);
    }
  }

  /** A tuple serializes exactly as the list with the same elements does. */
  lemma SerializeTupleAsList(xs: seq<Value>, request: Request, renditions: Renditions)
    ensures SerializeValue(Sequence(Tuple, xs), request, renditions)
            == SerializeValue(Sequence(List, xs), request, renditions)
  {
  }

  /** Sequences are serialized element by element: serializing a
      concatenation concatenates the serialized parts, in order. */
  lemma SerializeSequenceAppend(kind: SeqKind, xs: seq<Value>, ys: seq<Value>, request: Request, renditions: Renditions)
    ensures SerializeValue(Sequence(kind, xs + ys), request, renditions).items
            == SerializeValue(Sequence(kind, xs), request, renditions).items
               + SerializeValue(Sequence(kind, ys), request, renditions).items
  {
  }

  /** The output holds no image object and no tuple, at any depth. */
  lemma {:induction false} SerializeValueIsSerialized(v: Value, request: Request, renditions: Renditions)
    ensures Serialized(SerializeValue(v, request, renditions))
    decreases v
  {
    match v
    case Img(image) =>
      ImageRecordShape(image, request.absoluteUri(image.fileUrl),
                       request.absoluteUri(renditions(image, ThumbnailSpec)),
                       request.absoluteUri(renditions(image, LargeSpec)));
    case Mapping(es) =>
      forall i | 0 <= i < |es| ensures Serialized(SerializeValue(es[i].1, request, renditions)) {
        SerializeValueIsSerialized(es[i].1, request, renditions);
      }
    case Sequence(_, xs) =>
      forall i | 0 <= i < |xs| ensures Serialized(SerializeValue(xs[i], request, renditions)) {
        SerializeValueIsSerialized(xs[i], request, renditions);
      }
    case Scalar(_) =>
  }

  /** The values serialization leaves unchanged are exactly the serialized ones. */
  lemma {:induction false} FixedPoints(w: Value, request: Request, renditions: Renditions)
    ensures SerializeValue(w, request, renditions) == w <==> Serialized(w)
    decreases w
  {
    match w
    case Img(_) =>
    case Mapping(es) =>
      var out := SerializeValue(w, request, renditions).entries;
      forall i | 0 <= i < |es|
        ensures SerializeValue(es[i].1, request, renditions) == es[i].1 <==> Serialized(es[i].1) {
        FixedPoints(es[i].1, request, renditions);
      }
      if Serialized(w) {
        assert out == es;
      }
      if SerializeValue(w, request, renditions) == w {
        assert forall i | 0 <= i < |es| :: out[i].1 == es[i].1;
      }
    case Sequence(_, xs) =>
      var out := SerializeValue(w, request, renditions).items;
      forall i | 0 <= i < |xs|
        ensures SerializeValue(xs[i], request, renditions) == xs[i] <==> Serialized(xs[i]) {
        FixedPoints(xs[i], request, renditions);
      }
      if Serialized(w) {
        assert out == xs;
      }
      if SerializeValue(w, request, renditions) == w {
        assert forall i | 0 <= i < |xs| :: out[i] == xs[i];
      }
    case Scalar(_) =>
  }

  /** Serializing is idempotent on its own output, whatever request resolves
      the URLs the second time. */
  lemma SerializeIdempotent(v: Value, request: Request, renditions: Renditions, request': Request, renditions': Renditions)
    ensures SerializeValue(SerializeValue(v, request, renditions), request', renditions')
            == SerializeValue(v, request, renditions)
  {
    SerializeValueIsSerialized(v, request, renditions);
    FixedPoints(SerializeValue(v, request, renditions), request', renditions');
  }

  /** Serialization keeps every mapping's keys distinct. */
  lemma {:induction false} SerializePreservesWellFormed(v: Value, request: Request, renditions: Renditions)
    requires WellFormed(v)
    ensures WellFormed(SerializeValue(v, request, renditions))
    decreases v
  {
    match v
    case Img(image) =>
      ImageRecordShape(image, request.absoluteUri(image.fileUrl),
                       request.absoluteUri(renditions(image, ThumbnailSpec)),
                       request.absoluteUri(renditions(image, LargeSpec)));
    case Mapping(es) =>
      forall i | 0 <= i < |es| ensures WellFormed(SerializeValue(es[i].1, request, renditions)) {
        SerializePreservesWellFormed(es[i].1, request, renditions);
      }
    case Sequence(_, xs) =>
      forall i | 0 <= i < |xs| ensures WellFormed(SerializeValue(xs[i], request, renditions)) {
        SerializePreservesWellFormed(xs[i], request, renditions);
      }
    case Scalar(_) =>
  }

  /** Whether a stream child has an `id` attribute, and what it holds
      (`uuid` is already the text `str()` gives for a set id). */
  datatype BlockId = NoIdAttr | BlockIdAttr(uuid: Option<string>)

  /** A stream child: its block type name, its value and its id. */
  datatype Block = Block(blockType: string, value: Value, id: BlockId)

  const BlockRecordKeys: seq<string> := ["type", "value", "id"]

  /** `str(block.id) if hasattr(block, 'id') else None`. An id attribute
      that holds `None` becomes the text "None", as `str(None)` does. */
  function IdValue(id: BlockId): (r: Value)
    ensures r == Scalar(Null) <==> id.NoIdAttr?
    ensures id.BlockIdAttr? && id.uuid.Some? ==> r == Scalar(Str(id.uuid.value))
    ensures id == BlockIdAttr(None) ==> r == Scalar(Str("None"))
  {
    match id
    case NoIdAttr => Scalar(Null)
    case BlockIdAttr(Some(uuid)) => Scalar(Str(uuid))
    case BlockIdAttr(None) => Scalar(Str("None"))
  }

  /** The `{type, value, id}` record of one stream child. */
  function SerializeBlock(block: Block, request: Request, renditions: Renditions): (r: Value)
    ensures r.Mapping? && Keys(r.entries) == BlockRecordKeys && DistinctKeys(r.entries)
    ensures Get(r.entries, "type") == Some(Scalar(Str(block.blockType)))
    ensures Get(r.entries, "value") == Some(SerializeValue(block.value, request, renditions))
    ensures Get(r.entries, "id") == Some(IdValue(block.id))
  {
    var es := [("type", Scalar(Str(block.blockType))),
               ("value", SerializeValue(block.value, request, renditions)),
               ("id", IdValue(block.id))];
    assert Keys(es) == BlockRecordKeys;
    GetDistinct(es, 0); GetDistinct(es, 1); GetDistinct(es, 2);
    Mapping(es)
  }

  /** `serialize_streamfield`: an absent or empty stream gives the empty
      list, otherwise one record per child, in stream order. */
  function SerializeStreamfield(stream: Option<seq<Block>>, request: Request, renditions: Renditions): (r: seq<Value>)
    ensures |r| == if stream.Some? then |stream.value| else 0
  {
    if stream.None? || |stream.value| == 0 then []
    else
      var blocks := stream.value;
      seq(|blocks|, i requires 0 <= i < |blocks| => SerializeBlock(blocks[i], request, renditions))
  }

  /** Element i of the serialized stream is the record of child i: its type,
      its serialized value and its id. */
  lemma StreamElements(blocks: seq<Block>, request: Request, renditions: Renditions)
    ensures var r := SerializeStreamfield(Some(blocks), request, renditions);
      && |r| == |blocks|
      && forall i :: 0 <= i < |blocks| ==>
        && r[i].Mapping? && Keys(r[i].entries) == BlockRecordKeys
        && Get(r[i].entries, "type") == Some(Scalar(Str(blocks[i].blockType)))
        && Get(r[i].entries, "value") == Some(SerializeValue(blocks[i].value, request, renditions))
        && Get(r[i].entries, "id") == Some(IdValue(blocks[i].id))
  {
  }

  /** A serialized stream holds no image object and no tuple. */
  lemma StreamIsSerialized(stream: Option<seq<Block>>, request: Request, renditions: Renditions)
    ensures Serialized(Sequence(List, SerializeStreamfield(stream, request, renditions)))
  {
    var r := SerializeStreamfield(stream, request, renditions);
    forall i | 0 <= i < |r| ensures Serialized(r[i]) {
      var block := stream.value[i];
      SerializeValueIsSerialized(block.value, request, renditions);
      var es := r[i].entries;
      assert es[1].1 == SerializeValue(block.value, request, renditions);
      assert forall j | 0 <= j < |es| :: j != 1 ==> es[j].1.Scalar?;
    }
  }

  /** The settings singleton of a site (`SiteSettings.for_site`). */
  datatype SiteSettings = SiteSettings(
    siteName: string,
    siteTagline: string,
    siteDescription: string,
    siteLogo: Option<Image>,
    contactInfo: Option<seq<Block>>,
    sponsors: Option<seq<Block>>,
    organizers: Option<seq<Block>>,
    socialLinks: Option<seq<Block>>,
    copyrightText: string,
    footerAboutText: string,
    navigationItems: Option<seq<Block>>,
    showLoginButton: bool,
    loginButtonText: string,
    loginUrl: string)

  /** A site row of the CMS and the settings that belong to it. */
  datatype Site = Site(hostname: string, isDefaultSite: bool, settings: SiteSettings)

  /** What the view gives back: a response, or an exception it does not catch. */
  datatype Reply = Respond(status: int, body: Value) | Uncaught(exception: string)

  /** The `site_logo` field: `None` without a logo, otherwise the image record. */
  function SiteLogo(logo: Option<Image>, request: Request, renditions: Renditions): (r: Value)
    ensures r == Scalar(Null) <==> logo.None?
    ensures logo.Some? ==> r == SerializeValue(Img(logo.value), request, renditions)
  {
    if logo.Some? then
      var image := logo.value;
      ImageRecord(image,
                  request.absoluteUri(image.fileUrl),
                  request.absoluteUri(renditions(image, ThumbnailSpec)),
                  request.absoluteUri(renditions(image, LargeSpec)))
    else Scalar(Null)
  }

  const SettingsKeys: seq<string> := [
    "site_name", "site_tagline", "site_description", "site_logo",
    "contact_info", "sponsors", "organizers", "social_links",
    "copyright_text", "footer_about_text", "navigation_items",
    "show_login_button", "login_button_text", "login_url"]

  /** The `data` record of the response. */
  function SettingsData(s: SiteSettings, request: Request, renditions: Renditions): (r: Value)
    ensures r.Mapping? && Keys(r.entries) == SettingsKeys
  {
    Mapping([
      ("site_name", Scalar(Str(s.siteName))),
      ("site_tagline", Scalar(Str(s.siteTagline))),
      ("site_description", Scalar(Str(s.siteDescription))),
      ("site_logo", SiteLogo(s.siteLogo, request, renditions)),
      ("contact_info", Sequence(List, SerializeStreamfield(s.contactInfo, request, renditions))),
      ("sponsors", Sequence(List, SerializeStreamfield(s.sponsors, request, renditions))),
      ("organizers", Sequence(List, SerializeStreamfield(s.organizers, request, renditions))),
      ("social_links", Sequence(List, SerializeStreamfield(s.socialLinks, request, renditions))),
      ("copyright_text", Scalar(Str(s.copyrightText))),
      ("footer_about_text", Scalar(Str(s.footerAboutText))),
      ("navigation_items", Sequence(List, SerializeStreamfield(s.navigationItems, request, renditions))),
      ("show_login_button", Scalar(Bool(s.showLoginButton))),
      ("login_button_text", Scalar(Str(s.loginButtonText))),
      ("login_url", Scalar(Str(s.loginUrl)))
    ])
  }

  /** `Site.objects.filter(is_default_site=True)`, in table order. */
  function DefaultSites(sites: seq<Site>): (r: seq<Site>)
    ensures forall s :: s in r <==> s in sites && s.isDefaultSite
    ensures forall s :: multiset(r)[s] == if s.isDefaultSite then multiset(sites)[s] else 0
    ensures |r| <= |sites|
  {
    if |sites| == 0 then []
    else
      assert sites == [sites[0]] + sites[1..];
      (if sites[0].isDefaultSite then [sites[0]] else []) + DefaultSites(sites[1..])
  }

  const NotFoundBody: Value := Mapping([("error", Scalar(Str("Default site not found")))])

  /** `SiteSettingsAPIView.get`: `Site.objects.get(is_default_site=True)`
      raises `DoesNotExist` (answered with 404) when no site is the default
      and `MultipleObjectsReturned` (not caught) when several are. */
  function GetSettings(sites: seq<Site>, request: Request, renditions: Renditions): (r: Reply)
    ensures r.Respond? && r.status == 404 <==> forall s :: s in sites ==> !s.isDefaultSite
    ensures r.Respond? && r.status == 404 ==> r.body == NotFoundBody
    ensures r.Respond? ==> r.status == 200 || r.status == 404
    ensures r.Respond? && r.status == 200 ==>
      exists s :: s in sites && s.isDefaultSite && r.body == SettingsData(s.settings, request, renditions)
    ensures r.Uncaught? <==> |DefaultSites(sites)| > 1
    ensures |DefaultSites(sites)| == 1 ==>
      r == Respond(200, SettingsData(DefaultSites(sites)[0].settings, request, renditions))
  {
    var defaults := DefaultSites(sites);
    if |defaults| == 0 then Respond(404, NotFoundBody)
    else
      assert defaults[0] in defaults;
      if |defaults| > 1 then Uncaught("MultipleObjectsReturned")
      else
        Respond(200, SettingsData(defaults[0].settings, request, renditions))
  }

  /** The settings record has distinct keys, `site_logo` holds the logo's
      record or `None`, and each block stream is its serialized list. */
  lemma SettingsFields(s: SiteSettings, request: Request, renditions: Renditions)
    ensures var es := SettingsData(s, request, renditions).entries;
      && DistinctKeys(es)
      && Get(es, "site_name") == Some(Scalar(Str(s.siteName)))
      && Get(es, "site_tagline") == Some(Scalar(Str(s.siteTagline)))
      && Get(es, "site_description") == Some(Scalar(Str(s.siteDescription)))
      && Get(es, "copyright_text") == Some(Scalar(Str(s.copyrightText)))
      && Get(es, "footer_about_text") == Some(Scalar(Str(s.footerAboutText)))
      && Get(es, "login_button_text") == Some(Scalar(Str(s.loginButtonText)))
      && Get(es, "login_url") == Some(Scalar(Str(s.loginUrl)))
      && Get(es, "site_logo") == Some(SiteLogo(s.siteLogo, request, renditions))
      && Get(es, "contact_info") == Some(Sequence(List, SerializeStreamfield(s.contactInfo, request, renditions)))
      && Get(es, "sponsors") == Some(Sequence(List, SerializeStreamfield(s.sponsors, request, renditions)))
      && Get(es, "organizers") == Some(Sequence(List, SerializeStreamfield(s.organizers, request, renditions)))
      && Get(es, "social_links") == Some(Sequence(List, SerializeStreamfield(s.socialLinks, request, renditions)))
      && Get(es, "navigation_items") == Some(Sequence(List, SerializeStreamfield(s.navigationItems, request, renditions)))
      && Get(es, "show_login_button") == Some(Scalar(Bool(s.showLoginButton)))
  {
    var es := SettingsData(s, request, renditions).entries;
    assert DistinctKeys(es) by {
      forall i, j | 0 <= i < j < |es| ensures es[i].0 != es[j].0 {
        assert es[i].0 == SettingsKeys[i] && es[j].0 == SettingsKeys[j];
      }
    }
    GetDistinct(es, 0); GetDistinct(es, 1); GetDistinct(es, 2); GetDistinct(es, 3);
    GetDistinct(es, 4); GetDistinct(es, 5); GetDistinct(es, 6); GetDistinct(es, 7);
    GetDistinct(es, 8); GetDistinct(es, 9); GetDistinct(es, 10); GetDistinct(es, 11);
    GetDistinct(es, 12); GetDistinct(es, 13);
  }

  /** The settings record holds no image object and no tuple. */
  lemma SettingsDataIsSerialized(s: SiteSettings, request: Request, renditions: Renditions)
    ensures Serialized(SettingsData(s, request, renditions))
  {
    var es := SettingsData(s, request, renditions).entries;
    forall i | 0 <= i < |es| ensures Serialized(es[i].1) {
      if i == 3 {
        if s.siteLogo.Some? {
          SerializeValueIsSerialized(Img(s.siteLogo.value), request, renditions);
        }
      } else if i == 4 {
        StreamIsSerialized(s.contactInfo, request, renditions);
      } else if i == 5 {
        StreamIsSerialized(s.sponsors, request, renditions);
      } else if i == 6 {
        StreamIsSerialized(s.organizers, request, renditions);
      } else if i == 7 {
        StreamIsSerialized(s.socialLinks, request, renditions);
      } else if i == 10 {
        StreamIsSerialized(s.navigationItems, request, renditions);
      } else {
        assert es[i].1.Scalar?;
      }
    }
  }

  /** Every body the view answers with holds no image object and no tuple:
      only the 404 body and serialized settings are ever sent. */
  lemma ReplyIsSerialized(sites: seq<Site>, request: Request, renditions: Renditions)
    ensures var r := GetSettings(sites, request, renditions);
      r.Respond? ==> Serialized(r.body)
  {
    var r := GetSettings(sites, request, renditions);
    if r.Respond? && r.status == 200 {
      SettingsDataIsSerialized(DefaultSites(sites)[0].settings, request, renditions);
    } else if r.Respond? {
      assert Serialized(NotFoundBody.entries[0].1);
    }
  }
}
