# Settings serializer of the ARC CMS backend

This project models, in Dafny, the code of the ARC CMS (a Wagtail/Django
headless backend) that turns stored content into JSON for the frontend:

- `serialize_value` and `serialize_streamfield` inside
  `SiteSettingsAPIView.get` (`cms_app/api.py`). They walk a stream of typed
  blocks and replace each image object by a seven-field record with absolute
  URLs. Mappings and lists/tuples are rebuilt entry by entry, and every other
  value is returned unchanged.
- The `site_logo` record, the settings record that `get` assembles, and the
  404 answer when no default site exists.
- `APIImageChooserBlock.get_api_representation` (`cms_app/blocks.py`). It
  builds the same seven-field record, with URLs prefixed by
  `scheme://host` of the request in the serializer context, or by nothing.

Python values are one datatype, `Values.Value`:

- image objects (`Img`);
- mappings, as ordered key/value sequences (`Mapping`);
- lists and tuples (`Sequence` with a `SeqKind`);
- leaves (`Scalar`): `None`, booleans, integers, strings, and an opaque
  `Other` for any other object.

`Values.Serialized` is the shape serialization produces: no image and no
tuple at any depth. The framework services are parameters and stay
uninterpreted:

- `request.build_absolute_uri` is `Media.Request.absoluteUri`;
- `image.get_rendition(spec).url` is a `Media.Renditions` function;
- `image.file.url` is the `fileUrl` field of `Values.Image`.

The default-site lookup is modelled on the list of site rows.

The docstring of `serialize_streamfield` (`cms_app/api.py:32`) describes
its job as converting a stream "to serializable format". The fallback branch
(`cms_app/api.py:52-53`), however, returns any value that is not an image,
a mapping, a list or a tuple unchanged. So an arbitrary object
(`Atom.Other`) can survive into the output, and the model keeps that
behaviour. Two more details follow the code as written:

- A stream child whose `id` attribute holds `None` gets the id text `"None"`,
  since that is what `str(None)` gives.
- The inner `if value` guards on `thumbnail` and `large` always hold, because
  an image object is always truthy.

## Model

| member | source | states |
|---|---|---|
| Media.ImageRecord | cms_app/api.py:39-47 | the record has exactly the keys id, title, original, width, height, thumbnail, large, in that order and distinct; id, title, width and height are the image's own; the three URL fields hold the given URLs |
| Media.ImageRecordShape | cms_app/api.py:39-47 | an image record contains no image object and no tuple, and its keys are distinct |
| ImageBlocks.RequestOf | cms_app/blocks.py:17 | a request is found exactly when a context is given, it has a `request` entry, and that entry is not `None` |
| ImageBlocks.BaseUrl | cms_app/blocks.py:17-20 | the base URL is empty exactly when no request is found in the context |
| ImageBlocks.GetApiRepresentation | cms_app/blocks.py:14-31 | the result is `None` exactly when the value is absent; for a present image it has the seven record keys, and id, title, width and height are copied unchanged |
| ImageBlocks.NoRequestGivesBareUrls | cms_app/blocks.py:17-25 | with no context, no `request` entry, or a `None` request, the base URL is empty; `original` is exactly the file URL, and `thumbnail` and `large` exactly the max-500x500 and max-1920x1080 rendition URLs |
| ImageBlocks.RequestGivesSchemeAndHost | cms_app/blocks.py:19-20 | with a request in the context, the base URL is scheme + "://" + host |
| ImageBlocks.UrlsShareBase | cms_app/blocks.py:25-29 | the same base URL prefixes original (file URL), thumbnail (max-500x500 rendition) and large (max-1920x1080 rendition) |
| ImageBlocks.RenditionFieldsNeverNull | cms_app/blocks.py:28-29 | for a present image, thumbnail and large are present and never `None` |
| SettingsApi.SerializeValue | cms_app/api.py:36-53 | an image becomes a mapping with the seven record keys; a mapping keeps its keys in order; a list or tuple becomes a list of the same length; any other value is returned unchanged |
| SettingsApi.SerializeImage | cms_app/api.py:38-47 | an image becomes the seven-key record: id, title, width and height copied; original, thumbnail and large are build_absolute_uri of the file URL, the max-500x500 rendition URL and the max-1920x1080 rendition URL |
| SettingsApi.GetSerialized | cms_app/api.py:48-49 | looking up a key in a serialized mapping finds the serialized value stored under that key in the original, and finds nothing for a key the original lacks |
| SettingsApi.SerializeMapping | cms_app/api.py:48-49 | a mapping serializes to a mapping with the same keys in the same order, each value serialized recursively |
| SettingsApi.SerializeTupleAsList | cms_app/api.py:50-51 | a tuple serializes exactly as the list with the same elements does |
| SettingsApi.SerializeSequenceAppend | cms_app/api.py:50-51 | serializing a concatenation of sequences gives the concatenation of the serialized parts, in order |
| SettingsApi.SerializeValueIsSerialized | cms_app/api.py:36-53 | the output contains no image object and no tuple at any depth |
| SettingsApi.FixedPoints | cms_app/api.py:36-53 | serialization leaves a value unchanged if and only if it holds no image and no tuple |
| SettingsApi.SerializeIdempotent | cms_app/api.py:36-53 | serializing the output again, with any request, gives the output back |
| SettingsApi.SerializePreservesWellFormed | cms_app/api.py:48-49 | if every mapping of the input has distinct keys, so does every mapping of the output |
| SettingsApi.IdValue | cms_app/api.py:59 | the id is `None` exactly when the child has no id attribute; it is the id text when one is set, and the text "None" when the attribute holds `None`, as `str(None)` gives |
| SettingsApi.SerializeBlock | cms_app/api.py:56-60 | a child's record has exactly the keys type, value and id; type is the block type, value the serialized value, id as IdValue says |
| SettingsApi.SerializeStreamfield | cms_app/api.py:31-62 | an absent or empty stream gives the empty list; otherwise the output has one element per child |
| SettingsApi.StreamElements | cms_app/api.py:55-62 | element i of the output is the record of child i, with its type, its serialized value and its id, so length and order are preserved |
| SettingsApi.StreamIsSerialized | cms_app/api.py:55-62 | a serialized stream contains no image object and no tuple |
| SettingsApi.SiteLogo | cms_app/api.py:69-77 | site_logo is `None` exactly when the settings have no logo; otherwise it is the record serialize_value makes of the logo |
| SettingsApi.SettingsData | cms_app/api.py:65-88 | the settings record has exactly the fourteen keys of the response, in order |
| SettingsApi.SettingsFields | cms_app/api.py:65-88 | the keys are distinct; site_logo holds SiteLogo's record; each of the five streams holds its serialized list; every text and boolean field is copied from the settings |
| SettingsApi.SettingsDataIsSerialized | cms_app/api.py:65-88 | the settings record contains no image object and no tuple |
| SettingsApi.DefaultSites | cms_app/api.py:27 | the filtered rows are exactly the site rows marked as the default site, each occurring as many times as in the table |
| SettingsApi.GetSettings | cms_app/api.py:24-97 | status 404 with body {"error": "Default site not found"} exactly when no site is the default; the uncaught MultipleObjectsReturned exactly when several are; otherwise status 200 with the default site's settings record |
| SettingsApi.ReplyIsSerialized | cms_app/api.py:24-97 | every body the view answers with contains no image object and no tuple |
| Agreement.ImageRecordsAgree | cms_app/blocks.py:19-29 | when build_absolute_uri prefixes scheme://host to the three URLs, the settings view's logo record equals the chooser block's representation with that request in its context |

## Left out

- The HTTP response object is left out: the no-cache headers (`cms_app/api.py:91-94`), the `never_cache` decorator and DRF's `Response`. The model keeps only the status and the body.
- The router registration (`cms_app/api.py:100-106`) and the URL configuration are routing glue.
- Rendition generation, file storage and `request.build_absolute_uri` are framework behaviour. They are uninterpreted parameters. The only fact the model assumes about them is the one that `Agreement.ImageRecordsAgree` states as its precondition.
- `SiteSettings.for_site` may create the settings row. The model gives every site row its settings directly.
- Exceptions from framework calls other than the default-site lookup are not modelled. This includes a failing rendition or an object with a `file` attribute that is not an image, such as a document. `Img` stands for image objects only.
- `ImageBlocks.RequestOf`: every context entry is modelled as an optional request, because the code reads only the `request` entry. A truthy `request` entry that is not a request object, which would make the code fail, is not modelled.
- Python dict equality ignores order; the model compares mappings as ordered key/value sequences. This is harmless here, because serialization keeps the order.
- These are declarative schema or configuration and are not part of this model: the page and settings schema in `cms_app/models.py`, the StructBlock classes in `cms_app/blocks.py`, the management commands, `cms_core/settings.py`, `cms_core/local_settings_production.py`, `gunicorn.conf.py`, `cms_app/wagtail_hooks.py` and `test_document_upload.py`.
