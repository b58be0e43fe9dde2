# zxart: a Dafny model of the ZXArt API client's request and response core

The ZXArt client (`zxart`) is an asynchronous Python client for the `zxart.ee` API.
A request is a path of `key:value` segments under `https://zxart.ee/api/`. The segments come
from the caller's keyword options, and the client merges its own defaults into them:
language, record limit, sort order, and `export` (the entity kind asked for). The filter
options (`author_id`, `min_rating`, `tags_include`, …) are folded into a single
`filter:` segment. Each one becomes a `wire=value` item, and an upper-case wire name is
prefixed by the entity's own name (`zxPictureMinRating=3.5`). The server answers with a JSON
envelope. Its status must be `"success"`, and its data holds one optional list per entity
kind. Each record's fields are read under JSON keys given by per-class alias tables.

This project models that core:

- `Common` (`common.dfy`, after `zxart/common.py`):
  - the sorting settings and presets, with their text form;
  - the `Language` and `Entity` string enumerations;
  - the option values and how they are formatted;
  - the filter table;
  - `url_from_options`. Its extraction loop is the imperative method `PopFilters`, and
    `ExtractFilters` adds the `filter` entry after it. Both are proved against the
    specification function `Translated`.
- `Models` (`models.dfy`, after `zxart/models.py`):
  - the HTML unescape-and-unwrap decoder `_unescape`;
  - the timecode decoder `_duration`, including the exact laziness of its `zip`;
  - the record types and their alias tables, with their wire keys proved distinct;
  - the author count defaults;
  - `ResponseData`, and the lookup of one entity kind's list;
  - the envelope's status check.
- `Client` (`client.dfy`, after `zxart/client.py`):
  - the client's defaults, and whether it owns (and so closes) its HTTP session;
  - the option merging and path building of `api`, proved against the function
    `MergedOptions`.
- Shared vocabulary:
  - `Wrappers` (`wrappers.dfy`): `Option`, `Result` and the Python exceptions that can arise;
  - `Strings` (`strings.dfy`): `Join` and `Split` with their round trips, and decimal text;
  - `Dict` (`dict.dfy`): a Python `dict`, as an association list that keeps insertion order,
    with `get`, `pop`, item assignment and `setdefault`.

A Python dict keeps insertion order, and that order is the order of the path segments. So
options are a sequence of `(key, value)` pairs with distinct keys, not a map. Assigning to
an existing key keeps its position; assigning to a new key appends it.

Where the documented behaviour of the library and its code disagree, the model follows the
code:

- an unknown option raises nothing: it becomes a path segment like any other;
- a list the server omits stays `None` and is not replaced by an empty list;
- in `api`, the filter step runs before the defaults are added. A new `filter` entry
  therefore comes after every option the caller gave, and before the defaults the client
  adds for an absent `language`, `limit` or `order`. `export` comes last unless the caller
  gave it, in which case it keeps the caller's position.

## Model

| member | source | states |
|---|---|---|
| `Common.NamesRoundTrip` | zxart/common.py:16-27 | Every sort field and order name reads back as the field or order it names, and a field name holds no comma. |
| `Common.SettingsRoundTrip` | zxart/common.py:30-31 | The `field,order` text of sorting settings parses back to the same settings. |
| `Common.Preset` | zxart/common.py:34-46 | Every preset sorts in descending order, except `TOP_PLACED`, which sorts ascending. |
| `Common.TopPlacedText` | zxart/common.py:43-49 | The `TOP_PLACED` preset renders as `place,asc`. |
| `Common.SortTextRoundTrip` | zxart/common.py:48-49 | A preset's text is its settings' text, so it parses back to the settings it stands for. |
| `Common.LanguageCodeRoundTrip` | zxart/common.py:52-60 | Each language code reads back as its language, and only that language has that code. |
| `Common.EntityNameRoundTrip` | zxart/common.py:63-83 | Each entity's wire name reads back as that entity, and only that entity has that name. |
| `Common.FilterMapShape` | zxart/common.py:120-137 | Every wire name in the filter table is non-empty, and it starts upper-case exactly when the option is not `author_id`. |
| `Common.FilterValueTextItems` | zxart/common.py:152-153 | A string, and any non-iterable value, keeps its own text. A list of items is comma-joined. When the list is non-empty and no item's text holds a comma, it splits back at the commas into its items' texts. |
| `Common.FilterItemPrefix` | zxart/common.py:155-158 | A filter item is `wire=value`. An upper-case wire name is prefixed by the entity name; `authorId` is not. |
| `Common.MinRatingExample` | zxart/common.py:146-158 | The float `min_rating=3.5` on pictures becomes `zxPictureMinRating=3.5`. |
| `Common.IdExample` | zxart/common.py:146-158 | `id=42` on pictures becomes `zxPictureId=42`. |
| `Common.AuthorIdExample` | zxart/common.py:146-158 | `author_id=5` becomes the unprefixed `authorId=5`. |
| `Common.TagsExample` | zxart/common.py:152-158 | A list of tags becomes the comma-joined `zxMusicTagsInclude=demo,music`. |
| `Common.PopFilters` | zxart/common.py:146-158 | The loop pops each filter option in key order and collects its item. It stops with `TypeError` exactly when there is no string prefix and some option needs one; otherwise it leaves the non-filter entries in order, with every filter item. |
| `Common.ExtractFilters` | zxart/common.py:146-161 | The extraction is exactly `Translated`: the loop's error, or its remaining options with the `;`-joined items stored under `filter` only when there are any. |
| `Common.TranslatedFails` | zxart/common.py:155-156 | The extraction fails exactly when there is no string prefix and some option needs one. |
| `Common.NonStringExport` | zxart/common.py:155-156 | A non-string `export` makes `url_from_options` raise `TypeError` exactly when some option needs the prefix. |
| `Common.TranslatedKeeps` | zxart/common.py:146-150 | After the extraction the keys are still distinct, no filter option is left, and every other option except `filter` keeps its value. |
| `Common.RestEntries` | zxart/common.py:146-150 | The options left after the pops are exactly the entries whose key is not a filter option. |
| `Common.SplitsConcat` | zxart/common.py:146-158 | The extraction keeps relative order: the kept entries and the filter items of two concatenated option lists are those of each list, one after the other. |
| `Common.FilterItemsEmpty` | zxart/common.py:160 | No filter items are collected exactly when no option is a filter option. |
| `Common.RestGet` | zxart/common.py:146-150 | Popping the filter options leaves the value of every other key unchanged. |
| `Common.TranslatedFilterEntry` | zxart/common.py:160-161 | A `filter` entry is present afterwards exactly when the caller gave one or some filter option was present. With filter options it holds the `;`-joined items; without any, the options are unchanged. |
| `Common.TranslatedFilterLast` | zxart/common.py:160-161 | Without a caller `filter` key, the new `filter` entry comes last, after the remaining options in their order. |
| `Common.SegmentsConcat` | zxart/common.py:163 | Segments are rendered entry by entry, in dict order. |
| `Common.Segments` | zxart/common.py:163 | One path segment per option. |
| `Common.RequestUrlSegments` | zxart/common.py:163 | The request URL is the base URL followed by the segments, which split back at `/` when none holds a slash. |
| `Common.UrlFromOptions` | zxart/common.py:140-163 | `url_from_options` fails exactly when `UrlSegments` does, with its error (a `KeyError` without `export`, or the extraction's error). Otherwise it returns the request URL of the extracted options' segments. |
| `Common.UrlSegmentsErrors` | zxart/common.py:143 | A missing `export` is a `KeyError`, and an entity-valued `export` never fails. |
| `Common.UrlSegmentsShape` | zxart/common.py:140-163 | For an entity export and no `filter` option of the caller's, the path is the non-filter options' segments in order. When there are filter options, it ends with one `filter:` segment of their items with the entity prefix. |
| `Common.UrlExample` | zxart/common.py:140-163 | `language=rus, export=zxPicture, min_rating=3.5, author_id=5` gives `language:rus/export:zxPicture/filter:zxPictureMinRating=3.5;authorId=5`. |
| `Models.PreUnwrap` | zxart/models.py:13 | A full match of `<pre>(.*)</pre>` gives back the text between the outer tags; any other string is returned as it is. |
| `Models.PreUnwrapWrapped` | zxart/models.py:24-25 | Every wrapped text matches, and the capture is exactly the wrapped text, whatever tags it holds. |
| `Models.PreUnwrapOnce` | zxart/models.py:22-26 | Only one layer is unwrapped: a doubly wrapped text keeps its inner tags. |
| `Models.UnescapeUnwraps` | zxart/models.py:22-26 | The unwrap applies to the unescaped text: an escaped wrapped body comes out unescaped and unwrapped, and an unwrapped text comes out only unescaped. |
| `Models.ParseAll` | zxart/models.py:30 | The parts convert exactly when each part converts, and then the values are the parts' values, in order. |
| `Models.ZipSumWeights` | zxart/models.py:31 | Zipping with `[1, 60, 3600]` weights the first three values as seconds, minutes and hours, and ignores any further value. |
| `Models.DurationOfPartsValue` | zxart/models.py:29-32 | A duration succeeds exactly when the (up to) four rightmost parts convert, and is then the weighted sum of the three rightmost. |
| `Models.DurationJoin` | zxart/models.py:30 | Splitting a `:`-joined timecode gives back its parts. |
| `Strings.JoinSplit` | zxart/models.py:30 | Joining the parts `split` gives with the same separator gives back the text, so splitting loses nothing. |
| `Models.DurationThree` | zxart/models.py:29-32 | `h:m:s` whose parts convert to x, y, z lasts `3600x + 60y + z` seconds. |
| `Models.DurationHMS` | zxart/models.py:29-32 | Decimal `h:m:s` lasts `3600h + 60m + s` seconds. |
| `Models.DurationSeconds` | zxart/models.py:29-32 | A bare decimal number is that many seconds. |
| `Models.DurationExtraParts` | zxart/models.py:29-32 | Parts beyond hours add nothing when the fourth part from the right converts, make the duration fail when it does not, and are never converted further left. |
| `Models.DurationExampleHMS` | zxart/models.py:29-32 | `1:02:03` is 3723 seconds. |
| `Models.DurationExampleSeconds` | zxart/models.py:29-32 | `90` is 90 seconds. |
| `Models.DurationExampleFive` | zxart/models.py:29-32 | `00:00:05` is 5 seconds. |
| `Models.DurationFourthParsed` | zxart/models.py:29-32 | `9:00:00:05` is 5 seconds: the day-like fourth part is converted but has no weight. |
| `Models.DurationFourthRejected` | zxart/models.py:29-32 | `x:00:00:05` raises, because the fourth part from the right is converted. |
| `Models.DurationFifthIgnored` | zxart/models.py:29-32 | `x:9:00:00:05` is 5 seconds, because the fifth part from the right is never converted. |
| `Models.UnaliasedFields` | zxart/models.py:169-177 | `pouet` is the only `ImportID` field without an alias; `start` and `limit` of the envelope have none either. |
| `Models.FieldOfKey` | zxart/models.py:64-84 | The field a JSON key feeds is one of the record's fields whose wire key it is. It finds none only when no field uses the key. |
| `Models.FieldOfKeyInverse` | zxart/models.py:64-84 | When a record's wire keys are distinct, every field is found again from its own wire key. |
| `Models.EntityBaseWireKeys` | zxart/models.py:50-84 | The base fields are read from `id`, `title`, `url`, `dateCreated` and `dateModified`. |
| `Models.MediaWireKeys` | zxart/models.py:95-118 | The media fields are read from the base keys followed by `partyId`, `compo`, `partyPlace`, `authorIds`, `tags`, `type`, `rating`, `year`, `description` and `originalUrl`. |
| `Models.TuneWireKeys` | zxart/models.py:121-134 | A tune adds `internalTitle`, `time`, `plays`, `originalFileName` and `mp3FilePath` to the media keys. |
| `Models.ImageWireKeys` | zxart/models.py:137-144 | An image adds `imageUrl` and `views` to the media keys. |
| `Models.AuthorAliasWireKeys` | zxart/models.py:180-191 | An author alias adds `authorId`, `importIds`, `startDate` and `endDate` to the base keys. |
| `Models.AuthorWireKeys` | zxart/models.py:194-211 | An author adds `realName`, `country`, `city`, `picturesQuantity`, `tunesQuantity`, `aliases` and `importIds` to the base keys. |
| `Models.ImportIdWireKeys` | zxart/models.py:147-177 | The import ids are read from `3a`, `dzoo`, `pouet`, `sc`, `wos`, `vt`, `zxd` and `swiki`. |
| `Models.ResponseWireKeys` | zxart/models.py:238-258 | The envelope is read from `responseStatus`, `totalAmount`, `start`, `limit` and `responseData`. |
| `Models.TuneUnambiguous` | zxart/models.py:121-134 | No two tune fields share a JSON key, so every field is found again from its key. |
| `Models.ImageUnambiguous` | zxart/models.py:137-144 | No two image fields share a JSON key, so every field is found again from its key. |
| `Models.AuthorAliasUnambiguous` | zxart/models.py:180-191 | No two author-alias fields share a JSON key, so every field is found again from its key. |
| `Models.AuthorUnambiguous` | zxart/models.py:194-211 | No two author fields share a JSON key, so every field is found again from its key. |
| `Models.ImportIdUnambiguous` | zxart/models.py:147-177 | No two import-id fields share a JSON key, so every field is found again from its key. |
| `Models.ResponseUnambiguous` | zxart/models.py:238-258 | No two envelope fields share a JSON key, so every field is found again from its key. |
| `Models.AuthorCountDefaults` | zxart/models.py:204-207 | Without `picturesQuantity` or `tunesQuantity` an author has 0 images or tunes. A count is read only under its wire key, never under the field's own name. |
| `Models.SelectByName` | zxart/models.py:214-235 | Looking up an entity's wire name on the response data never fails, and gives that entity's list. |
| `Models.ResponseDataFieldsAreEntities` | zxart/models.py:214-235 | The data fields are exactly the entity wire names, and exactly those names are fields of `ResponseData`. |
| `Models.SelectOmitted` | zxart/models.py:214-235 | For any response data, an entity's list is `None` exactly when the server omitted it, whatever the other lists hold, and is otherwise the list sent. A missing list is never an empty list. |
| `Models.DecodeStatus` | zxart/models.py:242 | An envelope decodes exactly when its status is `"success"`, and otherwise fails with that status. A decoded response loses nothing. |
| `Models.DecodeEncode` | zxart/models.py:238-258 | Encoding a response and decoding it again gives it back. |
| `Client.LimitOrDefault` | zxart/client.py:45 | A given non-zero limit is kept; an absent or zero limit becomes 60; the limit is never 0. |
| `Client.Session.constructor` | zxart/client.py:47 | A new HTTP session is open. |
| `Client.Session.Close` | zxart/client.py:58 | Closing a session leaves it closed. |
| `Client.ZXArtClient.constructor` | zxart/client.py:36-48 | Language, limit and sorting default to Russian, 60 and most recent. The client owns a session exactly when none was given, and then it creates a fresh, open one. |
| `Client.ZXArtClient.Close` | zxart/client.py:56-58 | The client closes its session only when it created it, and leaves a caller's session untouched. |
| `Client.ZXArtClient.Api` | zxart/client.py:95-113 | The request URL is the base URL joined with the segments of `MergedOptions`. The result is the decode error, or the decoded data's list for the entity. |
| `Client.FilteredKeeps` | zxart/client.py:96-97 | The filter step keeps keys distinct, and leaves every option other than the filters and `filter` alone. |
| `Client.DefaultedGet` | zxart/client.py:99-101 | `setdefault` keeps the caller's `language`, `limit` and `order`, and supplies the client's values only when they are absent. |
| `Client.DefaultedOther` | zxart/client.py:99-101 | The three `setdefault` calls change no other key. |
| `Client.FilteredKeepsDefaults` | zxart/client.py:96-97 | The filter step never touches `language`, `limit` or `order`. |
| `Client.ClientKeysNotFilters` | zxart/client.py:99-102 | None of the client's own keys is a filter option. |
| `Client.MergedDefaults` | zxart/client.py:96-102 | The merged options have distinct keys. `language`, `limit` and `order` are the caller's values or else the client's, and `export` is always the requested entity. |
| `Client.MergedExportPosition` | zxart/client.py:102 | A caller's `export` is overwritten in place; otherwise `export` is appended after the defaults. |
| `Client.FilteredFilter` | zxart/client.py:96-97 | After the filter step no filter option is left. `filter` holds the entity-prefixed items when there were filter options; otherwise the options are unchanged. |
| `Client.MergedFilter` | zxart/client.py:95-102 | The same holds of the merged options: no filter option reaches the path, and `filter` holds the entity-prefixed items. |
| `Client.DefaultedKeys` | zxart/client.py:99-102 | The defaults and `export` append exactly the client keys the options lack, in the order `language`, `limit`, `order`, `export`, after the options' own keys. |
| `Client.FilteredKeys` | zxart/client.py:96-97 | With some filter option and no `filter` of the caller's, the filter step leaves the non-filter keys in order, then `filter`. |
| `Client.MergedKeys` | zxart/client.py:96-102 | The merged keys are the filter step's keys followed by the defaults missing from the caller's options, then `export` if the caller did not give it. |
| `Client.MergedKeyOrder` | zxart/client.py:96-102 | With some filter option and no `filter` of the caller's, the merged keys are the caller's non-filter keys in order, then `filter`, then the missing defaults, then `export` if the caller did not give it. |
| `Client.DefaultOptions` | zxart/client.py:99-102 | With no options, the merged options are `language`, `limit`, `order` and `export`, in that order. |
| `Client.DefaultPath` | zxart/client.py:99-104 | A default client with no options requests `language:rus/limit:60/order:date,desc/export:<entity>`. |

## Left out

- Network I/O, `aiohttp`, `async`/`await` and the context-manager protocol are not modelled. The server's reply is a parameter of `Api`, already read as an envelope.
- The HTTP session is only an open/closed flag.
- `yarl`'s URL building is reduced to joining the segments with `/` after the base URL. Percent-encoding of the segments is not modelled.
- A float option value is carried as the text `str` gives it (`Float("3.5")`). Python's float formatting (the shortest round-tripping repr) is not modelled.
- `Models.Attribute` models `getattr` on the fields of `ResponseData` only. The attributes every Python object has (`__class__` and the like) are not modelled.
- The debug log line in `api` is not modelled.
- JSON decoding (`orjson`, `mashumaro`) is represented only by what the modelled code decides: the alias tables (which JSON key feeds which field), the count defaults and the status check. Field types, required fields and nesting are not checked against a JSON document.
- `html.unescape` and `float` are parameters of `Unescape` and `Duration`. The examples instantiate `float` with a decimal-digits reader.
- `Duration` returns seconds as a real number. Building the `timedelta` (its microsecond rounding) and floating-point arithmetic are not modelled.
- The other deserializers, `strptime` (`_date`), `datetime.fromtimestamp`, `unquote` and `Decimal`, are not modelled. Dates and timestamps are plain numbers in the records.
- The text of a list or tuple value that is not a filter (`str(list)`, its `repr` quoting) is rendered as a list, in brackets with simple single quotes; a tuple's `(…)` text is not modelled. Python's escaping of quotes inside strings is not modelled.
- `process_filters` is imported by `client.py` from `.common`, but the `common.py` modelled here does not define it; the `music` parameter types are not part of this model either. Its step in `api` is modelled as the extraction loop of `url_from_options`, with the entity's wire name as the prefix.
- The `@overload` declarations of `api` only narrow static types. They are covered by `Select`, which returns the list type of each entity kind.
- `Common.PopFilters`, `Common.ExtractFilters`, `Common.UrlFromOptions`, `Client.ZXArtClient.Api`: these require distinct keys, which every Python `dict` of keyword arguments has.
