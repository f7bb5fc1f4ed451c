# asyncgur in Dafny

This is a model of the deterministic core of `asyncgur`, an asynchronous client for the Imgur REST API. The network is abstracted away: each endpoint method takes the server's reply as a parameter. A reply is a status code, the rate-limit headers read as integers, and the body after JSON decoding. The client records the requests it sends in a ghost log.

What is modelled:

- **Form payload builder** (`PayloadData.payload`, `payload.dfy`). It drops `None` fields, copies every other field under its own name, and expands an `ids` list into `ids[0]`, `ids[1]`, …. The loop-based method is proved equal to a specification function. Lemmas about that function cover which keys are present, their values, the size of the payload and its key order.
- **Inline payload dicts** of `create_album`, `add_images_to_album` and `create_comment` (`inline_payloads.dfy`). These test truthiness, not `is not None`.
- **Rate-limit tracker** (`RateLimits`, `_update_rate_limits`; `rate_limits.dfy` and `Client.Imgur.UpdateRateLimits`). The merge is sticky: an absent header leaves its field alone.
- **Authorization header** (`_get_headers`, `auth.dfy`). A bearer token takes precedence over the Client-ID.
- **Status checks** of `get_request`, `post_request` and `delete_request` (`http.dfy`). Only a GET turns a 429 into `RateLimitExceeded`, and the tracker is updated first.
- **Query strings** (`_build_query_params`, `query.dfy`). `None` values are skipped and nothing is escaped.
- **Gallery dispatch** on `is_album` (`gallery.dfy`).
- **Recursive comment-forest walk** `process_comments` (`comments.dfy`).
- **Response envelope** (`envelope.dfy`). These are the `success`, `status` and `data` members every endpoint returns.
- **The `Imgur` class** (`client.dfy`). It holds the client id, the access token, the fixed headers and the mutable tracker. Each endpoint is one method, including the OAuth guards that refuse a call before any request is sent.

Python values are the `PyValues.Value` datatype. A dict being built is `OrderedDict.Dict`, which keeps insertion order: an existing key keeps its place and takes the new value.

Errors are one datatype, `Http.ApiError`:
- `Http.OAuthRequired`, an `ImgurApiError`, is the `ImgurAPIError("OAuth authentication required for this endpoint")` that token-only endpoints raise (src/pygur.py:374-375, 393-394, 415-416, 518-519, 541-542).
- `RateLimitExceeded` is the source's own exception for a 429 on a GET.
- `HttpStatusError` stands for the error that aiohttp's `raise_for_status()` raises on a status of 400 or more (src/pygur.py:201, 214, 228).
- `DataShapeError` stands for the errors the record mapper (`dacite`) or a failed lookup raises when a reply does not have the expected shape.

## Model

| member | source | states |
|---|---|---|
| Payload.BuildPayload | src/enums.py:20-34 | the `payload` property returns `PayloadOf(p)`: the fields' pairs inserted in declaration order |
| Payload.PayloadFill | src/enums.py:23-32 | the outer loop over the fields builds the dict of all their pairs |
| Payload.PayloadAddField | src/enums.py:25-32 | one pass of the outer loop: a `None` field adds nothing, an `ids` list adds its `ids[i]` pairs, any other field adds itself |
| Payload.PayloadAddIds | src/enums.py:29-30 | the `enumerate` loop adds `ids[i]` → i-th element after what was there |
| Payload.PayloadDropsNone | src/enums.py:25-26 | no field whose value is `None` appears as a key |
| Payload.PayloadKeepsFields | src/enums.py:31-32 | every non-`None` field other than an `ids` list, the empty string included, is a key holding its value unchanged |
| Payload.PayloadExpandsIds | src/enums.py:27-30 | an `ids` list of length N gives keys `ids[0]`..`ids[N-1]`, each holding its element; there is no bare `ids` key; every bracketed key is one of these |
| Payload.PayloadEmptyIds | src/enums.py:27-30 | an empty `ids` list contributes no keys: the payload equals the one for `ids=None` |
| Payload.PayloadSize | src/enums.py:23-34 | the payload's size is the number of fields copied by name plus `len(ids)`, so no two insertions share a key |
| Payload.PayloadOrder | src/enums.py:25-32 | the keys follow field declaration order, each field's pairs in turn |
| Payload.EntriesAround | src/enums.py:25-32 | the pairs are those of the fields before a given field, then that field's, then those of the fields after it |
| Payload.IdsRun | src/enums.py:27-30 | an `ids` list's `(ids[i], element)` pairs form one run in list order, right after what the earlier fields put in |
| Payload.PayloadIdsRun | src/enums.py:27-30 | the `ids[i]` keys are one contiguous run in list order, right after the fields copied from `title`..`album` |
| Payload.FieldNamesAreNotIdsKeys | src/enums.py:9-18 | no field name equals any `ids[i]` key |
| Payload.PayloadOfDefaults | src/enums.py:9-34 | `PayloadData()`, every field left at `None`, gives the empty dict |
| OrderedDict.Set | src/enums.py:30-32 | `d[k] = v`: a new key is appended, an existing one keeps its place; the dict stays well formed |
| OrderedDict.FromDistinctKeys | src/enums.py:23-32 | inserting pairs with distinct keys lists the keys in insertion order |
| OrderedDict.FromDistinctEntries | src/enums.py:23-32 | inserting pairs with distinct keys maps each key to its own value |
| OrderedDict.FromEntriesSize | src/enums.py:23-32 | however the insertions repeat keys, the dict has one entry per key in its order |
| PyValues.Lookup | src/pygur.py:574 | `k in d` / `d[k]` on a decoded object: absent iff no member has the key; otherwise the last member with that key |
| Decimal.NatStringRoundTrip | src/pygur.py:500 | the decimal text of an id (as in `comment/{comment_id}`) reads back as that id |
| Client.Imgur.constructor | src/pygur.py:91-131 | a new client's tracker is `RateLimits()` (limit and remaining 12500, reset 0, user figures `None`); its headers are `AuthHeaders(client id, token)`, computed once; no request has been made |
| Auth.AuthHeaders | src/pygur.py:136-146 | `Authorization` is the only header |
| Auth.AuthHeaderCarries | src/pygur.py:136-146 | the header carries `Bearer <token>` when the token is truthy, and `Client-ID <id>` otherwise |
| RateLimit.Merge | src/pygur.py:160-178 | each field whose header is present takes that header's value; each other field keeps its value |
| Client.Imgur.UpdateRateLimits | src/pygur.py:160-178 | the six in-place updates leave the tracker at `Merge(old tracker, headers)` |
| RateLimit.MergeTwice | src/pygur.py:160-178 | two replies in turn act as one reply carrying both header sets, the later one winning |
| RateLimit.MergeAllIsLatest | src/pygur.py:160-178 | over any run of replies, each field holds the latest value reported for it, or its initial value if none was |
| RateLimit.MergeIdempotent | src/pygur.py:160-178 | reading the same headers twice changes nothing more |
| RateLimit.StickyExample | src/pygur.py:160-178 | `ClientRemaining: 100` then `ClientLimit: 500` leaves remaining 100 and limit 500 |
| Http.GetOutcome | src/pygur.py:193-204 | 429 gives `RateLimitExceeded` with the `ClientReset` header or 0; any other status ≥ 400 gives an HTTP error; below 400 gives the body |
| Http.PlainOutcome | src/pygur.py:206-231 | POST and DELETE fail exactly on status ≥ 400, never with `RateLimitExceeded` |
| Http.OnlyGetReportsRateLimit | src/pygur.py:185-231 | GET and POST/DELETE agree on a reply iff its status is not 429 |
| Http.ResetTimeVersusTracker | src/pygur.py:190-198 | on 429 the reset time equals the tracker's updated `client_reset` when the header is present, and 0 when it is absent |
| Client.Imgur.GetRequest | src/pygur.py:185-204 | one GET with the client's headers is logged, the tracker is merged (on 429 too), and the outcome is `GetOutcome` |
| Client.Imgur.PostRequest | src/pygur.py:206-217 | one POST with its form is logged, the tracker is merged, and the outcome is `PlainOutcome` |
| Client.Imgur.DeleteRequest | src/pygur.py:219-231 | one DELETE is logged, the tracker is merged, and the outcome is `PlainOutcome` |
| Http.Data | src/pygur.py:244 | `response["data"]` succeeds iff the body is an object with a `data` member |
| Http.DataItems | src/pygur.py:378-381 | iterating `response["data"]` needs a list and yields its elements |
| Http.SuccessFlag | src/pygur.py:285 | `response.get("success", False)`: the member when present, `False` otherwise |
| Envelopes.Members | src/pygur.py:84-88 | the envelope exists iff `success`, `status` and `data` are all present |
| Envelopes.EnvelopeAsDeclared | src/pygur.py:84-88 | as declared, the envelope also needs `data` to be a dict |
| Envelopes.EnvelopeOf | src/pygur.py:84-88 | corrected: it succeeds iff the three members are present, and its `data` is `response["data"]` |
| Envelopes.EnvelopeAgreesOnObjects | src/pygur.py:84-88 | the two mappings agree on every reply whose data is an object |
| Envelopes.ListDataRefusedAsDeclared | src/pygur.py:378-383 | a list endpoint's reply is refused as declared and accepted as corrected |
| Client.RecordReply | src/pygur.py:243-246 | a record endpoint's result is `(response["data"], envelope)`; it fails iff `data` is missing or not an object (the record mapper needs one), or the envelope fails |
| Client.FlagReply | src/pygur.py:283-285 | a delete-like endpoint's result is `(success flag, envelope)`, failing iff the envelope fails |
| Client.ObjectsReply | src/pygur.py:377-383 | an account listing succeeds iff data is a list of objects and the envelope maps |
| Client.CommentIdReply | src/pygur.py:525-528 | `create_comment` returns `response["data"]["id"]`, failing when data is not an object or lacks `id` |
| Client.Imgur.GetImage | src/pygur.py:233-246 | GET `image/<hash>`, then the record reply |
| Client.Imgur.UploadImage | src/pygur.py:248-271 | POST `image` with `PayloadData(title, description, name, image, video).payload` |
| Client.Imgur.DeleteImage | src/pygur.py:273-285 | DELETE `image/<hash>`, then the flag reply |
| InlinePayloads.CreateAlbumPayload | src/pygur.py:310-325 | the `if x:` steps and the ids loop build `AlbumPayloadOf(...)` |
| InlinePayloads.AlbumScalarsFill | src/pygur.py:310-320 | the five `if x:` steps, starting from `{}`, compute the step-by-step specification `AlbumScalars` |
| InlinePayloads.AddIfGiven | src/pygur.py:311-320 | one `if x: payload[name] = x` step: `name` is set to `x` when `x` is truthy, and the dict is unchanged otherwise |
| InlinePayloads.AlbumScalarsAsEntries | src/pygur.py:310-320 | the five `if x:` steps insert the same pairs as the `PayloadData` rule applied to the five fields, with a falsy argument read as `None` |
| InlinePayloads.StepAsEntries | src/pygur.py:311-320 | one `if x:` step after some fields equals adding that field, with a falsy `x` read as `None`, under the `PayloadData` rule |
| InlinePayloads.AlbumFieldPresence | src/pygur.py:311-320 | among distinct, bracket-free field names, a field filled from an argument is a key iff that argument is truthy, and then holds its value |
| InlinePayloads.CreateAlbumNamedFields | src/pygur.py:310-320 | `title`, `description`, `privacy`, `layout` and `cover` are present exactly when truthy, with their values |
| InlinePayloads.CreateAlbumIds | src/pygur.py:322-325 | the keys `ids[i]` are present iff the image list is non-empty and i < its length, holding the i-th id; there is never a bare `ids` key |
| InlinePayloads.EmptyTitleDroppedOnlyByCreateAlbum | src/pygur.py:311-312 | an empty title is dropped by `create_album` but kept by `PayloadData` |
| Client.Imgur.CreateAlbum | src/pygur.py:287-330 | POST `album` with the truthiness-filtered payload, then the record reply |
| Client.Imgur.GetAlbum | src/pygur.py:332-345 | GET `album/<hash>`, then the record reply |
| InlinePayloads.AddImagesPayload | src/pygur.py:358-360 | the loop builds the `ids[i]` pairs of the image list |
| InlinePayloads.AddImagesKeys | src/pygur.py:358-360 | the keys are exactly `ids[0]`..`ids[N-1]`, in order, each holding its image id |
| Client.Imgur.AddImagesToAlbum | src/pygur.py:347-364 | POST `album/<hash>/add` with those keys, then the flag reply |
| Client.Imgur.GetAccountImages | src/pygur.py:374-375 | with no truthy token: `ImgurAPIError` and no request; with one: GET `account/me/images` |
| Client.Imgur.GetAccountAlbums | src/pygur.py:393-394 | the same guard; otherwise GET `account/me/albums` |
| Client.Imgur.FavoriteImage | src/pygur.py:415-416 | the same guard; otherwise POST an empty form to `image/<hash>/favorite` |
| Client.Imgur.GetGalleryImage | src/pygur.py:422-435 | GET `gallery/image/<hash>`, then the record reply |
| Client.Imgur.GetComment | src/pygur.py:490-503 | GET `comment/<decimal id>`, then the record reply |
| InlinePayloads.CommentPayloadShape | src/pygur.py:521-523 | the dict `InlinePayloads.CommentPayload` builds: `image_id` and `comment` always, in that order, with their arguments; `parent_id` is a key iff it is truthy, and then it comes last and holds the id |
| InlinePayloads.ParentIdZeroOmitted | src/pygur.py:522-523 | `parent_id = 0` is omitted, giving the same payload as no parent |
| Client.Imgur.CreateComment | src/pygur.py:518-528 | the OAuth guard; otherwise POST `comment`, then the new comment's id |
| Client.Imgur.DeleteComment | src/pygur.py:541-546 | the OAuth guard; otherwise DELETE `comment/<decimal id>`, then the flag reply |
| Query.PairsAreKeptParams | src/pygur.py:582-584 | one `k=v` per non-`None` parameter, in insertion order |
| Query.QueryRoundTrip | src/pygur.py:582-584 | `Query.BuildQueryParams`, the `&`-join of those pairs, splits back on `&` into exactly those pairs when no key or value holds `&` |
| Query.NoEscaping | src/pygur.py:582-584 | a value holding `&` is not escaped and splits the query |
| Query.QuerySplitsToPairs | src/pygur.py:582-584 | when no parameter is `None` and none holds `&`, splitting the query on `&` gives one `k=v` per parameter, in order |
| Client.GalleryQuery | src/pygur.py:597-603 | `get_gallery`'s query keeps `sort`, `window` and `page` (0 included), in that order |
| Client.SearchQuery | src/pygur.py:561-568 | `search_gallery`'s query keeps `q`, `sort`, `window` and `page` (0 included), in that order |
| Gallery.Classify | src/pygur.py:573-577 | an object entry is an album iff its `is_album` is present and truthy; a non-object cannot be mapped |
| Gallery.ClassifyAll | src/pygur.py:572-577 | all entries are mapped iff all are objects; then the length is kept and entry i becomes item i of the kind its flag gives |
| Gallery.Dispatch | src/pygur.py:609-614 | the append loop computes `ClassifyAll` |
| Gallery.AlbumFlagCases | src/pygur.py:574 | `is_album: true` is an album; an absent flag, `false` or `0` is an image; a repeated flag counts by its last value |
| Client.GalleryReply | src/pygur.py:569-580 | a gallery page is the dispatched data list and the envelope |
| Client.Imgur.SearchGallery | src/pygur.py:548-580 | GET `gallery/search?q=..&sort=..&window=..&page=..`, then the gallery reply |
| Client.Imgur.GetGallery | src/pygur.py:586-617 | GET `gallery/<section>?sort=..&window=..&page=..`, then the gallery reply |
| Comments.MapComment | src/pygur.py:66-82 | a comment maps iff it is an object whose `children` is absent, `null` or a list of comments that map; mapped children keep their number |
| Comments.MapComments | src/pygur.py:693-703 | a list maps iff every comment does; the result keeps the length, and item i is comment i's record |
| Comments.MapCommentChildren | src/pygur.py:66-82 | depth is kept: a comment whose `children` is a list maps iff every child does, and then child j of its record is child j's record |
| Comments.ProcessComments | src/pygur.py:693-703 | the loop, recursing into truthy `children`, computes `MapComments` |
| Comments.NestedCommentExample | src/pygur.py:693-703 | `[{id: 1, children: [{id: 2}]}]` gives one record with id 1 whose only child has id 2 and no children |
| Client.CommentsReply | src/pygur.py:705-707 | the comment forest of `response["data"]` and the envelope |
| Client.Imgur.GetImageComments | src/pygur.py:679-707 | GET `image/<id>/comments/<sort>`, then the comment forest |

## Findings

| source | as written | input that shows it | evidently intended | confidence | as-written member | corrected member |
|---|---|---|---|---|---|---|
| src/pygur.py:84-88 | `Response.data` is annotated `dict`, and the record mapper checks field types by default | a `get_account_images` reply `{"success": true, "status": 200, "data": []}`: every list endpoint's data member is a list | `data` accepts any JSON value, as the list endpoints return lists | medium, not executed | Envelopes.EnvelopeAsDeclared (with Envelopes.ListDataRefusedAsDeclared) | Envelopes.EnvelopeOf |

The endpoints in `Client` use the corrected `Envelopes.EnvelopeOf`.

## Left out

- HTTP sessions (`_get_session`, `close`), the async context managers and `aiohttp` itself: network I/O. The reply is a parameter, and `raise_for_status` is reduced to "status ≥ 400 fails".
- `json.loads` of the reply text: the body arrives already decoded, so a reply that is not JSON is not modelled.
- Header parsing: values arrive as integers, so `int()` on a non-numeric header and case-insensitive header lookup are not modelled.
- Record mapping to `Image_info`, `Album_info` and `Comment_info` is abstracted. A record is the JSON object it comes from, so missing required fields and field type checks are not modelled. A record's `data` member, a listed record or a gallery or comment entry that is not an object fails with `DataShapeError`.
- Comments.MapComment: the record mapper's recursive mapping of `children` and the replacement by `process_comments` give the same result here, and only that result is stated.
- Http.DataItems: iterating a `data` member that is a dict or a string (Python walks its keys or characters) is treated as a failure.
- Floating-point JSON numbers: not represented in `Value`.
- `bytes` values: `PayloadData.image` and `video` may hold bytes (src/enums.py:12-13), and `Value` has no bytes case, so a string stands in. `payload` only tests such a field with `is not None`, so what it builds is unaffected.
- Query.Render: only string and integer parameters are rendered, which are the only kinds the callers pass.
- The `rate_limits` property: a plain read of the field.
- Aliasing of the `RateLimits` object: the tracker is a value the client reassigns, so a caller holding the object returned by `rate_limits` is not modelled seeing later updates.
- `client_secret` and `refresh_token` constructor arguments: only `refresh_access_token` reads them.
- `refresh_access_token`: an external OAuth request, and the only operation that changes the token and headers after construction. The token and headers are therefore constants.
- `upload_image_from_file`: local file I/O, and it calls `base64` without importing it.
- `get_account` (src/pygur.py:437-450): its `def` line is indented into `get_gallery_image`, and its docstring at line 438 sits at the same indentation, so the `def` has no indented body. Python rejects the file with an IndentationError, so `src/pygur.py` as written cannot be imported at all. The model treats lines 437-450 as removed; they also use an undefined `Account_info`.
- The second definitions of `get_account_images` and `get_account_albums` are identical to the first ones, which the model uses.
- The message text of `RateLimitExceeded`: only its `reset_time` is modelled.
