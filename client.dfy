/**
 * The `Imgur` client of `src/pygur.py`. One call is one HTTP exchange:
 * the server's reply is a parameter of each endpoint method, and the
 * ghost log `sent` records the requests the client put on the wire.
 */
module Client {
  import opened Wrappers
  import opened PyValues
  import opened OrderedDict
  import opened Decimal
  import opened RateLimit
  import opened Auth
  import opened Http
  import opened Envelopes
  import opened Payload
  import opened InlinePayloads
  import opened Query
  import opened Gallery
  import opened Comments

  const BaseUrl := "https://api.imgur.com/3/"

  /** What follows a completed exchange: the reply body is read only when the status checks passed. */
  function Then<T>(outcome: Result<Value, ApiError>, read: Value -> Result<T, ApiError>): Result<T, ApiError> {
    match outcome
    case Failure(e) => Failure(e)
    case Success(body) => read(body)
  }

  /**
   * A single record and the envelope: `response["data"]` mapped to a record,
   * which needs an object, then the envelope.
   */
  function RecordReply(body: Value): (r: Result<(Value, Envelope), ApiError>)
    ensures r.Success? <==> Data(body).Success? && Data(body).value.VDict? && EnvelopeOf(body).Success?
    ensures r.Success? ==> r.value == (Data(body).value, EnvelopeOf(body).value)
  {
    match Data(body)
    case Failure(e) => Failure(e)
    case Success(d) =>
      if !d.VDict? then Failure(DataShapeError("record is not an object"))
      else
        match EnvelopeOf(body)
        case Failure(e) => Failure(e)
        case Success(env) => Success((d, env))
  }

  /** A success flag and the envelope: the envelope first, then `response.get("success", False)`. */
  function FlagReply(body: Value): (r: Result<(Value, Envelope), ApiError>)
    ensures r.Success? <==> EnvelopeOf(body).Success?
    ensures r.Success? ==> r.value == (SuccessFlag(body).value, EnvelopeOf(body).value)
  {
    match EnvelopeOf(body)
    case Failure(e) => Failure(e)
    case Success(env) => Success((SuccessFlag(body).value, env))
  }

  /** A list of records: every element of `response["data"]` must be an object. */
  function ObjectsReply(body: Value): (r: Result<(seq<Value>, Envelope), ApiError>)
    ensures r.Success? <==> DataItems(body).Success? && EnvelopeOf(body).Success?
                            && forall i :: 0 <= i < |DataItems(body).value| ==> DataItems(body).value[i].VDict?
    ensures r.Success? ==> r.value == (DataItems(body).value, EnvelopeOf(body).value)
  {
    match DataItems(body)
    case Failure(e) => Failure(e)
    case Success(items) =>
      if exists i :: 0 <= i < |items| && !items[i].VDict? then Failure(DataShapeError("record is not an object"))
      else
        match EnvelopeOf(body)
        case Failure(e) => Failure(e)
        case Success(env) => Success((items, env))
  }

  /** A gallery page: each entry of `response["data"]` dispatched on `is_album`. */
  function GalleryReply(body: Value): (r: Result<(seq<GalleryItem>, Envelope), ApiError>)
    ensures r.Success? <==> DataItems(body).Success? && ClassifyAll(DataItems(body).value).Success?
                            && EnvelopeOf(body).Success?
    ensures r.Success? ==> r.value == (ClassifyAll(DataItems(body).value).value, EnvelopeOf(body).value)
  {
    match DataItems(body)
    case Failure(e) => Failure(e)
    case Success(entries) =>
      match ClassifyAll(entries)
      case Failure(e) => Failure(e)
      case Success(items) =>
        match EnvelopeOf(body)
        case Failure(e) => Failure(e)
        case Success(env) => Success((items, env))
  }

  /** A comment forest: `response["data"]` mapped recursively. */
  function CommentsReply(body: Value): (r: Result<(seq<CommentInfo>, Envelope), ApiError>)
    ensures r.Success? <==> DataItems(body).Success? && MapComments(DataItems(body).value).Success?
                            && EnvelopeOf(body).Success?
    ensures r.Success? ==> r.value == (MapComments(DataItems(body).value).value, EnvelopeOf(body).value)
  {
    match DataItems(body)
    case Failure(e) => Failure(e)
    case Success(entries) =>
      match MapComments(entries)
      case Failure(e) => Failure(e)
      case Success(comments) =>
        match EnvelopeOf(body)
        case Failure(e) => Failure(e)
        case Success(env) => Success((comments, env))
  }

  /** The new comment's id, `response["data"]["id"]`, and the envelope. */
  function CommentIdReply(body: Value): (r: Result<(Value, Envelope), ApiError>)
    ensures r.Success? <==> Data(body).Success? && Data(body).value.VDict?
                            && Lookup(Data(body).value.entries, "id").Some? && EnvelopeOf(body).Success?
    ensures r.Success? ==> r.value == (Lookup(Data(body).value.entries, "id").value, EnvelopeOf(body).value)
  {
    match Data(body)
    case Failure(e) => Failure(e)
    case Success(d) =>
      if !d.VDict? then Failure(DataShapeError("data is not an object"))
      else
        match Lookup(d.entries, "id")
        case None => Failure(DataShapeError("data has no id"))
        case Some(id) =>
          match EnvelopeOf(body)
          case Failure(e) => Failure(e)
          case Success(env) => Success((id, env))
  }

  /** The query strings of `search_gallery` and `get_gallery`, parameters in the order the dicts list them. */
  function SearchParams(query: string, sort: string, window: string, page: int): seq<(string, Param)> {
    [("q", PStr(query)), ("sort", PStr(sort)), ("window", PStr(window)), ("page", PInt(page))]
  }

  function GalleryParams(sort: string, window: string, page: int): seq<(string, Param)> {
    [("sort", PStr(sort)), ("window", PStr(window)), ("page", PInt(page))]
  }

  /**
   * `get_gallery` keeps all three parameters, `page=0` included: splitting
   * its query string on '&' gives them back in order when the sort and the
   * window hold no '&'.
   */
  lemma GalleryQuery(sort: string, window: string, page: int)
    requires '&' !in sort && '&' !in window
    ensures Split(BuildQueryParams(GalleryParams(sort, window, page)), '&')
         == ["sort=" + sort, "window=" + window, "page=" + IntToString(page)]
  {
    var ps := GalleryParams(sort, window, page);
    ParamsClean(ps, page);
    QuerySplitsToPairs(ps);
    var parts := Split(BuildQueryParams(ps), '&');
    assert parts[0] == "sort=" + sort && parts[1] == "window=" + window;
    assert parts[2] == "page=" + IntToString(page);
  }

  /** `search_gallery` likewise keeps its four parameters, the query first. */
  lemma SearchQuery(query: string, sort: string, window: string, page: int)
    requires '&' !in query && '&' !in sort && '&' !in window
    ensures Split(BuildQueryParams(SearchParams(query, sort, window, page)), '&')
         == ["q=" + query, "sort=" + sort, "window=" + window, "page=" + IntToString(page)]
  {
    var ps := SearchParams(query, sort, window, page);
    ParamsClean(ps, page);
    QuerySplitsToPairs(ps);
    var parts := Split(BuildQueryParams(ps), '&');
    assert parts[0] == "q=" + query && parts[1] == "sort=" + sort;
    assert parts[2] == "window=" + window && parts[3] == "page=" + IntToString(page);
  }

  /** String parameters free of '&' and the page number as the last parameter. */
  lemma ParamsClean(ps: seq<(string, Param)>, page: int)
    requires ps != [] && ps[|ps| - 1] == ("page", PInt(page))
    requires forall i :: 0 <= i < |ps| - 1 ==> ps[i].1.PStr? && '&' !in ps[i].0 && '&' !in ps[i].1.s
    ensures forall i :: 0 <= i < |ps| ==> !ps[i].1.PNone? && '&' !in ps[i].0 && '&' !in Render(ps[i].1)
  {
    assert '&' !in IntToString(page);
  }

  class Imgur {
    const clientId: string
    const accessToken: Option<string>
    /** The headers sent with every request, fixed at construction. */
    const headers: map<string, string>
    /** The tracker, updated after every exchange. */
    var rateLimits: RateLimits
    /** The requests made so far, oldest first. */
    ghost var sent: seq<Request>

    constructor(clientId: string, accessToken: Option<string>)
      ensures headers == AuthHeaders(clientId, accessToken)
      ensures this.clientId == clientId && this.accessToken == accessToken
      ensures rateLimits == Initial && sent == []
    {
      this.clientId := clientId;
      this.accessToken := accessToken;
      this.headers := AuthHeaders(clientId, accessToken);
      this.rateLimits := Initial;
      this.sent := [];
    }

    /** One request went out with the client's headers, and the tracker read the reply's headers. */
    twostate predicate Exchanged(verb: Verb, url: string, form: Option<Dict<Value>>, resp: HttpResponse)
      reads this
    {
      && sent == old(sent) + [Request(verb, url, headers, form)]
      && rateLimits == Merge(old(rateLimits), resp.headers)
    }

    /** A guard refused the call: nothing went out and the tracker is as it was. */
    twostate predicate Untouched()
      reads this
    {
      sent == old(sent) && rateLimits == old(rateLimits)
    }

    /** `_update_rate_limits`: each rate-limit header present overwrites its field; the rest stay. */
    method UpdateRateLimits(resp: HttpResponse)
      modifies this`rateLimits
      ensures rateLimits == Merge(old(rateLimits), resp.headers)
    {
      var h := resp.headers;
      if ClientLimitHeader in h {
        rateLimits := rateLimits.(clientLimit := h[ClientLimitHeader]);
      }
      if ClientRemainingHeader in h {
        rateLimits := rateLimits.(clientRemaining := h[ClientRemainingHeader]);
      }
      if ClientResetHeader in h {
        rateLimits := rateLimits.(clientReset := h[ClientResetHeader]);
      }
      if UserLimitHeader in h {
        rateLimits := rateLimits.(userLimit := Some(h[UserLimitHeader]));
      }
      if UserRemainingHeader in h {
        rateLimits := rateLimits.(userRemaining := Some(h[UserRemainingHeader]));
      }
      if UserResetHeader in h {
        rateLimits := rateLimits.(userReset := Some(h[UserResetHeader]));
      }
    }

    /** `get_request`: the tracker is updated before the status checks, so a 429 updates it too. */
    method GetRequest(url: string, resp: HttpResponse) returns (r: Result<Value, ApiError>)
      modifies this`rateLimits, this`sent
      ensures Exchanged(Get, url, None, resp)
      ensures r == GetOutcome(resp)
    {
      sent := sent + [Request(Get, url, headers, None)];
      UpdateRateLimits(resp);
      if resp.status == 429 {
        var resetTime := ResetTime(resp.headers);
        return Failure(RateLimitExceeded(resetTime));
      }
      if resp.status >= 400 {
        return Failure(HttpStatusError(resp.status));
      }
      return Success(resp.body);
    }

    /** `post_request`: no 429 branch of its own. */
    method PostRequest(url: string, payload: Dict<Value>, resp: HttpResponse) returns (r: Result<Value, ApiError>)
      modifies this`rateLimits, this`sent
      ensures Exchanged(Post, url, Some(payload), resp)
      ensures r == PlainOutcome(resp)
    {
      sent := sent + [Request(Post, url, headers, Some(payload))];
      UpdateRateLimits(resp);
      if resp.status >= 400 {
        return Failure(HttpStatusError(resp.status));
      }
      return Success(resp.body);
    }

    /** `delete_request` */
    method DeleteRequest(url: string, resp: HttpResponse) returns (r: Result<Value, ApiError>)
      modifies this`rateLimits, this`sent
      ensures Exchanged(Delete, url, None, resp)
      ensures r == PlainOutcome(resp)
    {
      sent := sent + [Request(Delete, url, headers, None)];
      UpdateRateLimits(resp);
      if resp.status >= 400 {
        return Failure(HttpStatusError(resp.status));
      }
      return Success(resp.body);
    }

    method GetImage(imageHash: string, resp: HttpResponse) returns (r: Result<(Value, Envelope), ApiError>)
      modifies this`rateLimits, this`sent
      ensures Exchanged(Get, BaseUrl + "image/" + imageHash, None, resp)
      ensures r == Then(GetOutcome(resp), RecordReply)
    {
      var body := GetRequest(BaseUrl + "image/" + imageHash, resp);
      if body.Failure? {
        return Failure(body.error);
      }
      r := RecordReply(body.value);
    }

    /** `upload_image`: the form is `PayloadData(...).payload` over the five upload fields. */
    method UploadImage(title: Value, description: Value, name: Value, image: Value, video: Value,
                       resp: HttpResponse) returns (r: Result<(Value, Envelope), ApiError>)
      modifies this`rateLimits, this`sent
      ensures Exchanged(Post, BaseUrl + "image",
                        Some(PayloadOf(Defaults.(title := title, description := description, name := name,
                                                 image := image, video := video))), resp)
      ensures r == Then(PlainOutcome(resp), RecordReply)
    {
      var payload := BuildPayload(Defaults.(title := title, description := description, name := name,
                                            image := image, video := video));
      var body := PostRequest(BaseUrl + "image", payload, resp);
      if body.Failure? {
        return Failure(body.error);
      }
      r := RecordReply(body.value);
    }

    method DeleteImage(imageHash: string, resp: HttpResponse) returns (r: Result<(Value, Envelope), ApiError>)
      modifies this`rateLimits, this`sent
      ensures Exchanged(Delete, BaseUrl + "image/" + imageHash, None, resp)
      ensures r == Then(PlainOutcome(resp), FlagReply)
    {
      var body := DeleteRequest(BaseUrl + "image/" + imageHash, resp);
      if body.Failure? {
        return Failure(body.error);
      }
      r := FlagReply(body.value);
    }

    method CreateAlbum(title: Option<string>, description: Option<string>, images: Option<seq<string>>,
                       privacy: Option<string>, layout: Option<string>, cover: Option<string>,
                       resp: HttpResponse) returns (r: Result<(Value, Envelope), ApiError>)
      modifies this`rateLimits, this`sent
      ensures Exchanged(Post, BaseUrl + "album",
                        Some(AlbumPayloadOf(title, description, images, privacy, layout, cover)), resp)
      ensures r == Then(PlainOutcome(resp), RecordReply)
    {
      var payload := CreateAlbumPayload(title, description, images, privacy, layout, cover);
      var body := PostRequest(BaseUrl + "album", payload, resp);
      if body.Failure? {
        return Failure(body.error);
      }
      r := RecordReply(body.value);
    }

    method GetAlbum(albumHash: string, resp: HttpResponse) returns (r: Result<(Value, Envelope), ApiError>)
      modifies this`rateLimits, this`sent
      ensures Exchanged(Get, BaseUrl + "album/" + albumHash, None, resp)
      ensures r == Then(GetOutcome(resp), RecordReply)
    {
      var body := GetRequest(BaseUrl + "album/" + albumHash, resp);
      if body.Failure? {
        return Failure(body.error);
      }
      r := RecordReply(body.value);
    }

    method AddImagesToAlbum(albumHash: string, images: seq<string>, resp: HttpResponse)
      returns (r: Result<(Value, Envelope), ApiError>)
      modifies this`rateLimits, this`sent
      ensures Exchanged(Post, BaseUrl + "album/" + albumHash + "/add",
                        Some(FromEntries(IdsEntries(Strs(images)))), resp)
      ensures r == Then(PlainOutcome(resp), FlagReply)
    {
      var payload := AddImagesPayload(images);
      var body := PostRequest(BaseUrl + "album/" + albumHash + "/add", payload, resp);
      if body.Failure? {
        return Failure(body.error);
      }
      r := FlagReply(body.value);
    }

    /** `get_account_images`: OAuth only, refused before any request without a token. */
    method GetAccountImages(resp: HttpResponse) returns (r: Result<(seq<Value>, Envelope), ApiError>)
      modifies this`rateLimits, this`sent
      ensures !HasToken(accessToken) ==> r == Failure(OAuthRequired) && Untouched()
      ensures HasToken(accessToken) ==> Exchanged(Get, BaseUrl + "account/me/images", None, resp)
                                        && r == Then(GetOutcome(resp), ObjectsReply)
    {
      if !HasToken(accessToken) {
        return Failure(OAuthRequired);
      }
      var body := GetRequest(BaseUrl + "account/me/images", resp);
      if body.Failure? {
        return Failure(body.error);
      }
      r := ObjectsReply(body.value);
    }

    /** `get_account_albums`: OAuth only. */
    method GetAccountAlbums(resp: HttpResponse) returns (r: Result<(seq<Value>, Envelope), ApiError>)
      modifies this`rateLimits, this`sent
      ensures !HasToken(accessToken) ==> r == Failure(OAuthRequired) && Untouched()
      ensures HasToken(accessToken) ==> Exchanged(Get, BaseUrl + "account/me/albums", None, resp)
                                        && r == Then(GetOutcome(resp), ObjectsReply)
    {
      if !HasToken(accessToken) {
        return Failure(OAuthRequired);
      }
      var body := GetRequest(BaseUrl + "account/me/albums", resp);
      if body.Failure? {
        return Failure(body.error);
      }
      r := ObjectsReply(body.value);
    }

    /** `favorite_image`: OAuth only; posts an empty form. */
    method FavoriteImage(imageHash: string, resp: HttpResponse) returns (r: Result<(Value, Envelope), ApiError>)
      modifies this`rateLimits, this`sent
      ensures !HasToken(accessToken) ==> r == Failure(OAuthRequired) && Untouched()
      ensures HasToken(accessToken) ==> Exchanged(Post, BaseUrl + "image/" + imageHash + "/favorite", Some(Empty()), resp)
                                        && r == Then(PlainOutcome(resp), FlagReply)
    {
      if !HasToken(accessToken) {
        return Failure(OAuthRequired);
      }
      var body := PostRequest(BaseUrl + "image/" + imageHash + "/favorite", Empty(), resp);
      if body.Failure? {
        return Failure(body.error);
      }
      r := FlagReply(body.value);
    }

    method GetGalleryImage(galleryHash: string, resp: HttpResponse) returns (r: Result<(Value, Envelope), ApiError>)
      modifies this`rateLimits, this`sent
      ensures Exchanged(Get, BaseUrl + "gallery/image/" + galleryHash, None, resp)
      ensures r == Then(GetOutcome(resp), RecordReply)
    {
      var body := GetRequest(BaseUrl + "gallery/image/" + galleryHash, resp);
      if body.Failure? {
        return Failure(body.error);
      }
      r := RecordReply(body.value);
    }

    method GetComment(commentId: int, resp: HttpResponse) returns (r: Result<(Value, Envelope), ApiError>)
      modifies this`rateLimits, this`sent
      ensures Exchanged(Get, BaseUrl + "comment/" + IntToString(commentId), None, resp)
      ensures r == Then(GetOutcome(resp), RecordReply)
    {
      var body := GetRequest(BaseUrl + "comment/" + IntToString(commentId), resp);
      if body.Failure? {
        return Failure(body.error);
      }
      r := RecordReply(body.value);
    }

    /**
     * `create_comment`: OAuth only; returns the new comment's id. Python's
     * default `parent_id=None` is `parentId == None` here.
     */
    method CreateComment(imageId: string, comment: string, parentId: Option<int>, resp: HttpResponse)
      returns (r: Result<(Value, Envelope), ApiError>)
      modifies this`rateLimits, this`sent
      ensures !HasToken(accessToken) ==> r == Failure(OAuthRequired) && Untouched()
      ensures HasToken(accessToken) ==> Exchanged(Post, BaseUrl + "comment", Some(CommentPayload(imageId, comment, parentId)), resp)
                                        && r == Then(PlainOutcome(resp), CommentIdReply)
    {
      if !HasToken(accessToken) {
        return Failure(OAuthRequired);
      }
      var body := PostRequest(BaseUrl + "comment", CommentPayload(imageId, comment, parentId), resp);
      if body.Failure? {
        return Failure(body.error);
      }
      r := CommentIdReply(body.value);
    }

    /** `delete_comment`: OAuth only. */
    method DeleteComment(commentId: int, resp: HttpResponse) returns (r: Result<(Value, Envelope), ApiError>)
      modifies this`rateLimits, this`sent
      ensures !HasToken(accessToken) ==> r == Failure(OAuthRequired) && Untouched()
      ensures HasToken(accessToken) ==> Exchanged(Delete, BaseUrl + "comment/" + IntToString(commentId), None, resp)
                                        && r == Then(PlainOutcome(resp), FlagReply)
    {
      if !HasToken(accessToken) {
        return Failure(OAuthRequired);
      }
      var body := DeleteRequest(BaseUrl + "comment/" + IntToString(commentId), resp);
      if body.Failure? {
        return Failure(body.error);
      }
      r := FlagReply(body.value);
    }

    /** The part `search_gallery` and `get_gallery` share once the URL is built. */
    method GalleryPage(url: string, resp: HttpResponse) returns (r: Result<(seq<GalleryItem>, Envelope), ApiError>)
      modifies this`rateLimits, this`sent
      ensures Exchanged(Get, url, None, resp)
      ensures r == Then(GetOutcome(resp), GalleryReply)
    {
      var body := GetRequest(url, resp);
      if body.Failure? {
        return Failure(body.error);
      }
      var entries := DataItems(body.value);
      if entries.Failure? {
        return Failure(entries.error);
      }
      var items := Dispatch(entries.value);
      if items.Failure? {
        return Failure(items.error);
      }
      var env := EnvelopeOf(body.value);
      if env.Failure? {
        return Failure(env.error);
      }
      return Success((items.value, env.value));
    }

    /** `search_gallery`; Python's defaults are `sort="time"`, `window="all"`, `page=0`. */
    method SearchGallery(query: string, sort: string, window: string, page: int, resp: HttpResponse)
      returns (r: Result<(seq<GalleryItem>, Envelope), ApiError>)
      modifies this`rateLimits, this`sent
      ensures Exchanged(Get, BaseUrl + "gallery/search?" + BuildQueryParams(SearchParams(query, sort, window, page)), None, resp)
      ensures r == Then(GetOutcome(resp), GalleryReply)
    {
      r := GalleryPage(BaseUrl + "gallery/search?" + BuildQueryParams(SearchParams(query, sort, window, page)), resp);
    }

    /** `get_gallery`; Python's defaults are `section="hot"`, `sort="viral"`, `window="day"`, `page=0`. */
    method GetGallery(section: string, sort: string, window: string, page: int, resp: HttpResponse)
      returns (r: Result<(seq<GalleryItem>, Envelope), ApiError>)
      modifies this`rateLimits, this`sent
      ensures Exchanged(Get, BaseUrl + "gallery/" + section + "?" + BuildQueryParams(GalleryParams(sort, window, page)), None, resp)
      ensures r == Then(GetOutcome(resp), GalleryReply)
    {
      r := GalleryPage(BaseUrl + "gallery/" + section + "?" + BuildQueryParams(GalleryParams(sort, window, page)), resp);
    }

    /** `get_image_comments`; Python's default is `sort="best"`. */
    method GetImageComments(imageId: string, sort: string, resp: HttpResponse)
      returns (r: Result<(seq<CommentInfo>, Envelope), ApiError>)
      modifies this`rateLimits, this`sent
      ensures Exchanged(Get, BaseUrl + "image/" + imageId + "/comments/" + sort, None, resp)
      ensures r == Then(GetOutcome(resp), CommentsReply)
    {
      var body := GetRequest(BaseUrl + "image/" + imageId + "/comments/" + sort, resp);
      if body.Failure? {
        return Failure(body.error);
      }
      var entries := DataItems(body.value);
      if entries.Failure? {
        return Failure(entries.error);
      }
      var comments := ProcessComments(entries.value);
      if comments.Failure? {
        return Failure(comments.error);
      }
      var env := EnvelopeOf(body.value);
      if env.Failure? {
        return Failure(env.error);
      }
      return Success((comments.value, env.value));
    }
  }
}
