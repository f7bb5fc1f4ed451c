/**
 * The form bodies `create_album`, `add_images_to_album` and `create_comment`
 * build inline. Unlike `PayloadData.payload` they test truthiness, so an
 * empty string, an empty list or a parent id of 0 is left out.
 */
module InlinePayloads {
  import opened Wrappers
  import opened PyValues
  import opened OrderedDict
  import opened Payload

  /** `if x:` for an optional string argument. */
  predicate Given(s: Option<string>) {
    s.Some? && s.value != ""
  }

  /** `if images:` */
  predicate ImagesGiven(images: Option<seq<string>>) {
    images.Some? && images.value != []
  }

  /** An argument as the payload sees it: its string, or `None` when it fails the test. */
  function Kept(s: Option<string>): Value {
    if Given(s) then VStr(s.value) else VNone
  }

  function Strs(xs: seq<string>): (vs: seq<Value>)
    ensures |vs| == |xs| && forall i :: 0 <= i < |xs| ==> vs[i] == VStr(xs[i])
  {
    seq(|xs|, i requires 0 <= i < |xs| => VStr(xs[i]))
  }

  /** `create_album`'s arguments after its tests, in the order it inserts them: the ids go last. */
  function AlbumFields(title: Option<string>, description: Option<string>, images: Option<seq<string>>,
                       privacy: Option<string>, layout: Option<string>, cover: Option<string>)
    : (fields: seq<(string, Value)>)
    ensures |fields| == 6
  {
    [ ("title", Kept(title)), ("description", Kept(description)), ("privacy", Kept(privacy)),
      ("layout", Kept(layout)), ("cover", Kept(cover)),
      ("ids", if ImagesGiven(images) then VList(Strs(images.value)) else VNone) ]
  }

  /** The dict `create_album` posts. */
  function AlbumPayloadOf(title: Option<string>, description: Option<string>, images: Option<seq<string>>,
                          privacy: Option<string>, layout: Option<string>, cover: Option<string>): Dict<Value>
  {
    FromEntries(Entries(AlbumFields(title, description, images, privacy, layout, cover)))
  }

  /** `if x: payload[name] = x` */
  function Step(d: Dict<Value>, name: string, x: Option<string>): Dict<Value>
  {
    if Given(x) then Set(d, name, VStr(x.value)) else d
  }

  /** `create_album`'s five scalar tests, in the order it makes them. */
  function AlbumScalars(title: Option<string>, description: Option<string>, privacy: Option<string>,
                        layout: Option<string>, cover: Option<string>): Dict<Value>
  {
    Step(Step(Step(Step(Step(Empty(), "title", title), "description", description), "privacy", privacy),
              "layout", layout), "cover", cover)
  }

  /** A test of a named field is the insertion of that field's pairs. */
  lemma StepAsEntries(done: seq<(string, Value)>, name: string, x: Option<string>)
    requires name != "ids"
    ensures FromEntries(Entries(done + [(name, Kept(x))])) == Step(FromEntries(Entries(done)), name, x)
  {
    EntriesSnoc(done, (name, Kept(x)));
    if Given(x) {
      FromEntriesSnoc(Entries(done), name, VStr(x.value));
    } else {
      assert Entries(done) + FieldEntries((name, Kept(x))) == Entries(done);
    }
  }

  /** The test of field k, for fields up to k already inserted. */
  lemma StepAt(fields: seq<(string, Value)>, k: nat, name: string, x: Option<string>)
    requires k < |fields| && fields[k] == (name, Kept(x)) && name != "ids"
    ensures FromEntries(Entries(fields[..k + 1])) == Step(FromEntries(Entries(fields[..k])), name, x)
  {
    assert fields[..k + 1] == fields[..k] + [(name, Kept(x))];
    StepAsEntries(fields[..k], name, x);
  }

  lemma AlbumScalarsAsEntries(fs: seq<(string, Value)>, title: Option<string>, description: Option<string>,
                              privacy: Option<string>, layout: Option<string>, cover: Option<string>)
    requires |fs| >= 5
    requires fs[0] == ("title", Kept(title)) && fs[1] == ("description", Kept(description))
    requires fs[2] == ("privacy", Kept(privacy)) && fs[3] == ("layout", Kept(layout))
    requires fs[4] == ("cover", Kept(cover))
    ensures AlbumScalars(title, description, privacy, layout, cover) == FromEntries(Entries(fs[..5]))
  {
    assert fs[..0] == [];
    StepAt(fs, 0, "title", title);
    StepAt(fs, 1, "description", description);
    StepAt(fs, 2, "privacy", privacy);
    StepAt(fs, 3, "layout", layout);
    StepAt(fs, 4, "cover", cover);
  }

  /** The payload-building part of `create_album`. */
  method CreateAlbumPayload(title: Option<string>, description: Option<string>, images: Option<seq<string>>,
                            privacy: Option<string>, layout: Option<string>, cover: Option<string>)
    returns (payload: Dict<Value>)
    ensures payload == AlbumPayloadOf(title, description, images, privacy, layout, cover)
  {
    payload := AlbumScalarsFill(title, description, privacy, layout, cover);
    ghost var fs := AlbumFields(title, description, images, privacy, layout, cover);
    AlbumScalarsAsEntries(fs, title, description, privacy, layout, cover);
    assert Entries(fs) == Entries(fs[..5]) + FieldEntries(fs[5]);
    if images.Some? && images.value != [] {
      payload := PayloadAddIds(payload, Entries(fs[..5]), Strs(images.value));
    } else {
      assert Entries(fs[..5]) + FieldEntries(fs[5]) == Entries(fs[..5]);
    }
  }

  /** The `if x: payload[name] = x` tests of `create_album`. */
  method AlbumScalarsFill(title: Option<string>, description: Option<string>, privacy: Option<string>,
                          layout: Option<string>, cover: Option<string>) returns (payload: Dict<Value>)
    ensures payload == AlbumScalars(title, description, privacy, layout, cover)
  {
    payload := Empty();
    payload := AddIfGiven(payload, "title", title);
    payload := AddIfGiven(payload, "description", description);
    payload := AddIfGiven(payload, "privacy", privacy);
    payload := AddIfGiven(payload, "layout", layout);
    payload := AddIfGiven(payload, "cover", cover);
  }

  /** `if x: payload[name] = x` */
  method AddIfGiven(payload: Dict<Value>, name: string, x: Option<string>) returns (next: Dict<Value>)
    ensures next == Step(payload, name, x)
  {
    next := payload;
    if x.Some? && x.value != "" {
      next := Set(payload, name, VStr(x.value));
    }
  }

  lemma AlbumFieldsWellNamed(title: Option<string>, description: Option<string>, images: Option<seq<string>>,
                             privacy: Option<string>, layout: Option<string>, cover: Option<string>)
    ensures WellNamed(AlbumFields(title, description, images, privacy, layout, cover))
  {
    var fs := AlbumFields(title, description, images, privacy, layout, cover);
    forall n | 0 <= n < |fs| ensures '[' !in fs[n].0 {
    }
    forall a, b | 0 <= a < b < |fs| ensures fs[a].0 != fs[b].0 {
    }
  }

  /** A field whose value is `Kept(x)` is in the payload exactly when `x` is truthy, with its value. */
  lemma AlbumFieldPresence(fs: seq<(string, Value)>, n: nat, x: Option<string>)
    requires WellNamed(fs) && n < |fs| && fs[n].1 == Kept(x)
    ensures var vals := FromEntries(Entries(fs)).vals;
            && (fs[n].0 in vals <==> Given(x))
            && (Given(x) ==> vals[fs[n].0] == VStr(x.value))
  {
    if Given(x) {
      ScalarKept(fs, n);
    } else if fs[n].0 in FromEntries(Entries(fs)).vals {
      var m, i := KeyOrigin(fs, fs[n].0);
      if IsIdsList(fs[m]) {
        IdsKeyHasBracket(i);
      }
    }
  }

  /**
   * `create_album`'s payload holds title, description, privacy, layout and
   * cover exactly when they are truthy, each with its value.
   */
  lemma CreateAlbumNamedFields(title: Option<string>, description: Option<string>, images: Option<seq<string>>,
                               privacy: Option<string>, layout: Option<string>, cover: Option<string>)
    ensures var vals := AlbumPayloadOf(title, description, images, privacy, layout, cover).vals;
            && ("title" in vals <==> Given(title))
            && ("description" in vals <==> Given(description))
            && ("privacy" in vals <==> Given(privacy))
            && ("layout" in vals <==> Given(layout))
            && ("cover" in vals <==> Given(cover))
            && (Given(title) ==> vals["title"] == VStr(title.value))
            && (Given(description) ==> vals["description"] == VStr(description.value))
            && (Given(privacy) ==> vals["privacy"] == VStr(privacy.value))
            && (Given(layout) ==> vals["layout"] == VStr(layout.value))
            && (Given(cover) ==> vals["cover"] == VStr(cover.value))
  {
    var fs := AlbumFields(title, description, images, privacy, layout, cover);
    AlbumFieldsWellNamed(title, description, images, privacy, layout, cover);
    AlbumFieldPresence(fs, 0, title);
    AlbumFieldPresence(fs, 1, description);
    AlbumFieldPresence(fs, 2, privacy);
    AlbumFieldPresence(fs, 3, layout);
    AlbumFieldPresence(fs, 4, cover);
  }

  /**
   * A non-empty image list of length N gives exactly the keys `ids[0]` ..
   * `ids[N-1]`, each with its image id; an absent or empty list gives none.
   */
  lemma CreateAlbumIds(title: Option<string>, description: Option<string>, images: Option<seq<string>>,
                       privacy: Option<string>, layout: Option<string>, cover: Option<string>)
    ensures var vals := AlbumPayloadOf(title, description, images, privacy, layout, cover).vals;
            && (forall i: nat :: IdsKey(i) in vals <==> ImagesGiven(images) && i < |images.value|)
            && (forall i :: ImagesGiven(images) && 0 <= i < |images.value| ==>
                  vals[IdsKey(i)] == VStr(images.value[i]))
            && "ids" !in vals
  {
    var fs := AlbumFields(title, description, images, privacy, layout, cover);
    var vals := AlbumPayloadOf(title, description, images, privacy, layout, cover).vals;
    AlbumFieldsWellNamed(title, description, images, privacy, layout, cover);
    forall i: nat | ImagesGiven(images) && i < |images.value|
      ensures IdsKey(i) in vals && vals[IdsKey(i)] == VStr(images.value[i])
    {
      IdsKept(fs, 5, i);
    }
    forall i: nat | IdsKey(i) in vals
      ensures ImagesGiven(images) && i < |images.value|
    {
      var m, j := KeyOrigin(fs, IdsKey(i));
      if IsScalar(fs[m]) {
        IdsKeyHasBracket(i);
      } else {
        IdsKeyInjective(i, j);
      }
    }
    if "ids" in vals {
      var m, j := KeyOrigin(fs, "ids");
      if IsIdsList(fs[m]) {
        IdsKeyHasBracket(j);
      }
    }
  }

  /** Where the two builders part: an empty title is dropped by `create_album` but kept by `PayloadData`. */
  lemma EmptyTitleDroppedOnlyByCreateAlbum()
    ensures "title" !in AlbumPayloadOf(Some(""), None, None, None, None, None).vals
    ensures "title" in PayloadOf(Defaults.(title := VStr(""))).vals
  {
    CreateAlbumNamedFields(Some(""), None, None, None, None, None);
    PayloadKeepsFields(Defaults.(title := VStr("")));
    assert Items(Defaults.(title := VStr("")))[0] == ("title", VStr(""));
  }

  /** The dict `add_images_to_album` posts: `ids[i]` for each image id in turn. */
  method AddImagesPayload(images: seq<string>) returns (payload: Dict<Value>)
    ensures payload == FromEntries(IdsEntries(Strs(images)))
  {
    assert [] + IdsEntries(Strs(images)) == IdsEntries(Strs(images));
    payload := PayloadAddIds(Empty(), [], Strs(images));
  }

  /**
   * `add_images_to_album`'s payload lists exactly the keys `ids[0]` ..
   * `ids[N-1]` in order, `ids[i]` holding the i-th image id.
   */
  lemma AddImagesKeys(images: seq<string>)
    ensures var d := FromEntries(IdsEntries(Strs(images)));
            && |d.keys| == |images|
            && (forall i :: 0 <= i < |images| ==> d.keys[i] == IdsKey(i) && d.vals[IdsKey(i)] == VStr(images[i]))
            && (forall k :: k in d.vals ==> exists i :: 0 <= i < |images| && k == IdsKey(i))
  {
    var es := IdsEntries(Strs(images));
    forall a, b | 0 <= a < b < |es| ensures es[a].0 != es[b].0 {
      if es[a].0 == es[b].0 {
        IdsKeyInjective(a, b);
      }
    }
    FromDistinctKeys(es);
    FromDistinctEntries(es);
  }

  /** `if parent_id:` */
  predicate ParentGiven(parentId: Option<int>) {
    parentId.Some? && parentId.value != 0
  }

  /** The dict `create_comment` posts. */
  function CommentPayload(imageId: string, comment: string, parentId: Option<int>): Dict<Value> {
    var d := Set(Set(Empty(), "image_id", VStr(imageId)), "comment", VStr(comment));
    if ParentGiven(parentId) then Set(d, "parent_id", VInt(parentId.value)) else d
  }

  /**
   * The comment payload lists `image_id` and `comment`, then `parent_id`
   * exactly when a truthy parent id is given, each with its argument.
   */
  lemma CommentPayloadShape(imageId: string, comment: string, parentId: Option<int>)
    ensures var d := CommentPayload(imageId, comment, parentId);
            && Valid(d)
            && d.keys == ["image_id", "comment"] + (if ParentGiven(parentId) then ["parent_id"] else [])
            && d.vals["image_id"] == VStr(imageId) && d.vals["comment"] == VStr(comment)
            && ("parent_id" in d.vals <==> ParentGiven(parentId))
            && (ParentGiven(parentId) ==> d.vals["parent_id"] == VInt(parentId.value))
  {
    var d0 := Set(Empty(), "image_id", VStr(imageId));
    assert d0.keys == ["image_id"];
    assert "comment" != "image_id";
    var d1 := Set(d0, "comment", VStr(comment));
    assert d1.keys == ["image_id", "comment"];
    assert "parent_id" != "image_id" && "parent_id" != "comment";
    assert "parent_id" !in d1.vals;
    if ParentGiven(parentId) {
      assert CommentPayload(imageId, comment, parentId) == Set(d1, "parent_id", VInt(parentId.value));
    } else {
      assert CommentPayload(imageId, comment, parentId) == d1;
    }
  }

  /** A parent id of 0 is omitted, exactly as no parent id. */
  lemma ParentIdZeroOmitted(imageId: string, comment: string)
    ensures "parent_id" !in CommentPayload(imageId, comment, Some(0)).vals
    ensures CommentPayload(imageId, comment, Some(0)) == CommentPayload(imageId, comment, None)
  {
  }
}
