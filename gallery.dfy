/**
 * The loop `search_gallery` and `get_gallery` run over `response["data"]`:
 * an entry whose `is_album` member is present and truthy becomes an album
 * record, every other entry an image record, in the order they came.
 */
module Gallery {
  import opened Wrappers
  import opened PyValues
  import opened Http

  /**
   * A gallery result. The record mapping itself is not modelled: each
   * record carries the JSON object it was made from.
   */
  datatype GalleryItem = AlbumItem(album: Value) | ImageItem(image: Value)

  /** `"is_album" in item_data and item_data["is_album"]` */
  predicate IsAlbumEntry(entry: Value)
    requires entry.VDict?
  {
    var flag := Lookup(entry.entries, "is_album");
    flag.Some? && Truthy(flag.value)
  }

  /** The record one entry becomes; anything but an object cannot be mapped to a record. */
  function Classify(entry: Value): (r: Result<GalleryItem, ApiError>)
    ensures r.Success? <==> entry.VDict?
    ensures r.Success? ==> (r.value.AlbumItem? <==> IsAlbumEntry(entry))
  {
    if !entry.VDict? then Failure(DataShapeError("gallery entry is not an object"))
    else if IsAlbumEntry(entry) then Success(AlbumItem(entry))
    else Success(ImageItem(entry))
  }

  /** The records for a whole result list; the first entry that cannot be mapped ends the call. */
  function ClassifyAll(entries: seq<Value>): (r: Result<seq<GalleryItem>, ApiError>)
    ensures r.Success? <==> forall i :: 0 <= i < |entries| ==> entries[i].VDict?
    ensures r.Success? ==> |r.value| == |entries|
    ensures r.Success? ==> forall i :: 0 <= i < |entries| ==>
              r.value[i] == (if IsAlbumEntry(entries[i]) then AlbumItem(entries[i]) else ImageItem(entries[i]))
  {
    if entries == [] then Success([])
    else
      var n := |entries| - 1;
      match ClassifyAll(entries[..n])
      case Failure(e) => Failure(e)
      case Success(items) =>
        match Classify(entries[n])
        case Failure(e) => Failure(e)
        case Success(item) => Success(items + [item])
  }

  /** A failure in a prefix of the entries is the failure of the whole list. */
  lemma {:induction false} ClassifyAllFailure(entries: seq<Value>, j: nat)
    requires j <= |entries| && ClassifyAll(entries[..j]).Failure?
    ensures ClassifyAll(entries) == ClassifyAll(entries[..j])
    decreases |entries| - j
  {
    if j < |entries| {
      assert entries[..j + 1][..j] == entries[..j];
      ClassifyAllFailure(entries, j + 1);
    } else {
      assert entries[..j] == entries;
    }
  }

  /** The dispatch loop itself. */
  method Dispatch(entries: seq<Value>) returns (r: Result<seq<GalleryItem>, ApiError>)
    ensures r == ClassifyAll(entries)
  {
    var items: seq<GalleryItem> := [];
    var i := 0;
    while i < |entries|
      invariant 0 <= i <= |entries|
      invariant ClassifyAll(entries[..i]) == Success(items)
    {
      var entry := entries[i];
      assert entries[..i + 1][..i] == entries[..i];
      if !entry.VDict? {
        ClassifyAllFailure(entries, i + 1);
        return Failure(DataShapeError("gallery entry is not an object"));
      }
      var flag := Lookup(entry.entries, "is_album");
      if flag.Some? && Truthy(flag.value) {
        items := items + [AlbumItem(entry)];
      } else {
        items := items + [ImageItem(entry)];
      }
      i := i + 1;
    }
    assert entries[..i] == entries;
    return Success(items);
  }

  /**
   * What the discriminator means: `is_album: true` gives an album; no
   * `is_album`, `is_album: false` or `is_album: 0` gives an image; a
   * repeated member counts by its last value.
   */
  lemma AlbumFlagCases(id: Value)
    ensures IsAlbumEntry(VDict([("id", id), ("is_album", VBool(true))]))
    ensures !IsAlbumEntry(VDict([("id", id)]))
    ensures !IsAlbumEntry(VDict([("id", id), ("is_album", VBool(false))]))
    ensures !IsAlbumEntry(VDict([("id", id), ("is_album", VInt(0))]))
    ensures !IsAlbumEntry(VDict([("is_album", VBool(true)), ("id", id), ("is_album", VBool(false))]))
  {
    assert "id" != "is_album";
    assert [("is_album", VBool(true)), ("id", id), ("is_album", VBool(false))][..2][..1]
        == [("is_album", VBool(true))];
  }
}
