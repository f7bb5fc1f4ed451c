/**
 * `get_image_comments`: the comment forest in the response is mapped to
 * records, each child list mapped recursively before its parent record
 * is finished, with sibling order and depth kept.
 */
module Comments {
  import opened Wrappers
  import opened PyValues
  import opened Http

  /**
   * A comment record: the JSON object it was made from and its mapped
   * children, `None` when the object has no children list.
   */
  datatype CommentInfo = CommentInfo(data: Value, children: Option<seq<CommentInfo>>)

  /** `comment_data["children"]` when present */
  function ChildrenOf(entry: Value): Option<Value>
    requires entry.VDict?
  {
    Lookup(entry.entries, "children")
  }

  /**
   * The record one comment object maps to, as the record mapper builds it:
   * the `children` member, declared an optional list of comments, is absent,
   * `null`, or a list whose every element maps in turn.
   */
  function MapComment(entry: Value): (r: Result<CommentInfo, ApiError>)
    ensures r.Success? ==> entry.VDict? && r.value.data == entry
    ensures entry.VDict? && ChildrenOf(entry) in {None, Some(VNone)} ==> r.Success?
    ensures (entry.VDict? && ChildrenOf(entry).Some? && !ChildrenOf(entry).value.VNone?
             && !ChildrenOf(entry).value.VList?) ==> r.Failure?
    ensures r.Success? ==> (r.value.children.None? <==> ChildrenOf(entry) in {None, Some(VNone)})
    ensures r.Success? && r.value.children.Some? ==>
              ChildrenOf(entry).Some? && ChildrenOf(entry).value.VList?
              && |r.value.children.value| == |ChildrenOf(entry).value.items|
    decreases entry, 1
  {
    if !entry.VDict? then Failure(DataShapeError("comment is not an object"))
    else
      match ChildrenOf(entry)
      case None => Success(CommentInfo(entry, None))
      case Some(VNone) => Success(CommentInfo(entry, None))
      case Some(VList(kids)) =>
        var k :| 0 <= k < |entry.entries| && entry.entries[k] == ("children", VList(kids));
        assert entry.entries[k].1 < entry.entries[k];
        (match MapComments(kids)
         case Failure(e) => Failure(e)
         case Success(children) => Success(CommentInfo(entry, Some(children))))
      case Some(_) => Failure(DataShapeError("children is not a list"))
  }

  /** A list of comment objects mapped one by one, in order; the first failure ends the call. */
  function MapComments(entries: seq<Value>): (r: Result<seq<CommentInfo>, ApiError>)
    ensures r.Success? <==> forall i :: 0 <= i < |entries| ==> MapComment(entries[i]).Success?
    ensures r.Success? ==> |r.value| == |entries|
    ensures r.Success? ==> forall i :: 0 <= i < |entries| ==> r.value[i] == MapComment(entries[i]).value
    decreases entries, 0
  {
    if entries == [] then Success([])
    else
      var n := |entries| - 1;
      match MapComments(entries[..n])
      case Failure(e) => Failure(e)
      case Success(done) =>
        match MapComment(entries[n])
        case Failure(e) => Failure(e)
        case Success(c) => Success(done + [c])
  }

  /**
   * Depth is kept: a comment whose `children` is a list maps exactly when
   * every child does, and then child j of its record is child j's record.
   */
  lemma MapCommentChildren(entry: Value)
    requires entry.VDict? && ChildrenOf(entry).Some? && ChildrenOf(entry).value.VList?
    ensures var kids := ChildrenOf(entry).value.items;
            && (MapComment(entry).Success? <==> forall j :: 0 <= j < |kids| ==> MapComment(kids[j]).Success?)
            && (MapComment(entry).Success? ==>
                  && MapComment(entry).value.children.Some?
                  && |MapComment(entry).value.children.value| == |kids|
                  && forall j :: 0 <= j < |kids| ==>
                       MapComment(entry).value.children.value[j] == MapComment(kids[j]).value)
  {
  }

  /** A failure in a prefix of the list is the failure of the whole list. */
  lemma {:induction false} MapCommentsFailure(entries: seq<Value>, j: nat)
    requires j <= |entries| && MapComments(entries[..j]).Failure?
    ensures MapComments(entries) == MapComments(entries[..j])
    decreases |entries| - j
  {
    if j < |entries| {
      assert entries[..j + 1][..j] == entries[..j];
      MapCommentsFailure(entries, j + 1);
    } else {
      assert entries[..j] == entries;
    }
  }

  /**
   * `process_comments`: map each comment object and, when its children are
   * present and truthy, replace the record's children by the recursively
   * processed list.
   */
  method ProcessComments(entries: seq<Value>) returns (r: Result<seq<CommentInfo>, ApiError>)
    ensures r == MapComments(entries)
    decreases entries
  {
    var result: seq<CommentInfo> := [];
    var i := 0;
    while i < |entries|
      invariant 0 <= i <= |entries|
      invariant MapComments(entries[..i]) == Success(result)
    {
      var entry := entries[i];
      assert entries[..i + 1][..i] == entries[..i];
      var mapped := MapComment(entry);
      if mapped.Failure? {
        MapCommentsFailure(entries, i + 1);
        return Failure(mapped.error);
      }
      var comment := mapped.value;
      var children := Lookup(entry.entries, "children");
      if children.Some? && Truthy(children.value) {
        var kids := children.value.items;
        var k :| 0 <= k < |entry.entries| && entry.entries[k] == ("children", VList(kids));
        assert entry.entries[k].1 < entry.entries[k];
        var processed := ProcessComments(kids);
        comment := comment.(children := Some(processed.value));
      }
      result := result + [comment];
      i := i + 1;
    }
    assert entries[..i] == entries;
    return Success(result);
  }

  /** The id of a mapped comment, when its object has an integer `id`. */
  function IdOf(c: CommentInfo): Option<int> {
    if c.data.VDict? then
      match Lookup(c.data.entries, "id")
      case Some(VInt(n)) => Some(n)
      case _ => None
    else None
  }

  /**
   * The forest `[{id: 1, children: [{id: 2}]}]` maps to one record with id
   * 1 whose single child has id 2 and no children of its own.
   */
  lemma NestedCommentExample()
    ensures var leaf := VDict([("id", VInt(2))]);
            var root := VDict([("id", VInt(1)), ("children", VList([leaf]))]);
            var r := MapComments([root]);
            && r.Success? && |r.value| == 1
            && IdOf(r.value[0]) == Some(1)
            && r.value[0].children.Some? && |r.value[0].children.value| == 1
            && IdOf(r.value[0].children.value[0]) == Some(2)
            && r.value[0].children.value[0].children == None
  {
    var leaf := VDict([("id", VInt(2))]);
    var root := VDict([("id", VInt(1)), ("children", VList([leaf]))]);
    assert "id" != "children";
    assert root.entries[..1] == [("id", VInt(1))];
    assert ChildrenOf(leaf) == None;
    assert MapComment(leaf) == Success(CommentInfo(leaf, None));
    assert [leaf][..0] == [];
    assert MapComments([leaf][..0]) == Success([]);
    assert [leaf][0] == leaf;
    assert [] + [CommentInfo(leaf, None)] == [CommentInfo(leaf, None)];
    assert MapComments([leaf]) == Success([CommentInfo(leaf, None)]);
    assert ChildrenOf(root) == Some(VList([leaf]));
    assert MapComment(root) == Success(CommentInfo(root, Some([CommentInfo(leaf, None)])));
    assert [root][..0] == [];
    assert MapComments([root][..0]) == Success([]);
    assert Lookup(root.entries, "id") == Lookup(root.entries[..1], "id") == Some(VInt(1));
    assert Lookup(leaf.entries, "id") == Some(VInt(2));
  }
}
