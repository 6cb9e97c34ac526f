/** `getInfoFile`: the first-match search of a node's `files` array in the
    project tree that the `info` endpoint returns. */
module InfoTree {
  import opened Wrappers
  import opened Json

  /** The node type `getInfoFile` looks for when its caller gives none. */
  const DEFAULT_NODE_TYPE := "file"

  /** What a call of `getInfoFile` comes to. */
  datatype Lookup =
    | NoFiles           // returns `null`: the source is falsy or its `files` is falsy
    | NotFound          // returns `undefined`: `files.find` matched no item
    | Found(node: Json) // returns the first matching item
    | Throws            // throws a TypeError: `files` is no array, or `find` reached a `null` item

  /** `item.node_type === nodeType && item.name === name`, for an item that is not `null`. */
  predicate Matches(item: Json, name: string, nodeType: string) {
    Field(item, "node_type") == Some(Str(nodeType)) && Field(item, "name") == Some(Str(name))
  }

  /** Every item is one `find` steps over: not `null` and not a match. */
  ghost predicate PassedOver(items: seq<Json>, name: string, nodeType: string) {
    forall j | 0 <= j < |items| :: items[j] != Null && !Matches(items[j], name, nodeType)
  }

  /** `items.find(item => item.node_type === nodeType && item.name === name)`. The
      callback reads a property of each item in turn, so a `null` item reached
      before any match throws. */
  function Find(items: seq<Json>, name: string, nodeType: string): (r: Lookup)
    ensures !r.NoFiles?
    ensures r.NotFound? <==> PassedOver(items, name, nodeType)
    ensures r.Found? ==>
      exists k | 0 <= k < |items| ::
        items[k] == r.node && Matches(items[k], name, nodeType) && PassedOver(items[..k], name, nodeType)
    ensures r.Throws? ==>
      exists k | 0 <= k < |items| :: items[k] == Null && PassedOver(items[..k], name, nodeType)
  {
    if items == [] then NotFound
    else if items[0] == Null then Throws
    else if Matches(items[0], name, nodeType) then Found(items[0])
    else
      var r := Find(items[1..], name, nodeType);
      assert r.Found? ==> exists k | 1 <= k < |items| ::
        items[k] == r.node && Matches(items[k], name, nodeType) && PassedOver(items[..k], name, nodeType) by {
        if r.Found? {
          var k :| 0 <= k < |items[1..]| && items[1..][k] == r.node && Matches(items[1..][k], name, nodeType)
                   && PassedOver(items[1..][..k], name, nodeType);
          PassedOverCons(items, k, name, nodeType);
          assert items[k + 1] == items[1..][k];
        }
      }
      assert r.Throws? ==> exists k | 1 <= k < |items| ::
        items[k] == Null && PassedOver(items[..k], name, nodeType) by {
        if r.Throws? {
          var k :| 0 <= k < |items[1..]| && items[1..][k] == Null && PassedOver(items[1..][..k], name, nodeType);
          PassedOverCons(items, k, name, nodeType);
          assert items[k + 1] == items[1..][k];
        }
      }
      PassedOverTail(items, name, nodeType);
      r
  }

  /** Stepping over a first item that is neither `null` nor a match. */
  lemma PassedOverTail(items: seq<Json>, name: string, nodeType: string)
    requires items != [] && items[0] != Null && !Matches(items[0], name, nodeType)
    ensures PassedOver(items, name, nodeType) <==> PassedOver(items[1..], name, nodeType)
  {
    if PassedOver(items[1..], name, nodeType) {
      forall j | 0 <= j < |items| ensures items[j] != Null && !Matches(items[j], name, nodeType) {
        if j > 0 { assert items[j] == items[1..][j - 1]; }
      }
    }
  }

  lemma PassedOverCons(items: seq<Json>, k: nat, name: string, nodeType: string)
    requires k < |items| - 1 && items[0] != Null && !Matches(items[0], name, nodeType)
    requires PassedOver(items[1..][..k], name, nodeType)
    ensures PassedOver(items[..k + 1], name, nodeType)
  {
    assert items[..k + 1] == [items[0]] + items[1..][..k];
  }

  /** The `files` value `getInfoFile` searches when it is truthy:
      `source ? source.files : null`. */
  function FilesOf(source: Json): Option<Json> {
    if Truthy(source) then Field(source, "files") else None
  }

  predicate HasFiles(source: Json) {
    FilesOf(source).Some? && Truthy(FilesOf(source).value)
  }

  /** `getInfoFile(source, name, type)`: `null` without a truthy `files`, the
      result of `files.find` otherwise. */
  function GetInfoFile(source: Json, name: string, nodeType: string): (r: Lookup)
    ensures r.NoFiles? <==> !HasFiles(source)
    ensures HasFiles(source) && !FilesOf(source).value.Arr? ==> r.Throws?
    ensures HasFiles(source) && FilesOf(source).value.Arr? ==>
      r == Find(FilesOf(source).value.items, name, nodeType)
  {
    var files := FilesOf(source);
    if files.None? || !Truthy(files.value) then NoFiles
    else if files.value.Arr? then Find(files.value.items, name, nodeType)
    else Throws
  }

  /** `getInfoFile` with its default node type: what it finds is a `file` node of
      the requested name. */
  function GetInfoFileDefault(source: Json, name: string): (r: Lookup)
    ensures r.NoFiles? <==> !HasFiles(source)
    ensures r.Found? ==>
      Field(r.node, "node_type") == Some(Str("file")) && Field(r.node, "name") == Some(Str(name))
  {
    GetInfoFile(source, name, DEFAULT_NODE_TYPE)
  }

  /** A found node is the first item of `source.files` with the requested type and
      name; everything before it is a non-null item that does not match. */
  lemma FoundIsFirstMatch(source: Json, name: string, nodeType: string)
    requires GetInfoFile(source, name, nodeType).Found?
    ensures HasFiles(source) && FilesOf(source).value.Arr?
    ensures var items := FilesOf(source).value.items;
      exists k | 0 <= k < |items| ::
        items[k] == GetInfoFile(source, name, nodeType).node
        && Matches(items[k], name, nodeType) && PassedOver(items[..k], name, nodeType)
    ensures GetInfoFile(source, name, nodeType).node.Obj?
    ensures Truthy(GetInfoFile(source, name, nodeType).node)
  {
  }

  /** Conversely, the first item that matches, with only non-null non-matching
      items before it, is the one `find` returns. */
  lemma {:induction false} FirstMatchIsFound(items: seq<Json>, name: string, nodeType: string, k: nat)
    requires k < |items| && Matches(items[k], name, nodeType)
    requires PassedOver(items[..k], name, nodeType)
    ensures Find(items, name, nodeType) == Found(items[k])
  {
    if k > 0 {
      assert items[..k][0] == items[0];
      assert items[1..][..k - 1] == items[..k][1..];
      FirstMatchIsFound(items[1..], name, nodeType, k - 1);
    }
  }

  /** And a `null` item reached before any match makes `find` throw. */
  lemma {:induction false} NullBeforeMatchThrows(items: seq<Json>, name: string, nodeType: string, k: nat)
    requires k < |items| && items[k] == Null
    requires PassedOver(items[..k], name, nodeType)
    ensures Find(items, name, nodeType) == Throws
  {
    if k > 0 {
      assert items[..k][0] == items[0];
      assert items[1..][..k - 1] == items[..k][1..];
      NullBeforeMatchThrows(items[1..], name, nodeType, k - 1);
    }
  }
}
