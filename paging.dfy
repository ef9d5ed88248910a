/**
 * Client-side pagination shared by the events and tags screens: the whole
 * list is fetched once, and the effect keeps `paginatedData` equal to the
 * current page of it, each row keyed by the document's `_id`.
 */
module Paging {
  import opened Js

  /** Both screens keep `pageSize` at its initial state value. */
  const PageSize: nat := 10

  /** A document as the API returns it: its `_id` and the rest of its fields. */
  datatype Doc<T> = Doc(id: string, body: T)

  /** A table row: the spread document together with `key: _id`. */
  datatype Row<T> = Row(key: string, doc: Doc<T>)

  /** `docs.map(d => ({ ...d, key: d._id }))`. */
  function KeyRows<T>(docs: seq<Doc<T>>): (r: seq<Row<T>>)
    ensures |r| == |docs|
    ensures forall i :: 0 <= i < |docs| ==> r[i].doc == docs[i] && r[i].key == docs[i].id
  {
    if docs == [] then [] else [Row(docs[0].id, docs[0])] + KeyRows(docs[1..])
  }

  /** The rows the pagination effect computes for page `page`. */
  function Page<T>(docs: seq<Doc<T>>, page: int, size: nat): (r: seq<Row<T>>)
    ensures |r| <= |docs|
    ensures forall i :: 0 <= i < |r| ==> r[i].key == r[i].doc.id
  {
    var start := (page - 1) * size;
    KeyRows(Slice(docs, start, start + size))
  }

  /**
   * Page `page` (the pager only produces `page >= 1`) holds exactly the
   * documents at positions `[(page-1)*size, page*size)` that exist, in order,
   * each keyed by its `_id`; so it never has more than `size` rows.
   */
  lemma PageContents<T>(docs: seq<Doc<T>>, page: int, size: nat)
    requires page >= 1
    ensures var start := (page - 1) * size;
      var r := Page(docs, page, size);
      && |r| <= size
      && |r| == (if |docs| <= start then 0 else if start + size <= |docs| then size else |docs| - start)
      && forall i :: 0 <= i < |r| ==> r[i].doc == docs[start + i] && r[i].key == docs[start + i].id
  {
    ProductNonNegative(page - 1, size);
    WindowContents(docs, (page - 1) * size, size);
  }

  lemma ProductNonNegative(a: nat, b: nat)
    ensures a * b >= 0
  {
  }

  /** The rows of the window `[start, start + size)`, as in `PageContents` with the start given. */
  lemma WindowContents<T>(docs: seq<Doc<T>>, start: nat, size: nat)
    ensures var r := KeyRows(Slice(docs, start, start + size));
      && |r| <= size
      && |r| == (if |docs| <= start then 0 else if start + size <= |docs| then size else |docs| - start)
      && forall i :: 0 <= i < |r| ==> r[i].doc == docs[start + i] && r[i].key == docs[start + i].id
  {
    var w := Slice(docs, start, start + size);
    if start < |docs| {
      var hi := if start + size < |docs| then start + size else |docs|;
      assert w == docs[start..hi];
    }
  }

  /**
   * Pages partition the list: the document at position `j` appears on page
   * `j / size + 1`, at row `j % size`.
   */
  lemma EveryDocOnItsPage<T>(docs: seq<Doc<T>>, size: nat, j: nat)
    requires size > 0 && j < |docs|
    ensures var p := j / size + 1;
      var r := Page(docs, p, size);
      j % size < |r| && r[j % size].doc == docs[j]
  {
    var p := j / size + 1;
    assert (p - 1) * size + j % size == j;
    PageContents(docs, p, size);
  }
}
