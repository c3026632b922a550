/** The items of the list views, and the chunked loop that the explorers fill them with. */
module LabelItems {
  import opened Paths

  /** A list item, represented by the text and the icon it shows. */
  datatype LabelItem = LabelItem(text: string, icon: string)

  /** The label of the first item of every explorer listing. */
  const UP_LABEL := "../"

  /** The explorers append a listing ten children at a time. */
  const CHUNK_SIZE := 10

  /**
   * `for chunk in range(0, len(children), 10): for child in children[chunk:chunk + 10]: append(item(child))`:
   * every child gives one item, in listing order.
   */
  method ChunkedItems(children: seq<Path>, itemOf: Path -> LabelItem) returns (out: seq<LabelItem>)
    ensures |out| == |children|
    ensures forall i :: 0 <= i < |children| ==> out[i] == itemOf(children[i])
  {
    out := [];
    var chunk := 0;
    while chunk < |children|
      invariant 0 <= chunk
      invariant |out| == if chunk < |children| then chunk else |children|
      invariant forall i :: 0 <= i < |out| ==> out[i] == itemOf(children[i])
    {
      var end := if chunk + CHUNK_SIZE < |children| then chunk + CHUNK_SIZE else |children|;
      var slice := children[chunk..end];
      var k := 0;
      while k < |slice|
        invariant 0 <= k <= |slice|
        invariant |out| == chunk + k
        invariant forall i :: 0 <= i < |out| ==> out[i] == itemOf(children[i])
      {
        out := out + [itemOf(slice[k])];
        k := k + 1;
      }
      chunk := chunk + CHUNK_SIZE;
    }
  }
}
