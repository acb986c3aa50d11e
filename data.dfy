/** The built-in background table (src/data.ts). */
module Data {
  import opened Types

  /** The five built-in backgrounds, in display order. The entries also carry a `url` field that
      is not part of the background record and that nothing reads; they have no Arabic name, no
      image and no custom flag. */
  const Backgrounds: seq<Background> := [
    Background("office", "Office", None, "#3d405b", None, false),
    Background("lounge", "Lounge", None, "#e07a5f", None, false),
    Background("bedroom", "Bedroom", None, "#81b29a", None, false),
    Background("streaming", "Streaming", None, "#f2cc8f", None, false),
    Background("park", "Park", None, "#60993e", None, false)
  ]

  /** No two built-ins share an id, so an id picks out at most one of them. */
  lemma BuiltInIdsDistinct()
    ensures |Backgrounds| == 5
    ensures forall i, j :: 0 <= i < j < |Backgrounds| ==> Backgrounds[i].id != Backgrounds[j].id
  {
    assert Backgrounds[0].id[0] == 'o' && Backgrounds[1].id[0] == 'l' && Backgrounds[2].id[0] == 'b';
    assert Backgrounds[3].id[0] == 's' && Backgrounds[4].id[0] == 'p';
  }
}
