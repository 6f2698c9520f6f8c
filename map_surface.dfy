/** The part of the map widget that the components change: its style layers,
    named by unique ids and kept in drawing order, and its data sources. The
    widget refuses a second layer or source with an id already in use, and
    removing an id it does not hold is an error, so the components test with
    `getLayer` before they add or remove. */
module MapSurface {

  predicate Distinct(s: seq<string>) {
    forall i, j :: 0 <= i < j < |s| ==> s[i] != s[j]
  }

  /** `s` with every occurrence of `id` taken out, the rest in order. */
  function Without(s: seq<string>, id: string): (r: seq<string>)
    ensures forall x :: x in r <==> x in s && x != id
    ensures |r| <= |s|
    ensures id !in s ==> r == s
    ensures Distinct(s) ==> Distinct(r)
  {
    if s == [] then []
    else if s[0] == id then Without(s[1..], id)
    else
      var rest := Without(s[1..], id);
      assert Distinct(s) ==> s[0] !in s[1..];
      [s[0]] + rest
  }

  /** Taking an id out twice is the same as taking it out once. */
  lemma {:induction false} WithoutIdempotent(s: seq<string>, id: string)
    ensures Without(Without(s, id), id) == Without(s, id)
  {
    if s != [] {
      WithoutIdempotent(s[1..], id);
    }
  }

  /** In a list without repeats, taking out a present id drops exactly one entry. */
  lemma {:induction false} WithoutPresent(s: seq<string>, id: string)
    requires Distinct(s) && id in s
    ensures |Without(s, id)| == |s| - 1
  {
    if s[0] != id {
      assert Distinct(s[1..]);
      WithoutPresent(s[1..], id);
    }
  }

  class MapView {
    /** Ids of the style layers, bottom to top. */
    var layers: seq<string>
    /** Ids of the data sources. */
    var sources: set<string>

    ghost predicate Valid()
      reads this
    {
      Distinct(layers)
    }

    constructor ()
      ensures Valid() && layers == [] && sources == {}
    {
      layers := [];
      sources := {};
    }

    /** `map.getLayer(id)` is defined. */
    predicate HasLayer(id: string)
      reads this
    {
      id in layers
    }

    method AddLayer(id: string)
      requires Valid() && id !in layers
      modifies this
      ensures Valid() && layers == old(layers) + [id] && sources == old(sources)
    {
      layers := layers + [id];
    }

    method RemoveLayer(id: string)
      requires Valid() && id in layers
      modifies this
      ensures Valid() && layers == Without(old(layers), id) && sources == old(sources)
    {
      layers := Without(layers, id);
    }

    method AddSource(id: string)
      requires id !in sources
      modifies this
      ensures sources == old(sources) + {id} && layers == old(layers)
    {
      sources := sources + {id};
    }

    method RemoveSource(id: string)
      requires id in sources
      modifies this
      ensures sources == old(sources) - {id} && layers == old(layers)
    {
      sources := sources - {id};
    }
  }
}
