/**
 * The static beverage catalog the decision engine reads (src/data/beverages.json
 * in the application). It is immutable: the engine only filters and looks up.
 */
module Catalog {
  import opened Wrappers

  type Id = string

  datatype Category = Category(id: Id, icon: string)

  /** A mood (occasion); `resultCount` is absent when the catalog gives none. */
  datatype Mood = Mood(id: Id, icon: string, resultCount: Option<int>)

  datatype FlavorProfile = FlavorProfile(id: Id, icon: string, tags: seq<Id>)

  /** `moods` is ordered: an earlier mood is a stronger match. */
  datatype Beverage = Beverage(
    id: Id, brand: string, name: string, tastingNotes: string,
    category: Id, moods: seq<Id>, flavorProfile: Id, tags: seq<Id>)

  datatype Catalog = Catalog(
    categories: seq<Category>, moods: seq<Mood>,
    flavorProfiles: seq<FlavorProfile>, beverages: seq<Beverage>)

  /**
   * The tag score divides by the tag count of the chosen profile without a
   * guard, so every profile must carry at least one tag.
   */
  predicate WellFormed(c: Catalog) {
    forall p :: p in c.flavorProfiles ==> |p.tags| > 0
  }

  /** `beverages.filter(b => b.category === categoryId)`, taking the beverages left to right. */
  function BeveragesByCategory(bs: seq<Beverage>, categoryId: Id): (r: seq<Beverage>)
    ensures forall b :: b in r <==> b in bs && b.category == categoryId
    ensures forall b :: multiset(r)[b] == if b.category == categoryId then multiset(bs)[b] else 0
    ensures |r| <= |bs|
  {
    if bs == [] then []
    else
      var rest := BeveragesByCategory(bs[..|bs| - 1], categoryId);
      var last := bs[|bs| - 1];
      assert bs == bs[..|bs| - 1] + [last];
      if last.category == categoryId then rest + [last] else rest
  }

  /** The filter keeps catalog order: a beverage appended to the catalog is appended to the result, or dropped. */
  lemma BeveragesByCategoryAppend(bs: seq<Beverage>, b: Beverage, categoryId: Id)
    ensures BeveragesByCategory(bs + [b], categoryId)
            == BeveragesByCategory(bs, categoryId) + (if b.category == categoryId then [b] else [])
  {
    assert (bs + [b])[..|bs|] == bs;
  }

  /** `beverages.find(b => b.id === id)`: the first beverage with that id. */
  function BeverageById(bs: seq<Beverage>, id: Id): (r: Option<Beverage>)
    ensures r.None? <==> forall i :: 0 <= i < |bs| ==> bs[i].id != id
    ensures r.Some? ==> exists i :: 0 <= i < |bs| && bs[i] == r.value && r.value.id == id
                                    && forall j :: 0 <= j < i ==> bs[j].id != id
  {
    if bs == [] then None
    else if bs[0].id == id then Some(bs[0])
    else
      var r := BeverageById(bs[1..], id);
      if r.Some? then
        ghost var i :| 0 <= i < |bs| - 1 && bs[1..][i] == r.value && r.value.id == id
                       && forall j :: 0 <= j < i ==> bs[1..][j].id != id;
        assert bs[i + 1] == r.value && forall j :: 0 <= j < i + 1 ==> bs[j].id != id;
        r
      else
        assert forall i :: 1 <= i < |bs| ==> bs[i] == bs[1..][i - 1];
        r
  }

  /** `moods.find(m => m.id === mood)`; a null mood matches no record. */
  function FindMood(ms: seq<Mood>, mood: Option<Id>): (r: Option<Mood>)
    ensures r.None? <==> forall i :: 0 <= i < |ms| ==> Some(ms[i].id) != mood
    ensures r.Some? ==> r.value in ms && Some(r.value.id) == mood
    ensures r.Some? ==> exists i :: 0 <= i < |ms| && ms[i] == r.value
                                    && forall j :: 0 <= j < i ==> Some(ms[j].id) != mood
  {
    if ms == [] then None
    else if Some(ms[0].id) == mood then Some(ms[0])
    else
      var r := FindMood(ms[1..], mood);
      assert forall i :: 1 <= i < |ms| ==> ms[i] == ms[1..][i - 1];
      if r.Some? then
        ghost var i :| 0 <= i < |ms| - 1 && ms[1..][i] == r.value
                       && forall j :: 0 <= j < i ==> Some(ms[1..][j].id) != mood;
        assert ms[i + 1] == r.value && forall j :: 0 <= j < i + 1 ==> Some(ms[j].id) != mood;
        r
      else r
  }

  /** `flavorProfiles.find(f => f.id === flavorProfile)` */
  function FindProfile(ps: seq<FlavorProfile>, profile: Option<Id>): (r: Option<FlavorProfile>)
    ensures r.None? <==> forall i :: 0 <= i < |ps| ==> Some(ps[i].id) != profile
    ensures r.Some? ==> r.value in ps && Some(r.value.id) == profile
    ensures r.Some? ==> exists i :: 0 <= i < |ps| && ps[i] == r.value
                                    && forall j :: 0 <= j < i ==> Some(ps[j].id) != profile
  {
    if ps == [] then None
    else if Some(ps[0].id) == profile then Some(ps[0])
    else
      var r := FindProfile(ps[1..], profile);
      assert forall i :: 1 <= i < |ps| ==> ps[i] == ps[1..][i - 1];
      if r.Some? then
        ghost var i :| 0 <= i < |ps| - 1 && ps[1..][i] == r.value
                       && forall j :: 0 <= j < i ==> Some(ps[1..][j].id) != profile;
        assert ps[i + 1] == r.value && forall j :: 0 <= j < i + 1 ==> Some(ps[j].id) != profile;
        r
      else r
  }
}
