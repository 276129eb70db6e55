/** `components/EscalaCreator.tsx`: the rating-scale editor. The source keeps the scale
    as an untyped record; here it is `{title, items}` with items `{id, text, value}`. */
module EscalaCreator {
  import opened Types
  import Lists
  import Ids

  /** A rated indicator; `value` may be absent, and reads as 0 when it is. */
  datatype EscalaItem = EscalaItem(id: string, text: string, value: Option<int>)

  datatype EscalaData = EscalaData(title: string, items: seq<EscalaItem>)

  /** The rating buttons the editor shows for every item. */
  const RatingOptions: seq<int> := [1, 2, 3, 4, 5]

  predicate UniqueIds(items: seq<EscalaItem>)
  {
    forall i, j :: 0 <= i < j < |items| ==> items[i].id != items[j].id
  }

  /** The item at `k` is the only one carrying its id; other ids may repeat. */
  predicate IdOnlyAt(items: seq<EscalaItem>, k: nat)
  {
    k < |items| && forall i :: 0 <= i < |items| && i != k ==> items[i].id != items[k].id
  }

  /** `curr.value || 0`. */
  function Rating(it: EscalaItem): real
  {
    it.value.GetOr(0) as real
  }

  /** Every rating is on the 0 to 5 scale: the default 0 or one of the buttons. */
  predicate RatingsInRange(items: seq<EscalaItem>)
  {
    forall i :: 0 <= i < |items| ==> 0.0 <= Rating(items[i]) <= 5.0
  }

  /** `calculateTotal`: the sum of the ratings over the most they could be, on a 0 to 10
      scale, and 0 for no items. */
  function CalculateTotal(d: EscalaData): (r: real)
    ensures |d.items| == 0 ==> r == 0.0
    ensures RatingsInRange(d.items) ==> 0.0 <= r <= 10.0
    ensures RatingsInRange(d.items) ==>
      (r == 10.0 <==> |d.items| > 0 && forall i :: 0 <= i < |d.items| ==> Rating(d.items[i]) == 5.0)
    ensures RatingsInRange(d.items) ==>
      (r == 0.0 <==> forall i :: 0 <= i < |d.items| ==> Rating(d.items[i]) == 0.0)
  {
    var sum := Lists.Sum(d.items, Rating);
    var max := |d.items| as real * 5.0;
    if max > 0.0 then
      TotalFacts(d.items);
      (sum / max) * 10.0
    else 0.0
  }

  lemma TotalFacts(items: seq<EscalaItem>)
    requires |items| > 0
    ensures RatingsInRange(items) ==>
      var q := (Lists.Sum(items, Rating) / (|items| as real * 5.0)) * 10.0;
      && 0.0 <= q <= 10.0
      && (q == 10.0 <==> forall i :: 0 <= i < |items| ==> Rating(items[i]) == 5.0)
      && (q == 0.0 <==> forall i :: 0 <= i < |items| ==> Rating(items[i]) == 0.0)
  {
    if RatingsInRange(items) {
      var sum := Lists.Sum(items, Rating);
      RatingSumRange(items);
      Lists.ScaledRatio(sum, |items| as real * 5.0);
    }
  }

  /** The sum of in-range ratings lies between none and 5 per item, reaching each end exactly
      when every rating does. */
  lemma RatingSumRange(items: seq<EscalaItem>)
    requires RatingsInRange(items)
    ensures 0.0 <= Lists.Sum(items, Rating) <= |items| as real * 5.0
    ensures Lists.Sum(items, Rating) == 0.0 <==> forall i :: 0 <= i < |items| ==> Rating(items[i]) == 0.0
    ensures Lists.Sum(items, Rating) == |items| as real * 5.0
        <==> forall i :: 0 <= i < |items| ==> Rating(items[i]) == 5.0
  {
    Lists.SumBounds(items, Rating, 0.0, 5.0);
    Lists.SumZeroIff(items, Rating);
    AllTopIffFull(items);
  }

  /** The ratings reach their most, 5 per item, exactly when every item is rated 5. */
  lemma AllTopIffFull(items: seq<EscalaItem>)
    requires RatingsInRange(items)
    ensures Lists.Sum(items, Rating) == |items| as real * 5.0
        <==> forall i :: 0 <= i < |items| ==> Rating(items[i]) == 5.0
  {
    var top := (it: EscalaItem) => 5.0;
    Lists.SumBounds(items, top, 5.0, 5.0);
    Lists.SumEqualIff(items, Rating, top);
  }

  /** `createEmpty`: one indicator rated 0, so the total is 0. */
  function CreateEmpty(now: nat): (d: EscalaData)
    ensures |d.items| == 1 && d.items[0].id == Ids.ManualId("e-", now) && d.items[0].value == Some(0)
    ensures RatingsInRange(d.items)
    ensures CalculateTotal(d) == 0.0
  {
    EscalaData("Nueva Escala de Valoración",
      [EscalaItem(Ids.ManualId("e-", now), "Indicador de logro 1", Some(0))])
  }

  /** `handleRating`: the value of the matching items set to `val`, nothing else touched. */
  function HandleRating(d: EscalaData, id: string, val: int): (r: EscalaData)
    ensures r.(items := d.items) == d
    ensures |r.items| == |d.items|
    ensures forall i :: 0 <= i < |d.items| ==> d.items[i].id != id ==> r.items[i] == d.items[i]
    ensures forall i :: 0 <= i < |d.items| ==> d.items[i].id == id ==> r.items[i] == d.items[i].(value := Some(val))
  {
    d.(items := Lists.Map(d.items, (it: EscalaItem) => if it.id == id then it.(value := Some(val)) else it))
  }

  /** Rating an item twice with the same value is rating it once. */
  lemma HandleRatingIdempotent(d: EscalaData, id: string, val: int)
    ensures HandleRating(HandleRating(d, id, val), id, val) == HandleRating(d, id, val)
  {
    var once := HandleRating(d, id, val);
    var twice := HandleRating(once, id, val);
    assert twice.items == once.items;
  }

  /** Rating with one of the buttons keeps every rating on the 0 to 5 scale, so, with
      `CreateEmpty` and the generated scale starting there, the total stays within 0 to 10. */
  lemma HandleRatingKeepsRange(d: EscalaData, id: string, val: int)
    requires RatingsInRange(d.items) && val in RatingOptions
    ensures RatingsInRange(HandleRating(d, id, val).items)
  {
    var r := HandleRating(d, id, val).items;
    forall i | 0 <= i < |r| ensures 0.0 <= Rating(r[i]) <= 5.0 {
      if d.items[i].id == id {
        assert r[i].value == Some(val);
      }
    }
  }

  /** Rating the one item with that id moves the sum of ratings by the difference. */
  lemma HandleRatingSum(d: EscalaData, k: nat, val: int)
    requires IdOnlyAt(d.items, k)
    ensures Lists.Sum(HandleRating(d, d.items[k].id, val).items, Rating)
         == Lists.Sum(d.items, Rating) - Rating(d.items[k]) + val as real
  {
    var it := d.items[k];
    assert HandleRating(d, it.id, val).items == d.items[k := it.(value := Some(val))];
    Lists.SumPointUpdate(d.items, k, it.(value := Some(val)), Rating);
  }
}
