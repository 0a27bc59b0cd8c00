/**
 * CardCarouselScreen: which card counts as current (the most visible one),
 * the previous/next arrows, the dot indicator and the "Card i of n" caption.
 * The lazy row's layout is an input: the visible items with their index,
 * offset and size, and the viewport's start and end offsets.
 */
module CardCarousel {
  import opened Text
  import opened Data

  /** One visible item of the lazy row: its position in the list and its extent along the scroll axis. */
  datatype ItemInfo = ItemInfo(index: nat, offset: int, size: int)

  datatype LayoutInfo = LayoutInfo(visibleItemsInfo: seq<ItemInfo>, viewportStartOffset: int, viewportEndOffset: int)

  /**
   * How much of an item lies inside the viewport: the length of the overlap
   * of [offset, offset + size) with [viewportStart, viewportEnd), or 0.
   */
  function VisibleArea(item: ItemInfo, viewportStart: int, viewportEnd: int): (area: nat)
    ensures area <= Max(0, item.size) && area <= Max(0, viewportEnd - viewportStart)
    ensures area > 0 <==>
      0 < item.size && viewportStart < viewportEnd &&
      item.offset < viewportEnd && viewportStart < item.offset + item.size
  {
    var itemStart := Max(item.offset, viewportStart);
    var itemEnd := Min(item.offset + item.size, viewportEnd);
    Max(0, itemEnd - itemStart)
  }

  function Area(layout: LayoutInfo, item: ItemInfo): nat {
    VisibleArea(item, layout.viewportStartOffset, layout.viewportEndOffset)
  }

  /**
   * maxByOrNull over the visible items by visible area, as a position in the
   * list: a scan from the left that moves only on a strictly larger area, so
   * the result has maximal area and nothing before it has as much.
   */
  function MostVisible(layout: LayoutInfo, items: seq<ItemInfo>): (k: nat)
    requires items != []
    ensures k < |items|
    ensures forall j :: 0 <= j < |items| ==> Area(layout, items[j]) <= Area(layout, items[k])
    ensures forall j :: 0 <= j < k ==> Area(layout, items[j]) < Area(layout, items[k])
  {
    if |items| == 1 then 0
    else
      var k := MostVisible(layout, items[..|items| - 1]);
      if Area(layout, items[k]) < Area(layout, items[|items| - 1]) then |items| - 1 else k
  }

  /**
   * currentCardIndex: 0 with nothing visible, otherwise the index of the
   * first visible item whose visible area is largest.
   */
  function CurrentCardIndex(layout: LayoutInfo): (current: nat)
    ensures layout.visibleItemsInfo == [] ==> current == 0
    ensures layout.visibleItemsInfo != [] ==>
      exists k :: 0 <= k < |layout.visibleItemsInfo| && layout.visibleItemsInfo[k].index == current &&
        (forall j :: 0 <= j < |layout.visibleItemsInfo| ==>
          Area(layout, layout.visibleItemsInfo[j]) <= Area(layout, layout.visibleItemsInfo[k])) &&
        (forall j :: 0 <= j < k ==>
          Area(layout, layout.visibleItemsInfo[j]) < Area(layout, layout.visibleItemsInfo[k]))
  {
    var items := layout.visibleItemsInfo;
    if items == [] then 0
    else items[MostVisible(layout, items)].index
  }

  /** When every visible item is one of the cards, the current index names a card. */
  lemma CurrentCardIndexInRange(layout: LayoutInfo, totalCards: nat)
    requires totalCards > 0
    requires forall j :: 0 <= j < |layout.visibleItemsInfo| ==> layout.visibleItemsInfo[j].index < totalCards
    ensures CurrentCardIndex(layout) < totalCards
  {
  }

  /** The previous arrow: enabled when there is a card before, and it scrolls to that card. */
  function PreviousTarget(current: int): (target: Option<int>)
    ensures target.Some? <==> current > 0
    ensures target.Some? ==> 0 <= target.value && target.value + 1 == current
  {
    if current > 0 then Some(current - 1) else None
  }

  /** The next arrow: enabled when there is a card after, and it scrolls to that card. */
  function NextTarget(current: int, totalCards: int): (target: Option<int>)
    ensures target.Some? <==> current < totalCards - 1
    ensures target.Some? ==> target.value < totalCards && target.value == current + 1
  {
    if current < totalCards - 1 then Some(current + 1) else None
  }

  /** From any card, the arrows lead to cards, and each arrow undoes the other. */
  lemma ArrowsAreInverse(current: int, totalCards: int)
    requires 0 <= current < totalCards
    ensures NextTarget(current, totalCards).Some? ==>
      0 <= NextTarget(current, totalCards).value < totalCards &&
      PreviousTarget(NextTarget(current, totalCards).value) == Some(current)
    ensures PreviousTarget(current).Some? ==>
      0 <= PreviousTarget(current).value < totalCards &&
      NextTarget(PreviousTarget(current).value, totalCards) == Some(current)
  {
  }

  /** Dot number index is drawn as selected when it is the current card. */
  predicate DotSelected(index: nat, current: int) {
    index == current
  }

  /** The dots drawn as selected among repeat(totalCards): at most one, the current card's. */
  function SelectedDots(totalCards: nat, current: int): (dots: set<nat>)
    ensures |dots| <= 1
    ensures dots == if 0 <= current < totalCards then {current as nat} else {}
  {
    var dots := set i: nat | i < totalCards && DotSelected(i, current);
    if 0 <= current < totalCards then
      assert dots == {current as nat};
      dots
    else
      assert dots == {} by {
        forall i: nat | i in dots ensures false { }
      }
      dots
  }

  /** The caption under the dots: "Card " then the one-based current card, " of " and the total. */
  function CardLabel(current: nat, totalCards: nat): (caption: string)
    ensures var n := |NatToString(current + 1)|;
      |caption| == 5 + n + 4 + |NatToString(totalCards)| &&
      caption[..5] == "Card " && caption[5 + n..5 + n + 4] == " of " &&
      AllDigits(caption[5..5 + n]) && DecimalValue(caption[5..5 + n]) == current + 1 &&
      AllDigits(caption[5 + n + 4..]) && DecimalValue(caption[5 + n + 4..]) == totalCards
  {
    var number := NatToString(current + 1);
    var total := NatToString(totalCards);
    var caption := "Card " + number + " of " + total;
    DecimalValueOfNatToString(current + 1);
    DecimalValueOfNatToString(totalCards);
    assert caption[5..5 + |number|] == number;
    assert caption[5 + |number| + 4..] == total;
    caption
  }
}
