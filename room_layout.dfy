/**
 * The room layout controller: it keeps the selected aspect ratio, measures a container,
 * finds the tile width with the packer, and writes that width, the matching height, the
 * margin and the ratio label onto every child tile of the container.
 *
 * The document is abstracted: a container is an `Element` with its offset height and width
 * and a fixed array of child tile styles; looking an element up by id gives an `Element?`
 * (null when it is not mounted); the viewport width is a parameter.
 */
module RoomLayout {
  import opened Wrappers
  import opened Packing
  import opened AspectRatio

  /** Viewport width (px) at and below which the narrow layout applies. */
  const Breakpoint: int := 820

  /** The presentational state of one child tile: margin, width and height in px, and `data-aspect`. */
  datatype Tile = Unstyled | Styled(margin: int, width: int, height: real, aspect: string)

  /** A container's size with the margins taken off. */
  datatype Dimensions = Dimensions(height: int, width: int)

  /** A container element: its measured size and its child tiles, which layout never adds or removes. */
  class Element {
    const offsetHeight: nat
    const offsetWidth: nat
    const children: array<Tile>

    constructor (offsetHeight: nat, offsetWidth: nat, count: nat)
      ensures this.offsetHeight == offsetHeight && this.offsetWidth == offsetWidth
      ensures fresh(children) && children.Length == count
    {
      this.offsetHeight := offsetHeight;
      this.offsetWidth := offsetWidth;
      children := new Tile[count](_ => Unstyled);
    }
  }

  /** The objects laying out a possibly absent container may change. */
  function Footprint(e: Element?): set<object>
  {
    if e == null then {} else {e.children}
  }

  /** The child tiles of a possibly absent container. */
  function Snapshot(e: Element?): seq<Tile>
    reads Footprint(e)
  {
    if e == null then [] else e.children[..]
  }

  /** Two containers whose tiles are distinct objects, as two elements with different ids are. */
  predicate Separate(a: Element?, b: Element?)
  {
    a != null && b != null ==> a.children != b.children
  }

  /** The media query `(max-width: limit px)`: true when the viewport is at most `limit` wide. */
  function CheckScreenWidth(limit: int, viewportWidth: int): (matches: bool)
    ensures matches <==> !(viewportWidth > limit)
  {
    viewportWidth <= limit
  }

  /** Every child tile of `element` is `t`. */
  predicate AllStyled(element: Element, t: Tile)
    reads element.children
  {
    forall s :: 0 <= s < element.children.Length ==> element.children[s] == t
  }

  class LayoutController {
    const ratios: seq<string> := Catalog
    const margin: int := 5
    /** Index of the selected catalog entry. */
    var aspectIndex: int
    /** Height per width of the selected entry. */
    var ratio: real

    /** The selected index is in the catalog and `ratio` is what its entry reads as. */
    ghost predicate Valid()
      reads this
    {
      0 <= aspectIndex < |ratios| && Ratio(ratios[aspectIndex]) == Some(ratio)
    }

    /** Starts on the first entry, 16:9. */
    constructor ()
      ensures Valid() && aspectIndex == 0 && ratio == 9.0 / 16.0
    {
      aspectIndex := 0;
      CatalogRatios();
      ratio := Ratio(Catalog[0]).value;
    }

    /** The ratio of the selected entry; every catalog entry reads as a positive number. */
    function CurrentRatio(): (r: Option<real>)
      reads this
      requires 0 <= aspectIndex < |ratios|
      ensures r.Some? && r.value > 0.0
    {
      CatalogRatiosPositive();
      Ratio(ratios[aspectIndex])
    }

    /** The container's size less one margin on each side; nothing for an absent container. */
    function Dims(element: Element?): (d: Option<Dimensions>)
      ensures d.None? <==> element == null
      ensures d.Some? ==> d.value.height + 2 * margin == element.offsetHeight
                          && d.value.width + 2 * margin == element.offsetWidth
    {
      if element == null then None
      else Some(Dimensions(element.offsetHeight - margin * 2, element.offsetWidth - margin * 2))
    }

    /**
     * Simulates packing the container's children with tile width `increment`: the width back
     * when they fit, None (JavaScript's `false`) when they do not.  Only the number of
     * children matters.
     */
    method Area(increment: int, element: Element, height: int, width: int) returns (r: Option<int>)
      ensures r == if Fits(increment, element.children.Length, height, width, ratio, margin)
                   then Some(increment) else None
    {
      var i := 0;
      var w := 0;
      var h := increment as real * ratio + (margin * 2) as real;
      while i < element.children.Length
        invariant 0 <= i <= element.children.Length
        invariant Pack(increment, i, width, ratio, margin) == PackState(w, h)
      {
        if w + increment > width {
          w := 0;
          h := h + (increment as real * ratio + (margin * 2) as real);
        }
        w := w + increment + margin * 2;
        i := i + 1;
      }
      if h > height as real || increment > width {
        r := None;
      } else {
        r := Some(increment);
      }
    }

    /** The tile width `calculateArea` settles on for a mounted container. */
    function ScanWidth(element: Element): int
      reads this
    {
      Scan(1, element.children.Length, element.offsetHeight - margin * 2,
           element.offsetWidth - margin * 2, ratio, margin) - margin * 2
    }

    /**
     * Scans widths 1, 2, ... below 5000 and stops at the first that does not fit; the answer
     * is the width before it (0 when none fails) less two margins.
     */
    method CalculateArea(element: Element?) returns (r: Option<int>)
      ensures r.None? <==> element == null
      ensures element != null ==> r == Some(ScanWidth(element))
      ensures element != null ==>
        IsScanResult(r.value + margin * 2, element.children.Length,
                     element.offsetHeight - margin * 2, element.offsetWidth - margin * 2, ratio, margin)
    {
      if element == null {
        return None;
      }
      var d := Dims(element).value;
      var n := element.children.Length;
      var max := 0;
      var i := 1;
      while i < ScanLimit
        invariant 1 <= i <= ScanLimit
        invariant forall k :: 1 <= k < i ==> Fits(k, n, d.height, d.width, ratio, margin)
      {
        var a := Area(i, element, d.height, d.width);
        if a == None {
          max := i - 1;
          break;
        }
        i := i + 1;
      }
      assert IsScanResult(max, n, d.height, d.width, ratio, margin);
      ScanSatisfiesSpec(1, n, d.height, d.width, ratio, margin);
      ScanResultUnique(max, Scan(1, n, d.height, d.width, ratio, margin), n, d.height, d.width, ratio, margin);
      r := Some(max - margin * 2);
    }

    /** The style every child gets for tile width `width`. */
    function TileFor(width: int, isScreenShare: bool): Tile
      reads this
      requires Valid()
    {
      var height := if isScreenShare then (width as real * 9.0) / 16.0 else width as real * ratio;
      Styled(margin, width, height, ratios[aspectIndex])
    }

    /**
     * Gives every child of the container the margin, the width `width`, the height for the
     * selected ratio (16:9 for the screen-share area) and the selected label.
     */
    method Resizer(width: int, element: Element?, isScreenShare: bool)
      requires Valid()
      modifies Footprint(element)
      ensures element != null ==> AllStyled(element, TileFor(width, isScreenShare))
    {
      if element == null {
        return;
      }
      for s := 0 to element.children.Length
        invariant forall k :: 0 <= k < s ==> element.children[k] == TileFor(width, isScreenShare)
      {
        element.children[s] := TileFor(width, isScreenShare);
      }
    }

    /** After laying out the participant area: styled with the scan width, unless that is 0. */
    ghost predicate ParticipantLaidOut(area: Element?, before: seq<Tile>)
      reads this, Footprint(area)
      requires Valid()
    {
      area != null ==>
        if ScanWidth(area) != 0 then AllStyled(area, TileFor(ScanWidth(area), false))
        else area.children[..] == before
    }

    /** The screen-share tile width: the container's own width on a narrow viewport. */
    function ScreenShareWidth(area: Element, viewportWidth: int): int
      reads this
    {
      if CheckScreenWidth(Breakpoint, viewportWidth) then area.offsetWidth else ScanWidth(area)
    }

    /** After laying out the screen-share area: every tile styled 16:9 at the screen-share width. */
    ghost predicate ScreenShareLaidOut(area: Element?, viewportWidth: int)
      reads this, Footprint(area)
      requires Valid()
    {
      area != null ==> AllStyled(area, TileFor(ScreenShareWidth(area, viewportWidth), true))
    }

    method ParticipantAreaResize(area: Element?)
      requires Valid()
      modifies Footprint(area)
      ensures ParticipantLaidOut(area, old(Snapshot(area)))
    {
      var max := CalculateArea(area);
      if max.None? || max.value == 0 {
        return;
      }
      Resizer(max.value, area, false);
    }

    method ScreenShareAreaResize(area: Element?, viewportWidth: int)
      requires Valid()
      modifies Footprint(area)
      ensures ScreenShareLaidOut(area, viewportWidth)
    {
      if area == null {
        return;
      }
      var max := 0;
      if CheckScreenWidth(Breakpoint, viewportWidth) {
        max := area.offsetWidth;
      } else {
        var m := CalculateArea(area);
        max := m.value;
      }
      Resizer(max, area, true);
    }

    method Resize(participantArea: Element?, screenShareArea: Element?, viewportWidth: int)
      requires Valid() && Separate(participantArea, screenShareArea)
      modifies Footprint(participantArea), Footprint(screenShareArea)
      ensures ParticipantLaidOut(participantArea, old(Snapshot(participantArea)))
      ensures ScreenShareLaidOut(screenShareArea, viewportWidth)
    {
      ParticipantAreaResize(participantArea);
      ScreenShareAreaResize(screenShareArea, viewportWidth);
    }

    /** Selects catalog entry `i`, re-reads the ratio and lays both areas out again. */
    method Aspect(i: int, participantArea: Element?, screenShareArea: Element?, viewportWidth: int)
      requires Valid() && 0 <= i < |ratios|
      requires Separate(participantArea, screenShareArea)
      modifies this, Footprint(participantArea), Footprint(screenShareArea)
      ensures Valid() && aspectIndex == i && Some(ratio) == Ratio(ratios[i])
      ensures ParticipantLaidOut(participantArea, old(Snapshot(participantArea)))
      ensures ScreenShareLaidOut(screenShareArea, viewportWidth)
    {
      aspectIndex := i;
      ratio := CurrentRatio().value;
      Resize(participantArea, screenShareArea, viewportWidth);
    }

    /** Wide viewports (over 820 px) get 16:9, narrow ones 1:1. */
    method SetAspectRatioByWidth(participantArea: Element?, screenShareArea: Element?, viewportWidth: int)
      requires Valid() && Separate(participantArea, screenShareArea)
      modifies this, Footprint(participantArea), Footprint(screenShareArea)
      ensures Valid() && aspectIndex == if viewportWidth > Breakpoint then 0 else 2
      ensures ParticipantLaidOut(participantArea, old(Snapshot(participantArea)))
      ensures ScreenShareLaidOut(screenShareArea, viewportWidth)
    {
      if viewportWidth > Breakpoint {
        Aspect(0, participantArea, screenShareArea, viewportWidth);
      } else {
        Aspect(2, participantArea, screenShareArea, viewportWidth);
      }
    }

    /** The media query `(max-width: 820px)` selects 4:3 when it matches, 16:9 otherwise. */
    method MatchScreen(participantArea: Element?, screenShareArea: Element?, viewportWidth: int)
      requires Valid() && Separate(participantArea, screenShareArea)
      modifies this, Footprint(participantArea), Footprint(screenShareArea)
      ensures Valid() && aspectIndex == if CheckScreenWidth(Breakpoint, viewportWidth) then 1 else 0
      ensures ParticipantLaidOut(participantArea, old(Snapshot(participantArea)))
      ensures ScreenShareLaidOut(screenShareArea, viewportWidth)
    {
      if CheckScreenWidth(Breakpoint, viewportWidth) {
        Aspect(1, participantArea, screenShareArea, viewportWidth);
      } else {
        Aspect(0, participantArea, screenShareArea, viewportWidth);
      }
    }
  }

  /**
   * Laying out twice with unchanged inputs leaves the tiles exactly as one pass leaves them:
   * the state after the second pass is the one-pass state of the original tiles.
   */
  method ResizeIsIdempotent(c: LayoutController, participantArea: Element?, screenShareArea: Element?, viewportWidth: int)
    requires c.Valid() && Separate(participantArea, screenShareArea)
    modifies Footprint(participantArea), Footprint(screenShareArea)
    ensures c.ParticipantLaidOut(participantArea, old(Snapshot(participantArea)))
    ensures c.ScreenShareLaidOut(screenShareArea, viewportWidth)
  {
    c.Resize(participantArea, screenShareArea, viewportWidth);
    c.Resize(participantArea, screenShareArea, viewportWidth);
  }
}
