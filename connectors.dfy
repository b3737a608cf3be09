/** The connector notches of the two cut-out layers (index.ts:244-278,
    index.ts:177-202): the top edge of layer 2 (micro USB and TRRS sockets)
    and of layer 3 (the TRRS legs) keeps `left` millimetres of edge on the
    left and `right` on the right and is cut open in between. */
module Connectors {
  import opened Plate

  datatype Half = Left | Right

  /** Which half a keyboard name denotes (index.ts:254, index.ts:269): only
      the name "left" is the left half. */
  function HalfOf(name: string): (h: Half)
    ensures h == Left <==> name == "left"
  {
    if name == "left" then Left else Right
  }

  /** The two layers whose top edge has a notch. */
  datatype CutoutLayer = SocketLayer | LegsLayer

  const UsbWidth: real := 5.0
  const TrrsWidth: real := 2.7
  const TrrsLegsWidth: real := 7.0

  /** The lengths of top edge kept on the left and on the right. */
  datatype TopLengths = TopLengths(left: real, right: real)

  /** Where the grid of key positions starts, measured from the board edge. */
  const GridStart: real := BoardPadding - 0.5 * HoleGap

  /** The top lengths computed at index.ts:252-259 and index.ts:267-274. Each
      notch is wide enough to be cut (its edges lie between the top-left screw
      square and the right padding, one kerf apart at least) on both halves. */
  function TopLengthsFor(half: Half, layer: CutoutLayer): (t: TopLengths)
    ensures ScrewSquare < t.left && BoardPadding < t.right
    ensures t.left + t.right + Kerf < BoardWidth
  {
    match (half, layer)
    case (Left, SocketLayer) =>
      TopLengths(GridStart + 5.5 * U - UsbWidth, GridStart + 1.25 * U - TrrsWidth)
    case (Right, SocketLayer) =>
      TopLengths(GridStart + 0.75 * U - TrrsWidth, GridStart + 6.0 * U - UsbWidth)
    case (Left, LegsLayer) =>
      TopLengths(GridStart + 6.5 * U - TrrsLegsWidth, GridStart + 1.25 * U - TrrsWidth)
    case (Right, LegsLayer) =>
      TopLengths(GridStart + 0.75 * U - TrrsWidth, GridStart + 7.0 * U - TrrsLegsWidth)
  }

  /** A stretch of the top edge that is cut away: from `start` to `end`. */
  datatype Opening = Opening(start: real, end: real)

  /** The notch that `get_layer` cuts for given top lengths (index.ts:184,
      index.ts:200): each cut edge is moved half a kerf into the material. */
  function Notch(t: TopLengths): (o: Opening)
    ensures o.start - Kerf2 == t.left && BoardWidth - (o.end + Kerf2) == t.right
  {
    Opening(t.left + Kerf2, BoardWidth - t.right - Kerf2)
  }

  /** The notch that `getSvg` cuts into `layer` for the keyboard called
      `name` (index.ts:254-261, index.ts:269-276). */
  function NotchFor(name: string, layer: CutoutLayer): Opening {
    Notch(TopLengthsFor(HalfOf(name), layer))
  }

  /** The reflection of an opening in the vertical middle line of the board. */
  function Mirror(o: Opening): (m: Opening)
    ensures m.start + o.end == BoardWidth && m.end + o.start == BoardWidth
  {
    Opening(BoardWidth - o.end, BoardWidth - o.start)
  }

  /** The right half's notch on either layer is the left half's notch mirrored
      in the middle of the board and then moved half a unit to the left. */
  lemma {:induction false} MirroredNotches(layer: CutoutLayer)
    ensures Notch(TopLengthsFor(Right, layer)).start == Mirror(Notch(TopLengthsFor(Left, layer))).start - 0.5 * U
    ensures Notch(TopLengthsFor(Right, layer)).end == Mirror(Notch(TopLengthsFor(Left, layer))).end - 0.5 * U
  {
  }

  /** The notches are as wide on both halves: the socket notch is a unit plus
      the widths of both sockets, the legs notch the legs and the TRRS socket. */
  lemma {:induction false} NotchWidths(half: Half)
    ensures Notch(TopLengthsFor(half, SocketLayer)).end - Notch(TopLengthsFor(half, SocketLayer)).start == U + UsbWidth + TrrsWidth - Kerf
    ensures Notch(TopLengthsFor(half, LegsLayer)).end - Notch(TopLengthsFor(half, LegsLayer)).start == TrrsLegsWidth + TrrsWidth - Kerf
  {
  }

  /** Only the keyboard called "left" gets the left half's notch; every other
      name, not just "right", gets that notch mirrored and moved half a unit
      to the left. */
  lemma {:induction false} NamedNotch(name: string, layer: CutoutLayer)
    ensures NotchFor(name, layer) == NotchFor("left", layer) <==> name == "left"
    ensures name != "left" ==>
              NotchFor(name, layer).start == Mirror(NotchFor("left", layer)).start - 0.5 * U &&
              NotchFor(name, layer).end == Mirror(NotchFor("left", layer)).end - 0.5 * U
  {
    MirroredNotches(layer);
  }
}
