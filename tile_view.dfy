/**
 * One grid tile as a drag source and a drop target: which drags it accepts,
 * the visual drag state its callbacks maintain, and the border that state
 * shows.
 */
module TileView {
  import opened MockApi
  import opened Reorder

  /** The `type` tag every tile attaches to its drag payload. */
  const GridItem := "grid-item"

  /** The data a drag source carries: its `type` tag and its tile. */
  datatype DragPayload = DragPayload(sourceType: string, item: Tile)

  /** A tile's visual state. */
  datatype DragState = Idle | Dragging | Over

  /** The callbacks the drag-and-drop library invokes on a tile. */
  datatype DragEvent = DragStart | SourceDrop | DragEnter | DragLeave | TargetDrop

  /** The state each callback sets; none of them looks at the previous state. */
  function After(e: DragEvent): (state: DragState)
    ensures state == Dragging <==> e == DragStart
    ensures state == Over <==> e == DragEnter
  {
    match e
    case DragStart => Dragging
    case SourceDrop => Idle
    case DragEnter => Over
    case DragLeave => Idle
    case TargetDrop => Idle
  }

  /** The state after a sequence of callbacks delivered in order, starting in `state`. */
  function Replay(state: DragState, events: seq<DragEvent>): DragState
    decreases |events|
  {
    if |events| == 0 then state else Replay(After(events[0]), events[1..])
  }

  const NoBorder := "none"

  /** The tile's border style. */
  function Border(state: DragState): (b: string)
    ensures b != NoBorder <==> state == Over
  {
    if state == Over then "1px solid black" else NoBorder
  }

  /**
   * The target's acceptance test: a grid item, and not the very tile the
   * target stands for.
   */
  function CanDrop(source: DragPayload, target: Tile): (ok: bool)
    ensures ok ==> source.sourceType == GridItem
    ensures source.item == target ==> !ok
    ensures source.sourceType == GridItem && source.item != target ==> ok
  {
    source.sourceType == GridItem && source.item != target
  }

  /**
   * For grid-item drags between tiles on the grid, a drop is accepted exactly
   * when performing it would change the order: self-drops, the only drops
   * that would not, are the ones refused.
   */
  lemma CanDropIffSwapMoves(s: seq<Tile>, source: DragPayload, target: Tile)
    requires source.sourceType == GridItem
    requires source.item in s && target in s
    ensures CanDrop(source, target) <==> Swapped(s, source.item, target) != s
  {
    if source.item == target {
      SwapSelf(s, target);
    } else {
      SwapExchanges(s, source.item, target);
      assert Swapped(s, source.item, target)[IndexOf(s, source.item)] != s[IndexOf(s, source.item)];
    }
  }

  /**
   * Whatever callbacks a tile has received, it shows a border exactly when
   * the last one was a drag entering it.
   */
  lemma {:induction false} ReplayBorder(events: seq<DragEvent>)
    ensures Border(Replay(Idle, events)) != NoBorder <==> |events| > 0 && events[|events| - 1] == DragEnter
  {
    ReplayEndsWithLast(Idle, events);
  }

  /** Replaying callbacks ends in the state set by the last one. */
  lemma {:induction false} ReplayEndsWithLast(state: DragState, events: seq<DragEvent>)
    ensures Replay(state, events) == if |events| == 0 then state else After(events[|events| - 1])
    decreases |events|
  {
    if |events| > 0 {
      ReplayEndsWithLast(After(events[0]), events[1..]);
    }
  }

  /** A rendered tile and its drag state. */
  class ItemView {
    const item: Tile
    var state: DragState

    constructor (item: Tile)
      ensures this.item == item && state == Idle
    {
      this.item := item;
      state := Idle;
    }

    /** The source's `onDragStart`. */
    method OnDragStart()
      modifies this
      ensures state == After(DragStart)
    {
      state := Dragging;
    }

    /** The source's `onDrop`. */
    method OnSourceDrop()
      modifies this
      ensures state == After(SourceDrop)
    {
      state := Idle;
    }

    /** The target's `onDragEnter`. */
    method OnDragEnter()
      modifies this
      ensures state == After(DragEnter)
    {
      state := Over;
    }

    /** The target's `onDragLeave`. */
    method OnDragLeave()
      modifies this
      ensures state == After(DragLeave)
    {
      state := Idle;
    }

    /** The target's `onDrop`. */
    method OnTargetDrop()
      modifies this
      ensures state == After(TargetDrop)
    {
      state := Idle;
    }
  }
}
