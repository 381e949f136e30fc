/**
 * The user-interface vocabulary the widgets share: controller events, the
 * actions widgets hand to each other, window positions, and an abstract
 * display manager that allocates window ids and remembers which single
 * window has focus.
 */
module Ui {

  /** A debounced button press from the controller. */
  datatype Event = Select | Up | Down

  /**
   * The actions used by the new-drive wizard and the top-level widget.
   * What CreateDrive carries is left as the type parameter: the wizard
   * emits it with the freshly created volume, the top-level widget reads
   * it as a size in bytes.
   */
  datatype Action<Payload> =
    | OpenSizeMenu
    | CloseFormatMenu
    | OpenFormatMenu
    | IncDriveSize
    | DecDriveSize
    | FormatDrive
    | CreateDrive(payload: Payload)

  type WindowId = nat

  /** Where a window is placed: stacked below its siblings, or at fixed coordinates. */
  datatype Position = Normal | Fixed(x: int, y: int)

  /**
   * The window tree, reduced to what the widgets observe: window ids are
   * handed out in order (the id of a window is its index in `windows`,
   * window 0 is the root) and exactly one window, `focus`, has focus.
   */
  class DisplayManager {
    var windows: seq<Position>
    var focus: WindowId

    ghost predicate Valid()
      reads this
    {
      |windows| > 0 && focus < |windows|
    }

    constructor ()
      ensures Valid()
      ensures windows == [Normal] && focus == 0
    {
      windows := [Normal];
      focus := 0;
    }

    /** Allocates a new window; focus does not move. */
    method AddChild(position: Position) returns (id: WindowId)
      requires Valid()
      modifies this
      ensures Valid()
      ensures id == |old(windows)| && windows == old(windows) + [position]
      ensures focus == old(focus)
    {
      id := |windows|;
      windows := windows + [position];
    }

    /** Moves the focus to window `id`; shifting to the focused window is allowed. */
    method ShiftFocus(id: WindowId)
      requires Valid() && id < |windows|
      modifies this
      ensures Valid()
      ensures focus == id && windows == old(windows)
    {
      focus := id;
    }
  }
}
