/**
 * The three-step "new drive" wizard: NewDrive opens a DriveSize picker,
 * which opens a DriveFormat picker, which creates and formats the volume.
 * Each widget is a small state machine whose nested widget is held in its
 * state, so its children follow that state.
 */
module Wizard {
  import opened Ui
  import opened Backend
  import opened Naming

  const U32_LIMIT: int := 0x1_0000_0000

  /** Rust's u32. */
  type U32 = x: int | 0 <= x < U32_LIMIT

  function Min(a: int, b: int): int {
    if a <= b then a else b
  }

  // ---------------------------------------------------------------------
  // Format cursor

  /** The file-system families offered by the format picker. */
  datatype Format = Windows | MacOs | Linux | Universal

  /** The order in which the picker lists the formats, top to bottom. */
  const MenuOrder: seq<Format> := [Windows, MacOs, Linux, Universal]

  function MenuIndex(f: Format): (i: nat)
    ensures i < |MenuOrder| && MenuOrder[i] == f
  {
    match f
    case Windows => 0
    case MacOs => 1
    case Linux => 2
    case Universal => 3
  }

  /** The format below `f` in the menu; the last one stays put. */
  function NextFormat(f: Format): (r: Format)
    ensures r == MenuOrder[Min(MenuIndex(f) + 1, |MenuOrder| - 1)]
  {
    match f
    case Windows => MacOs
    case MacOs => Linux
    case Linux => Universal
    case Universal => Universal
  }

  /** The format above `f` in the menu; the first one stays put. */
  function PrevFormat(f: Format): (r: Format)
    ensures r == MenuOrder[if MenuIndex(f) == 0 then 0 else MenuIndex(f) - 1]
  {
    match f
    case Windows => Windows
    case MacOs => Windows
    case Linux => MacOs
    case Universal => Linux
  }

  lemma PrevUndoesNext(f: Format)
    ensures f != Universal <==> PrevFormat(NextFormat(f)) == f
  {
  }

  lemma NextUndoesPrev(f: Format)
    ensures f != Windows <==> NextFormat(PrevFormat(f)) == f
  {
  }

  /** The cursor after `n` presses of Down. */
  function NextFormatN(f: Format, n: nat): Format
    decreases n
  {
    if n == 0 then f else NextFormatN(NextFormat(f), n - 1)
  }

  /** The cursor after `n` presses of Up. */
  function PrevFormatN(f: Format, n: nat): Format
    decreases n
  {
    if n == 0 then f else PrevFormatN(PrevFormat(f), n - 1)
  }

  /** However often Down is pressed, the cursor never wraps back to the top. */
  lemma {:induction false} DownPressesSaturate(f: Format, n: nat)
    ensures MenuIndex(NextFormatN(f, n)) == Min(MenuIndex(f) + n, |MenuOrder| - 1)
    decreases n
  {
    if n > 0 {
      DownPressesSaturate(NextFormat(f), n - 1);
    }
  }

  /** However often Up is pressed, the cursor never wraps to the bottom. */
  lemma {:induction false} UpPressesSaturate(f: Format, n: nat)
    ensures MenuIndex(PrevFormatN(f, n)) == if MenuIndex(f) >= n then MenuIndex(f) - n else 0
    decreases n
  {
    if n > 0 {
      UpPressesSaturate(PrevFormat(f), n - 1);
    }
  }

  /** The file-system type written into the msdos partition table for `f`. */
  function PartitionType(f: Format): (t: string)
    ensures t == "ext3" <==> f == Linux
    ensures t == "ntfs" <==> f != Linux
  {
    match f
    case Linux => "ext3"
    case _ => "ntfs"
  }

  /** The tool that creates the file system on the first partition for `f`. */
  function MkfsTool(f: Format): (tool: string)
    ensures tool == "mkfs.ext3" <==> PartitionType(f) == "ext3"
    ensures tool == "mkfs.ntfs" <==> f == Windows
    ensures tool == "mkfs.exfat" <==> f == MacOs || f == Universal
  {
    match f
    case Windows => "mkfs.ntfs"
    case MacOs => "mkfs.exfat"
    case Universal => "mkfs.exfat"
    case Linux => "mkfs.ext3"
  }

  // ---------------------------------------------------------------------
  // Size arithmetic

  /** `current_percent += 5` on a u32, wrapping as a release build does. */
  function PercentUp(p: U32): (r: U32)
    ensures (r - p) % U32_LIMIT == 5
    ensures p + 5 < U32_LIMIT ==> r == p + 5
  {
    (p + 5) % U32_LIMIT
  }

  /** `current_percent -= 5` on a u32, wrapping as a release build does. */
  function PercentDown(p: U32): (r: U32)
    ensures (p - r) % U32_LIMIT == 5
    ensures p >= 5 ==> r == p - 5
    ensures p < 5 ==> r > 100
  {
    (p - 5) % U32_LIMIT
  }

  lemma PercentDownUndoesUp(p: U32)
    ensures PercentDown(PercentUp(p)) == p
  {
  }

  lemma PercentUpUndoesDown(p: U32)
    ensures PercentUp(PercentDown(p)) == p
  {
  }

  /**
   * One Down at 0% leaves the percentage far outside 0..100 instead of
   * stopping at 0; the size offered next is then far too large, or 0 bytes
   * on a large group (see `UnderflowOffersEmptyDrive`).
   */
  lemma DownAtZeroUnderflows()
    ensures PercentDown(0) == U32_LIMIT - 5
  {
  }

  /**
   * `((bytes + 512 - 1) / 512) * 512` on u64, each step wrapping as a
   * release build does: the smallest multiple of 512 at or above `bytes`.
   * The `+ 512` already wraps from 2^64 - 512 on, but the `- 1` undoes that
   * wrap for 2^64 - 512 itself; from 2^64 - 511 on the result is 0.
   */
  function RoundUpToSector(bytes: U64): (r: U64)
    ensures r % 512 == 0
    ensures bytes <= U64_LIMIT - 512 ==> bytes <= r < bytes + 512
    ensures bytes > U64_LIMIT - 512 ==> r == 0
  {
    var plus := (bytes + 512) % U64_LIMIT;
    var minus := (plus - 1) % U64_LIMIT;
    (minus / 512) * 512
  }

  /** No multiple of 512 at or above `bytes` is below the rounded size. */
  lemma RoundUpIsLeast(bytes: U64, m: int)
    requires m % 512 == 0 && m >= bytes
    ensures RoundUpToSector(bytes) <= m
  {
  }

  lemma RoundUpIdempotent(bytes: U64)
    ensures RoundUpToSector(RoundUpToSector(bytes)) == RoundUpToSector(bytes)
  {
  }

  /**
   * The byte count `percent`% of `vgSize` stands for, cast to u64 with
   * saturation. The source computes it in f32; the model uses the exact
   * integer quotient instead.
   */
  function ScaledBytes(vgSize: U64, percent: U32): (b: U64)
    ensures vgSize * percent < U64_LIMIT * 100 ==>
      b * 100 <= vgSize * percent < b * 100 + 100
    ensures vgSize * percent >= U64_LIMIT * 100 ==> b == U64_LIMIT - 1
    ensures percent <= 100 ==> b <= vgSize
  {
    var product := vgSize * percent;
    HundredthBounds(product);
    ProductAtMostWhole(vgSize, percent);
    var exact := product / 100;
    if exact < U64_LIMIT then exact else U64_LIMIT - 1
  }

  /** Integer division by 100 rounds down, and stays below the u64 limit exactly when its dividend is below a hundred times it. */
  lemma HundredthBounds(x: nat)
    ensures (x / 100) * 100 <= x < (x / 100) * 100 + 100
    ensures x < U64_LIMIT * 100 <==> x / 100 < U64_LIMIT
  {
  }

  /** A percentage of at most 100 scales a size to at most a hundred times that size. */
  lemma ProductAtMostWhole(size: nat, percent: nat)
    ensures percent <= 100 ==> size * percent <= size * 100
  {
  }

  /**
   * After one Down at 0%, a group of 2^39 bytes (about 550 GB) or more
   * scales past the u64 range, the saturated count wraps in the rounding,
   * and the picker offers a drive of 0 bytes.
   */
  lemma UnderflowOffersEmptyDrive(vgSize: U64)
    requires vgSize >= 0x80_0000_0000
    ensures ScaledBytes(vgSize, PercentDown(0)) == U64_LIMIT - 1
    ensures RoundUpToSector(ScaledBytes(vgSize, PercentDown(0))) == 0
  {
    DownAtZeroUnderflows();
    var p := PercentDown(0);
    assert p >= 0xFFFF_0000;
    assert vgSize * p >= 0x80_0000_0000 * 0xFFFF_0000 by {
      ProductMonotone(vgSize, 0x80_0000_0000, p, 0xFFFF_0000);
    }
  }

  /** Products of naturals grow with both factors. */
  lemma ProductMonotone(a: nat, a0: nat, b: nat, b0: nat)
    requires a >= a0 && b >= b0
    ensures a * b >= a0 * b0
  {
    assert a * b >= a0 * b;
  }

  // ---------------------------------------------------------------------
  // Widgets

  /** A widget nested inside another one. */
  datatype Child = SizePicker(sizePicker: DriveSize) | FormatPicker(formatPicker: DriveFormat)

  datatype NewDriveState = Unselected | PickingSize(menu: DriveSize)

  /** The "New Drive" menu entry. */
  class NewDrive {
    const window: WindowId
    const usb: UsbGadget
    const vg: VolumeGroup
    var state: NewDriveState

    constructor (disp: DisplayManager, usb: UsbGadget, vg: VolumeGroup)
      requires disp.Valid()
      modifies disp
      ensures disp.Valid()
      ensures window == |old(disp.windows)| && disp.windows == old(disp.windows) + [Normal]
      ensures disp.focus == old(disp.focus)
      ensures this.usb == usb && this.vg == vg && state == NewDriveState.Unselected
    {
      var id := disp.AddChild(Normal);
      window := id;
      this.usb := usb;
      this.vg := vg;
      state := NewDriveState.Unselected;
    }

    /** Only Select is handled, and it asks for the size menu. */
    function OnEvent(event: Event): (r: (bool, seq<Action<Volume>>))
      ensures r.0 <==> event == Select
      ensures r.1 == if r.0 then [OpenSizeMenu] else []
    {
      match event
      case Select => (true, [OpenSizeMenu])
      case _ => (false, [])
    }

    method DoAction(disp: DisplayManager, action: Action<Volume>) returns (handled: bool, actions: seq<Action<Volume>>)
      requires disp.Valid() && window < |disp.windows|
      modifies this`state, disp
      ensures disp.Valid()
      ensures actions == []
      ensures handled <==> action.OpenSizeMenu? || action.CloseFormatMenu?
      ensures action.OpenSizeMenu? ==>
        && state.PickingSize?
        && fresh(state.menu)
        && state.menu.window == |old(disp.windows)|
        && disp.windows == old(disp.windows) + [Fixed(0, 0)]
        && disp.focus == state.menu.window
        && state.menu.currentPercent == 50
        && state.menu.state == SizeState.Unselected
        && state.menu.usb == usb && state.menu.vg == vg
      ensures action.CloseFormatMenu? ==>
        state == NewDriveState.Unselected && disp.focus == window && disp.windows == old(disp.windows)
      ensures !handled ==> state == old(state) && unchanged(disp)
    {
      match action
      case OpenSizeMenu =>
        var menu := new DriveSize(disp, usb, vg);
        disp.ShiftFocus(menu.window);
        state := PickingSize(menu);
        handled, actions := true, [];
      case CloseFormatMenu =>
        disp.ShiftFocus(window);
        state := NewDriveState.Unselected;
        handled, actions := true, [];
      case _ =>
        handled, actions := false, [];
    }

    /** The nested widgets; `mut_children` yields the same list. */
    function Children(): (r: seq<Child>)
      reads this
      ensures |r| <= 1
      ensures r == [] <==> state.Unselected?
      ensures state.PickingSize? ==> r[0] == SizePicker(state.menu)
    {
      match state
      case PickingSize(menu) => [SizePicker(menu)]
      case Unselected => []
    }
  }

  datatype SizeState = Unselected | Selected(menu: DriveFormat)

  /** The size picker: a percentage of the volume group, changed in steps of 5. */
  class DriveSize {
    const window: WindowId
    var currentPercent: U32
    const usb: UsbGadget
    const vg: VolumeGroup
    var state: SizeState

    constructor (disp: DisplayManager, usb: UsbGadget, vg: VolumeGroup)
      requires disp.Valid()
      modifies disp
      ensures disp.Valid()
      ensures window == |old(disp.windows)| && disp.windows == old(disp.windows) + [Fixed(0, 0)]
      ensures disp.focus == old(disp.focus)
      ensures currentPercent == 50 && state == SizeState.Unselected
      ensures this.usb == usb && this.vg == vg
    {
      var id := disp.AddChild(Fixed(0, 0));
      window := id;
      currentPercent := 50;
      this.usb := usb;
      this.vg := vg;
      state := SizeState.Unselected;
    }

    /** The size in bytes of the drive the picker currently offers. */
    function CurrentSize(): (bytes: U64)
      reads this, vg
      ensures bytes % 512 == 0
      ensures ScaledBytes(vg.vgSize, currentPercent) <= U64_LIMIT - 512 ==>
        ScaledBytes(vg.vgSize, currentPercent) <= bytes < ScaledBytes(vg.vgSize, currentPercent) + 512
      ensures ScaledBytes(vg.vgSize, currentPercent) > U64_LIMIT - 512 ==> bytes == 0
    {
      RoundUpToSector(ScaledBytes(vg.vgSize, currentPercent))
    }

    /** Every button is handled: Select, Up and Down ask for one action each. */
    function OnEvent(event: Event): (r: (bool, seq<Action<Volume>>))
      ensures r.0
      ensures r.1 == [OpenFormatMenu] <==> event == Select
      ensures r.1 == [IncDriveSize] <==> event == Up
      ensures r.1 == [DecDriveSize] <==> event == Down
    {
      match event
      case Select => (true, [OpenFormatMenu])
      case Up => (true, [IncDriveSize])
      case Down => (true, [DecDriveSize])
    }

    method DoAction(disp: DisplayManager, action: Action<Volume>) returns (handled: bool, actions: seq<Action<Volume>>)
      requires disp.Valid()
      modifies this`currentPercent, this`state, disp
      ensures disp.Valid()
      ensures actions == []
      ensures handled <==>
        action.IncDriveSize? || action.DecDriveSize? || action.OpenFormatMenu? || action.CloseFormatMenu?
      ensures action.IncDriveSize? ==>
        currentPercent == PercentUp(old(currentPercent)) && state == old(state) && unchanged(disp)
      ensures action.DecDriveSize? ==>
        currentPercent == PercentDown(old(currentPercent)) && state == old(state) && unchanged(disp)
      ensures action.OpenFormatMenu? ==>
        && currentPercent == old(currentPercent)
        && state.Selected?
        && fresh(state.menu)
        && state.menu.window == |old(disp.windows)|
        && disp.windows == old(disp.windows) + [Fixed(0, 0)]
        && disp.focus == state.menu.window
        && state.menu.size == old(CurrentSize())
        && state.menu.vg == vg
        && state.menu.selected == Windows && state.menu.state == Selecting
      ensures action.CloseFormatMenu? ==>
        state == SizeState.Unselected && currentPercent == old(currentPercent) && unchanged(disp)
      ensures !handled ==>
        state == old(state) && currentPercent == old(currentPercent) && unchanged(disp)
    {
      match action
      case IncDriveSize =>
        currentPercent := PercentUp(currentPercent);
        handled, actions := true, [];
      case DecDriveSize =>
        currentPercent := PercentDown(currentPercent);
        handled, actions := true, [];
      case OpenFormatMenu =>
        var menu := new DriveFormat(disp, vg, CurrentSize());
        disp.ShiftFocus(menu.window);
        state := Selected(menu);
        handled, actions := true, [];
      case CloseFormatMenu =>
        state := SizeState.Unselected;
        handled, actions := true, [];
      case _ =>
        handled, actions := false, [];
    }

    /** The nested widgets; `mut_children` yields the same list. */
    function Children(): (r: seq<Child>)
      reads this
      ensures |r| <= 1
      ensures r == [] <==> state.Unselected?
      ensures state.Selected? ==> r[0] == FormatPicker(state.menu)
    {
      match state
      case Selected(menu) => [FormatPicker(menu)]
      case Unselected => []
    }
  }

  datatype FormatState = Selecting | Formatting | Done

  /** The format picker, which also creates and formats the new volume. */
  class DriveFormat {
    const window: WindowId
    const vg: VolumeGroup
    const size: U64
    var selected: Format
    var state: FormatState

    constructor (disp: DisplayManager, vg: VolumeGroup, size: U64)
      requires disp.Valid()
      modifies disp
      ensures disp.Valid()
      ensures window == |old(disp.windows)| && disp.windows == old(disp.windows) + [Fixed(0, 0)]
      ensures disp.focus == old(disp.focus)
      ensures this.vg == vg && this.size == size
      ensures selected == Windows && state == Selecting
    {
      var id := disp.AddChild(Fixed(0, 0));
      window := id;
      this.vg := vg;
      this.size := size;
      selected := Windows;
      state := Selecting;
    }

    /** Every button is handled: Up and Down move the cursor, Select asks to format. */
    method OnEvent(event: Event) returns (handled: bool, actions: seq<Action<Volume>>)
      modifies this`selected
      ensures handled
      ensures event == Select ==> actions == [FormatDrive] && selected == old(selected)
      ensures event == Up ==> actions == [] && selected == PrevFormat(old(selected))
      ensures event == Down ==> actions == [] && selected == NextFormat(old(selected))
    {
      match event
      case Select =>
        handled, actions := true, [FormatDrive];
      case Up =>
        selected := PrevFormat(selected);
        handled, actions := true, [];
      case Down =>
        selected := NextFormat(selected);
        handled, actions := true, [];
    }

    /**
     * The first FormatDrive only switches to the "Formatting" screen and
     * leaves the action unconsumed; the next one creates the volume and
     * formats it. `formatSucceeds` is the outcome of the external
     * partitioning and file-system tools run on the new volume.
     */
    method DoAction(action: Action<Volume>, formatSucceeds: bool) returns (r: Result<(bool, seq<Action<Volume>>)>)
      modifies this`state, vg
      ensures !action.FormatDrive? ==>
        r == Ok((false, [])) && state == old(state) && vg.volumes == old(vg.volumes)
      ensures action.FormatDrive? && old(state) == Selecting ==>
        r == Ok((false, [])) && state == Formatting && vg.volumes == old(vg.volumes)
      ensures action.FormatDrive? && old(state) != Selecting ==>
        var volume := Volume(DriveName(|old(vg.volumes)|), size);
        && vg.volumes == old(vg.volumes) + [volume]
        && (formatSucceeds ==> state == Done && r == Ok((true, [CloseFormatMenu, CreateDrive(volume)])))
        && (!formatSucceeds ==> state == old(state) && r == Err(FormatFailed))
    {
      match action
      case FormatDrive =>
        if state == Selecting {
          state := Formatting;
          r := Ok((false, []));
        } else {
          var count := |vg.volumes|;
          var volume := vg.CreateVolume(DriveName(count), size);
          if !formatSucceeds {
            r := Err(FormatFailed);
          } else {
            state := Done;
            r := Ok((true, [CloseFormatMenu, CreateDrive(volume)]));
          }
        }
      case _ =>
        r := Ok((false, []));
    }

    /** The format picker never has nested widgets. */
    function Children(): (r: seq<Child>)
      ensures r == []
    {
      []
    }
  }
}
