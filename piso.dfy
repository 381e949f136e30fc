/**
 * The top-level widget: the ordered list of virtual drives, one per
 * logical volume, with the rule that the first drive receives focus.
 */
module Piso {
  import opened Ui
  import opened Backend
  import opened Naming

  /**
   * A virtual drive: a volume and the window it is shown in. The drive
   * widget itself (its menus, its USB registration) is not part of this
   * model.
   */
  datatype VirtualDrive = VirtualDrive(window: WindowId, volume: Volume)

  /** Creating a drive widget allocates one window for it; focus does not move. */
  method NewVirtualDrive(disp: DisplayManager, volume: Volume) returns (drive: VirtualDrive)
    requires disp.Valid()
    modifies disp
    ensures disp.Valid()
    ensures drive == VirtualDrive(|old(disp.windows)|, volume)
    ensures disp.windows == old(disp.windows) + [Normal]
    ensures disp.focus == old(disp.focus)
  {
    var id := disp.AddChild(Normal);
    drive := VirtualDrive(id, volume);
  }

  class PIso {
    var drives: seq<VirtualDrive>
    const usb: UsbGadget
    const disp: DisplayManager
    const vg: VolumeGroup
    const window: WindowId

    /** The display is consistent, and the widget's and every drive's window are live. */
    ghost predicate Valid()
      reads this, disp
    {
      && disp.Valid()
      && window < |disp.windows|
      && forall i :: 0 <= i < |drives| ==> drives[i].window < |disp.windows|
    }

    /** Builds one drive per volume and focuses the first drive, if there is one. */
    constructor (disp: DisplayManager, usb: UsbGadget, vg: VolumeGroup)
      requires disp.Valid()
      modifies disp
      ensures Valid()
      ensures this.disp == disp && this.usb == usb && this.vg == vg
      ensures window == |old(disp.windows)|
      ensures |drives| == |vg.volumes|
      ensures forall i :: 0 <= i < |drives| ==>
        drives[i] == VirtualDrive(window + 1 + i, vg.volumes[i])
      ensures |disp.windows| == |old(disp.windows)| + 1 + |drives|
      ensures disp.windows[..|old(disp.windows)|] == old(disp.windows)
      ensures forall j :: |old(disp.windows)| <= j < |disp.windows| ==> disp.windows[j] == Normal
      ensures |drives| > 0 ==> disp.focus == drives[0].window
      ensures |drives| == 0 ==> disp.focus == old(disp.focus)
    {
      var id := disp.AddChild(Normal);
      var built := BuildDrivesFromVg(disp, vg);
      window := id;
      drives := built;
      this.disp := disp;
      this.usb := usb;
      this.vg := vg;
      new;
      if |built| > 0 {
        disp.ShiftFocus(built[0].window);
      }
    }

    /** One drive per volume of the group, in volume order, each in a new window. */
    static method BuildDrivesFromVg(disp: DisplayManager, vg: VolumeGroup) returns (drives: seq<VirtualDrive>)
      requires disp.Valid()
      modifies disp
      ensures disp.Valid()
      ensures |drives| == |vg.volumes|
      ensures forall i :: 0 <= i < |drives| ==>
        drives[i] == VirtualDrive(|old(disp.windows)| + i, vg.volumes[i])
      ensures |disp.windows| == |old(disp.windows)| + |drives|
      ensures disp.windows[..|old(disp.windows)|] == old(disp.windows)
      ensures forall j :: |old(disp.windows)| <= j < |disp.windows| ==> disp.windows[j] == Normal
      ensures disp.focus == old(disp.focus)
    {
      var volumes := vg.volumes;
      drives := [];
      for k := 0 to |volumes|
        invariant disp.Valid()
        invariant |drives| == k
        invariant forall i :: 0 <= i < k ==>
          drives[i] == VirtualDrive(|old(disp.windows)| + i, volumes[i])
        invariant |disp.windows| == |old(disp.windows)| + k
        invariant disp.windows[..|old(disp.windows)|] == old(disp.windows)
        invariant forall j :: |old(disp.windows)| <= j < |disp.windows| ==> disp.windows[j] == Normal
        invariant disp.focus == old(disp.focus)
      {
        var drive := NewVirtualDrive(disp, volumes[k]);
        drives := drives + [drive];
      }
    }

    /**
     * Creates volume "Drive<n>", n being the number of drives so far, wraps
     * it in a drive appended at the end, and focuses it when it is the
     * only drive.
     */
    method AddDrive(size: U64) returns (drive: VirtualDrive)
      requires Valid()
      modifies this`drives, vg, disp
      ensures Valid()
      ensures vg.volumes == old(vg.volumes) + [Volume(DriveName(|old(drives)|), size)]
      ensures drive == VirtualDrive(|old(disp.windows)|, Volume(DriveName(|old(drives)|), size))
      ensures drives == old(drives) + [drive]
      ensures drive == drives[|drives| - 1]
      ensures disp.windows == old(disp.windows) + [Normal]
      ensures |drives| == 1 ==> disp.focus == drives[0].window
      ensures |drives| != 1 ==> disp.focus == old(disp.focus)
    {
      var volume := vg.CreateVolume(DriveName(|drives|), size);
      var created := NewVirtualDrive(disp, volume);
      drives := drives + [created];
      if |drives| == 1 {
        disp.ShiftFocus(drives[0].window);
      }
      drive := drives[|drives| - 1];
    }

    /** The top-level widget handles no event itself. */
    function OnEvent(event: Event): (r: (bool, seq<Action<U64>>))
      ensures !r.0 && r.1 == []
    {
      (false, [])
    }

    /** Only CreateDrive is handled: it adds a drive of the size it carries. */
    method DoAction(action: Action<U64>) returns (handled: bool)
      requires Valid()
      modifies this`drives, vg, disp
      ensures Valid()
      ensures handled <==> action.CreateDrive?
      ensures action.CreateDrive? ==>
        && |drives| == |old(drives)| + 1
        && drives[..|old(drives)|] == old(drives)
        && drives[|drives| - 1] == VirtualDrive(|old(disp.windows)|, Volume(DriveName(|old(drives)|), action.payload))
        && vg.volumes == old(vg.volumes) + [drives[|drives| - 1].volume]
        && disp.windows == old(disp.windows) + [Normal]
        && disp.focus == (if |drives| == 1 then drives[0].window else old(disp.focus))
      ensures !action.CreateDrive? ==>
        drives == old(drives) && unchanged(vg) && unchanged(disp)
    {
      match action
      case CreateDrive(size) =>
        var _ := AddDrive(size);
        handled := true;
      case _ =>
        handled := false;
    }

    /** The nested widgets are exactly the drives, in order; `mut_children` yields the same list. */
    function Children(): (r: seq<VirtualDrive>)
      reads this
      ensures |r| == |drives|
      ensures forall i :: 0 <= i < |r| ==> r[i] == drives[i]
    {
      drives
    }
  }
}
