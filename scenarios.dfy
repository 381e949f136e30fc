/**
 * Clients of the wizard and of the drive list that replay button presses
 * the way the main loop does: the focused widget turns an event into
 * actions, and the actions are handed to the widget that consumes them.
 * What each client returns is fixed by the widgets' contracts alone.
 */
module Scenarios {
  import opened Ui
  import opened Backend
  import opened Naming
  import opened Wizard
  import opened Piso

  const OneGiB: U64 := 0x4000_0000

  /** A focused size picker handles `event` and consumes the action it asks for. */
  method PressOnSizePicker(disp: DisplayManager, picker: DriveSize, event: Event)
    requires disp.Valid()
    modifies disp, picker
    ensures disp.Valid()
    ensures event == Up ==> picker.currentPercent == PercentUp(old(picker.currentPercent))
    ensures event == Down ==> picker.currentPercent == PercentDown(old(picker.currentPercent))
    ensures event != Select ==> picker.state == old(picker.state) && unchanged(disp)
  {
    var r := picker.OnEvent(event);
    var _, _ := picker.DoAction(disp, r.1[0]);
  }

  /** Select on a fresh "New Drive" entry opens a size picker at 50% and focuses it. */
  method SelectOpensSizePicker() returns (handled: bool, actions: seq<Action<Volume>>, focusOnPicker: bool, percent: int)
    ensures handled && actions == [OpenSizeMenu]
    ensures focusOnPicker && percent == 50
  {
    var disp := new DisplayManager();
    var vg := new VolumeGroup(OneGiB, []);
    var entry := new NewDrive(disp, UsbGadget("g1"), vg);
    var r := entry.OnEvent(Select);
    handled, actions := r.0, r.1;
    var _, _ := entry.DoAction(disp, actions[0]);
    focusOnPicker := entry.state.PickingSize? && disp.focus == entry.state.menu.window;
    percent := if entry.state.PickingSize? then entry.state.menu.currentPercent else 0;
  }

  /**
   * Up five times from 50% gives 75%, then Down fifteen times gives 0%,
   * and one more Down wraps the u32 percentage around.
   */
  method SizePickerSteps() returns (afterUps: int, afterDowns: int, afterOneMore: int)
    ensures afterUps == 75 && afterDowns == 0
    ensures afterOneMore == U32_LIMIT - 5
  {
    var disp := new DisplayManager();
    var vg := new VolumeGroup(OneGiB, []);
    var picker := new DriveSize(disp, UsbGadget("g1"), vg);
    for k := 0 to 5
      invariant disp.Valid()
      invariant picker.currentPercent == 50 + 5 * k
    {
      PressOnSizePicker(disp, picker, Up);
    }
    afterUps := picker.currentPercent;
    for k := 0 to 15
      invariant disp.Valid()
      invariant picker.currentPercent == 75 - 5 * k
    {
      PressOnSizePicker(disp, picker, Down);
    }
    afterDowns := picker.currentPercent;
    PressOnSizePicker(disp, picker, Down);
    afterOneMore := picker.currentPercent;
  }

  /** From Linux, Up reaches MacOs, then Windows, and a third Up stays on Windows. */
  method FormatCursorStops() returns (cursor: seq<Format>)
    ensures cursor == [MacOs, Windows, Windows]
  {
    var disp := new DisplayManager();
    var vg := new VolumeGroup(OneGiB, []);
    var picker := new DriveFormat(disp, vg, 512);
    var _, _ := picker.OnEvent(Down);
    var _, _ := picker.OnEvent(Down);
    cursor := [];
    for k := 0 to 3
      invariant |cursor| == k
      invariant k == 0 ==> picker.selected == Linux
      invariant k > 0 ==> picker.selected == cursor[k - 1]
      invariant k >= 1 ==> cursor[0] == MacOs
      invariant k >= 2 ==> cursor[1] == Windows
      invariant k >= 3 ==> cursor[2] == Windows
    {
      var _, _ := picker.OnEvent(Up);
      cursor := cursor + [picker.selected];
    }
  }

  /**
   * FormatDrive twice on a fresh picker over an empty group: the first
   * leaves it unconsumed and shows "Formatting", the second creates
   * "Drive0" and asks to close the menu and add the drive.
   */
  method FormatDriveTwice() returns (first: Result<(bool, seq<Action<Volume>>)>, second: Result<(bool, seq<Action<Volume>>)>, volumes: seq<Volume>)
    ensures first == Ok((false, []))
    ensures second == Ok((true, [CloseFormatMenu, CreateDrive(Volume("Drive0", OneGiB))]))
    ensures volumes == [Volume("Drive0", OneGiB)]
  {
    var disp := new DisplayManager();
    var vg := new VolumeGroup(OneGiB, []);
    var picker := new DriveFormat(disp, vg, OneGiB);
    first := picker.DoAction(FormatDrive, true);
    second := picker.DoAction(FormatDrive, true);
    volumes := vg.volumes;
    assert Decimal(0) == "0" && DriveName(0) == "Drive0";
  }

  /**
   * Two CreateDrive actions on a top-level widget over an empty group add
   * "Drive0" and "Drive1" in that order, and focus lands on the first.
   */
  method CreateTwoDrives() returns (names: seq<string>, focusOnFirst: bool)
    ensures names == ["Drive0", "Drive1"]
    ensures focusOnFirst
  {
    var disp := new DisplayManager();
    var vg := new VolumeGroup(OneGiB, []);
    var top := new PIso(disp, UsbGadget("g1"), vg);
    var _ := top.DoAction(CreateDrive(512));
    var firstDrive := top.drives[0];
    assert disp.focus == firstDrive.window;
    var _ := top.DoAction(CreateDrive(1024));
    assert top.drives[0] == firstDrive;
    assert Decimal(0) == "0" && DriveName(0) == "Drive0";
    assert Decimal(1) == "1" && DriveName(1) == "Drive1";
    names := [top.drives[0].volume.name, top.drives[1].volume.name];
    focusOnFirst := disp.focus == top.drives[0].window;
  }
}
