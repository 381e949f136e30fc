# pISO new-drive wizard and drive list, modelled in Dafny

pISO is the control software of a pocket USB-storage appliance: a small
screen and four buttons let the user cut a logical-volume group into virtual
drives, format them and expose them over USB. This project models two parts
of its widget tree:

- the three-step "new drive" wizard of `pISO/src/newdrive.rs` (module
  `Wizard`): `NewDrive` opens a `DriveSize` picker, which opens a
  `DriveFormat` picker, which creates and formats the volume. Each widget is
  a class whose state enum holds its nested widget; `OnEvent` turns a button
  press into `(handled, actions)`, `DoAction` consumes an action, changes the
  widget's state and the display manager's focus, and `Children` is computed
  from the current state;
- the top-level `PIso` widget of `pISO/src/piso.rs` (module `Piso`), which
  keeps the ordered list of virtual drives, adds one per `CreateDrive`
  action, and gives focus to the first drive.

The collaborators the two files call are modelled as abstract state:

- `Ui.DisplayManager` (module `Ui`, file `ui.dfy`) hands out window ids in
  order and keeps the single focused window id;
- `Backend.VolumeGroup` (file `backend.dfy`) is a shared, ordered list of
  volumes with `CreateVolume(name, size)`; `Backend.UsbGadget` is an opaque
  handle that is only passed along;
- `Naming` (file `naming.dfy`) renders `"Drive" + count` in decimal, the
  way `format!("Drive{}", …)` does, with a parser that inverts it.

`Scenarios` (file `scenarios.dfy`) holds client methods that replay button
presses as the main loop does: the focused widget turns an event into
actions, and the actions go to the widget that consumes them. Their results
follow from the widgets' contracts alone.

Notes on how the model reads the source:

- The two core files disagree about `CreateDrive`. `newdrive.rs` emits it
  with the created volume (line 408); `piso.rs` matches it as a size (line
  97). `Ui.Action<Payload>` leaves the payload as a type parameter. The
  wizard uses `Action<Volume>`, where the payload is the new volume. `PIso`
  uses `Action<U64>`, where the payload is a size in bytes. Each file is
  modelled as written. In `piso.rs` as written, `CreateDrive` makes
  `add_drive` create a second volume of its own.
- `PIso::do_action` takes no display manager and returns a plain `bool`
  (errors aside); the wizard's `do_action` returns `(handled, actions)`. Both
  signatures are kept.
- `DriveSize` does not clamp `current_percent` to 0..100. The model keeps
  the u32 arithmetic as written and makes the wrap-around explicit
  (`PercentUp`, `PercentDown`). `DownAtZeroUnderflows` shows that one Down
  at 0% gives 4294967291% rather than 0%. It uses release-build wrapping; a
  debug build would abort there instead. The model does not clamp. The
  picker then asks `create_volume` for a far oversized volume, or, on a
  group of 2^39 bytes or more, for one of 0 bytes
  (`UnderflowOffersEmptyDrive`).
- The first `FormatDrive` only switches `DriveFormat` to `Formatting` and
  reports the action as not handled. The main loop in `pISO/src/main.rs`
  (lines 92-102) renders after each `do_actions` pass and repeats while
  actions remain. This suggests the unhandled action stays pending and the
  next pass runs the formatting. The display manager's `do_actions` is not
  part of this model, so this is not proved.
- The format picker labels the last entry "Universal (FAT32)", but the tool
  run for it is `mkfs.exfat`; `MkfsTool` follows the code.

## Model

| member | source | states |
|---|---|---|
| `Ui.DisplayManager.AddChild` | pISO/src/newdrive.rs:34 | a new window gets the next id, is appended with its position, and focus does not move |
| `Ui.DisplayManager.ShiftFocus` | pISO/src/newdrive.rs:77 | focus moves to the given live window; shifting to the focused window is allowed; no window is added |
| `Backend.VolumeGroup.CreateVolume` | pISO/src/newdrive.rs:398-399 | exactly one volume with the requested name and size is appended; the earlier volumes are unchanged |
| `Naming.Decimal` | pISO/src/newdrive.rs:399 | the count renders as a non-empty string of decimal digits with no leading zero (a leading '0' only for 0) |
| `Naming.ParseDecimalInverts` | pISO/src/newdrive.rs:399 | reading the rendered digits back gives the count again, for every count |
| `Naming.DriveName` | pISO/src/piso.rs:65 | the volume name is "Drive" followed by the decimal count |
| `Naming.DriveNameInjective` | pISO/src/piso.rs:63-65 | two counts give the same volume name if and only if they are equal |
| `Wizard.NextFormat` | pISO/src/newdrive.rs:258-265 | Down moves the cursor one entry down the menu Windows, MacOs, Linux, Universal and stays on Universal |
| `Wizard.PrevFormat` | pISO/src/newdrive.rs:267-274 | Up moves the cursor one entry up the menu and stays on Windows |
| `Wizard.PrevUndoesNext` | pISO/src/newdrive.rs:258-274 | Up after Down restores the cursor exactly when it was not on Universal |
| `Wizard.NextUndoesPrev` | pISO/src/newdrive.rs:258-274 | Down after Up restores the cursor exactly when it was not on Windows |
| `Wizard.DownPressesSaturate` | pISO/src/newdrive.rs:258-265 | after n Down presses the cursor is n entries lower, capped at Universal; it never wraps to Windows |
| `Wizard.UpPressesSaturate` | pISO/src/newdrive.rs:267-274 | after n Up presses the cursor is n entries higher, capped at Windows; it never wraps to Universal |
| `Wizard.PartitionType` | pISO/src/newdrive.rs:281-306 | the msdos partition is typed ext3 for Linux and ntfs for the other three formats |
| `Wizard.MkfsTool` | pISO/src/newdrive.rs:320-330 | Windows gets mkfs.ntfs, MacOs and Universal get mkfs.exfat, Linux gets mkfs.ext3, the one tool matching an ext3 partition |
| `Wizard.PercentUp` | pISO/src/newdrive.rs:178-181 | the percentage grows by exactly 5 modulo 2^32, with no clamping at 100 |
| `Wizard.PercentDown` | pISO/src/newdrive.rs:182-185 | the percentage shrinks by exactly 5 modulo 2^32; from 5 or more it is the plain difference, below 5 it underflows past 100 |
| `Wizard.PercentDownUndoesUp` | pISO/src/newdrive.rs:178-185 | a Down after an Up restores the percentage, for every u32 value |
| `Wizard.PercentUpUndoesDown` | pISO/src/newdrive.rs:178-185 | an Up after a Down restores the percentage, for every u32 value |
| `Wizard.DownAtZeroUnderflows` | pISO/src/newdrive.rs:183 | one Down at 0% gives 2^32 - 5 instead of stopping at 0 |
| `Wizard.UnderflowOffersEmptyDrive` | pISO/src/newdrive.rs:139-143 | after that underflow, any group of 2^39 bytes or more scales to the saturated u64 maximum and the offered size wraps to 0 bytes |
| `Wizard.RoundUpToSector` | pISO/src/newdrive.rs:142 | the size is a multiple of 512 at or above the byte count and less than 512 above it, for byte counts up to 2^64 - 512; from 2^64 - 511 on, the wrapped result is 0 |
| `Wizard.RoundUpIsLeast` | pISO/src/newdrive.rs:142 | no multiple of 512 at or above the byte count is smaller than the rounded size |
| `Wizard.RoundUpIdempotent` | pISO/src/newdrive.rs:142 | rounding an already rounded size leaves it unchanged |
| `Wizard.ScaledBytes` | pISO/src/newdrive.rs:140-141 | the byte count is the group's size times the percentage divided by 100, rounded down, saturated to the u64 maximum when the quotient does not fit; up to 100% it never exceeds the group's size |
| `Wizard.NewDrive.constructor` | pISO/src/newdrive.rs:29-41 | the entry gets a new Normal window, starts Unselected and does not move focus |
| `Wizard.NewDrive.OnEvent` | pISO/src/newdrive.rs:59-67 | handled if and only if the event is Select, which asks for OpenSizeMenu; other events yield no action |
| `Wizard.NewDrive.DoAction` | pISO/src/newdrive.rs:69-88 | OpenSizeMenu makes a fresh 50% size picker in a new fixed window and focuses it; CloseFormatMenu returns to Unselected with focus back on the entry; every other action is unhandled and changes nothing; no action is emitted |
| `Wizard.NewDrive.Children` | pISO/src/newdrive.rs:92-104 | no children when Unselected, exactly the size picker while picking a size |
| `Wizard.DriveSize.constructor` | pISO/src/newdrive.rs:125-137 | the picker gets a new window at (0, 0), starts at 50% and Unselected, and does not move focus |
| `Wizard.DriveSize.CurrentSize` | pISO/src/newdrive.rs:139-143 | the offered size is a multiple of 512; when the scaled byte count is at most 2^64 - 512 it lies within 512 bytes above it, and beyond that the u64 wrap makes it 0 |
| `Wizard.DriveSize.OnEvent` | pISO/src/newdrive.rs:161-170 | every event is handled; Select, Up and Down ask for OpenFormatMenu, IncDriveSize and DecDriveSize, one for one |
| `Wizard.DriveSize.DoAction` | pISO/src/newdrive.rs:172-198 | IncDriveSize and DecDriveSize step the percentage by 5; OpenFormatMenu makes a fresh format picker for the current size and focuses it; CloseFormatMenu returns to Unselected; other actions are unhandled and change nothing |
| `Wizard.DriveSize.Children` | pISO/src/newdrive.rs:202-214 | no children when Unselected, exactly the format picker once selected |
| `Wizard.DriveFormat.constructor` | pISO/src/newdrive.rs:244-256 | the picker gets a new window at (0, 0), keeps the group and size, and starts on Windows in state Selecting |
| `Wizard.DriveFormat.OnEvent` | pISO/src/newdrive.rs:367-382 | every event is handled; Select asks for FormatDrive and keeps the cursor; Up and Down move the cursor by PrevFormat and NextFormat and emit nothing |
| `Wizard.DriveFormat.DoAction` | pISO/src/newdrive.rs:384-415 | FormatDrive in Selecting only moves to Formatting, unhandled, creating nothing; in any later state it creates exactly one volume "Drive<count of volumes>" of the picker's size, then on success ends Done with [CloseFormatMenu, CreateDrive(volume)] in that order, and on a tool failure returns the error; other actions are unhandled and change nothing |
| `Wizard.DriveFormat.Children` | pISO/src/newdrive.rs:419-425 | the format picker never has children |
| `Piso.NewVirtualDrive` | pISO/src/piso.rs:66-67 | a drive wraps the given volume in one new window; its Normal position and the unchanged focus are assumptions about the unshown drive widget |
| `Piso.PIso.constructor` | pISO/src/piso.rs:22-43 | the widget gets a new window; then drive i wraps volume i in window `window + 1 + i`, every new window is Normal, the earlier windows are unchanged, and the first drive gets focus exactly when there is one |
| `Piso.PIso.BuildDrivesFromVg` | pISO/src/piso.rs:45-61 | one drive per volume, in volume order, each in the next new window; focus does not move |
| `Piso.PIso.AddDrive` | pISO/src/piso.rs:63-81 | creates volume "Drive<number of drives before>" of exactly the given size, appends one drive at the end and returns it, keeps the earlier drives, and moves focus to the first drive exactly when the list length becomes 1 |
| `Piso.PIso.OnEvent` | pISO/src/piso.rs:91-93 | no event is ever handled and no action is emitted |
| `Piso.PIso.DoAction` | pISO/src/piso.rs:95-103 | handled if and only if the action is CreateDrive. That adds one drive at the end, with volume "Drive<number of drives before>" of the carried size and the next new window, keeps the earlier drives, and focuses the drive when it is the only one. Any other action leaves drives, volumes and display unchanged |
| `Piso.PIso.Children` | pISO/src/piso.rs:107-116 | the children are exactly the drives, in list order |
| `Scenarios.PressOnSizePicker` | pISO/src/newdrive.rs:160-198 | Up then its action raises the percentage by 5, Down then its action lowers it by 5, and neither changes the picker's state or the display |
| `Scenarios.SelectOpensSizePicker` | pISO/src/newdrive.rs:58-89 | Select on a fresh entry is handled with [OpenSizeMenu], after which a 50% size picker exists and has focus |
| `Scenarios.SizePickerSteps` | pISO/src/newdrive.rs:165-185 | five Ups from 50% give 75%, fifteen Downs then give 0%, and one more Down wraps to 2^32 - 5 |
| `Scenarios.FormatCursorStops` | pISO/src/newdrive.rs:371-381 | from Linux, three Ups give MacOs, Windows, Windows |
| `Scenarios.FormatDriveTwice` | pISO/src/newdrive.rs:390-410 | on an empty group the first FormatDrive returns (false, []), the second returns (true, [CloseFormatMenu, CreateDrive(Drive0)]) and Drive0 is the only volume |
| `Scenarios.CreateTwoDrives` | pISO/src/piso.rs:63-103 | two CreateDrive actions on an empty group add Drive0 then Drive1, and focus is on Drive0 |

## Left out

- Rendering (`render` of every widget, bitmaps, fonts, the focus arrow) is not modelled: it depends on the bitmap and font code, which is not part of this model.
- The display manager's internals are not modelled: event dispatch along the focus path, the `do_actions` walk over the whole tree, the action fixpoint in `pISO/src/main.rs`, compositing, parent links between windows, and freeing windows whose widget is dropped. `Ui.DisplayManager` keeps only window ids, positions and the focused id.
- `Ui.DisplayManager.AddChild`: the two call forms of the source (with and without a parent) are modelled as one operation without a parent, and identity exhaustion is not modelled.
- `Wizard.DriveFormat.DoAction`: `format_volume` runs external tools (parted, losetup, partprobe, mkfs.*) and polls device paths with timeouts; the model reduces it to its outcome, the parameter `formatSucceeds`. Which tools run for which format is modelled separately by `PartitionType` and `MkfsTool`. The loopback device left attached is not modelled.
- `Wizard.ScaledBytes`: the f32 product `vg_size * (percent / 100.0)` is replaced by the exact integer quotient, saturated to u64 like the float-to-integer cast; f32 rounding is not modelled. The bound "at most the group's size up to 100%" holds for this integer substitute only. The f32 code can exceed it: 2^24 + 3 bytes at 100% rounds to 2^24 + 4. The GB figure shown by the size picker is left out for the same reason.
- `Wizard.PercentUp`, `Wizard.PercentDown`: u32 overflow is modelled with release-build wrapping; the panic a debug build raises is not modelled.
- `Wizard.RoundUpToSector`: u64 overflow of `bytes + 512 - 1` is modelled with release-build wrapping. A debug build panics instead, for any byte count of 2^64 - 512 or more; that panic is not modelled.
- Backend failures are not modelled. This covers `volumes()`, `create_volume`, `report()`, `VirtualDrive::new` and lock acquisition; each becomes an operation that always succeeds.
- `Piso.PIso.constructor`: the source opens the volume group at the fixed path `/dev/VolGroup00` (`pISO/src/piso.rs` line 28). The model takes the group as a constructor parameter instead, so its contract holds for a caller-supplied group with any volume list, and the lookup and its failure are not modelled. The error results (`Result`) around `on_event`, which always return `Ok`, are dropped.
- The `Arc<Mutex<…>>` locks, the USB gadget's LUN registration and the virtual-drive widget of `vdrive.rs` are not modelled; a drive is its volume plus its window. `vdrive.rs` is not part of this model. `Piso.NewVirtualDrive` assumes that `VirtualDrive::new` allocates exactly one window with position `Normal` and does not move focus. `pISO/src/piso.rs` (lines 66-67) only calls it, so these are assumptions, not facts read from the source.
- `windowid()` is the `window` field of each class.
- `pISO/src/main.rs` (configuration file, LED display, configfs gadget, serial lookup, event loop) and the C++ headers under `multitool/` are process bootstrap and declarations without bodies; they are not modelled.
