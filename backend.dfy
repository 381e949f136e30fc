/**
 * The storage collaborators the widgets call: the logical-volume backend
 * (a volume group holding an ordered list of volumes) and the USB gadget
 * handle, together with the fixed-width integers and the error outcome the
 * widgets use.
 */
module Backend {

  const U64_LIMIT: int := 0x1_0000_0000_0000_0000

  /** Rust's u64. */
  type U64 = x: int | 0 <= x < U64_LIMIT

  /** A logical volume, identified by its name, with its size in bytes. */
  datatype Volume = Volume(name: string, size: U64)

  /** The shared USB gadget; the widgets only pass it along. */
  datatype UsbGadget = UsbGadget(path: string)

  /** The failures the model distinguishes. */
  datatype Error = FormatFailed

  datatype Result<T> = Ok(value: T) | Err(error: Error)

  /**
   * A volume group. Clones of the backend handle in the source all refer
   * to the same group, which is why the widgets share one object.
   */
  class VolumeGroup {
    var volumes: seq<Volume>
    const vgSize: U64

    constructor (vgSize: U64, volumes: seq<Volume>)
      ensures this.vgSize == vgSize && this.volumes == volumes
    {
      this.vgSize := vgSize;
      this.volumes := volumes;
    }

    /** Creates a volume and appends it to the group. */
    method CreateVolume(name: string, size: U64) returns (volume: Volume)
      modifies this
      ensures volume == Volume(name, size)
      ensures volumes == old(volumes) + [volume]
    {
      volume := Volume(name, size);
      volumes := volumes + [volume];
    }
  }
}
