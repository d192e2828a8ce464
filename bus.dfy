/**
 * The machine's physical address space: 128 MiB of RAM and four memory-mapped
 * devices (PLIC, CLINT, two UARTs), with the dispatch of `mach_bus` and the
 * boot-time image loader.
 */
module MachBus {
  import opened Rv

  const RAM_BASE: nat := 0x8000_0000
  const RAM_SIZE: nat := 0x800_0000    // 1024 * 1024 * 128 bytes
  const DTB_OFFSET: nat := 0x200_0000  // device tree at 32 MiB into RAM

  const PLIC0_BASE: nat := 0xC00_0000
  const CLINT0_BASE: nat := 0x200_0000
  const UART0_BASE: nat := 0x300_0000
  const UART1_BASE: nat := 0x600_0000

  /** The devices behind the bus, in the order `mach_bus` tries their windows. */
  datatype Device = Plic | Clint | Uart0 | Uart1

  /** Window sizes of the devices (RV_PLIC_SIZE, RV_CLINT_SIZE, RV_UART_SIZE). */
  datatype DeviceSizes = DeviceSizes(plic: nat, clint: nat, uart: nat)

  function Base(d: Device): nat
  {
    match d
    case Plic => PLIC0_BASE
    case Clint => CLINT0_BASE
    case Uart0 => UART0_BASE
    case Uart1 => UART1_BASE
  }

  function Size(d: Device, sz: DeviceSizes): nat
  {
    match d
    case Plic => sz.plic
    case Clint => sz.clint
    case Uart0 | Uart1 => sz.uart
  }

  /** Position of a device's window in the dispatch chain (RAM comes before all of them). */
  function Rank(d: Device): nat
  {
    match d
    case Plic => 0
    case Clint => 1
    case Uart0 => 2
    case Uart1 => 3
  }

  predicate InRam(addr: int)
  {
    RAM_BASE <= addr < RAM_BASE + RAM_SIZE
  }

  predicate InWindow(addr: int, d: Device, sz: DeviceSizes)
  {
    Base(d) <= addr < Base(d) + Size(d, sz)
  }

  /** The sizes leave every window below the next one in the memory map, and below RAM. */
  predicate Separated(sz: DeviceSizes)
  {
    && CLINT0_BASE + sz.clint <= UART0_BASE
    && UART0_BASE + sz.uart <= UART1_BASE
    && UART1_BASE + sz.uart <= PLIC0_BASE
    && PLIC0_BASE + sz.plic <= RAM_BASE
  }

  /** Where an access lands: an offset into RAM, a device with its local offset, or nowhere. */
  datatype Target = RamHit(offset: nat) | DeviceHit(dev: Device, offset: nat) | Unmapped

  /**
   * The window checks of `mach_bus`: the first window containing `addr`, tried in the
   * order RAM, PLIC, CLINT, UART0, UART1. Only the start address is checked.
   */
  function Route(addr: u32, sz: DeviceSizes): (t: Target)
    ensures t.RamHit? <==> InRam(addr)
    ensures t.RamHit? ==> t.offset == addr - RAM_BASE && t.offset < RAM_SIZE
    ensures t.DeviceHit? ==>
              && !InRam(addr)
              && InWindow(addr, t.dev, sz)
              && t.offset == addr - Base(t.dev)
              && t.offset < Size(t.dev, sz)
              && forall d :: Rank(d) < Rank(t.dev) ==> !InWindow(addr, d, sz)
    ensures t.Unmapped? <==> !InRam(addr) && forall d :: !InWindow(addr, d, sz)
  {
    if InRam(addr) then RamHit(addr - RAM_BASE)
    else if InWindow(addr, Plic, sz) then DeviceHit(Plic, addr - PLIC0_BASE)
    else if InWindow(addr, Clint, sz) then DeviceHit(Clint, addr - CLINT0_BASE)
    else if InWindow(addr, Uart0, sz) then DeviceHit(Uart0, addr - UART0_BASE)
    else if InWindow(addr, Uart1, sz) then DeviceHit(Uart1, addr - UART1_BASE)
    else Unmapped
  }

  /** With separated windows no address is claimed twice, so the dispatch order does not matter. */
  lemma RouteExclusive(addr: u32, sz: DeviceSizes, d: Device)
    requires Separated(sz)
    ensures InWindow(addr, d, sz) <==> Route(addr, sz).DeviceHit? && Route(addr, sz).dev == d
    ensures InWindow(addr, d, sz) ==> !InRam(addr)
    ensures forall e :: InWindow(addr, d, sz) && InWindow(addr, e, sz) ==> d == e
  {
  }

  /**
   * A naturally aligned access of 1, 2 or 4 bytes that starts in RAM also ends in RAM,
   * so the start-address check of `mach_bus` is enough for aligned callers.
   */
  lemma AlignedAccessFits(addr: u32, width: nat)
    requires InRam(addr)
    requires width == 1 || width == 2 || width == 4
    requires addr % width == 0
    ensures addr - RAM_BASE + width <= RAM_SIZE
  {
  }

  /** The start-address check alone lets an unaligned access run past the end of RAM. */
  lemma UnalignedAccessOverruns()
    ensures InRam(0x87FF_FFFF) && Route(0x87FF_FFFF, DeviceSizes(0, 0, 0)).RamHit?
    ensures 0x87FF_FFFF - RAM_BASE + 4 > RAM_SIZE
  {
  }

  /** RAM contents after `bytes` are copied in at `off`. */
  function RamStore(mem: seq<byte>, off: nat, bytes: seq<byte>): (r: seq<byte>)
    requires off + |bytes| <= |mem|
    ensures |r| == |mem|
    ensures forall i :: 0 <= i < |bytes| ==> r[off + i] == bytes[i]
    ensures forall i :: 0 <= i < |mem| && !(off <= i < off + |bytes|) ==> r[i] == mem[i]
  {
    mem[..off] + bytes + mem[off + |bytes|..]
  }

  /** The `width` RAM bytes starting at `off`. */
  function RamLoad(mem: seq<byte>, off: nat, width: nat): (r: seq<byte>)
    requires off + width <= |mem|
    ensures |r| == width
    ensures forall i :: 0 <= i < width ==> r[i] == mem[off + i]
  {
    mem[off..off + width]
  }

  /** A load of the bytes just stored at the same place returns them. */
  lemma StoreThenLoad(mem: seq<byte>, off: nat, bytes: seq<byte>)
    requires off + |bytes| <= |mem|
    ensures RamLoad(RamStore(mem, off, bytes), off, |bytes|) == bytes
  {
  }

  /** A store leaves a load of a disjoint range unchanged. */
  lemma StoreKeepsOtherBytes(mem: seq<byte>, off: nat, bytes: seq<byte>, off': nat, width: nat)
    requires off + |bytes| <= |mem| && off' + width <= |mem|
    requires off' + width <= off || off + |bytes| <= off'
    ensures RamLoad(RamStore(mem, off, bytes), off', width) == RamLoad(mem, off', width)
  {
  }

  /** RAM contents after `load` copies (at most `max` bytes of) an image in at `off`. */
  function LoadImage(mem: seq<byte>, off: nat, image: seq<byte>, max: nat): (r: seq<byte>)
    requires off + max <= |mem|
    ensures |r| == |mem|
    ensures forall i :: 0 <= i < Min(|image|, max) ==> r[off + i] == image[i]
    ensures forall i :: 0 <= i < |mem| && !(off <= i < off + Min(|image|, max)) ==> r[i] == mem[i]
  {
    RamStore(mem, off, image[..Min(|image|, max)])
  }

  /** RAM after the firmware is loaded at offset 0 and the device tree at DTB_OFFSET. */
  function BootImage(mem: seq<byte>, firmware: seq<byte>, dtb: seq<byte>): seq<byte>
    requires |mem| == RAM_SIZE
  {
    LoadImage(LoadImage(mem, 0, firmware, RAM_SIZE), DTB_OFFSET, dtb, RAM_SIZE - DTB_OFFSET)
  }

  /**
   * After boot loading, RAM holds the device tree (truncated to what fits) at DTB_OFFSET
   * and the firmware below it; firmware bytes past DTB_OFFSET survive only beyond the
   * device tree.
   */
  lemma BootLayout(mem: seq<byte>, firmware: seq<byte>, dtb: seq<byte>)
    requires |mem| == RAM_SIZE
    ensures |BootImage(mem, firmware, dtb)| == RAM_SIZE
    ensures forall j :: 0 <= j < Min(|dtb|, RAM_SIZE - DTB_OFFSET) ==>
              BootImage(mem, firmware, dtb)[DTB_OFFSET + j] == dtb[j]
    ensures forall i :: 0 <= i < Min(|firmware|, RAM_SIZE) && !(DTB_OFFSET <= i < DTB_OFFSET + |dtb|) ==>
              BootImage(mem, firmware, dtb)[i] == firmware[i]
    ensures forall i :: Min(|firmware|, RAM_SIZE) <= i < RAM_SIZE && !(DTB_OFFSET <= i < DTB_OFFSET + |dtb|) ==>
              BootImage(mem, firmware, dtb)[i] == mem[i]
  {
  }

  /** The device-tree window `[DTB_OFFSET, DTB_OFFSET + (RAM_SIZE - DTB_OFFSET))` lies inside RAM. */
  lemma DtbWindowInRam()
    ensures DTB_OFFSET < RAM_SIZE
    ensures DTB_OFFSET + (RAM_SIZE - DTB_OFFSET) == RAM_SIZE
    ensures InRam(RAM_BASE + DTB_OFFSET)
  {
  }

  /** What a device's bus handler hands back: its new state, the caller's buffer and RV_OK/RV_BAD. */
  datatype DeviceReply<D> = DeviceReply(state: D, data: seq<byte>, res: Res)

  /**
   * The machine: its RAM and the state of its four devices. The devices' own bus
   * handlers (`rv_plic_bus`, `rv_clint_bus`, `rv_uart_bus`) are not part of this model;
   * `Access` takes them as one function of the device, its state and the request.
   */
  class Machine<D> {
    const ram: array<byte>
    const sizes: DeviceSizes
    var devs: map<Device, D>

    ghost predicate Valid()
      reads this
    {
      ram.Length == RAM_SIZE && Plic in devs && Clint in devs && Uart0 in devs && Uart1 in devs
    }

    /** Zeroed RAM and freshly initialised devices. */
    constructor (sizes: DeviceSizes, plic: D, clint: D, uart0: D, uart1: D)
      ensures Valid() && fresh(ram) && this.sizes == sizes
      ensures forall i :: 0 <= i < ram.Length ==> ram[i] == 0
      ensures devs == map[Plic := plic, Clint := clint, Uart0 := uart0, Uart1 := uart1]
    {
      ram := new byte[RAM_SIZE](_ => 0);
      this.sizes := sizes;
      devs := map[Plic := plic, Clint := clint, Uart0 := uart0, Uart1 := uart1];
    }

    /**
     * `mach_bus`: a RAM hit copies `width` bytes between the caller's buffer and RAM
     * (into RAM when `store`), a device hit passes the request on with the address
     * rebased to the device's window and returns the handler's answer, and an address
     * in no window is refused with RV_BAD. `out` is the caller's buffer afterwards.
     */
    method Access(addr: u32, data: seq<byte>, store: bool, width: nat,
                  devBus: (Device, D, nat, seq<byte>, bool, nat) -> DeviceReply<D>)
      returns (res: Res, out: seq<byte>)
      requires Valid()
      requires width <= |data|
      requires InRam(addr) ==> addr - RAM_BASE + width <= RAM_SIZE
      modifies this, ram
      ensures Valid()
      ensures Route(addr, sizes).RamHit? ==>
                var off := addr - RAM_BASE;
                && res == Ok
                && devs == old(devs)
                && (store ==> ram[..] == RamStore(old(ram[..]), off, data[..width]) && out == data)
                && (!store ==> ram[..] == old(ram[..]) && out == RamLoad(old(ram[..]), off, width) + data[width..])
      ensures Route(addr, sizes).DeviceHit? ==>
                var t := Route(addr, sizes);
                var reply := devBus(t.dev, old(devs)[t.dev], t.offset, data, store, width);
                && res == reply.res
                && out == reply.data
                && devs == old(devs)[t.dev := reply.state]
                && ram[..] == old(ram[..])
      ensures Route(addr, sizes).Unmapped? ==>
                res == Bad && out == data && devs == old(devs) && ram[..] == old(ram[..])
    {
      match Route(addr, sizes)
      case RamHit(off) =>
        if store {
          forall i | 0 <= i < width {
            ram[off + i] := data[i];
          }
          assert ram[..] == RamStore(old(ram[..]), off, data[..width]);
          out := data;
        } else {
          out := ram[off..off + width] + data[width..];
        }
        res := Ok;
      case DeviceHit(d, off) =>
        var reply := devBus(d, devs[d], off, data, store, width);
        devs := devs[d := reply.state];
        res, out := reply.res, reply.data;
      case Unmapped =>
        res, out := Bad, data;
    }

    /**
     * `load`: copies at most `max` bytes of a file's contents into RAM at `off`.
     * `None` stands for a file that cannot be opened: the program stops, RAM untouched.
     */
    method Load(file: Option<seq<byte>>, off: nat, max: nat) returns (ok: bool)
      requires Valid() && off + max <= RAM_SIZE
      modifies ram
      ensures ok <==> file.Some?
      ensures ok ==> ram[..] == LoadImage(old(ram[..]), off, file.value, max)
      ensures !ok ==> ram[..] == old(ram[..])
    {
      if file.None? {
        return false;
      }
      var n := Min(|file.value|, max);
      forall i | 0 <= i < n {
        ram[off + i] := file.value[i];
      }
      assert ram[..] == LoadImage(old(ram[..]), off, file.value, max);
      return true;
    }

    /** The firmware image at the start of RAM, then the device tree at DTB_OFFSET. */
    method LoadImages(firmware: Option<seq<byte>>, dtb: Option<seq<byte>>) returns (ok: bool)
      requires Valid()
      modifies ram
      ensures ok <==> firmware.Some? && dtb.Some?
      ensures ok ==> ram[..] == BootImage(old(ram[..]), firmware.value, dtb.value)
    {
      ok := Load(firmware, 0, RAM_SIZE);
      if !ok {
        return;
      }
      ok := Load(dtb, DTB_OFFSET, RAM_SIZE - DTB_OFFSET);
    }
  }
}
