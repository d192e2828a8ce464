# The machine layer of a small RISC-V emulator, in Dafny

This project models `tools/linux/mach.c`, the glue that turns a RISC-V CPU core
into a runnable machine. It covers five pieces:

- **The physical bus, `mach_bus`.** RAM is 128 MiB at `0x80000000`. It is followed by four
  memory-mapped devices: the PLIC at `0x0C000000`, the CLINT at `0x02000000`, UART0 at
  `0x03000000` and UART1 at `0x06000000`. A RAM hit copies bytes between the caller's
  buffer and RAM. A device hit forwards the access to the device with the address rebased
  to the device's window. Anything else is refused with `RV_BAD`.
- **The boot loader.** `load` copies the firmware to the start of RAM and the device tree
  32 MiB into RAM. The boot registers are a0 = hart 0 and a1 = the device tree's address.
- **The RTC cadence.** A 12-bit wrapping counter lets the 64-bit machine timer
  (`mtime`/`mtimeh`, section 3.2.1 of the RISC-V Privileged Architecture) advance once
  every 4096 loop iterations. The timer is held as two 32-bit words with a one-step carry.
- **The UART callbacks.** UART0 is bridged to a curses terminal: writes are echoed except
  `'\r'`, and reads poll the terminal without blocking, but only on one call in 4096.
  UART1 is a stub that fails every call.
- **The main loop.** Each iteration advances the RTC, steps the CPU, updates both UARTs
  (raising PLIC sources 1 and 2), then delivers the interrupt word. That word is the OR of
  the MSIP/MTIP/MEIP bits (section 3.1.9 of the RISC-V Privileged Architecture). The loop
  runs until the instruction bound `ninst` ends it.

Modules: `Rv` (`rv.dfy`, shared types), `MachBus` (`bus.dfy`), `Rtc` (`rtc.dfy`),
`Irq` (`irq.dfy`), `Uart` (`uart.dfy`) and `MachLoop` (`loop.dfy`).

The parts of the code that change state in place are imperative Dafny:
- `MachBus.Machine` owns the RAM `array` and the device states.
- `Uart.Uart0Bridge` owns the static `thrott` counter.
- `Uart.Terminal` is the terminal.
- `MachLoop.Run` is the do-while loop over local variables.

Each of these is proved against a pure function, and the properties the code promises
are lemmas about those functions.

Three behaviours of the code differ from what a reader might expect, and the model follows the code:
- **The bound runs N+1 iterations.** `while (!ninst || ctr++ < ninst)` runs the body
  N + 1 times for `ninst == N > 0`, where a bound of N suggests N iterations, and leaves
  `ctr == N + 1` (`MachLoop.Run`).
- **Only the start address is checked.** `mach_bus` does not check that
  `[addr, addr + width)` lies inside one window. `Machine.Access` therefore requires
  RAM accesses to end inside RAM; see "Left out".
- **The device tree overwrites large firmware.** The device tree is loaded after the
  firmware, at 32 MiB. Firmware bytes at offsets from 32 MiB onwards are overwritten
  wherever the device tree reaches (`MachBus.BootLayout`). "RAM byte i is firmware byte i"
  holds only outside the device tree's bytes.

## Model

| member | source | states |
|---|---|---|
| `MachBus.Route` | tools/linux/mach.c:31-46 | RAM is hit exactly when `addr` is in `[0x80000000, 0x88000000)`, with offset `addr - base` below the RAM size. A device hit is in that device's window, outside RAM, with no earlier device window containing `addr`; its offset is `addr - base` and below the window size. Unmapped exactly when no window contains `addr`. |
| `MachBus.RouteExclusive` | tools/linux/mach.c:35-44 | With windows that do not overlap, an address is claimed by at most one device, and the router picks a device exactly when its window contains the address. |
| `MachBus.AlignedAccessFits` | tools/linux/mach.c:31-33 | A naturally aligned access of 1, 2 or 4 bytes that starts in RAM also ends inside RAM. |
| `MachBus.UnalignedAccessOverruns` | tools/linux/mach.c:31-33 | `0x87FFFFFF` passes the RAM check, yet a 4-byte access there runs past the end of RAM. |
| `MachBus.RamStore` | tools/linux/mach.c:32-33 | A store writes exactly the given bytes at the offset and keeps every other RAM byte and the RAM size. |
| `MachBus.RamLoad` | tools/linux/mach.c:32-33 | A load returns exactly `width` bytes, byte i being RAM byte `off + i`. |
| `MachBus.StoreThenLoad` | tools/linux/mach.c:31-34 | Loading the same offset and width after a store returns the stored bytes. |
| `MachBus.StoreKeepsOtherBytes` | tools/linux/mach.c:31-34 | A store does not change a load from a disjoint range. |
| `MachBus.LoadImage` | tools/linux/mach.c:72-80 | `load` places the first `min(len, max)` image bytes at the offset and leaves all other RAM bytes alone. |
| `MachBus.BootLayout` | tools/linux/mach.c:107-108 | After boot loading, the device tree (truncated to fit) is at 32 MiB. The firmware is at offset 0 wherever the device tree did not overwrite it. Zeroed RAM remains elsewhere. |
| `MachBus.DtbWindowInRam` | tools/linux/mach.c:108 | The device tree window `DTB_OFFSET + (RAM_SIZE - DTB_OFFSET)` ends exactly at the end of RAM, and its address is in RAM. |
| `MachBus.Machine.constructor` | tools/linux/mach.c:94-97 | RAM is freshly allocated, 128 MiB and all zero; the device states are the given initial ones. |
| `MachBus.Machine.Access` | tools/linux/mach.c:28-48 | RAM store: RAM becomes `RamStore(old RAM, off, data[..width])`. RAM load: the buffer's first `width` bytes become RAM's. Both return `RV_OK` with devices untouched. Device hit: exactly that device's handler runs on the rebased offset; its state, buffer and result are passed back unchanged, and RAM is untouched. Unmapped: `RV_BAD`, nothing changed. |
| `MachBus.Machine.Load` | tools/linux/mach.c:72-80 | A file that opens is copied into RAM as `LoadImage` says. A file that does not open fails and leaves RAM as it was. |
| `MachBus.Machine.LoadImages` | tools/linux/mach.c:107-108 | Succeeds exactly when both files open, leaving RAM as `BootImage`. |
| `Rtc.AdvanceStep` | tools/linux/mach.c:127-129 | One advance moves the counter on by 1 mod 4096. It changes the 64-bit timer exactly when the counter comes to 0, and then by +1 mod 2^64. `mtimeh` changes only when `mtime` has wrapped to 0. |
| `Rtc.CarryIsIncrement` | tools/linux/mach.c:128-129 | Incrementing the low word, then the high word when the low word becomes 0, is a 64-bit increment mod 2^64. |
| `Rtc.Cadence` | tools/linux/mach.c:127-129 | After n advances the counter is `(p + n) mod 4096`, and the timer has grown by `(p + n) / 4096` mod 2^64. |
| `Rtc.FirstTick` | tools/linux/mach.c:127-129 | From counter 0 the timer is unchanged for 4095 advances and moves by one on the 4096th. |
| `Irq.LineHasNoOtherBits` | tools/linux/mach.c:135-137 | The interrupt word never has a bit outside the three masks. |
| `Irq.LineReflectsPending` | tools/linux/mach.c:135-137 | Software, timer and external bits of the word are each set iff msi, mti, mei respectively. |
| `Irq.LineZeroIffIdle` | tools/linux/mach.c:135-137 | The word is 0 exactly when nothing is pending. |
| `Irq.OnlyTimerPending` | tools/linux/mach.c:135-137 | With only the timer pending, the word equals the timer mask. |
| `Irq.LineInjective` | tools/linux/mach.c:135-137 | Equal words come from equal pending flags. |
| `Uart.LowByte` | tools/linux/mach.c:60 | The byte stored agrees with the key code in its low 8 bits (they differ by a multiple of 256), and a code below 256 is stored as it is. |
| `Uart.Uart0Io` | tools/linux/mach.c:51-62 | A write returns `RV_OK`, keeps `*byte`, `thrott` and the input, and shows the byte unless it is `'\r'`. A read sets `thrott` to `(thrott + 1) mod 4096`. If that is nonzero it returns `RV_BAD` without touching the terminal or `*byte`. If it is zero, ERR gives `RV_BAD`; otherwise `*byte` is the key's low byte with `RV_OK`. A successful read always ends with `thrott == 0`. |
| `Uart.Uart1Io` | tools/linux/mach.c:65-69 | Every read and write returns `RV_BAD` and leaves `*byte` unchanged. |
| `Uart.ThrottledReads` | tools/linux/mach.c:53-58 | Reads that do not bring `thrott` round to 0 all fail and leave the terminal alone. |
| `Uart.PollEvery4096` | tools/linux/mach.c:53-60 | From `thrott == 0`, the first 4095 reads fail without polling. The 4096th read polls once: it consumes the oldest key and succeeds, or fails when none is waiting. `thrott` ends at 0. |
| `Uart.NoInputNoData` | tools/linux/mach.c:57-58 | With no key waiting, any number of reads all fail and leave the terminal untouched. |
| `Uart.StripCR` | tools/linux/mach.c:55-56 | What is shown never holds `'\r'` and holds exactly the written bytes other than `'\r'`. |
| `Uart.WritesEchoAllButCR` | tools/linux/mach.c:55-61 | A run of writes shows the written bytes minus `'\r'`, in order, and leaves `thrott` and the waiting keys unchanged. |
| `Uart.Terminal.ReadKey` | tools/linux/mach.c:57 | The imperative `getch` behaves as `Getch` on the terminal's state. |
| `Uart.Terminal.EchoChar` | tools/linux/mach.c:56 | The imperative `echochar` behaves as `Echo`. |
| `Uart.Uart0Bridge.constructor` | tools/linux/mach.c:53 | The static `thrott` starts at 0. |
| `Uart.Uart0Bridge.Io` | tools/linux/mach.c:51-62 | The callback updates `thrott`, the terminal and `*byte`, and returns its result, exactly as `Uart0Io` says, keeping `thrott` in `[0, 4095]`. |
| `MachLoop.BootRegistersPointAtDtb` | tools/linux/mach.c:123-124 | a0 is hart 0. a1 is an address in RAM at offset `DTB_OFFSET`, where the device tree is loaded. |
| `MachLoop.Start` | tools/linux/mach.c:122-125 | The loop starts with `rtc_period == 0` and nothing delivered yet. |
| `MachLoop.IterateClock` | tools/linux/mach.c:125-129 | After k iterations the RTC has advanced exactly k times. |
| `MachLoop.IterateLog` | tools/linux/mach.c:125-138 | After k iterations `rv_irq` has been called exactly k times, whatever the words were, including 0. |
| `MachLoop.LogKept` | tools/linux/mach.c:125-138 | The record of deliveries only grows: an entry written after j iterations is the same after any k >= j iterations. |
| `MachLoop.LastEntry` | tools/linux/mach.c:126-138 | Iteration i + 1 appends exactly one record, at position i after the log it started from. |
| `MachLoop.LogRecordsEachIteration` | tools/linux/mach.c:126-138 | The i-th delivered word is composed from the msi/mti/mei of the state after that iteration's step and updates, with the timer as that iteration's RTC advance left it. It is flagged as a timer tick exactly when the cadence counter came to 0. |
| `MachLoop.DeliveredWordSeesClock` | tools/linux/mach.c:127-137 | The i-th delivered word is composed on that iteration's state with the clock advanced i + 1 times, so the CLINT's timer comparison sees the timer the cadence produced. |
| `MachLoop.PendingTimerBit` | tools/linux/mach.c:135-137 | The timer bit of the composed word is set exactly when the CLINT's timer comparison holds for the given state and clock. |
| `MachLoop.TimerInLoop` | tools/linux/mach.c:127-129 | Over k loop iterations from counter 0, the 64-bit timer grows by `k / 4096` mod 2^64. |
| `MachLoop.Run` | tools/linux/mach.c:125-139 | `ninst == N > 0`: the loop exits after exactly N + 1 iterations with `ctr == N + 1`. `ninst == 0`: it never exits and `ctr` stays 0. The final state is the start state iterated that many times. |

## Left out

- The CPU core is not part of this model. Its instruction step, register file, traps and
  `rv_irq` become opaque functions in `MachLoop.Platform`, over one opaque state.
- The devices' internals are not part of this model: `rv_plic_*`, `rv_clint_*`,
  `rv_uart_bus`, `rv_uart_update` and `rv_uart_init`. Their bus handlers are one function
  parameter of `Machine.Access` over an opaque device state. `rv_plic_irq`, the msi/mti/mei
  queries and `rv_uart_update` are opaque functions of `Platform`.
- `RV_PLIC_SIZE`, `RV_CLINT_SIZE` and `RV_UART_SIZE` are not given. They are the
  parameter `DeviceSizes`; `Separated` is the assumption that the windows do not overlap.
- The values of `RV_CSI`, `RV_CTI` and `RV_CEI` are not given. They are taken as bit
  positions (`IrqBits`), each mask being `1 << position`. The device queries are taken to
  return 0 or 1, modelled as `bool`.
- `MachBus.Machine.Access` requires a RAM access to end inside RAM. `mach_bus` checks only
  the start address, so an unaligned access in the last bytes of RAM would overrun the
  buffer. `AlignedAccessFits` shows aligned accesses never do this;
  `UnalignedAccessOverruns` shows the gap exists.
- `MachBus.Machine.Access` takes the caller's byte buffer by value and returns it as
  `out`, instead of writing through a pointer. Aliasing between the buffer and RAM is not
  modelled.
- `MachLoop.Run` cannot run forever, so a `fuel` bound caps the iterations it looks at.
  It proves the loop never exits when `ninst == 0`, for every bound.
- `MachLoop.Run` keeps `mtime`/`mtimeh` beside the opaque CPU state. The CPU step and the
  CLINT's timer comparison read them, but are taken not to write them: only the RTC driver
  advances them.
- `MachLoop.Run` takes `ctr` and `ninst` as unbounded naturals. `size_t` wrap-around and
  the `atol` conversion of the command-line bound are not modelled.
- Terminal setup and teardown are I/O and are not modelled: `initscr`, `cbreak`, `noecho`,
  `scrollok`, `nodelay` and `endwin`. The terminal is a queue of waiting key codes and a
  log of shown characters. When keys arrive in real time is not modelled.
- File I/O is not modelled. In `load`, the file's contents are a parameter, and a file
  that cannot be opened is `None`. The error message and `exit` are represented only by
  the failed result.
- Argument parsing, the `argc` check and `printf` are not modelled.
- `malloc` and `memset` are not modelled. The constructor allocates zeroed RAM instead.
