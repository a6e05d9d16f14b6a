# goserial `openPort` (Linux, no cgo) in Dafny

This project models `openPort` from mvbjrn/goserial (`serial_linux.go`).
The function opens a serial device and reads its termios attribute block with
TCGETS. It rewrites the block for a `Config` and writes it back with TCSETS.
It then switches the descriptor to blocking mode and returns it to the caller.

- `termbits.dfy` (module `Termbits`) holds the Linux termios constants.
  A 32-bit flag word is modelled as the set of its one bits (`Word = set<Bit>`,
  bit positions 0..31). The Go mask operators become set operators:
  - `x &^ m` is `x - m`;
  - `x | m` is `x + m`;
  - `x & m` is `x * m`;
  - for a one-bit mask, `x & m != 0` is `m <= x`.

  Each constant carries the header's octal and hexadecimal value in a comment.
- `config.dfy` (module `PortConfig`) holds the configuration (baud, stop bits,
  size, parity, CR/LF translation), the errors and `Option`/`Result`.
- `transformer.dfy` (module `Transformer`) covers the attribute block:
  - the attribute block as a value (`Attrs`) and the baud switch as a table
    lookup with its inverse;
  - `Configured(a, c, r)`, the relation saying what the committed block `r`
    holds for old block `a` and configuration `c`;
  - class `Termios`, the block the source rewrites in place. Its `Apply`
    runs the source's statements step by step and is proved to yield a
    `Configured` block.
  - lemmas: the committed block is unique, the transformation is idempotent,
    the CR/LF flag is isolated, reconfiguration and the toggle behave as
    stated, and a decoder recovers the configuration exactly when no stale
    PARODD bit gets in the way.
- `port.dfy` (module `Port`) covers the open sequence:
  - class `File` is the kernel side of the descriptor: its attributes, plus
    ghost state for open/closed, the close count, the blocking mode and the
    number of TCSETS requests;
  - the system calls are methods whose outcome (success or any errno) is
    chosen freely;
  - `OpenPort` is the sequence as written, including where its deferred
    close is registered;
  - `OpenPortReleasing` is the version the error policy intends.
- `scenarios.dfy` (module `Scenarios`) holds two fixed runs: 9600 8N1, and an
  unknown baud rate.

The component's error policy is that every failure after the device is
opened closes the descriptor exactly once before the error is returned. The
code does not do that: the deferred close is registered at
serial_linux.go:105. A TCGETS failure (line 32) or an unknown baud rate
(line 50) returns with the descriptor still open. The model follows the code
(`OpenPort`); see Findings.

## Model

| member | source | states |
|---|---|---|
| `Transformer.LookupRate` | serial_linux.go:36-51 | the switch yields None exactly when no case equals the rate, and otherwise an encoding paired with that rate in the table |
| `Transformer.LookupBaud` | serial_linux.go:36-51 | the inverse lookup yields None exactly when no case has that encoding, and otherwise a rate paired with it |
| `Transformer.LookupRoundTrip` | serial_linux.go:36-51 | in a table without repeated rates or encodings, looking the encoding back up gives the rate that selected it |
| `Transformer.BaudTableShape` | serial_linux.go:36-49 | the six cases have distinct rates and distinct, non-empty encodings inside CBAUD, and the supported rates are exactly 4800, 9600, 19200, 38400, 57600 and 115200 |
| `Transformer.BaudRate` | serial_linux.go:36-55 | a rate gets an encoding exactly when it is supported; every encoding is non-zero and inside CBAUD, so the `rate == 0` return is unreachable |
| `Transformer.SizeRoundTrip` | serial_linux.go:69-81 | each size's pattern lies inside CSIZE, only Byte5's (CS5) is empty, and a word holding the pattern reads back as that size |
| `Transformer.CflagFromFields` | serial_linux.go:56-93 | a control-flag word is fixed by its CBAUD, CSTOPB, CSIZE, PARENB and PARODD fields and the bits outside them |
| `Transformer.IflagFromParts` | serial_linux.go:95-99 | an input-flag word is fixed by its ICRNL bit and its other bits |
| `Transformer.CflagSteps` | serial_linux.go:56-93 | the baud, stop-bit, size and parity steps, each described by what it writes and keeps, give a control word whose fields hold the requested settings; PARODD is set for Odd and otherwise comes from the old word; every other bit is the old word's |
| `Transformer.ConfiguredUnique` | serial_linux.go:35-112 | two blocks both `Configured` from the same old block and configuration are equal, so the relation pins the committed block down |
| `Transformer.ConfiguredIdempotent` | serial_linux.go:35-112 | transforming a transformed block again with the same configuration leaves it unchanged |
| `Transformer.CrlfIsolation` | serial_linux.go:95-99 | configurations that differ only in CR/LF translation give blocks equal outside the input flags, whose input flags differ exactly in ICRNL |
| `Transformer.Reconfigure` | serial_linux.go:83-93 | transforming with `c1` and then `c2` equals transforming the original with `c2` exactly when it is not the case that `c1` is Odd, `c2` is not Odd and the original lacked PARODD |
| `Transformer.CrlfToggle` | serial_linux.go:95-99 | turning translation on and then off gives the same block as a single run with it off |
| `Transformer.DecodeConfigured` | serial_linux.go:35-112 | decoding the committed block gives back the requested configuration exactly when it is not Even parity over an old block with PARODD set |
| `Transformer.Termios.constructor` | serial_linux.go:22 | the zero block with NCCS control characters |
| `Transformer.Termios.Load` | serial_linux.go:23-33 | the block is overwritten with the given value, as TCGETS fills `t` |
| `Transformer.Termios.SetBaud` | serial_linux.go:56-58 | CBAUD is replaced by the encoding, and both speeds take it |
| `Transformer.Termios.SetStopBits` | serial_linux.go:60-67 | CSTOPB is set exactly for two stop bits; the other control bits are kept |
| `Transformer.Termios.SetSize` | serial_linux.go:69-81 | CSIZE holds the size's pattern; the other control bits are kept |
| `Transformer.Termios.SetParity` | serial_linux.go:83-93 | PARENB is set exactly when parity is wanted; PARODD is set for Odd and kept otherwise; the other control bits are kept |
| `Transformer.Termios.SetControl` | serial_linux.go:56-93 | the four control-flag steps in turn leave CBAUD and both speeds at the encoding, CSTOPB exactly for two stop bits, CSIZE at the size's pattern, PARENB exactly when parity is wanted, PARODD set for Odd and otherwise kept, and every other control bit as it was |
| `Transformer.Termios.SetCrlf` | serial_linux.go:95-99 | ICRNL is set exactly when translation is wanted; the other input bits are kept |
| `Transformer.Termios.SelectRaw` | serial_linux.go:101-103 | ICANON, ECHO, ECHOE and ISIG are cleared from the local flags and OPOST from the output flags, nothing else |
| `Transformer.Termios.SetReadBlocking` | serial_linux.go:111-112 | VMIN becomes 1 and VTIME 0; every other control character is kept |
| `Transformer.Termios.Apply` | serial_linux.go:35-112 | an unknown baud fails with that rate and leaves the block unchanged; a supported one makes the block `Configured` from its old value |
| `Port.File.constructor` | serial_linux.go:16 | a freshly opened descriptor is open, never closed, non-blocking, has had no TCSETS, and holds the device's attributes |
| `Port.File.TcGets` | serial_linux.go:23-33 | on success `t` holds the kernel's attributes; on failure `t` is untouched |
| `Port.File.TcSets` | serial_linux.go:113-123 | on success the kernel holds `t`'s block, on failure its old one; one more TCSETS request either way; nothing else changes |
| `Port.File.SetNonblock` | serial_linux.go:125-127 | on success the blocking mode is the requested one; a failure is a non-zero errno and changes nothing |
| `Port.File.Close` | serial_linux.go:105-109 | the descriptor ends up closed, and the close count grows by one only if it was open |
| `Port.OpenFile` | serial_linux.go:16-19 | either an open-failure error naming the path, or a fresh open, non-blocking descriptor holding the device's attributes |
| `Port.OpenPort` | serial_linux.go:15-130 | on success it returns the opened file, open and blocking, with exactly one TCSETS that committed a block `Configured` from the device's original one. A TCGETS failure or an unknown baud returns the error with the file still open and no TCSETS. A TCSETS or SetNonblock failure returns a nil handle with the error and the file closed exactly once |
| `Port.OpenPortReleasing` | serial_linux.go:15-130 | every exit gives `OpenPort`'s error and attributes (an open failure names the path; a TCGETS, TCSETS or SetNonblock failure is a non-zero errno; an unknown baud issues no TCSETS; a failed TCSETS leaves the device's original block; success commits a `Configured` block in blocking mode, open and never closed), but every failure after the open leaves the file closed exactly once |
| `Scenarios.Open9600EightNoneOne` | serial_linux.go:15-130 | a successful 9600 8N1 open commits speeds and CBAUD of B9600, CSTOPB and PARENB clear, CSIZE = CS8, and the block decodes to that configuration |
| `Scenarios.OpenUnknownBaud` | serial_linux.go:36-50 | opening at 1200 baud always fails, never issues TCSETS, and once it reaches the switch it leaves the opened file open |

## Left out

- The system calls themselves (`os.OpenFile`, the TCGETS/TCSETS ioctls, `fcntl` behind `SetNonblock`, `Close`) are left out. Each is a method that may succeed or fail with any errno. The kernel is assumed not to write `t` when TCGETS fails, and to keep its attributes when TCSETS fails.
- `f.Fd()`, `unsafe.Pointer` and the unused return values of `Syscall6` are not modelled; the errno is the only result used.
- The error of the deferred `f.Close()` is ignored by the source and is not modelled. Closing an already closed file has no effect on the close count.
- Reading, writing and closing the returned handle (the `io.ReadWriteCloser` interface) are left out, as are callers of `openPort`.
- The `panic` defaults of the stop-bit, size and parity switches are unreachable: those fields are closed datatypes here.
- The build constraint (`linux,!cgo`) has no counterpart.
- `syscall.Termios` padding is not part of `Attrs`.
- A flag word is modelled as the set of its one bits. The numeric values of the constants appear only in comments; they are not proved equal to the header's numbers.
- `Transformer.Termios.Apply` also runs lines 111-112, which the source places after the deferred close is registered. Neither statement can fail, so the behaviour is the same.

## Findings

| source | as written | input that shows it | evidently intended | confidence | as-written member | corrected member |
|---|---|---|---|---|---|---|
| serial_linux.go:32,50,105 | the deferred close is registered after the TCGETS and baud-switch returns, so those two failures return the error with the descriptor still open | `Config{Baud: 1200}` on a device that opens and answers TCGETS: `openPort` returns the unknown-baud error and the file is not closed before `openPort` returns | every failure after the open closes the descriptor exactly once before the error propagates | high; not executed | `Port.OpenPort` | `Port.OpenPortReleasing` |
