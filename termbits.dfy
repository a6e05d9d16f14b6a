/**
 * Linux termios constants used by `openPort`, with the values of the kernel
 * header include/uapi/asm-generic/termbits.h.
 *
 * A flag word of the termios block is a 32-bit mask. It is modelled here as
 * the set of the positions of its one bits, so that the Go mask operators
 * become set operators: `x &^ m` is `x - m`, `x | m` is `x + m`, and
 * `x & m` is `x * m` (for a one-bit mask, `x & m != 0` is `m <= x`). Beside each
 * constant is its value as the header spells it (octal) and in hexadecimal.
 */
module Termbits {

  /** A bit position inside a 32-bit flag word. */
  type Bit = i: nat | i < 32

  /** A 32-bit flag word, as the set of its one bits. */
  type Word = set<Bit>

  /** Number of control-character slots in the termios block (`Cc [32]uint8`). */
  const NCCS: nat := 32

  // Indices into the control-character array.
  const VTIME: nat := 5   // inter-byte timeout, in tenths of a second
  const VMIN: nat := 6    // minimum number of bytes a read waits for

  // Input flags (c_iflag).
  const ICRNL: Word := {8}               // 0000400 = 0x100: translate CR to NL on input

  // Output flags (c_oflag).
  const OPOST: Word := {0}               // 0000001 = 0x1: output post-processing

  // Control flags (c_cflag).
  const CBAUD: Word := {0, 1, 2, 3, 12}  // 0010017 = 0x100F: the baud-rate field
  const CSIZE: Word := {4, 5}            // 0000060 = 0x30: the character-size field
  const CS5: Word := {}                  // 0000000
  const CS6: Word := {4}                 // 0000020 = 0x10
  const CS7: Word := {5}                 // 0000040 = 0x20
  const CS8: Word := {4, 5}              // 0000060 = 0x30
  const CSTOPB: Word := {6}              // 0000100 = 0x40: two stop bits instead of one
  const PARENB: Word := {8}              // 0000400 = 0x100: parity generation and checking
  const PARODD: Word := {9}              // 0001000 = 0x200: odd rather than even parity

  // Baud-rate encodings, all inside CBAUD.
  const B4800: Word := {2, 3}            // 0000014 = 0xC
  const B9600: Word := {0, 2, 3}         // 0000015 = 0xD
  const B19200: Word := {1, 2, 3}        // 0000016 = 0xE
  const B38400: Word := {0, 1, 2, 3}     // 0000017 = 0xF
  const B57600: Word := {0, 12}          // 0010001 = 0x1001
  const B115200: Word := {1, 12}         // 0010002 = 0x1002

  // Local flags (c_lflag).
  const ISIG: Word := {0}                // 0000001 = 0x1: generate signals on INTR, QUIT, SUSP
  const ICANON: Word := {1}              // 0000002 = 0x2: canonical (line-edited) input
  const ECHO: Word := {3}                // 0000010 = 0x8: echo input characters
  const ECHOE: Word := {4}               // 0000020 = 0x10: echo ERASE as backspace-space-backspace

  /** The local flags that raw mode clears. */
  const RAW_LFLAGS: Word := ICANON + ECHO + ECHOE + ISIG

  /** The control-flag fields the transformation writes. */
  const CFLAG_FIELDS: Word := CBAUD + CSTOPB + CSIZE + PARENB + PARODD
}
