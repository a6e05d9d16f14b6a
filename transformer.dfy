/**
 * The attribute transformer of `openPort` (serial_linux.go:35-112): it turns
 * the termios block read from the kernel into the block to commit, for a
 * given configuration. `Configured` states what the committed block must
 * hold; class `Termios` is the block the source updates field by field, and
 * its `Apply` method is proved to produce a block that is `Configured`.
 */
module Transformer {
  import opened Termbits
  import opened PortConfig

  /** The control-character array: always exactly NCCS slots. */
  type ControlChars = s: seq<bv8> | |s| == NCCS witness seq(NCCS, _ => 0)

  /** The value of a termios block (`syscall.Termios` without its padding). */
  datatype Attrs = Attrs(
    iflag: Word,
    oflag: Word,
    cflag: Word,
    lflag: Word,
    line: bv8,
    cc: ControlChars,
    ispeed: Word,
    ospeed: Word)

  // ---------------------------------------------------------------------
  // Baud rates
  // ---------------------------------------------------------------------

  /** The cases of the baud switch (serial_linux.go:36-51), in the order it tests them. */
  const BAUD_TABLE: seq<(int, Word)> := [
    (115200, B115200), (57600, B57600), (38400, B38400),
    (19200, B19200), (9600, B9600), (4800, B4800)]

  /** A rate the switch has a case for. */
  predicate Supported(baud: int) {
    exists i :: 0 <= i < |BAUD_TABLE| && BAUD_TABLE[i].0 == baud
  }

  /** The switch itself: the encoding of the first case equal to `baud`. */
  function LookupRate(table: seq<(int, Word)>, baud: int): (r: Option<Word>)
    ensures r.None? <==> forall i :: 0 <= i < |table| ==> table[i].0 != baud
    ensures r.Some? ==> (baud, r.value) in table
  {
    if table == [] then None
    else if table[0].0 == baud then Some(table[0].1)
    else LookupRate(table[1..], baud)
  }

  /** The inverse of the switch: the first rate whose encoding is `rate`. */
  function LookupBaud(table: seq<(int, Word)>, rate: Word): (r: Option<int>)
    ensures r.None? <==> forall i :: 0 <= i < |table| ==> table[i].1 != rate
    ensures r.Some? ==> (r.value, rate) in table
  {
    if table == [] then None
    else if table[0].1 == rate then Some(table[0].0)
    else LookupBaud(table[1..], rate)
  }

  /** No two cases of `table` share a rate or an encoding. */
  predicate Injective(table: seq<(int, Word)>) {
    forall i, j :: 0 <= i < j < |table| ==> table[i].0 != table[j].0 && table[i].1 != table[j].1
  }

  /** Every encoding of `table` is non-zero and lies inside the CBAUD field. */
  predicate InsideCbaud(table: seq<(int, Word)>) {
    forall i :: 0 <= i < |table| ==> table[i].1 != {} && table[i].1 <= CBAUD
  }

  /**
   * In a table without repeated rates or encodings, the inverse lookup undoes
   * the lookup. It follows from the two lookups' contracts: the encoding found
   * for `baud` sits in one row only, and that row names `baud`.
   */
  lemma LookupRoundTrip(table: seq<(int, Word)>, baud: int)
    requires Injective(table)
    ensures LookupRate(table, baud).Some? ==> LookupBaud(table, LookupRate(table, baud).value) == Some(baud)
  {
  }

  /** The switch's table names six distinct rates with six distinct encodings, all inside CBAUD. */
  lemma BaudTableShape()
    ensures Injective(BAUD_TABLE) && InsideCbaud(BAUD_TABLE)
    ensures forall baud :: Supported(baud) <==> baud in {4800, 9600, 19200, 38400, 57600, 115200}
  {
    forall baud | baud in {4800, 9600, 19200, 38400, 57600, 115200}
      ensures Supported(baud)
    {
      if baud == 115200 { assert BAUD_TABLE[0].0 == baud; }
      else if baud == 57600 { assert BAUD_TABLE[1].0 == baud; }
      else if baud == 38400 { assert BAUD_TABLE[2].0 == baud; }
      else if baud == 19200 { assert BAUD_TABLE[3].0 == baud; }
      else if baud == 9600 { assert BAUD_TABLE[4].0 == baud; }
      else { assert BAUD_TABLE[5].0 == baud; }
    }
  }

  /**
   * serial_linux.go:36-51: the encoding the switch selects for `baud`, or
   * None where it falls to the default case. Every encoding is non-zero and
   * lies inside CBAUD, which makes the `rate == 0` branch at
   * serial_linux.go:53-55 unreachable.
   */
  function BaudRate(baud: int): (r: Option<Word>)
    ensures r.Some? <==> Supported(baud)
    ensures r.Some? ==> r.value != {} && r.value <= CBAUD
  {
    BaudTableShape();
    LookupRate(BAUD_TABLE, baud)
  }

  // ---------------------------------------------------------------------
  // What the committed block holds
  // ---------------------------------------------------------------------

  /** The CSIZE pattern of a character size (serial_linux.go:70-78). */
  function SizeBits(size: ByteSize): Word {
    match size
    case Byte5 => CS5
    case Byte6 => CS6
    case Byte7 => CS7
    case Byte8 => CS8
  }

  /**
   * `r` is the block the transformation makes of `a` for `c`. Each line
   * cites the statements it comes from. Note the PARODD line: no case of the
   * parity switch clears that bit, so None and Even keep whatever `a` held.
   */
  predicate Configured(a: Attrs, c: Config, r: Attrs) {
    match BaudRate(c.baud)
    case None => false
    case Some(rate) =>
      // serial_linux.go:56-58: baud field and both speeds hold the encoding.
      r.cflag * CBAUD == rate && r.ispeed == rate && r.ospeed == rate &&
      // serial_linux.go:60-67: CSTOPB exactly for two stop bits.
      (CSTOPB <= r.cflag <==> c.stopBits == StopBits2) &&
      // serial_linux.go:69-81: CSIZE holds the size's pattern.
      r.cflag * CSIZE == SizeBits(c.size) &&
      // serial_linux.go:83-93: PARENB exactly when parity is wanted; PARODD set by Odd, else kept.
      (PARENB <= r.cflag <==> c.parity != ParityNone) &&
      r.cflag * PARODD == (if c.parity == ParityOdd then PARODD else a.cflag * PARODD) &&
      // No other control flag changes.
      r.cflag - CFLAG_FIELDS == a.cflag - CFLAG_FIELDS &&
      // serial_linux.go:95-99: ICRNL exactly when translation is wanted; no other input flag changes.
      (ICRNL <= r.iflag <==> c.crlfTranslate) && r.iflag - ICRNL == a.iflag - ICRNL &&
      // serial_linux.go:101-103: raw mode clears the editing, echo and signal flags and OPOST.
      r.lflag == a.lflag - RAW_LFLAGS && r.oflag == a.oflag - OPOST &&
      // serial_linux.go:111-112: a read blocks for one byte with no timeout; nothing else changes.
      r.cc == a.cc[VMIN := 1][VTIME := 0] && r.line == a.line
  }

  // ---------------------------------------------------------------------
  // Reading a configuration back from a block
  // ---------------------------------------------------------------------

  /** The character size a control-flag word selects. */
  function SizeOf(cflag: Word): ByteSize {
    var bits := cflag * CSIZE;
    if bits == CS5 then Byte5
    else if bits == CS6 then Byte6
    else if bits == CS7 then Byte7
    else Byte8
  }

  /** The parity a control-flag word selects. */
  function ParityOf(cflag: Word): ParityMode {
    if !(PARENB <= cflag) then ParityNone
    else if !(PARODD <= cflag) then ParityEven
    else ParityOdd
  }

  /**
   * The configuration a block puts into effect, or None when its speeds are
   * not one encoding of a known rate agreeing with the CBAUD field.
   */
  function Decode(a: Attrs): Option<Config> {
    match LookupBaud(BAUD_TABLE, a.ispeed)
    case None => None
    case Some(baud) =>
      if a.ospeed != a.ispeed || a.cflag * CBAUD != a.ispeed then None
      else Some(Config(
        baud,
        if CSTOPB <= a.cflag then StopBits2 else StopBits1,
        SizeOf(a.cflag),
        ParityOf(a.cflag),
        ICRNL <= a.iflag))
  }

  // ---------------------------------------------------------------------
  // Properties of the transformation
  // ---------------------------------------------------------------------

  /** Each size has its own pattern inside CSIZE, CS5 is the empty one, and SizeOf reads it back. */
  lemma SizeRoundTrip(size: ByteSize, cflag: Word)
    requires cflag * CSIZE == SizeBits(size)
    ensures SizeBits(size) <= CSIZE
    ensures SizeBits(size) == {} <==> size == Byte5
    ensures SizeOf(cflag) == size
  {
  }

  /** A control-flag word is fixed by its fields and the bits outside them. */
  lemma CflagFromFields(x: Word, y: Word)
    requires x * CBAUD == y * CBAUD && x * CSIZE == y * CSIZE
    requires (CSTOPB <= x <==> CSTOPB <= y)
    requires (PARENB <= x <==> PARENB <= y)
    requires x * PARODD == y * PARODD
    requires x - CFLAG_FIELDS == y - CFLAG_FIELDS
    ensures x == y
  {
    assert x * CSTOPB == y * CSTOPB;
    assert x * PARENB == y * PARENB;
    forall b | b in x ensures b in y {
      if b !in CFLAG_FIELDS {
        assert b in x - CFLAG_FIELDS;
      } else if b in CBAUD {
        assert b in x * CBAUD;
      } else if b in CSIZE {
        assert b in x * CSIZE;
      } else if b in CSTOPB {
        assert b in x * CSTOPB;
      } else if b in PARENB {
        assert b in x * PARENB;
      } else {
        assert b in x * PARODD;
      }
    }
    forall b | b in y ensures b in x {
      if b !in CFLAG_FIELDS {
        assert b in y - CFLAG_FIELDS;
      } else if b in CBAUD {
        assert b in y * CBAUD;
      } else if b in CSIZE {
        assert b in y * CSIZE;
      } else if b in CSTOPB {
        assert b in y * CSTOPB;
      } else if b in PARENB {
        assert b in y * PARENB;
      } else {
        assert b in y * PARODD;
      }
    }
  }

  /** An input-flag word is fixed by ICRNL and the other bits. */
  lemma IflagFromParts(x: Word, y: Word)
    requires (ICRNL <= x <==> ICRNL <= y)
    requires x - ICRNL == y - ICRNL
    ensures x == y
  {
    assert x * ICRNL == y * ICRNL;
    forall b | b in x ensures b in y {
      if b in ICRNL { assert b in x * ICRNL; } else { assert b in x - ICRNL; }
    }
    forall b | b in y ensures b in x {
      if b in ICRNL { assert b in y * ICRNL; } else { assert b in y - ICRNL; }
    }
  }

  /**
   * The committed block is determined by the old block and the
   * configuration: whatever the old block held in the fields the
   * transformation writes, the result is the same.
   */
  lemma ConfiguredUnique(a: Attrs, c: Config, r1: Attrs, r2: Attrs)
    requires Configured(a, c, r1) && Configured(a, c, r2)
    ensures r1 == r2
  {
    CflagFromFields(r1.cflag, r2.cflag);
    IflagFromParts(r1.iflag, r2.iflag);
  }

  /** Applying the transformation again, with the same configuration, changes nothing. */
  lemma ConfiguredIdempotent(a: Attrs, c: Config, r: Attrs, r2: Attrs)
    requires Configured(a, c, r) && Configured(r, c, r2)
    ensures r2 == r
  {
    assert r.lflag - RAW_LFLAGS == r.lflag;
    assert r.oflag - OPOST == r.oflag;
    assert r.cc[VMIN := 1][VTIME := 0] == r.cc;
    assert Configured(r, c, r);
    ConfiguredUnique(r, c, r, r2);
  }

  /**
   * CR/LF translation is isolated from everything else: configurations that
   * differ only in it give blocks that differ only in ICRNL.
   */
  lemma CrlfIsolation(a: Attrs, c: Config, on: Attrs, off: Attrs)
    requires Configured(a, c.(crlfTranslate := true), on)
    requires Configured(a, c.(crlfTranslate := false), off)
    ensures on.(iflag := {}) == off.(iflag := {})
    ensures on.iflag == off.iflag + ICRNL && off.iflag == on.iflag - ICRNL
  {
    CflagFromFields(on.cflag, off.cflag);
    forall b | b in on.iflag ensures b in off.iflag + ICRNL {
      if b !in ICRNL { assert b in on.iflag - ICRNL; }
    }
    forall b | b in off.iflag + ICRNL ensures b in on.iflag {
      if b !in ICRNL { assert b in off.iflag - ICRNL; }
    }
    forall b | b in off.iflag ensures b in on.iflag - ICRNL {
      assert b !in ICRNL;
      assert b in off.iflag - ICRNL;
    }
  }

  /**
   * Reconfiguring a block with `c2` after `c1` gives what configuring the
   * original with `c2` gives, except when `c1` set PARODD that `c2` does
   * not ask for and the original did not hold: no step clears that bit.
   */
  lemma Reconfigure(a: Attrs, c1: Config, c2: Config, r1: Attrs, r2: Attrs, direct: Attrs)
    requires Configured(a, c1, r1) && Configured(r1, c2, r2) && Configured(a, c2, direct)
    ensures r2 == direct <==>
      (c2.parity == ParityOdd || c1.parity != ParityOdd || PARODD <= a.cflag)
  {
    if c2.parity == ParityOdd || c1.parity != ParityOdd || PARODD <= a.cflag {
      assert r2.lflag == direct.lflag && r2.oflag == direct.oflag;
      assert r2.cc == direct.cc;
      assert r2.cflag - CFLAG_FIELDS == direct.cflag - CFLAG_FIELDS;
      assert r2.cflag * PARODD == direct.cflag * PARODD;
      CflagFromFields(r2.cflag, direct.cflag);
      assert r2.iflag - ICRNL == direct.iflag - ICRNL;
      IflagFromParts(r2.iflag, direct.iflag);
    } else {
      // c1 set PARODD, c2 keeps whatever it finds, and the original lacked it.
      assert a.cflag * PARODD == {};
      assert direct.cflag * PARODD == {} && r2.cflag * PARODD == PARODD;
      assert r2.cflag * PARODD != direct.cflag * PARODD;
    }
  }

  /** Toggling translation on and then off gives the block a single run without it gives. */
  lemma CrlfToggle(a: Attrs, c: Config, on: Attrs, back: Attrs, never: Attrs)
    requires Configured(a, c.(crlfTranslate := true), on)
    requires Configured(on, c.(crlfTranslate := false), back)
    requires Configured(a, c.(crlfTranslate := false), never)
    ensures back == never
  {
    Reconfigure(a, c.(crlfTranslate := true), c.(crlfTranslate := false), on, back, never);
  }

  /**
   * Reading the configuration back from the committed block gives the one
   * asked for, except when Even parity meets a PARODD bit the old block
   * already held: that bit survives and the port runs with odd parity.
   */
  lemma DecodeConfigured(a: Attrs, c: Config, r: Attrs)
    requires Configured(a, c, r)
    ensures Decode(r) == Some(c) <==> !(c.parity == ParityEven && PARODD <= a.cflag)
  {
    var rate := BaudRate(c.baud).value;
    BaudTableShape();
    LookupRoundTrip(BAUD_TABLE, c.baud);
    assert LookupBaud(BAUD_TABLE, rate) == Some(c.baud);
    SizeRoundTrip(c.size, r.cflag);
    // PARODD is a single bit: it is in a word exactly when the word's PARODD part is PARODD.
    assert PARODD <= r.cflag <==> r.cflag * PARODD == PARODD;
    assert PARODD <= a.cflag <==> a.cflag * PARODD == PARODD;
    assert ParityOf(r.cflag) == c.parity <==> !(c.parity == ParityEven && PARODD <= a.cflag);
    assert Decode(r) == Some(c.(parity := ParityOf(r.cflag)));
  }

  /** A step that changes only the bits of `m` leaves every field disjoint from `m` as it was. */
  lemma OnlyInside(x: Word, y: Word, m: Word, f: Word)
    requires y - m == x - m && f !! m
    ensures y * f == x * f
  {
    forall b | b in y * f ensures b in x * f {
      assert b in y - m;
    }
    forall b | b in x * f ensures b in y * f {
      assert b in x - m;
    }
  }

  /** A step that changes only the bits of `m` leaves every bit outside a larger set `big` as it was. */
  lemma OnlyInsideBig(x: Word, y: Word, m: Word, big: Word)
    requires y - m == x - m && m <= big
    ensures y - big == x - big
  {
    forall b | b in y - big ensures b in x - big {
      assert b in y - m;
    }
    forall b | b in x - big ensures b in y - big {
      assert b in x - m;
    }
  }

  /**
   * The four control-flag steps (serial_linux.go:56, 60-67, 69-81, 83-93),
   * each stated by the bits it writes and the bits it keeps, together give
   * the control-flag word `Configured` asks for.
   */
  lemma CflagSteps(x0: Word, x1: Word, x2: Word, x3: Word, x4: Word, rate: Word, c: Config)
    requires rate <= CBAUD && x1 == (x0 - CBAUD) + rate
    requires (CSTOPB <= x2 <==> c.stopBits == StopBits2) && x2 - CSTOPB == x1 - CSTOPB
    requires x3 * CSIZE == SizeBits(c.size) && x3 - CSIZE == x2 - CSIZE
    requires (PARENB <= x4 <==> c.parity != ParityNone)
    requires x4 * PARODD == (if c.parity == ParityOdd then PARODD else x3 * PARODD)
    requires x4 - (PARENB + PARODD) == x3 - (PARENB + PARODD)
    ensures x4 * CBAUD == rate
    ensures CSTOPB <= x4 <==> c.stopBits == StopBits2
    ensures x4 * CSIZE == SizeBits(c.size)
    ensures PARENB <= x4 <==> c.parity != ParityNone
    ensures x4 * PARODD == (if c.parity == ParityOdd then PARODD else x0 * PARODD)
    ensures x4 - CFLAG_FIELDS == x0 - CFLAG_FIELDS
  {
    // CBAUD: written by the first step, kept by the other three.
    assert x1 * CBAUD == rate;
    OnlyInside(x1, x2, CSTOPB, CBAUD);
    OnlyInside(x2, x3, CSIZE, CBAUD);
    OnlyInside(x3, x4, PARENB + PARODD, CBAUD);
    // CSTOPB: written by the second step, kept by the last two.
    OnlyInside(x2, x3, CSIZE, CSTOPB);
    OnlyInside(x3, x4, PARENB + PARODD, CSTOPB);
    assert CSTOPB <= x4 <==> x4 * CSTOPB == CSTOPB;
    assert CSTOPB <= x2 <==> x2 * CSTOPB == CSTOPB;
    // CSIZE: written by the third step, kept by the last.
    OnlyInside(x3, x4, PARENB + PARODD, CSIZE);
    // PARODD: kept by the first three steps.
    OnlyInside(x0, x1, CBAUD, PARODD);
    OnlyInside(x1, x2, CSTOPB, PARODD);
    OnlyInside(x2, x3, CSIZE, PARODD);
    // Everything outside the fields: kept by all four.
    assert x1 - CBAUD == x0 - CBAUD;
    OnlyInsideBig(x0, x1, CBAUD, CFLAG_FIELDS);
    OnlyInsideBig(x1, x2, CSTOPB, CFLAG_FIELDS);
    OnlyInsideBig(x2, x3, CSIZE, CFLAG_FIELDS);
    OnlyInsideBig(x3, x4, PARENB + PARODD, CFLAG_FIELDS);
  }

  // ---------------------------------------------------------------------
  // The block as the source holds it
  // ---------------------------------------------------------------------

  /** A `syscall.Termios` value, updated in place by `Apply`. */
  class Termios {
    var iflag: Word
    var oflag: Word
    var cflag: Word
    var lflag: Word
    var line: bv8
    const cc: array<bv8>
    var ispeed: Word
    var ospeed: Word

    ghost predicate Valid()
      reads this
    {
      cc.Length == NCCS
    }

    /** The value the block currently holds. */
    function Value(): Attrs
      reads this, cc
      requires Valid()
    {
      Attrs(iflag, oflag, cflag, lflag, line, cc[..], ispeed, ospeed)
    }

    /** serial_linux.go:22: the zero block. */
    constructor ()
      ensures Valid() && fresh(cc)
      ensures Value() == Attrs({}, {}, {}, {}, 0, seq(NCCS, _ => 0), {}, {})
    {
      iflag, oflag, cflag, lflag, line := {}, {}, {}, {}, 0;
      ispeed, ospeed := {}, {};
      cc := new bv8[NCCS](_ => 0);
    }

    /** Overwrites the whole block with `a`, as the kernel does when it answers TCGETS. */
    method Load(a: Attrs)
      requires Valid()
      modifies this, cc
      ensures Valid() && Value() == a
    {
      iflag, oflag, cflag, lflag, line := a.iflag, a.oflag, a.cflag, a.lflag, a.line;
      ispeed, ospeed := a.ispeed, a.ospeed;
      forall i | 0 <= i < NCCS {
        cc[i] := a.cc[i];
      }
    }

    /** serial_linux.go:56-58: the baud field and both speeds take `rate`. */
    method SetBaud(rate: Word)
      modifies this`cflag, this`ispeed, this`ospeed
      ensures cflag == (old(cflag) - CBAUD) + rate
      ensures ispeed == rate && ospeed == rate
    {
      cflag := (cflag - CBAUD) + rate;
      ispeed := rate;
      ospeed := rate;
    }

    /** serial_linux.go:60-67: CSTOPB is set for two stop bits and cleared for one. */
    method SetStopBits(stopBits: StopBits)
      modifies this`cflag
      ensures CSTOPB <= cflag <==> stopBits == StopBits2
      ensures cflag - CSTOPB == old(cflag) - CSTOPB
    {
      match stopBits {
        case StopBits1 => cflag := cflag - CSTOPB;
        case StopBits2 => cflag := cflag + CSTOPB;
      }
    }

    /** serial_linux.go:69-81: CSIZE is cleared, then given the size's pattern. */
    method SetSize(size: ByteSize)
      modifies this`cflag
      ensures cflag * CSIZE == SizeBits(size)
      ensures cflag - CSIZE == old(cflag) - CSIZE
    {
      cflag := cflag - CSIZE;
      match size {
        case Byte5 => cflag := cflag + CS5;
        case Byte6 => cflag := cflag + CS6;
        case Byte7 => cflag := cflag + CS7;
        case Byte8 => cflag := cflag + CS8;
      }
    }

    /**
     * serial_linux.go:83-93: PARENB is set exactly when parity is wanted and
     * Odd also sets PARODD; no case clears PARODD.
     */
    method SetParity(parity: ParityMode)
      modifies this`cflag
      ensures PARENB <= cflag <==> parity != ParityNone
      ensures cflag * PARODD == if parity == ParityOdd then PARODD else old(cflag) * PARODD
      ensures cflag - (PARENB + PARODD) == old(cflag) - (PARENB + PARODD)
    {
      match parity {
        case ParityNone => cflag := cflag - PARENB;
        case ParityEven => cflag := cflag + PARENB;
        case ParityOdd =>
          cflag := cflag + PARENB;
          cflag := cflag + PARODD;
      }
    }

    /** serial_linux.go:95-99: ICRNL is set exactly when translation is wanted. */
    method SetCrlf(translate: bool)
      modifies this`iflag
      ensures ICRNL <= iflag <==> translate
      ensures iflag - ICRNL == old(iflag) - ICRNL
    {
      if translate {
        iflag := iflag + ICRNL;
      } else {
        iflag := iflag - ICRNL;
      }
    }

    /** serial_linux.go:100-103: raw mode, with no line editing, echo, signals or output processing. */
    method SelectRaw()
      modifies this`lflag, this`oflag
      ensures lflag == old(lflag) - RAW_LFLAGS && oflag == old(oflag) - OPOST
    {
      lflag := lflag - (ICANON + ECHO + ECHOE + ISIG);
      oflag := oflag - OPOST;
    }

    /** serial_linux.go:111-112: a read blocks until one byte arrives, with no inter-byte timeout. */
    method SetReadBlocking()
      requires Valid()
      modifies cc
      ensures cc[..] == old(cc[..])[VMIN := 1][VTIME := 0]
    {
      cc[VMIN] := 1;
      cc[VTIME] := 0;
    }

    /**
     * serial_linux.go:56-93: the baud, stop-bit, size and parity steps in
     * turn. The fields they write hold the requested settings afterwards;
     * PARODD is set for Odd and otherwise kept; no other control bit moves.
     */
    method SetControl(c: Config, rate: Word)
      requires rate <= CBAUD
      modifies this`cflag, this`ispeed, this`ospeed
      ensures ispeed == rate && ospeed == rate
      ensures cflag * CBAUD == rate
      ensures CSTOPB <= cflag <==> c.stopBits == StopBits2
      ensures cflag * CSIZE == SizeBits(c.size)
      ensures PARENB <= cflag <==> c.parity != ParityNone
      ensures cflag * PARODD == (if c.parity == ParityOdd then PARODD else old(cflag) * PARODD)
      ensures cflag - CFLAG_FIELDS == old(cflag) - CFLAG_FIELDS
    {
      ghost var x0 := cflag;
      SetBaud(rate);
      ghost var x1 := cflag;
      SetStopBits(c.stopBits);
      ghost var x2 := cflag;
      SetSize(c.size);
      ghost var x3 := cflag;
      SetParity(c.parity);
      CflagSteps(x0, x1, x2, x3, cflag, rate, c);
    }

    /**
     * serial_linux.go:35-103, 111-112: rewrites the block for `c` step by
     * step, or reports an unknown baud rate and changes nothing.
     */
    method Apply(c: Config) returns (err: Option<Error>)
      requires Valid()
      modifies this, cc
      ensures Valid()
      ensures err.None? <==> Supported(c.baud)
      ensures err.Some? ==> err.value == UnknownBaudRate(c.baud) && Value() == old(Value())
      ensures err.None? ==> Configured(old(Value()), c, Value())
    {
      var rate: Word;
      match BaudRate(c.baud) {
        case None => return Some(UnknownBaudRate(c.baud));
        case Some(r) => rate := r;
      }
      if rate == {} {
        // serial_linux.go:53-55 would return a nil handle and a nil error; no encoding is empty.
        assert false;
        return None;
      }
      ghost var a := Value();
      SetControl(c, rate);
      SetCrlf(c.crlfTranslate);
      SelectRaw();
      SetReadBlocking();
      err := None;
    }
  }
}
