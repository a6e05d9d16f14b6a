/**
 * Two runs of `openPort` for fixed configurations: the common 9600 baud,
 * 8 data bits, no parity, one stop bit setting, and a baud rate the source
 * does not know.
 */
module Scenarios {
  import opened Termbits
  import opened PortConfig
  import opened Transformer
  import opened Port

  /**
   * Opening with 9600 8N1 and no translation: when the call returns a
   * handle, the device holds both speeds and the CBAUD field at B9600, one
   * stop bit, CS8 and no parity, and reads back as that very configuration.
   */
  method Open9600EightNoneOne(name: string) returns (rwc: File?, err: Option<Error>)
    ensures (rwc == null) <==> err.Some?
    ensures rwc != null ==>
      rwc.attrs.ispeed == B9600 && rwc.attrs.ospeed == B9600 && rwc.attrs.cflag * CBAUD == B9600 &&
      !(CSTOPB <= rwc.attrs.cflag) && rwc.attrs.cflag * CSIZE == CS8 && !(PARENB <= rwc.attrs.cflag) &&
      Decode(rwc.attrs) == Some(Config(9600, StopBits1, Byte8, ParityNone, false))
  {
    var c := Config(9600, StopBits1, Byte8, ParityNone, false);
    assert BAUD_TABLE[4] == (9600, B9600);
    assert BaudRate(9600) == Some(B9600);
    ghost var file, exit;
    rwc, err, file, exit := OpenPort(name, c);
    if rwc != null {
      DecodeConfigured(file.initial, c, rwc.attrs);
    }
  }

  /**
   * Opening with 1200 baud, which the switch has no case for: the call always
   * fails, never issues TCSETS, and whenever it got as far as the baud
   * switch it returns with the file it opened still open.
   */
  method OpenUnknownBaud(name: string) returns (rwc: File?, err: Option<Error>, ghost file: File?)
    ensures rwc == null && err.Some?
    ensures file != null ==> file.setCount == 0 && file.attrs == file.initial
    ensures file != null && err == Some(UnknownBaudRate(1200)) ==> file.isOpen && file.closeCount == 0
  {
    BaudTableShape();
    ghost var exit;
    rwc, err, file, exit := OpenPort(name, Config(1200, StopBits1, Byte8, ParityNone, false));
  }
}
