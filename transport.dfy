/**
 * The serial port as the terminal sees it: a name, whether it is open, and the lines written to it.
 * Opening and writing are foreign calls; whether they fail is an input of the model.
 */
module Transport {

  /** The name a freshly created `SerialPort` carries. */
  const DefaultPortName: string := "COM1"

  class SerialPort {
    var portName: string
    var isOpen: bool
    /** Every line the port has accepted for sending, in order. */
    var written: seq<string>

    constructor ()
      ensures portName == DefaultPortName && !isOpen && written == []
    {
      portName := DefaultPortName;
      isOpen := false;
      written := [];
    }

    /** `Open()`: refused (an exception) when the device cannot be opened or the port is already open. */
    method Open(deviceFails: bool) returns (ok: bool)
      modifies this
      ensures ok <==> !deviceFails && !old(isOpen)
      ensures isOpen == (old(isOpen) || ok)
      ensures portName == old(portName) && written == old(written)
    {
      ok := !deviceFails && !isOpen;
      if ok {
        isOpen := true;
      }
    }

    /** `WriteLine(line)`: refused (an exception) on a closed port or when the write times out. */
    method WriteLine(line: string, deviceFails: bool) returns (ok: bool)
      modifies this
      ensures ok <==> !deviceFails && isOpen
      ensures written == if ok then old(written) + [line] else old(written)
      ensures isOpen == old(isOpen) && portName == old(portName)
    {
      ok := !deviceFails && isOpen;
      if ok {
        written := written + [line];
      }
    }

    method Close()
      modifies this
      ensures !isOpen
      ensures portName == old(portName) && written == old(written)
    {
      isOpen := false;
    }
  }
}
