/**
 * The listener owns the `DataReceived` event, whose invocation list holds the attached handlers in
 * attachment order, and starts the loop that reads tokens from the port.
 */
module Listener {
  import Multicast
  import Transport

  datatype ListenerError = ArgumentNull(paramName: string)

  /** How a call that can throw `ArgumentNullException` ends. */
  datatype Outcome = Pass | Fail(error: ListenerError)

  class Listener<H(==)> {
    /** The invocation list of `DataReceived`; empty stands for the null delegate. */
    var dataReceived: seq<H>
    var port: Transport.SerialPort?
    /** How many reading loops `BeginListening` has started. */
    var readLoops: nat

    constructor ()
      ensures dataReceived == [] && port == null && readLoops == 0
    {
      dataReceived := [];
      port := null;
      readLoops := 0;
    }

    /** `DataReceived += h` */
    method Subscribe(h: H)
      modifies this
      ensures dataReceived == Multicast.Combine(old(dataReceived), h)
      ensures port == old(port) && readLoops == old(readLoops)
    {
      dataReceived := Multicast.Combine(dataReceived, h);
    }

    /** `DataReceived -= h` */
    method Unsubscribe(h: H)
      modifies this
      ensures dataReceived == Multicast.Remove(old(dataReceived), h)
      ensures port == old(port) && readLoops == old(readLoops)
    {
      dataReceived := Multicast.Remove(dataReceived, h);
    }

    /** Keeps the port and starts one reading loop; a null port is refused before anything changes. */
    method BeginListening(p: Transport.SerialPort?) returns (r: Outcome)
      modifies this
      ensures p == null ==> r == Fail(ArgumentNull("port")) && port == old(port) && readLoops == old(readLoops)
      ensures p != null ==> r == Pass && port == p && readLoops == old(readLoops) + 1
      ensures dataReceived == old(dataReceived)
    {
      if p == null {
        return Fail(ArgumentNull("port"));
      }
      port := p;
      readLoops := readLoops + 1;
      r := Pass;
    }
  }
}
