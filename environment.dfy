/** The world outside the daemon that its calls change: the indicator control
    files of the controller driver, the uinput interface that creates virtual
    devices, and the exclusive-capture (grab) state of the event devices. Every
    call made is appended to `log`, with its outcome, in the order it was made;
    which calls fail is given by their position in that log, so any pattern of
    failures can be described. */
module Environment {
  import opened Evdev

  datatype GrabMode = Grab | Ungrab

  datatype Effect =
    | LedWrite(path: string, text: string, ok: bool)
    | CreateUinput(bustype: u16, ok: bool)
    | GrabCall(handle: nat, mode: GrabMode, ok: bool)

  class Host {
    /** The positions in `log` of the calls that fail. */
    const failing: set<nat>

    var log: seq<Effect>

    constructor (failing: set<nat>)
      ensures this.failing == failing && log == []
    {
      this.failing := failing;
      log := [];
    }

    /** Whether the call that becomes log entry `at` succeeds. */
    predicate CallOk(at: nat)
    {
      at !in failing
    }

    /** Opens `path` for writing and writes `text` as its whole content. */
    method WriteFile(path: string, text: string) returns (ok: bool)
      modifies this`log
      ensures ok == CallOk(|old(log)|)
      ensures log == old(log) + [LedWrite(path, text, ok)]
    {
      ok := |log| !in failing;
      log := log + [LedWrite(path, text, ok)];
    }

    /** Enables the virtual device's codes and creates it. */
    method CreateDevice(bustype: u16) returns (ok: bool)
      modifies this`log
      ensures ok == CallOk(|old(log)|)
      ensures log == old(log) + [CreateUinput(bustype, ok)]
    {
      ok := |log| !in failing;
      log := log + [CreateUinput(bustype, ok)];
    }

    /** The EVIOCGRAB request on the device with this handle. */
    method GrabDevice(handle: nat, mode: GrabMode) returns (ok: bool)
      modifies this`log
      ensures ok == CallOk(|old(log)|)
      ensures log == old(log) + [GrabCall(handle, mode, ok)]
    {
      ok := |log| !in failing;
      log := log + [GrabCall(handle, mode, ok)];
    }
  }
}
