/** The values the daemon exchanges with the kernel's event-device (evdev) and
    virtual-device (uinput) interfaces, as seen from the daemon: device identities,
    input events, error kinds, and the result type that stands for Rust's
    `Result<_, std::io::Error>`. */
module Evdev {

  type u8 = x: int | 0 <= x < 0x100
  type u16 = x: int | 0 <= x < 0x1_0000

  datatype Option<T> = None | Some(value: T)

  /** The `std::io::ErrorKind`s the daemon produces itself (`NotFound`, `Other`) and
      every error the kernel or the file system reports (`Os`). */
  datatype IoError = NotFound | Other | Os

  datatype Res<T> = Ok(value: T) | Err(error: IoError)

  /** An opened event device. `handle` is the identity of the open file: two
      devices of the pool are different handles even when their identity
      strings coincide. */
  datatype Device = Device(handle: nat, vendor: u16, product: u16, name: Option<string>, bustype: u16)

  const VENDOR_NINTENDO: u16 := 0x57e
  const PRODUCT_LEFT_JOYCON: u16 := 0x2006
  const PRODUCT_RIGHT_JOYCON: u16 := 0x2007
  const PRODUCT_PROCON: u16 := 0x2009

  /** The identity set of the daemon: a Nintendo Joy-Con (left or right) or Pro Controller. */
  predicate Recognized(vendor: u16, product: u16)
  {
    vendor == VENDOR_NINTENDO
    && (product == PRODUCT_LEFT_JOYCON || product == PRODUCT_RIGHT_JOYCON || product == PRODUCT_PROCON)
  }

  datatype TimeVal = TimeVal(sec: int, usec: int)

  /** Event codes by event type, with the numbers of the Linux input-event codes. */
  datatype EventCode = EvKey(key: int) | EvAbs(axis: int) | EvSyn(kind: int) | EvOther(evType: int, code: int)

  datatype InputEvent = InputEvent(time: TimeVal, code: EventCode, value: int)

  const BTN_SOUTH := 0x130
  const BTN_EAST := 0x131
  const BTN_NORTH := 0x133
  const BTN_WEST := 0x134
  const BTN_TL := 0x136
  const BTN_TR := 0x137
  const BTN_TL2 := 0x138
  const BTN_TR2 := 0x139
  const BTN_SELECT := 0x13a
  const BTN_START := 0x13b
  const BTN_MODE := 0x13c

  const ABS_X := 0x00
  const ABS_Y := 0x01
  const ABS_RX := 0x03
  const ABS_RY := 0x04
  const ABS_HAT0X := 0x10
  const ABS_HAT0Y := 0x11

  const SYN_REPORT := 0
}
