/** Types shared by the shell model and the global-request model. */
module Base {

  /** An optional value; `None` stands for Go's `nil` error or an absent result. */
  datatype Option<+T> = None | Some(value: T)

  const TWO_32: int := 0x1_0000_0000

  /** Go's uint32: exit statuses and wire-level port numbers. */
  type uint32 = x: int | 0 <= x < 0x1_0000_0000

  /** One octet of an SSH wire payload. */
  type byte = x: int | 0 <= x < 0x100
}
