/** Parsed input of the correlator: Endpoint Security process events and Sandbox denial lines. */
module Events {

  datatype Option<+T> = None | Some(value: T) {
    function GetOr(default: T): T {
      if Some? then value else default
    }
  }

  /** Nanoseconds since Go's zero time; ZERO_TIME stands for an unset time.Time. */
  type Time = int

  const ZERO_TIME: Time := 0

  function Later(a: Time, b: Time): Time {
    if a < b then b else a
  }

  /** The identity of an image. The versions tell apart the images that share a pid, one per exec or reuse. */
  datatype Token = Token(pid: int, pidversion: int)

  datatype Proc = Proc(
    token: Token,
    ppid: int,
    path: string,
    isPlatform: bool,
    signingID: string,
    teamID: string,
    cdhash: string,
    startTime: Time)

  datatype Kind = Exec | Fork | Exit | OtherKind

  /** Who acts is in `process`. In execs and forks `target` is the image that comes into being. */
  datatype Event = Event(
    kind: Kind,
    time: Time,
    process: Proc,
    target: Proc,
    args: seq<string>,
    cwd: string,
    env: seq<string>,
    exitStatus: int)

  datatype Denial = Denial(
    time: Time,
    name: string,
    pid: int,
    denyN: int,
    operation: string,
    target: string,
    message: string,
    duplicate: int)

  /** Denials with the same key are repeats of each other. */
  datatype DenialKey = DenialKey(pid: int, op: string, target: string)

  function KeyOf(d: Denial): DenialKey {
    DenialKey(d.pid, d.operation, d.target)
  }

  /** How many denials one line reports. */
  function Weight(d: Denial): (w: int)
    ensures w >= 1
  {
    if d.duplicate > 0 then d.duplicate else if d.denyN < 1 then 1 else d.denyN
  }
}
