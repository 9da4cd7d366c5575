/**
 * The SNTP message as the service sees it: a record of header fields that
 * the request handler reads and overwrites. The wire codec (48-byte layout,
 * 64-bit fixed-point timestamps) is not part of this model: parsing and
 * serialising are opaque functions supplied by the caller, and timestamps
 * are abstract instants.
 */
module SntpMessages {

  /** A wall-clock instant as read from the local clock. */
  type Instant = int

  datatype LeapIndicator = NoWarning | LastMinute61Seconds | LastMinute59Seconds | Alarm

  /** The association mode. `Unknown` holds any value outside the named ones. */
  datatype Mode =
    | Reserved
    | SymmetricActive
    | SymmetricPassive
    | Client
    | Server
    | Broadcast
    | ReservedNTPControl
    | ReservedPrivate
    | Unknown(code: int)

  datatype Stratum = Unspecified | Primary | Secondary | ReservedStratum

  /** The reference identifier; `LOCL` names an uncalibrated local clock. */
  datatype ReferenceIdentifier = LOCL | OtherIdentifier(code: nat)

  /** The value of every header field of one message. */
  datatype Message = Message(
    leapIndicator: LeapIndicator,
    versionNumber: int,
    mode: Mode,
    stratum: Stratum,
    pollInterval: int,
    precision: int,
    rootDelay: int,
    rootDispersion: int,
    referenceIdentifier: ReferenceIdentifier,
    referenceTime: Instant,
    originateTime: Instant,
    receiveTime: Instant,
    transmitTime: Instant)

  /**
   * A parsed message object. Its fields have public setters: the request
   * handler turns a request into the response by assigning them in place.
   */
  class SntpMessage {
    var leapIndicator: LeapIndicator
    var versionNumber: int
    var mode: Mode
    var stratum: Stratum
    var pollInterval: int
    var precision: int
    var rootDelay: int
    var rootDispersion: int
    var referenceIdentifier: ReferenceIdentifier
    var referenceTime: Instant
    var originateTime: Instant
    var receiveTime: Instant
    var transmitTime: Instant

    /** The current value of all fields. */
    function Value(): (m: Message)
      reads this
    {
      Message(leapIndicator, versionNumber, mode, stratum, pollInterval, precision,
              rootDelay, rootDispersion, referenceIdentifier,
              referenceTime, originateTime, receiveTime, transmitTime)
    }

    /** A message object holding the fields the parser produced. */
    constructor (m: Message)
      ensures Value() == m
    {
      leapIndicator := m.leapIndicator;
      versionNumber := m.versionNumber;
      mode := m.mode;
      stratum := m.stratum;
      pollInterval := m.pollInterval;
      precision := m.precision;
      rootDelay := m.rootDelay;
      rootDispersion := m.rootDispersion;
      referenceIdentifier := m.referenceIdentifier;
      referenceTime := m.referenceTime;
      originateTime := m.originateTime;
      receiveTime := m.receiveTime;
      transmitTime := m.transmitTime;
    }
  }
}
