// Error numbers of the stack and the translation of operating-system codes into them.
module MqttError {
  import opened MqttWire

  const NO_ERROR := 0
  const TIMEOUT := 1
  const NO_SERVICE := 2
  const CONNECTION_REFUSED := 3
  const UNKNOWN_PACKET := 4
  const QOS_NOT_SUPPORTED := 5
  const DISCONNECTED := 6
  const RECONNECTED := 7
  const INVALID_CONFIG := 8
  const SUBSCRIPTION_FAILURE := 10

  const ERRC_NO_SUCH_FILE := 2
  const ERRC_NETWORK_UNREACHABLE := 101
  const ERRC_TIMED_OUT := 110
  const ERRC_REFUSED := 111

  predicate Mapped(ec: int) {
    ec == ERRC_TIMED_OUT || ec == ERRC_NETWORK_UNREACHABLE || ec == ERRC_NO_SUCH_FILE || ec == ERRC_REFUSED
  }

  // The switch looks only at the number of a code, not at its category.
  function MapErrorCode(ec: int): (r: Flow<int>) {
    if ec == ERRC_TIMED_OUT then Done(TIMEOUT)
    else if ec == ERRC_NETWORK_UNREACHABLE || ec == ERRC_NO_SUCH_FILE then Done(NO_SERVICE)
    else if ec == ERRC_REFUSED then Done(CONNECTION_REFUSED)
    else Thrown
  }

  // In numbers: timed out is 1, an unreachable network or a missing file 2, refused 3.
  lemma MappedCodes(ec: int)
    ensures MapErrorCode(110) == Done(1)
    ensures MapErrorCode(101) == Done(2) && MapErrorCode(2) == Done(2)
    ensures MapErrorCode(111) == Done(3)
    ensures ec !in {2, 101, 110, 111} ==> MapErrorCode(ec) == Thrown
  {
  }

  // The number that a code of this library has once it is wrapped: its own in category 0, and
  // otherwise its own plus a thousand for every step of a number that stands for the category.
  function MapLibraryCode(code: int, category: nat): (r: Flow<int>) { MapErrorCode(code + 1000 * category) }

  // A code of this library has no mapping and throws, except that NO_SERVICE in category 0
  // happens to carry the number of "no such file or directory".
  lemma MapTwice(code: int, category: nat)
    requires TIMEOUT <= code <= SUBSCRIPTION_FAILURE
    ensures MapLibraryCode(code, category) ==
      if code == NO_SERVICE && category == 0 then Done(NO_SERVICE) else Thrown
  {
  }
}
