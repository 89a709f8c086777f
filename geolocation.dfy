/** The geolocation hook: asks the device for one fresh position and turns
    whatever happens into a location (or none) plus the advisory message the
    page shows. The device is an input here: whether the capability exists,
    and a sensor that answers a request made with given options. */
module GeoHook {
  import opened Types

  /** Error codes a failed position request carries (the W3C Geolocation API's
      PERMISSION_DENIED, POSITION_UNAVAILABLE and TIMEOUT). */
  const PERMISSION_DENIED: int := 1
  const POSITION_UNAVAILABLE: int := 2
  const TIMEOUT: int := 3

  const NotSupportedMessage: string := "Geolocalização não é suportada por este navegador."
  const PermissionDeniedMessage: string := "Permissão para geolocalização foi negada."
  const PositionUnavailableMessage: string := "Informação de localização não está disponível."
  const TimeoutMessage: string := "A requisição para obter a localização expirou."
  const UnknownErrorMessage: string := "Ocorreu um erro desconhecido ao obter a localização."

  datatype PositionOptions = PositionOptions(enableHighAccuracy: bool, timeout: nat, maximumAge: nat)

  /** What every request asks for: the best accuracy, at most 10 seconds, no cached fix. */
  const RequestOptions: PositionOptions := PositionOptions(true, 10000, 0)

  /** What the sensor answers to one request. */
  datatype PositionResult = Position(coords: Geolocation) | PositionError(code: int)

  /** The value the request's promise resolves with, and the new `locationError`. */
  datatype Resolution = Resolution(location: Option<Geolocation>, locationError: Option<string>)

  /** The message a failed request leaves in `locationError`: each of the three
      known codes has its own, every other code shares the unknown-error one,
      and none is the not-supported message. */
  function ErrorMessage(code: int): (m: string)
    ensures m == PermissionDeniedMessage <==> code == PERMISSION_DENIED
    ensures m == PositionUnavailableMessage <==> code == POSITION_UNAVAILABLE
    ensures m == TimeoutMessage <==> code == TIMEOUT
    ensures m == UnknownErrorMessage <==> code !in {PERMISSION_DENIED, POSITION_UNAVAILABLE, TIMEOUT}
    ensures m != NotSupportedMessage
  {
    if code == PERMISSION_DENIED then PermissionDeniedMessage
    else if code == POSITION_UNAVAILABLE then PositionUnavailableMessage
    else if code == TIMEOUT then TimeoutMessage
    else UnknownErrorMessage
  }

  /** The outcome of a request: a location exactly when the sensor exists and
      reported a position, and a cleared error exactly then. There is no
      rejected outcome: every path resolves. */
  function Resolve(supported: bool, result: PositionResult): (r: Resolution)
    ensures r.location.Some? <==> supported && result.Position?
    ensures r.locationError.None? <==> supported && result.Position?
    ensures supported && result.Position? ==> r.location == Some(result.coords)
    ensures !supported ==> r.locationError == Some(NotSupportedMessage)
    ensures supported && result.PositionError? ==> r.locationError == Some(ErrorMessage(result.code))
  {
    if !supported then Resolution(None, Some(NotSupportedMessage))
    else match result
      case Position(coords) => Resolution(Some(coords), None)
      case PositionError(code) => Resolution(None, Some(ErrorMessage(code)))
  }

  /** The kinds of outcome the hook tells apart; an independent reading of the
      error classification, used to state that the messages identify them. */
  datatype Kind = Located | NotSupported | Denied | Unavailable | TimedOut | Unknown

  function KindOf(supported: bool, result: PositionResult): Kind
  {
    if !supported then NotSupported
    else match result
      case Position(_) => Located
      case PositionError(code) =>
        if code == 1 then Denied
        else if code == 2 then Unavailable
        else if code == 3 then TimedOut
        else Unknown
  }

  /** Two outcomes leave the same `locationError` exactly when they are of the
      same kind: each failure has its own message, and success clears it. */
  lemma MessageIdentifiesKind(s1: bool, r1: PositionResult, s2: bool, r2: PositionResult)
    ensures Resolve(s1, r1).locationError == Resolve(s2, r2).locationError
        <==> KindOf(s1, r1) == KindOf(s2, r2)
  {
  }

  /** The hook's state: the last location error, shown as an advisory. */
  class LocationState {
    var locationError: Option<string>

    constructor()
      ensures locationError == None
    {
      locationError := None;
    }

    /** Requests one position with `RequestOptions` (when the capability exists),
        records the error message or clears it, and resolves with the location. */
    method GetLocation(supported: bool, sensor: PositionOptions -> PositionResult)
      returns (location: Option<Geolocation>)
      modifies this
      ensures location == Resolve(supported, sensor(RequestOptions)).location
      ensures locationError == Resolve(supported, sensor(RequestOptions)).locationError
    {
      if !supported {
        locationError := Some(NotSupportedMessage);
        location := None;
        return;
      }
      var result := sensor(RequestOptions);
      match result {
        case Position(coords) =>
          locationError := None;
          location := Some(coords);
        case PositionError(code) =>
          if code == PERMISSION_DENIED {
            locationError := Some(PermissionDeniedMessage);
          } else if code == POSITION_UNAVAILABLE {
            locationError := Some(PositionUnavailableMessage);
          } else if code == TIMEOUT {
            locationError := Some(TimeoutMessage);
          } else {
            locationError := Some(UnknownErrorMessage);
          }
          location := None;
      }
    }
  }
}
