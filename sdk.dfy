/** The `TokebiSDK` instance: a registration gate in front of an event
    emitter. The instance starts with a temporary game id and closed;
    the registration request's callbacks open it, and from then on
    `Track` hands one flattened event per call to the transport, which is
    modelled as the ghost log `sent`. `TrackSessionEnd` emits at most one
    `session_end` per instance. */
module Sdk {
  import opened Decimal
  import opened JsonValue
  import opened Flattener
  import opened Identity

  /** The platform tag every request carries. */
  const Platform: string := "rpgmaker-mv"

  /** How `registerGame`'s `try` block ended: the request went out, or
      building or sending it threw, at clock reading `nowMs`. */
  datatype SendAttempt = Sent | Threw(nowMs: nat)

  /** The body of a 200 or 201 registration response, as `JSON.parse` sees it. */
  datatype ResponseBody = Unparsable | Parsed(gameId: string)

  /** The registration request body sent to `/api/games`. */
  datatype Registration = Registration(gameName: string, platform: string, rpgmakerVersion: string, playerCount: nat)

  /** The event body sent to `/api/track`. */
  datatype EventRecord = EventRecord(
    eventType: string,
    payload: FlatMap,
    gameId: string,
    playerId: Option<string>,
    platform: string,
    environment: string)

  /** `'game_temp_' + Date.now()` */
  function TempGameId(nowMs: nat): string {
    "game_temp_" + NatStr(nowMs)
  }

  /** `'game_fallback_' + Date.now()` */
  function FallbackGameId(nowMs: nat): string {
    "game_fallback_" + NatStr(nowMs)
  }

  /** `payload || {}`: a missing or falsy payload is an empty object. */
  function PayloadOrEmpty(payload: Option<Json>): (r: Json)
    ensures !IsFalsy(r)
    ensures payload.Some? && !IsFalsy(payload.value) ==> r == payload.value
    ensures r != JObj([]) ==> payload == Some(r)
  {
    if payload.None? || IsFalsy(payload.value) then JObj([]) else payload.value
  }

  predicate IsRegistered(status: int) {
    status == 200 || status == 201
  }

  class TokebiSdk {
    const apiKey: string
    const gameName: string
    const trackingEnabled: bool
    /** `'development'` or `'production'`, decided by the host page. */
    const environment: string

    var playerId: Option<string>
    var gameId: string
    var isInitialized: bool
    var sessionEnded: bool

    /** The registration request went out, so its callbacks may run. */
    ghost var registration: Option<Registration>
    /** The request's completion handler (`readyState === 4`) has run. */
    ghost var responded: bool
    /** Event bodies handed to `sendToAPI`, oldest first. */
    ghost var sent: seq<EventRecord>
    /** `session_start` events sent by the registration handler. */
    ghost var sessionStarts: nat
    /** `session_end` events sent by `TrackSessionEnd`. `Valid()` ties it
        to `sessionEnded` (1 once the session has ended, 0 before), so it
        restates that flag as a count; the events themselves are the ones
        `TrackSessionEnd` appends to `sent`. */
    ghost var sessionEnds: nat

    /** What every event this instance sends looks like. */
    ghost predicate Emitted(e: EventRecord)
      reads this
    {
      && e.platform == Platform
      && e.playerId == playerId
      && e.playerId.Some?
      && e.environment == environment
      && IsFlat(e.payload)
    }

    ghost predicate Valid()
      reads this
    {
      && (registration.Some? ==>
            && trackingEnabled && apiKey != "" && playerId.Some?
            && registration == Some(Registration(gameName, Platform, "MV", 1)))
      && (responded ==> registration.Some?)
      && (isInitialized ==> registration.Some?)
      && (sessionEnded ==> isInitialized)
      && (!isInitialized ==> sent == [])
      && sessionStarts <= (if responded then 1 else 0)
      && sessionEnds == (if sessionEnded then 1 else 0)
      && forall i :: 0 <= i < |sent| ==> Emitted(sent[i])
    }

    /** The event `track(eventType, payload)` builds in the current state. */
    ghost function EventFor(eventType: string, payload: Option<Json>): EventRecord
      reads this
    {
      EventRecord(eventType, Flatten(PayloadOrEmpty(payload), ""), gameId, playerId, Platform, environment)
    }

    /** `new TokebiSDK()`, with the plugin parameters, the clock readings,
        the random draw, the browser's storage and the way the
        registration request left the `try` block as arguments. */
    constructor (apiKey: string, gameName: string, trackingEnabled: bool, environment: string,
                 nowMs: nat, storage: Store?, idNowMs: nat, rand: nat, attempt: SendAttempt)
      modifies storage
      ensures Valid()
      ensures this.apiKey == apiKey && this.gameName == gameName
      ensures this.trackingEnabled == trackingEnabled && this.environment == environment
      ensures !isInitialized && !sessionEnded && !responded && sent == []
      ensures !trackingEnabled || apiKey == "" ==>
                && playerId == None && gameId == TempGameId(nowMs) && registration == None
                && (storage != null ==> storage.items == old(storage.items))
      ensures trackingEnabled && apiKey != "" ==>
                && playerId.Some?
                && (storage == null ==> playerId.value == Resolve(None, idNowMs, rand).0)
                && (storage != null ==>
                      (playerId.value, Some(storage.items)) == Resolve(Some(old(storage.items)), idNowMs, rand))
                && (attempt.Sent? ==> gameId == TempGameId(nowMs) && registration.Some?)
                && (attempt.Threw? ==> gameId == FallbackGameId(attempt.nowMs) && registration == None)
    {
      this.apiKey := apiKey;
      this.gameName := gameName;
      this.trackingEnabled := trackingEnabled;
      this.environment := environment;
      playerId := None;
      gameId := "game_temp_" + NatStr(nowMs);
      isInitialized := false;
      sessionEnded := false;
      registration := None;
      responded := false;
      sent := [];
      sessionStarts := 0;
      sessionEnds := 0;
      new;
      if trackingEnabled && apiKey != "" {
        var id := GetOrCreatePlayerId(storage, idNowMs, rand);
        playerId := Some(id);
        RegisterGame(attempt);
      }
    }

    /** `registerGame`, up to the moment the request is out: the callbacks
        are the two methods below. An exception inside the `try` sets a
        fallback id and leaves the instance closed. */
    method RegisterGame(attempt: SendAttempt)
      requires Valid() && trackingEnabled && apiKey != "" && playerId.Some?
      requires registration == None
      modifies this`gameId, this`registration
      ensures Valid()
      ensures attempt.Sent? ==> gameId == old(gameId) && registration == Some(Registration(gameName, Platform, "MV", 1))
      ensures attempt.Threw? ==> gameId == FallbackGameId(attempt.nowMs) && registration == None
    {
      match attempt
      case Sent =>
        registration := Some(Registration(gameName, Platform, "MV", 1));
      case Threw(nowMs) =>
        gameId := "game_fallback_" + NatStr(nowMs);
    }

    /** The registration request's `onreadystatechange` at `readyState 4`.
        On 200 or 201 the response's `game_id` becomes the game id, the
        gate opens and one `session_start` goes out; a body `JSON.parse`
        rejects throws out of the handler before anything changes. Any
        other status opens the gate with a fallback id and sends nothing. */
    method OnRegistrationResponse(status: int, body: ResponseBody, nowMs: nat)
      requires Valid() && registration.Some? && !responded
      modifies this`gameId, this`isInitialized, this`responded, this`sent, this`sessionStarts
      ensures Valid() && responded
    ensures sessionStarts == if IsRegistered(status) && body.Parsed? then 1 else 0
      ensures IsRegistered(status) && body.Unparsable? ==>
                gameId == old(gameId) && isInitialized == old(isInitialized) && sent == old(sent)
      ensures IsRegistered(status) && body.Parsed? ==>
                && gameId == body.gameId && isInitialized
                && sent == old(sent) + [EventRecord("session_start", map[], body.gameId, playerId, Platform, environment)]
      ensures !IsRegistered(status) ==>
                gameId == FallbackGameId(nowMs) && isInitialized && sent == old(sent)
    {
      responded := true;
      if status == 200 || status == 201 {
        match body
        case Unparsable =>
        case Parsed(id) =>
          gameId := id;
          isInitialized := true;
          EmptyPayload();
          Track("session_start", Some(JObj([])));
          sessionStarts := sessionStarts + 1;
      } else {
        gameId := "game_fallback_" + NatStr(nowMs);
        isInitialized := true;
      }
    }

    /** The registration request's `onerror`: a fallback id, and the gate
        opens. Browsers may run it after the completion handler too. */
    method OnRegistrationError(nowMs: nat)
      requires Valid() && registration.Some?
      modifies this`gameId, this`isInitialized
      ensures Valid()
      ensures gameId == FallbackGameId(nowMs) && isInitialized
    {
      gameId := "game_fallback_" + NatStr(nowMs);
      isInitialized := true;
    }

    /** `track(eventType, payload)`: nothing unless tracking is enabled and
        the gate is open; otherwise exactly one event, carrying the
        flattened payload and the current identity. */
    method Track(eventType: string, payload: Option<Json>)
      requires Valid()
      modifies this`sent
      ensures Valid()
      ensures sent == old(sent) + (if trackingEnabled && isInitialized then [EventFor(eventType, payload)] else [])
    {
      if !trackingEnabled || !isInitialized {
        return;
      }
      var body := if payload.None? || IsFalsy(payload.value) then JObj([]) else payload.value;
      var flatPayload := FlattenPayload(body, "");
      var eventBody := EventRecord(eventType, flatPayload, gameId, playerId, Platform, environment);
      sent := sent + [eventBody];
    }

    /** `trackSessionEnd()`: once the gate is open, the first call marks the
        session ended and sends `session_end`; every other call does
        nothing. */
    method TrackSessionEnd()
      requires Valid()
      modifies this`sessionEnded, this`sent, this`sessionEnds
      ensures Valid()
      ensures sessionEnded == (old(sessionEnded) || isInitialized)
      ensures sent == old(sent) +
                if isInitialized && !old(sessionEnded)
                then [EventRecord("session_end", map[], gameId, playerId, Platform, environment)]
                else []
    {
      if !isInitialized || sessionEnded {
        return;
      }
      sessionEnded := true;
      sessionEnds := sessionEnds + 1;
      EmptyPayload();
      Track("session_end", Some(JObj([])));
    }
  }

  /** An empty payload flattens to an empty dictionary. */
  lemma EmptyPayload()
    ensures Flatten(PayloadOrEmpty(Some(JObj([]))), "") == map[]
  {
  }

  /** The three teardown listeners (`beforeunload`, `visibilitychange` to
      hidden, `unload`) may all fire: one `session_end` at most. */
  method TeardownSignals(sdk: TokebiSdk)
    requires sdk.Valid()
    modifies sdk`sessionEnded, sdk`sent, sdk`sessionEnds
    ensures sdk.Valid()
    ensures sdk.sessionEnded == (old(sdk.sessionEnded) || old(sdk.isInitialized))
    ensures sdk.sent == old(sdk.sent) +
              if old(sdk.isInitialized) && !old(sdk.sessionEnded)
              then [EventRecord("session_end", map[], old(sdk.gameId), old(sdk.playerId), Platform, sdk.environment)]
              else []
  {
    sdk.TrackSessionEnd();
    sdk.TrackSessionEnd();
    sdk.TrackSessionEnd();
  }

  /** A rejected registration does not block tracking: the next event goes
      out under the fallback id. */
  method FallbackThenTrack(sdk: TokebiSdk, status: int, nowMs: nat, eventType: string, payload: Option<Json>)
    requires sdk.Valid() && sdk.registration.Some? && !sdk.responded
    requires !IsRegistered(status)
    modifies sdk`gameId, sdk`isInitialized, sdk`responded, sdk`sent, sdk`sessionStarts
    ensures sdk.Valid()
    ensures sdk.sent == old(sdk.sent) + [sdk.EventFor(eventType, payload)]
    ensures sdk.sent[|sdk.sent| - 1].gameId == FallbackGameId(nowMs)
  {
    sdk.OnRegistrationResponse(status, Unparsable, nowMs);
    sdk.Track(eventType, payload);
  }

  /** When building or sending the registration request threw, no
      callback is pending and the gate never opens: nothing is ever sent. */
  method ClosedAfterRegistrationThrew(sdk: TokebiSdk, eventType: string, payload: Option<Json>)
    requires sdk.Valid() && sdk.registration == None
    modifies sdk`sent, sdk`sessionEnded, sdk`sessionEnds
    ensures sdk.Valid() && !sdk.isInitialized
    ensures sdk.sent == old(sdk.sent) == []
  {
    sdk.Track(eventType, payload);
    sdk.TrackSessionEnd();
  }
}
