/** Low-level power control of the modem (src/driver/modem/pinephone/power.h). */
module Powers {

  datatype Requested = DontCare | RequestOff | RequestOn

  datatype State = Unknown | Off | StartingUp | On | ShuttingDown

  /** The modem's status pin, which may read anything at any time. High means off. */
  class StatusPin {
    /** The most recent reading. */
    ghost var level: bool
    ghost var readings: seq<bool>

    constructor ()
      ensures readings == []
    {
      readings := [];
    }

    method Read() returns (high: bool)
      modifies this
      ensures level == high && readings == old(readings) + [high]
    {
      high := *;
      level := high;
      readings := readings + [high];
    }
  }

  // ---- what powering up or down amounts to ----

  /** Where the sequence ends once it has started, given the last reading of the status pin. */
  function Started(enabled: bool, high: bool): State {
    if enabled then (if high then StartingUp else On) else (if high then Off else ShuttingDown)
  }

  /** The power key must be pressed to get the modem out of this state. */
  predicate NeedsKey(s: State, enabled: bool) {
    if enabled then s == Off else s == On || s == StartingUp
  }

  predicate InSequence(s: State, enabled: bool) {
    s == if enabled then StartingUp else ShuttingDown
  }

  /** `before` is known, `high` is the last reading: the key is pressed once if needed, and the
      sequence then follows the status pin. A state that belongs to neither is left alone. */
  predicate Driven(enabled: bool, before: State, pressed: nat, high: bool, after: State, pressed': nat) {
    if NeedsKey(before, enabled) then after == Started(enabled, high) && pressed' == pressed + 1
    else if InSequence(before, enabled) then after == Started(enabled, high) && pressed' == pressed
    else after == before && pressed' == pressed
  }

  /** In plain words: switching on leads from off or starting up to on if the pin reads low, and to
      starting up if not; switching off leads from on, starting up or shutting down to off if the pin
      reads high, and to shutting down if not. */
  lemma DrivenMeans(enabled: bool, before: State, pressed: nat, high: bool, after: State, pressed': nat)
    requires Driven(enabled, before, pressed, high, after, pressed')
    ensures enabled && before in {Off, StartingUp} ==> after == if high then StartingUp else On
    ensures enabled && before !in {Off, StartingUp} ==> after == before
    ensures !enabled && before in {On, StartingUp, ShuttingDown} ==> after == if high then Off else ShuttingDown
    ensures !enabled && before !in {On, StartingUp, ShuttingDown} ==> after == before
    ensures pressed' == pressed + if before in (if enabled then {Off} else {On, StartingUp}) then 1 else 0
  {
  }

  /** Steps that the sequence may still take. */
  function StepsLeft(enabled: bool, s: State): nat {
    match s
    case Unknown => 3
    case Off => if enabled then 2 else 0
    case StartingUp => if enabled then 1 else 2
    case On => if enabled then 0 else 2
    case ShuttingDown => if enabled then 0 else 1
  }

  class Power {
    const pin: StatusPin
    var requested: Requested
    var state: State
    var rfEnabled: bool
    /** Number of times the power key was pressed. */
    ghost var pressed: nat

    constructor ()
      ensures state == Unknown && requested == DontCare && fresh(pin)
    {
      pin := new StatusPin();
      requested, state, rfEnabled := DontCare, Unknown, false;
      pressed := 0;
    }

    method PressPwrkey()
      modifies this`pressed
      ensures pressed == old(pressed) + 1
    {
      pressed := pressed + 1;
    }

    /** One step towards On. */
    method DrivePowerUp()
      modifies this, pin
      ensures requested == old(requested) && old(pin.readings) <= pin.readings
      ensures rfEnabled == if old(state) == Off then true else old(rfEnabled)
      ensures match old(state)
              case Off => state == StartingUp && pressed == old(pressed) + 1 && pin.level == old(pin.level)
              case StartingUp => state == Started(true, pin.level) && pressed == old(pressed)
              case _ => state == old(state) && pressed == old(pressed) && pin.level == old(pin.level)
    {
      match state
      case Off =>
        rfEnabled := true;
        PressPwrkey();
        state := StartingUp;
      case StartingUp =>
        var high := pin.Read();
        if !high {
          state := On;
        }
      case _ =>
    }

    /** One step towards Off. */
    method DrivePowerDown()
      modifies this, pin
      ensures requested == old(requested) && old(pin.readings) <= pin.readings
      ensures rfEnabled == if old(state) == On || old(state) == StartingUp then false else old(rfEnabled)
      ensures match old(state)
              case StartingUp => state == ShuttingDown && pressed == old(pressed) + 1 && pin.level == old(pin.level)
              case On => state == ShuttingDown && pressed == old(pressed) + 1 && pin.level == old(pin.level)
              case ShuttingDown => state == Started(false, pin.level) && pressed == old(pressed)
              case _ => state == old(state) && pressed == old(pressed) && pin.level == old(pin.level)
    {
      match state
      case StartingUp =>
        rfEnabled := false;
        PressPwrkey();
        state := ShuttingDown;
      case On =>
        rfEnabled := false;
        PressPwrkey();
        state := ShuttingDown;
      case ShuttingDown =>
        var high := pin.Read();
        if high {
          state := Off;
        }
      case _ =>
    }

    /** Drive the power-up or power-down sequence until it waits for the status pin or is done,
        whatever the pin reads. */
    method PowerEnabled(enabled: bool)
      modifies this, pin
      ensures requested == if enabled then RequestOn else RequestOff
      ensures old(state) != Unknown ==> Driven(enabled, old(state), old(pressed), pin.level, state, pressed)
      ensures old(state) == Unknown ==>
                && |old(pin.readings)| < |pin.readings|
                && Driven(enabled, if pin.readings[|old(pin.readings)|] then Off else On, old(pressed), pin.level, state,
                          pressed)
      ensures rfEnabled == if pressed == old(pressed) then old(rfEnabled) else enabled
      ensures state == old(state) || StepsLeft(enabled, state) < StepsLeft(enabled, old(state))
    {
      requested := if enabled then RequestOn else RequestOff;
      if state == Unknown {
        var high := pin.Read();
        state := if high then Off else On;
      }
      ghost var known, readings := state, pin.readings;
      var settled := false;
      while !settled
        invariant requested == if enabled then RequestOn else RequestOff
        invariant known != Unknown && state != Unknown && readings <= pin.readings
        invariant rfEnabled == if pressed == old(pressed) then old(rfEnabled) else enabled
        invariant StepsLeft(enabled, state) <= StepsLeft(enabled, known)
        invariant known != state ==> StepsLeft(enabled, state) < StepsLeft(enabled, known)
        invariant settled ==> Driven(enabled, known, old(pressed), pin.level, state, pressed)
        invariant !settled ==>
                    || (state == known && pressed == old(pressed))
                    || (NeedsKey(known, enabled) && pressed == old(pressed) + 1
                        && (InSequence(state, enabled) || state == Started(enabled, pin.level)))
                    || (InSequence(known, enabled) && pressed == old(pressed)
                        && state == Started(enabled, pin.level))
        decreases !settled, StepsLeft(enabled, state)
      {
        var origState := state;
        if requested == RequestOn {
          DrivePowerUp();
        } else {
          DrivePowerDown();
        }
        settled := origState == state;
      }
    }
  }
}
