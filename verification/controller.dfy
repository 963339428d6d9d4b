/**
 * The session with one LED device (class Controller). The BLE client is
 * abstracted to what the controller does with it: `hasClient` says whether
 * `connect` has created it, `sent` is the log of every write it was asked to
 * make, and `subscriptions` the characteristics it was asked to notify on.
 * The background state loop is abstracted to its task handle: `spawned`
 * counts the tasks created, each identified by its creation number, and
 * `cancelled` logs the handles cancelled.
 */
module Controller {
  import opened Wrappers
  import opened CommandUtils
  import opened Discovery
  import opened Hex

  /** One call of `write_gatt_char`: target characteristic (possibly None), payload, acknowledged or not. */
  datatype Write = Write(target: Option<Uuid>, payload: seq<Byte>, response: bool)

  /** The `color` shadow field: None, an (r, g, b) tuple, or the hex string last set. */
  datatype ColorState = NoColor | Rgb(red: int, green: int, blue: int) | HexCode(hex: string)

  /** The exception a call raises: Python's AttributeError, ValueError from `bytes`, ValueError from `fromhex`. */
  datatype Fault = ClientMissing | ByteOutOfRange | MalformedHex

  /** What becomes of one command: its frame was handed to the client, or the call raised. */
  datatype Outcome = Sent | Raised(fault: Fault)

  type TaskId = nat

  /** The time-to-colour function: wall-clock seconds to a hex colour string. */
  type StateFunction = real -> string

  class Controller {
    const deviceAddress: string

    // characteristics to track
    var writeUuid: Option<Uuid>
    var notifyUuid: Option<Uuid>

    // shadow state: the last value each setter was given
    var color: ColorState
    var brightness: Option<int>
    var speed: Option<int>
    var pattern: Option<int>
    var power: bool

    // state loop
    var stateFunction: Option<StateFunction>
    var task: Option<TaskId>
    var deltaT: real

    // the abstract BLE client and event loop
    var hasClient: bool
    var sent: seq<Write>
    var subscriptions: seq<Uuid>
    var spawned: nat
    var cancelled: seq<TaskId>

    /** A fresh controller; configured characteristics are kept, everything else starts unset. */
    constructor (address: string, writeCharacteristic: Option<Uuid> := None, notifyCharacteristic: Option<Uuid> := None)
      ensures deviceAddress == address
      ensures writeUuid == writeCharacteristic && notifyUuid == notifyCharacteristic
      ensures color == NoColor && brightness == None && speed == None && pattern == None && !power
      ensures stateFunction == None && task == None && deltaT == 0.02
      ensures !hasClient && sent == [] && subscriptions == [] && spawned == 0 && cancelled == []
      ensures Valid()
    {
      deviceAddress := address;
      writeUuid := writeCharacteristic;
      notifyUuid := notifyCharacteristic;
      color := NoColor;
      brightness := None;
      speed := None;
      pattern := None;
      power := false;
      stateFunction := None;
      task := None;
      deltaT := 0.02;
      hasClient := false;
      sent := [];
      subscriptions := [];
      spawned := 0;
      cancelled := [];
    }

    /**
     * The task bookkeeping every reachable state keeps: handles are creation
     * numbers, so the current one and every cancelled one are below `spawned`.
     */
    ghost predicate Valid()
      reads this`task, this`spawned, this`cancelled
    {
      && (task.Some? ==> task.value < spawned)
      && (forall t :: t in cancelled ==> t < spawned)
    }

    /**
     * The effect of handing `payload` to the client: one unacknowledged write to the
     * current write characteristic, or AttributeError and no write before `connect`.
     */
    ghost predicate Dispatched(before: seq<Write>, payload: seq<Byte>, out: Outcome)
      reads this
    {
      if hasClient then sent == before + [Write(writeUuid, payload, false)] && out == Sent
      else sent == before && out == Raised(ClientMissing)
    }

    /** Connect: the client now exists, the GATT table is scanned, and notifications are requested if a notify characteristic is known. */
    method Connect(services: seq<Service>)
      modifies this`hasClient, this`writeUuid, this`notifyUuid, this`subscriptions
      ensures hasClient
      ensures writeUuid == OrElse(old(writeUuid), FirstMatch(services, WriteProperty))
      ensures notifyUuid == OrElse(old(notifyUuid), FirstMatch(services, NotifyProperty))
      ensures subscriptions == old(subscriptions) + (if notifyUuid.Some? then [notifyUuid.value] else [])
    {
      hasClient := true;
      ScanServicesCharacteristics(services);
      if notifyUuid.Some? {
        subscriptions := subscriptions + [notifyUuid.value];
      }
    }

    /**
     * The characteristic scan: a UUID already set is never changed; an unset one
     * becomes the first characteristic, in enumeration order, with a property
     * string containing "write" (resp. "notify"), and stays unset if there is none.
     */
    method ScanServicesCharacteristics(services: seq<Service>)
      modifies this`writeUuid, this`notifyUuid
      ensures writeUuid == OrElse(old(writeUuid), FirstMatch(services, WriteProperty))
      ensures notifyUuid == OrElse(old(notifyUuid), FirstMatch(services, NotifyProperty))
    {
      for i := 0 to |services|
        invariant writeUuid == OrElse(old(writeUuid), FirstMatch(services[..i], WriteProperty))
        invariant notifyUuid == OrElse(old(notifyUuid), FirstMatch(services[..i], NotifyProperty))
      {
        var characteristics := services[i].characteristics;
        assert services[..i + 1] == services[..i] + [services[i]];
        FlattenAppend(services[..i], services[i]);
        FirstInAppend(Flatten(services[..i]), characteristics, WriteProperty);
        FirstInAppend(Flatten(services[..i]), characteristics, NotifyProperty);
        ghost var writeBefore, notifyBefore := writeUuid, notifyUuid;
        for j := 0 to |characteristics|
          invariant writeUuid == OrElse(writeBefore, FirstIn(characteristics[..j], WriteProperty))
          invariant notifyUuid == OrElse(notifyBefore, FirstIn(characteristics[..j], NotifyProperty))
        {
          var characteristic := characteristics[j];
          assert characteristics[..j + 1] == characteristics[..j] + [characteristic];
          FirstInAppend(characteristics[..j], [characteristic], WriteProperty);
          FirstInAppend(characteristics[..j], [characteristic], NotifyProperty);
          ScanProperties(characteristic);
        }
        assert characteristics[..|characteristics|] == characteristics;
      }
      assert services[..|services|] == services;
    }

    /**
     * The innermost loop of the scan, over one characteristic's property strings:
     * an unset UUID becomes this characteristic's when one of its properties qualifies.
     */
    method ScanProperties(characteristic: Characteristic)
      modifies this`writeUuid, this`notifyUuid
      ensures writeUuid == OrElse(old(writeUuid), FirstIn([characteristic], WriteProperty))
      ensures notifyUuid == OrElse(old(notifyUuid), FirstIn([characteristic], NotifyProperty))
    {
      var properties := characteristic.properties;
      for k := 0 to |properties|
        invariant writeUuid == OrElse(old(writeUuid),
          if AnyPropertyHas(properties[..k], WriteProperty) then Some(characteristic.uuid) else None)
        invariant notifyUuid == OrElse(old(notifyUuid),
          if AnyPropertyHas(properties[..k], NotifyProperty) then Some(characteristic.uuid) else None)
      {
        var prop := properties[k];
        if writeUuid.None? && Contains(prop, WriteProperty) {
          writeUuid := Some(characteristic.uuid);
        }
        if notifyUuid.None? && Contains(prop, NotifyProperty) {
          notifyUuid := Some(characteristic.uuid);
        }
        assert properties[..k + 1] == properties[..k] + [prop];
      }
      assert properties[..|properties|] == properties;
    }

    /** send_bytes: an unacknowledged write of the payload to the current write UUID, even when that is None. */
    method SendBytes(payload: seq<Byte>) returns (out: Outcome)
      modifies this`sent
      ensures Dispatched(old(sent), payload, out)
    {
      if !hasClient {
        return Raised(ClientMissing);
      }
      sent := sent + [Write(writeUuid, payload, false)];
      out := Sent;
    }

    /** ping: send a keep-alive payload, by default the single byte 0x00. */
    method Ping(payload: seq<Byte> := [0x00]) returns (out: Outcome)
      modifies this`sent
      ensures Dispatched(old(sent), payload, out)
    {
      out := SendBytes(payload);
    }

    /** set_color: records (r, g, b), then sends the colour frame; a component outside 0..255 raises before sending. */
    method SetColor(r: int, g: int, b: int) returns (out: Outcome)
      modifies this`color, this`sent
      ensures color == Rgb(r, g, b)
      ensures ColorCommand(r, g, b).None? ==> sent == old(sent) && out == Raised(ByteOutOfRange)
      ensures ColorCommand(r, g, b).Some? ==> Dispatched(old(sent), ColorCommand(r, g, b).value, out)
    {
      color := Rgb(r, g, b);
      var cmd := ColorCommand(r, g, b);
      if cmd.None? {
        return Raised(ByteOutOfRange);
      }
      out := SendBytes(cmd.value);
    }

    /**
     * set_color_hex: records the string, then sends the colour frame around its decoded
     * bytes; a string that does not decode raises before sending, with the string still recorded.
     */
    method SetColorHex(hex: string) returns (out: Outcome)
      modifies this`color, this`sent
      ensures color == HexCode(hex)
      ensures FromHex(hex).None? ==> sent == old(sent) && out == Raised(MalformedHex)
      ensures FromHex(hex).Some? ==> Dispatched(old(sent), ColorCommandBytes(FromHex(hex).value), out)
    {
      color := HexCode(hex);
      var decoded := FromHex(hex);
      if decoded.None? {
        return Raised(MalformedHex);
      }
      out := SendBytes(ColorCommandBytes(decoded.value));
    }

    /** set_brightness: stores the raw value, sends the clamped brightness frame. */
    method SetBrightness(value: int) returns (out: Outcome)
      modifies this`brightness, this`sent
      ensures brightness == Some(value)
      ensures Dispatched(old(sent), BrightnessCommand(value), out)
    {
      brightness := Some(value);
      out := SendBytes(BrightnessCommand(value));
    }

    /** set_speed: stores the raw value, sends the clamped speed frame. */
    method SetSpeed(value: int) returns (out: Outcome)
      modifies this`speed, this`sent
      ensures speed == Some(value)
      ensures Dispatched(old(sent), SpeedCommand(value), out)
    {
      speed := Some(value);
      out := SendBytes(SpeedCommand(value));
    }

    /** set_pattern: stores the raw value, sends the clamped pattern frame. */
    method SetPattern(value: int) returns (out: Outcome)
      modifies this`pattern, this`sent
      ensures pattern == Some(value)
      ensures Dispatched(old(sent), PatternCommand(value), out)
    {
      pattern := Some(value);
      out := SendBytes(PatternCommand(value));
    }

    /** set_power: stores the flag, sends the on/off frame. */
    method SetPower(on: bool) returns (out: Outcome)
      modifies this`power, this`sent
      ensures power == on
      ensures Dispatched(old(sent), OnOffCommand(on), out)
    {
      power := on;
      out := SendBytes(OnOffCommand(on));
    }

    method TurnOn() returns (out: Outcome)
      modifies this`power, this`sent
      ensures power
      ensures Dispatched(old(sent), OnOffCommand(true), out)
    {
      out := SetPower(true);
    }

    method TurnOff() returns (out: Outcome)
      modifies this`power, this`sent
      ensures !power
      ensures Dispatched(old(sent), OnOffCommand(false), out)
    {
      out := SetPower(false);
    }

    /** toggle_power: sets the power to the negation of the shadow flag. */
    method TogglePower() returns (out: Outcome)
      modifies this`power, this`sent
      ensures power == !old(power)
      ensures Dispatched(old(sent), OnOffCommand(!old(power)), out)
    {
      out := SetPower(!power);
    }

    /** set_state_function: registers the time-to-colour function; the loop is not started. */
    method SetStateFunction(f: StateFunction)
      modifies this`stateFunction
      ensures stateFunction == Some(f)
    {
      stateFunction := Some(f);
    }

    /**
     * One pass of the state loop's body once its sleep is over: the registered
     * function maps the current time to a hex colour, which set_color_hex sends.
     * The loop is created only once a function is registered. The model's SetStateFunction
     * takes a function, never None, so the TypeError a pass raises after `set_state_function(None)`
     * is excluded from the model.
     */
    method StateLoopStep(now: real) returns (out: Outcome)
      requires stateFunction.Some?
      modifies this`color, this`sent
      ensures color == HexCode(stateFunction.value(now))
      ensures FromHex(stateFunction.value(now)).None? ==> sent == old(sent) && out == Raised(MalformedHex)
      ensures FromHex(stateFunction.value(now)).Some? ==>
        Dispatched(old(sent), ColorCommandBytes(FromHex(stateFunction.value(now)).value), out)
    {
      var hex := stateFunction.value(now);
      out := SetColorHex(hex);
    }

    /**
     * start_state_loop: always records the interval; creates a new task only when a
     * function is registered. A task already running is replaced without being cancelled.
     */
    method StartStateLoop(interval: real := 0.02)
      requires Valid()
      modifies this`deltaT, this`task, this`spawned
      ensures Valid()
      ensures deltaT == interval
      ensures stateFunction.None? ==> task == old(task) && spawned == old(spawned)
      ensures stateFunction.Some? ==> task == Some(old(spawned)) && spawned == old(spawned) + 1
    {
      deltaT := interval;
      if stateFunction.None? {
        return;
      }
      task := Some(spawned);
      spawned := spawned + 1;
    }

    /** stop_state_loop: cancels and forgets the current task; nothing happens when there is none. */
    method StopStateLoop()
      requires Valid()
      modifies this`task, this`cancelled
      ensures Valid()
      ensures task == None
      ensures old(task).None? ==> cancelled == old(cancelled)
      ensures old(task).Some? ==> cancelled == old(cancelled) + [old(task).value]
    {
      if task.None? {
        return;
      }
      cancelled := cancelled + [task.value];
      task := None;
    }
  }

  /**
   * Two toggles restore the shadow power and change nothing but `power` and `sent`:
   * with a client they write the frames for the negated flag, then the original one;
   * without one each raises AttributeError and nothing is written.
   */
  method ToggleTwice(c: Controller) returns (first: Outcome, second: Outcome)
    modifies c`power, c`sent
    ensures c.power == old(c.power)
    ensures c.hasClient ==> first == Sent && second == Sent
    ensures c.hasClient ==>
      c.sent == old(c.sent) + [Write(old(c.writeUuid), OnOffCommand(!old(c.power)), false),
                               Write(old(c.writeUuid), OnOffCommand(old(c.power)), false)]
    ensures !c.hasClient ==> first == Raised(ClientMissing) && second == Raised(ClientMissing)
    ensures !c.hasClient ==> c.sent == old(c.sent)
  {
    first := c.TogglePower();
    second := c.TogglePower();
  }

  /** A second stop right after a first is a no-op: nothing more is cancelled and nothing else changes. */
  method StopTwice(c: Controller)
    requires c.Valid()
    modifies c`task, c`cancelled
    ensures c.Valid()
    ensures c.task == None
    ensures c.cancelled == old(c.cancelled) + (if old(c.task).Some? then [old(c.task).value] else [])
  {
    c.StopStateLoop();
    c.StopStateLoop();
  }

  /**
   * Starting the loop twice overwrites the handle: the second task replaces the first,
   * which is never added to `cancelled`.
   */
  method RestartLeavesFirstTaskRunning(c: Controller) returns (earlier: TaskId)
    requires c.Valid() && c.stateFunction.Some?
    modifies c`deltaT, c`task, c`spawned
    ensures c.Valid()
    ensures earlier == old(c.spawned) && c.task == Some(old(c.spawned) + 1)
    ensures c.spawned == old(c.spawned) + 2 && c.deltaT == 0.02
    ensures earlier !in c.cancelled
  {
    c.StartStateLoop();
    earlier := c.task.value;
    c.StartStateLoop();
  }
}
