/**
 * The thermometer task's event processor. OSAL hands it a 16-bit mask of
 * pending events; each call handles at most one of them, in a fixed
 * priority order, and returns the mask of events still to process.
 * Calls into the OSAL and the BLE stack become recorded actions.
 */
module Thermometer {
  import opened Types
  import Comm

  /** OSAL's system-message event bit. */
  const SYS_EVENT_MSG: bv16 := 0x8000
  /** Task event bits of thermometer.h. */
  const TH_PERIODIC_IMEAS_EVT: bv16 := 0x0004
  const TH_CCC_UPDATE_EVT: bv16 := 0x0010
  /** The three bits Thermometer_ProcessEvent handles. */
  const HANDLED: bv16 := SYS_EVENT_MSG | TH_CCC_UPDATE_EVT | TH_PERIODIC_IMEAS_EVT

  /** Re-arm period of both periodic events, in ms. */
  const REARM_MS: nat := 3000

  /** OSAL message header event codes. */
  const KEY_CHANGE: uint8 := 0xC0
  const GATT_MSG_EVENT: uint8 := 0xB0

  /**
   * A queued OSAL message: its identity (the pointer), the header fields,
   * and the state and keys a keyChange_t view of it carries.
   */
  datatype OsalMsg = OsalMsg(id: nat, event: uint8, status: uint8, keyState: uint8, keys: uint8)

  /** What the task does to its collaborators. */
  datatype Action =
    | HandleButton(state: uint8, keys: uint8)   // ther_handle_button
    | HandleGattMsg(msgId: nat)                 // ther_handle_gatt_msg
    | Deallocate(msgId: nat)                    // osal_msg_deallocate
    | Indicate(ind: Comm.Indication)            // ther_send_temp_indicate
    | StartTimer(task: uint8, event: bv16, ms: nat)  // osal_start_timerEx

  /** What the foreign calls return during one call: ble_get_gap_handle, get_current_temp, the sensor type. */
  datatype Env = Env(gapHandle: uint16, temp: uint16, sensorType: uint8)

  /** ther_handle_msg: routes by the header's event code. */
  function Route(msg: OsalMsg): (acts: seq<Action>)
    ensures |acts| <= 1
    ensures acts != [] <==> msg.event == KEY_CHANGE || msg.event == GATT_MSG_EVENT
    ensures msg.event == KEY_CHANGE ==> acts == [HandleButton(msg.keyState, msg.keys)]
    ensures msg.event == GATT_MSG_EVENT ==> acts == [HandleGattMsg(msg.id)]
  {
    match msg.event
    case 0xC0 => [HandleButton(msg.keyState, msg.keys)]
    case 0xB0 => [HandleGattMsg(msg.id)]
    case _ => []
  }

  /** Which branch of Thermometer_ProcessEvent a call takes. */
  datatype Branch = SystemMessage | CccUpdate | PeriodicImeas | NoEvent

  /** The if-chain: the first set one of SYS_EVENT_MSG, TH_CCC_UPDATE_EVT, TH_PERIODIC_IMEAS_EVT wins. */
  function Classify(events: bv16): (b: Branch)
    ensures b == SystemMessage <==> events & SYS_EVENT_MSG != 0
    ensures b == CccUpdate <==> events & SYS_EVENT_MSG == 0 && events & TH_CCC_UPDATE_EVT != 0
    ensures b == PeriodicImeas <==>
      events & (SYS_EVENT_MSG | TH_CCC_UPDATE_EVT) == 0 && events & TH_PERIODIC_IMEAS_EVT != 0
    ensures b == NoEvent <==> events & HANDLED == 0
  {
    if events & SYS_EVENT_MSG != 0 then SystemMessage
    else if events & TH_CCC_UPDATE_EVT != 0 then CccUpdate
    else if events & TH_PERIODIC_IMEAS_EVT != 0 then PeriodicImeas
    else NoEvent
  }

  /** The event bit a branch handles. */
  function BitOf(b: Branch): bv16
  {
    match b
    case SystemMessage => SYS_EVENT_MSG
    case CccUpdate => TH_CCC_UPDATE_EVT
    case PeriodicImeas => TH_PERIODIC_IMEAS_EVT
    case NoEvent => 0
  }

  /** The mask Thermometer_ProcessEvent returns: `events ^ BIT` for the bit handled, or 0. */
  function Remaining(events: bv16): (r: bv16)
    ensures Classify(events) != NoEvent ==> r == events & !BitOf(Classify(events))
    ensures Classify(events) == NoEvent ==> r == 0
  {
    match Classify(events)
    case SystemMessage => events ^ SYS_EVENT_MSG
    case CccUpdate => events ^ TH_CCC_UPDATE_EVT
    case PeriodicImeas => events ^ TH_PERIODIC_IMEAS_EVT
    case NoEvent => 0
  }

  /** A call sets no bit that was not pending. */
  lemma SetsNoBit(events: bv16)
    ensures Remaining(events) & !events == 0
  {
    match Classify(events)
    case SystemMessage => XorClearsSetBit(events, SYS_EVENT_MSG);
    case CccUpdate => XorClearsSetBit(events, TH_CCC_UPDATE_EVT);
    case PeriodicImeas => XorClearsSetBit(events, TH_PERIODIC_IMEAS_EVT);
    case NoEvent =>
  }

  /** A call that handles an event clears exactly that event's bit. */
  lemma ClearsHandledBit(events: bv16)
    requires Classify(events) != NoEvent
    ensures Remaining(events) | BitOf(Classify(events)) == events
    ensures Remaining(events) & BitOf(Classify(events)) == 0
  {
    match Classify(events)
    case SystemMessage => XorSplitsSetBit(events, SYS_EVENT_MSG);
    case CccUpdate => XorSplitsSetBit(events, TH_CCC_UPDATE_EVT);
    case PeriodicImeas => XorSplitsSetBit(events, TH_PERIODIC_IMEAS_EVT);
  }

  /** For a set handled bit, `events ^ bit` only clears that bit. */
  lemma XorClearsSetBit(events: bv16, bit: bv16)
    requires bit == SYS_EVENT_MSG || bit == TH_CCC_UPDATE_EVT || bit == TH_PERIODIC_IMEAS_EVT
    requires events & bit != 0
    ensures events ^ bit == events & !bit
    ensures (events ^ bit) & !events == 0
  {
  }

  /** ... and splits `events` into that bit and the rest. */
  lemma XorSplitsSetBit(events: bv16, bit: bv16)
    requires bit == SYS_EVENT_MSG || bit == TH_CCC_UPDATE_EVT || bit == TH_PERIODIC_IMEAS_EVT
    requires events & bit != 0
    ensures (events & !bit) | bit == events && (events & !bit) & bit == 0
  {
  }

  /** The next call takes a lower-priority branch (or none). */
  lemma {:induction false} PriorityDrops(events: bv16)
    ensures Classify(events) == SystemMessage ==> Classify(Remaining(events)) != SystemMessage
    ensures Classify(events) == CccUpdate ==>
      Classify(Remaining(events)) == PeriodicImeas || Classify(Remaining(events)) == NoEvent
    ensures Classify(events) == PeriodicImeas ==> Classify(Remaining(events)) == NoEvent
    ensures Classify(events) == NoEvent ==> Remaining(events) == 0
  {
    SetsNoBit(events);
    if Classify(events) != NoEvent {
      ClearsHandledBit(events);
    }
  }

  /** Repeated calls reach 0 after at most four: three handled bits, then every other bit is dropped. */
  lemma DrainsWithinFour(events: bv16)
    ensures Remaining(Remaining(Remaining(Remaining(events)))) == 0
  {
    PriorityDrops(events);
    PriorityDrops(Remaining(events));
    PriorityDrops(Remaining(Remaining(events)));
    PriorityDrops(Remaining(Remaining(Remaining(events))));
  }

  /** The result of one call: the message queue, the actions in order, and the returned mask. */
  datatype Step = Step(inbox: seq<OsalMsg>, actions: seq<Action>, remaining: bv16)

  /** The indication ther_send_temp_indicate sends for this environment. */
  function IndicationFor(env: Env, taskId: uint8): (ind: Comm.Indication)
    ensures |ind.value| == 6 && ind.value[0] == Comm.THER_NOTIFY_FLAG
  {
    Comm.Indication(env.gapHandle, taskId,
                    Comm.EncodeTemp(Comm.THER_NOTIFY_FLAG, env.temp, Comm.NO_CLOCK, env.sensorType))
  }

  /** Thermometer_ProcessEvent as a function of the task's state and inputs. */
  function Process(taskId: uint8, inbox: seq<OsalMsg>, events: bv16, env: Env): (s: Step)
    ensures s.remaining == Remaining(events)
    ensures Classify(events) == SystemMessage ==>
      if inbox == [] then s.inbox == [] && s.actions == []
      else s.inbox == inbox[1..] && s.actions == Route(inbox[0]) + [Deallocate(inbox[0].id)]
    ensures Classify(events) == CccUpdate ==>
      s.inbox == inbox &&
      s.actions == [Indicate(IndicationFor(env, taskId)), StartTimer(taskId, TH_CCC_UPDATE_EVT, REARM_MS)]
    ensures Classify(events) == PeriodicImeas ==>
      s.inbox == inbox && s.actions == [StartTimer(taskId, TH_PERIODIC_IMEAS_EVT, REARM_MS)]
    ensures Classify(events) == NoEvent ==> s.inbox == inbox && s.actions == []
  {
    var r := Remaining(events);
    match Classify(events)
    case SystemMessage =>
      if inbox == [] then Step(inbox, [], r)
      else Step(inbox[1..], Route(inbox[0]) + [Deallocate(inbox[0].id)], r)
    case CccUpdate =>
      Step(inbox, [Indicate(IndicationFor(env, taskId)), StartTimer(taskId, TH_CCC_UPDATE_EVT, REARM_MS)], r)
    case PeriodicImeas =>
      Step(inbox, [StartTimer(taskId, TH_PERIODIC_IMEAS_EVT, REARM_MS)], r)
    case NoEvent =>
      Step(inbox, [], r)
  }

  /**
   * Across any call at most one message is consumed, from the front of the
   * queue, and every message taken is deallocated after it is routed;
   * a re-armed timer is always the bit that call handled, for 3000 ms.
   */
  lemma {:induction false} ProcessInvariants(taskId: uint8, inbox: seq<OsalMsg>, events: bv16, env: Env)
    ensures var s := Process(taskId, inbox, events, env);
      (s.inbox == inbox || (inbox != [] && s.inbox == inbox[1..])) &&
      (s.inbox != inbox ==> s.actions[|s.actions| - 1] == Deallocate(inbox[0].id)) &&
      (forall i :: 0 <= i < |s.actions| && s.actions[i].StartTimer? ==>
         s.actions[i] == StartTimer(taskId, BitOf(Classify(events)), REARM_MS)) &&
      |s.actions| <= 2
  {
    var s := Process(taskId, inbox, events, env);
    if Classify(events) == SystemMessage && inbox != [] {
      assert s.actions == Route(inbox[0]) + [Deallocate(inbox[0].id)];
      assert inbox[1..] != inbox by { assert |inbox[1..]| < |inbox|; }
    }
  }

  /** The thermometer task: its id, its OSAL message queue and the log of what it did. */
  class Task {
    var taskId: uint8
    var inbox: seq<OsalMsg>
    var log: seq<Action>

    /** The part of Thermometer_Init this model keeps: recording the task id. */
    constructor (taskId: uint8, inbox: seq<OsalMsg>)
      ensures this.taskId == taskId && this.inbox == inbox && log == []
    {
      this.taskId := taskId;
      this.inbox := inbox;
      log := [];
    }

    /** ther_handle_msg */
    method HandleMsg(msg: OsalMsg)
      modifies this`log
      ensures log == old(log) + Route(msg)
    {
      if msg.event == KEY_CHANGE {
        log := log + [HandleButton(msg.keyState, msg.keys)];
      } else if msg.event == GATT_MSG_EVENT {
        log := log + [HandleGattMsg(msg.id)];
      }
    }

    /** osal_msg_receive: the first message queued for this task, if any. */
    method Receive() returns (msg: Option<OsalMsg>)
      modifies this`inbox
      ensures old(inbox) == [] ==> msg == None && inbox == []
      ensures old(inbox) != [] ==> msg == Some(old(inbox)[0]) && inbox == old(inbox)[1..]
    {
      if inbox == [] {
        msg := None;
      } else {
        msg := Some(inbox[0]);
        inbox := inbox[1..];
      }
    }

    /** Thermometer_ProcessEvent */
    method ProcessEvent(events: bv16, env: Env) returns (r: bv16)
      modifies this
      ensures taskId == old(taskId)
      ensures r == Process(taskId, old(inbox), events, env).remaining
      ensures inbox == Process(taskId, old(inbox), events, env).inbox
      ensures log == old(log) + Process(taskId, old(inbox), events, env).actions
    {
      if events & SYS_EVENT_MSG != 0 {
        var msg := Receive();
        if msg.Some? {
          HandleMsg(msg.value);
          log := log + [Deallocate(msg.value.id)];
        }
        return events ^ SYS_EVENT_MSG;
      }

      if events & TH_CCC_UPDATE_EVT != 0 {
        var ind := Comm.SendTempIndicate(env.gapHandle, taskId, env.temp, env.sensorType);
        log := log + [Indicate(ind)];
        log := log + [StartTimer(taskId, TH_CCC_UPDATE_EVT, REARM_MS)];
        return events ^ TH_CCC_UPDATE_EVT;
      }

      if events & TH_PERIODIC_IMEAS_EVT != 0 {
        log := log + [StartTimer(taskId, TH_PERIODIC_IMEAS_EVT, REARM_MS)];
        return events ^ TH_PERIODIC_IMEAS_EVT;
      }

      return 0;
    }
  }
}
