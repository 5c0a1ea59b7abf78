/**
  The dongle as the engine sees it. Every call is answered by an arbitrary function of its
  number, so what is proved holds whatever the dongle does; every call is recorded.
 */
module Radio {
  import opened Types

  /** Receiver type that addresses every group at once. */
  const BROADCAST: Byte := 255

  /** A command that sets one group's duties. */
  datatype Command = Command(mac: Mac, masterMac: Mac, receiver: Byte, channel: Byte, slot: Byte, duty: Quad)

  datatype Payload =
    | Beacon(masterMac: Mac, first: bool)
    | Duties(command: Command)

  /** What a call would get: the answer used is the one for the kind of call made. */
  datatype Answer = Answer(
    poll: Result<Reply, string>,
    sendError: Option<string>,
    reconnect: Result<(Mac, Byte), string>)

  type Oracle = nat -> Answer

  datatype Call =
    | Polled(result: Result<Reply, string>, at: Time)
    | Sent(channel: Byte, receiver: Byte, payload: Payload, error: Option<string>, at: Time)
    | Reconnected(everyChannel: bool, outcome: Result<(Mac, Byte), string>, at: Time)

  /** The dongle's address and channel, which only a successful reconnect changes, and the calls so far. */
  datatype Radio = Radio(masterMac: Mac, channel: Byte, calls: seq<Call>) {

    function Poll(oracle: Oracle, now: Time): (Radio, Result<Reply, string>) {
      var result := oracle(|calls|).poll;
      (this.(calls := calls + [Polled(result, now)]), result)
    }

    function Send(oracle: Oracle, on: Byte, receiver: Byte, payload: Payload, now: Time): (Radio, Option<string>) {
      var error := oracle(|calls|).sendError;
      (this.(calls := calls + [Sent(on, receiver, payload, error, now)]), error)
    }

    function Reconnect(oracle: Oracle, everyChannel: bool, now: Time): (Radio, Result<(Mac, Byte), string>) {
      var result := oracle(|calls|).reconnect;
      var more := calls + [Reconnected(everyChannel, result, now)];
      (if result.Ok? then Radio(result.value.0, result.value.1, more) else this.(calls := more), result)
    }
  }

  class Link {
    const oracle: Oracle
    var masterMac: Mac
    var channel: Byte
    ghost var calls: seq<Call>
    var count: nat

    ghost predicate Valid()
      reads this
    {
      count == |calls|
    }

    ghost function View(): Radio
      reads this
    {
      Radio(masterMac, channel, calls)
    }

    constructor (master: Mac, on: Byte, answers: Oracle)
      ensures Valid() && View() == Radio(master, on, []) && oracle == answers
    {
      masterMac, channel, calls, count, oracle := master, on, [], 0, answers;
    }

    method Poll(ghost now: Time) returns (result: Result<Reply, string>)
      requires Valid()
      modifies this
      ensures Valid() && (View(), result) == old(View()).Poll(oracle, now)
    {
      result := oracle(count).poll;
      calls, count := calls + [Polled(result, now)], count + 1;
    }

    method Send(on: Byte, receiver: Byte, payload: Payload, ghost now: Time) returns (error: Option<string>)
      requires Valid()
      modifies this
      ensures Valid() && (View(), error) == old(View()).Send(oracle, on, receiver, payload, now)
    {
      error := oracle(count).sendError;
      calls, count := calls + [Sent(on, receiver, payload, error, now)], count + 1;
    }

    method Reconnect(everyChannel: bool, ghost now: Time) returns (result: Result<(Mac, Byte), string>)
      requires Valid()
      modifies this
      ensures Valid() && (View(), result) == old(View()).Reconnect(oracle, everyChannel, now)
    {
      result := oracle(count).reconnect;
      calls, count := calls + [Reconnected(everyChannel, result, now)], count + 1;
      if result.Ok? {
        masterMac, channel := result.value.0, result.value.1;
      }
    }
  }
}
