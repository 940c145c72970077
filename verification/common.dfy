/** Small shared vocabulary: optional values, the one fault the core can
    raise (a float division by zero, which ends the program), and the
    pygame events the core reacts to. */
module Common {

  datatype Option<T> = None | Some(value: T)

  /** The only exception the modelled code can raise: Python's
      ZeroDivisionError on a float or int division by zero. */
  datatype Fault = ZeroDivision

  datatype Result<T> = Success(value: T) | Failure(fault: Fault)

  /** Keys the core distinguishes; every other key is `OtherKey`. */
  datatype Key = Escape | Down | Up | Return | OtherKey(code: int)

  /** One pygame event. `GlobalTick` is the custom timer event
      (`USEREVENT + 0`) that the game schedules every 40 ms. */
  datatype Event =
    | Quit
    | KeyDown(key: Key)
    | MouseButtonDown(button: int)
    | GlobalTick
    | OtherEvent

  /** Some event of the batch equals `e`. */
  predicate Contains(events: seq<Event>, e: Event)
  {
    exists i :: 0 <= i < |events| && events[i] == e
  }

  /** How many events of the batch equal `e`; positive exactly when the
      batch contains it. */
  function Count(events: seq<Event>, e: Event): (n: nat)
    ensures n <= |events|
    ensures n > 0 <==> Contains(events, e)
  {
    if |events| == 0 then 0
    else
      ContainsCons(events, e);
      (if events[0] == e then 1 else 0) + Count(events[1..], e)
  }

  /** A non-empty batch contains `e` exactly when its first event is `e`
      or the rest contains it. */
  lemma ContainsCons(events: seq<Event>, e: Event)
    requires |events| > 0
    ensures Contains(events, e) <==> events[0] == e || Contains(events[1..], e)
  {
    if Contains(events, e) && events[0] != e {
      var i :| 0 <= i < |events| && events[i] == e;
      assert events[1..][i - 1] == e;
    }
    if Contains(events[1..], e) {
      var i :| 0 <= i < |events| - 1 && events[1..][i] == e;
      assert events[i + 1] == e;
    }
  }
}
