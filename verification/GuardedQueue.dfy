/** The critical sections of the blocking queue as code over the ring, each proved to be one step of the model. */
module GuardedQueue {
  import opened BlockingQueue
  import opened CircularQueue

  datatype Result = Done | Refused | Sleep

  class Guarded<T(0)> {
    const ring: Ring<T>
    var mode: Mode
    var discards: nat

    ghost predicate Valid()
      reads this, ring
    {
      ring.Valid() && ring.maxItems > 0
    }

    /** The object is the shared part of a model state. */
    ghost predicate Represents(s: State<T>)
      requires Valid()
      reads this, ring, ring.items
    {
      && s.queue == ring.Contents() && s.cap == ring.Room() && s.overrun == ring.overrun
      && s.mode == mode && s.discards == discards
    }

    constructor (capacity: nat)
      ensures Valid() && fresh(ring) && fresh(ring.items)
      ensures Represents(Start(capacity, 0, 0))
    {
      ring := new Ring<T>.WithCapacity(capacity);
      mode, discards := Running, 0;
    }

    /** What a producer does between taking the mutex and giving it up. */
    method EnqueueSection(push: PushKind, item: T, expired: bool, ghost s: State<T>, ghost t: nat)
      returns (result: Result)
      requires Valid() && Represents(s)
      modifies this`discards, ring, ring.items
      ensures Valid() && ring.items == old(ring.items)
      ensures var (e, pc) := PushSection(s, Pushing(push, item, false, expired));
        && Represents(Perform(s, t, e))
        && pc == (match result case Done => PushNotify case Refused => Idle case Sleep => PushAsleep(push, item))
    {
      var full := ring.IsFull();
      var stopped := mode != Running;
      match push {
      case PushTry =>
        if full || stopped {
          if full {
            discards := discards + 1;
          }
          return Refused;
        }
      case PushOverwrite =>
        if stopped {
          return Refused;
        }
      case _ =>
        if full && !stopped {
          return if expired then Refused else Sleep;
        }
        if stopped {
          return Refused;
        }
      }
      ring.PushBack(item);
      result := Done;
    }

    /** What a consumer does between taking the mutex and giving it up. */
    method DequeueSection(pop: PopKind, expired: bool, ghost s: State<T>, ghost t: nat)
      returns (out: Option<T>, asleep: bool)
      requires Valid() && Represents(s)
      modifies ring
      ensures Valid() && ring.items == old(ring.items)
      ensures var (e, pc) := PopSection(s, Popping(pop, false, expired));
        && Represents(Perform(s, t, e))
        && (e.TakeFront? <==> out.Some?)
        && (out.Some? ==> out.value == s.queue[0] && !asleep)
        && (asleep <==> pc.PopAsleep?)
    {
      var none := ring.IsEmpty();
      if pop == PopTry {
        if none || mode != Running {
          return None, false;
        }
      } else if none && mode == Running {
        return None, !(pop == PopFor && expired);
      }
      if mode != Immediate && !none {
        var item := ring.Front();
        ring.PopFront();
        return Some(item), false;
      }
      return None, false;
    }

    /** `stop_gracefully` and `stop_immediately` differ only in the mode; the first stop wins. */
    method StopSection(to: Mode, ghost s: State<T>, ghost t: nat) returns (first: bool)
      requires Valid() && Represents(s) && to != Running
      modifies this`mode
      ensures Valid()
      ensures var (e, pc) := Program(s, StopEnter(to), Go(0));
        && Represents(Perform(s, t, e))
        && (first <==> pc.StopNotifyEmpty?)
    {
      first := mode == Running;
      if first {
        mode := to;
      }
    }
  }
}
