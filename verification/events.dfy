/** The event wrappers every generated channel carries: `SimpleEvent`
    delivers its item on every read; `SingleEvent` delivers it once and then
    reads as `null`. Reads are modelled functionally: `Get` returns what the
    read yields and the wrapper as it is afterwards. */
module Events {
  import opened Wrappers

  datatype Event<T> =
    | SimpleEvent(item: T)
    | SingleEvent(item: T, alreadyUsed: bool)

  /** `SingleEvent(item)`: every new wrapper starts unused. The flag has a
      private setter, so this and `Get` are the only ways to obtain one. */
  function NewSingle<T>(item: T): (r: Event<T>)
    ensures r.SingleEvent? && !r.alreadyUsed && r.item == item
  {
    SingleEvent(item, false)
  }

  /** `Event.get()`. `None` is the `null` of an exhausted `SingleEvent`. */
  function Get<T>(e: Event<T>): (r: (Option<T>, Event<T>))
    ensures r.1.item == e.item && r.1.SingleEvent? == e.SingleEvent?
    ensures r.0.Some? <==> e.SimpleEvent? || !e.alreadyUsed
    ensures r.0.Some? ==> r.0.value == e.item
    ensures r.1.SingleEvent? ==> r.1.alreadyUsed
    ensures e.SimpleEvent? || e.alreadyUsed ==> r.1 == e
  {
    match e
    case SimpleEvent(item) => (Some(item), e)
    case SingleEvent(item, used) =>
      if used then (None, e) else (Some(item), SingleEvent(item, true))
  }

  /** The results of `n` consecutive reads and the wrapper afterwards. */
  function ReadMany<T>(e: Event<T>, n: nat): (r: (seq<Option<T>>, Event<T>))
    ensures |r.0| == n
    decreases n
  {
    if n == 0 then ([], e)
    else
      var (first, next) := Get(e);
      var (more, last) := ReadMany(next, n - 1);
      ([first] + more, last)
  }

  /** Over any number of reads a wrapper keeps its kind and item, and
      `alreadyUsed` never goes back to false. */
  lemma {:induction false} Monotone<T>(e: Event<T>, n: nat)
    ensures ReadMany(e, n).1.item == e.item
    ensures ReadMany(e, n).1.SingleEvent? == e.SingleEvent?
    ensures e.SingleEvent? && e.alreadyUsed ==> ReadMany(e, n).1.alreadyUsed
    ensures e.SingleEvent? && n > 0 ==> ReadMany(e, n).1.alreadyUsed
    decreases n
  {
    if n > 0 {
      Monotone(Get(e).1, n - 1);
    }
  }

  /** A `SimpleEvent` answers every read with its item and never changes. */
  lemma {:induction false} SimpleAlwaysDelivers<T>(e: Event<T>, n: nat)
    requires e.SimpleEvent?
    ensures ReadMany(e, n).1 == e
    ensures forall k :: 0 <= k < n ==> ReadMany(e, n).0[k] == Some(e.item)
    decreases n
  {
    if n > 0 {
      SimpleAlwaysDelivers(e, n - 1);
    }
  }

  /** An exhausted `SingleEvent` answers every read with `null` and stays
      exhausted. */
  lemma {:induction false} UsedNeverDelivers<T>(e: Event<T>, n: nat)
    requires e.SingleEvent? && e.alreadyUsed
    ensures ReadMany(e, n).1 == e
    ensures forall k :: 0 <= k < n ==> ReadMany(e, n).0[k] == None
    decreases n
  {
    if n > 0 {
      UsedNeverDelivers(e, n - 1);
    }
  }

  /** A `SingleEvent` delivers its item at most once over any number of
      reads: on the first read iff it was unused, and never afterwards. */
  lemma SingleDeliversOnce<T>(e: Event<T>, n: nat)
    requires e.SingleEvent?
    ensures forall k :: 0 <= k < n ==>
      ReadMany(e, n).0[k] == (if k == 0 && !e.alreadyUsed then Some(e.item) else None)
    ensures n > 0 ==> ReadMany(e, n).1 == e.(alreadyUsed := true)
  {
    if n > 0 {
      var next := Get(e).1;
      UsedNeverDelivers(next, n - 1);
      assert ReadMany(e, n).0 == [Get(e).0] + ReadMany(next, n - 1).0;
    }
  }

  /** What a caller sees of a wrapper whose item type is nullable
      (`SingleEvent<String?>`): `get()` returns `T?`, so a `null` item and an
      exhausted wrapper both read as `null`. */
  function Observe<U>(e: Event<Option<U>>): (r: (Option<U>, Event<Option<U>>))
    ensures r.1 == Get(e).1
    ensures r.0.Some? <==> Get(e).0.Some? && e.item.Some?
    ensures r.0 == (if Get(e).0.Some? then e.item else None)
  {
    var (read, next) := Get(e);
    (if read.Some? then read.value else None, next)
  }

  /** A `SingleEvent` holding `null` reads as `null` on its first read but
      is spent by it, exactly like an exhausted wrapper, from then on. */
  lemma NullItemLooksExhausted<U>(item: Option<U>)
    requires item.None?
    ensures Observe(NewSingle(item)).0 == None
    ensures Observe(NewSingle(item)).1 == SingleEvent(item, true)
    ensures Observe(SingleEvent(item, true)) == Observe(NewSingle(item))
  {
  }
}
