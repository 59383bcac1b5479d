/** Live event fan-out: a lossless queue per stream reader, and buffered channels that may drop. */
module EventHub {
  // ----- EventQueue: two-step push, token channel of capacity one, two-step consumer

  /** Where the steps of one queue stand. Pushers sit between append and token send. */
  datatype QueueState<E> = QueueState(
    items: seq<E>, token: bool, pushers: nat, woken: bool,
    published: seq<E>, taken: seq<E>)

  datatype QueueStep<E> = AppendItem(e: E) | SendToken | ReceiveToken | TakeItems

  function Fresh<E>(): QueueState<E> {
    QueueState([], false, 0, false, [], [])
  }

  predicate Enabled<E>(s: QueueState<E>, step: QueueStep<E>) {
    match step
    case AppendItem(_) => true
    case SendToken => s.pushers > 0
    case ReceiveToken => s.token && !s.woken
    case TakeItems => s.woken
  }

  /** One lock-held block or channel operation. Disabled steps do not happen. */
  function Next<E>(s: QueueState<E>, step: QueueStep<E>): QueueState<E> {
    if !Enabled(s, step) then s
    else
      match step
      case AppendItem(e) => s.(items := s.items + [e], published := s.published + [e], pushers := s.pushers + 1)
      case SendToken => s.(token := true, pushers := s.pushers - 1)
      case ReceiveToken => s.(token := false, woken := true)
      case TakeItems => s.(items := [], taken := s.taken + s.items, woken := false)
  }

  function Run<E>(s: QueueState<E>, steps: seq<QueueStep<E>>): QueueState<E> {
    if steps == [] then s else Next(Run(s, steps[..|steps| - 1]), steps[|steps| - 1])
  }

  /** Nothing lost, duplicated or reordered, and a non-empty queue is about to be read. */
  predicate Sound<E(==)>(s: QueueState<E>) {
    && s.published == s.taken + s.items
    && (s.items != [] ==> s.token || s.pushers > 0 || s.woken)
  }

  /** In every interleaving of pushers and the one consumer. */
  lemma {:induction false} QueueSound<E>(steps: seq<QueueStep<E>>)
    ensures Sound(Run(Fresh(), steps))
  {
    if steps != [] {
      QueueSound(steps[..|steps| - 1]);
    }
  }

  /** Once pushers are done, the consumer's next wake-up and Take deliver everything published. */
  lemma {:induction false} QuiescentDelivery<E>(steps: seq<QueueStep<E>>)
    ensures var s := Run(Fresh(), steps);
            s.pushers == 0 ==>
              var woke := if s.woken then s else Next(s, ReceiveToken);
              Next(woke, TakeItems).taken == s.published
  {
    QueueSound(steps);
    var s := Run(Fresh(), steps);
    assert s.taken + [] == s.taken;
  }

  /** What a push nothing interrupts does: one more item, and a wake-up pending. */
  function Pushed<E>(s: QueueState<E>, e: E): QueueState<E> {
    Next(Next(s, AppendItem(e)), SendToken)
  }

  class EventQueue<E(==)> {
    var items: seq<E>
    var ready: bool
    // Pushers between append and token send; the consumer between receive and Take.
    ghost var pushers: nat
    ghost var woken: bool
    ghost var published: seq<E>
    ghost var taken: seq<E>

    constructor ()
      ensures State() == Fresh()
    {
      items, ready, pushers, woken, published, taken := [], false, 0, false, [], [];
    }

    ghost function State(): QueueState<E>
      reads this
    {
      QueueState(items, ready, pushers, woken, published, taken)
    }

    /** First half of push, under the lock. */
    method AppendLocked(e: E)
      modifies this
      ensures State() == Next(old(State()), AppendItem(e))
    {
      items := items + [e];
      published, pushers := published + [e], pushers + 1;
    }

    /** Second half of push: a wake-up already pending is left as it is. */
    method SendReady()
      requires pushers > 0
      modifies this
      ensures State() == Next(old(State()), SendToken)
    {
      if !ready {
        ready := true;
      }
      pushers := pushers - 1;
    }

    /** The whole push, no other step in between. */
    method Push(e: E)
      modifies this
      ensures State() == Pushed(old(State()), e)
    {
      AppendLocked(e);
      SendReady();
    }

    /** The consumer's receive. */
    method Receive()
      requires ready && !woken
      modifies this
      ensures State() == Next(old(State()), ReceiveToken)
    {
      ready := false;
      woken := true;
    }

    method Take() returns (out: seq<E>)
      requires woken
      modifies this
      ensures State() == Next(old(State()), TakeItems)
      ensures out == old(items)
    {
      out := items;
      items := [];
      taken, woken := taken + out, false;
    }
  }

  // ----- subscriber tables, one list a key

  type Table<T> = map<string, seq<T>>

  function ListOf<T>(table: Table<T>, key: string): seq<T> {
    if key in table then table[key] else []
  }

  predicate Distinct<T(==)>(list: seq<T>) {
    forall i, j :: 0 <= i < j < |list| ==> list[i] != list[j]
  }

  /** A subscriber is listed once, under its own key, and no list is empty. */
  ghost predicate Placed<T>(table: Table<T>, home: map<T, string>) {
    && (forall k :: k in table ==> table[k] != [] && Distinct(table[k]))
    && (forall k, i :: k in table && 0 <= i < |table[k]| ==> table[k][i] in home && home[table[k][i]] == k)
  }

  function Subscribed<T>(table: Table<T>, key: string, x: T): Table<T> {
    table[key := ListOf(table, key) + [x]]
  }

  function Without<T>(list: seq<T>, i: nat): seq<T>
    requires i < |list|
  {
    list[..i] + list[i + 1..]
  }

  /** The table without the i-th subscriber of key; a key with none left goes. */
  function Unsubscribed<T>(table: Table<T>, key: string, i: nat): Table<T>
    requires i < |ListOf(table, key)|
  {
    var rest := Without(ListOf(table, key), i);
    if rest == [] then table - {key} else table[key := rest]
  }

  lemma SubscribedPlaced<T>(table: Table<T>, home: map<T, string>, key: string, x: T)
    requires Placed(table, home) && x !in home
    ensures Placed(Subscribed(table, key, x), home[x := key])
  {
  }

  /** The subscriber is gone from every list, and nothing new is in any. */
  lemma UnsubscribedPlaced<T>(table: Table<T>, home: map<T, string>, key: string, i: nat)
    requires Placed(table, home) && i < |ListOf(table, key)|
    ensures var x, left := ListOf(table, key)[i], Unsubscribed(table, key, i);
            && Placed(left, home) && ListOf(left, key) == Without(ListOf(table, key), i)
            && (forall k, j :: k in left && 0 <= j < |left[k]| ==> left[k][j] in ListOf(table, k) && left[k][j] != x)
  {
    var list, left := ListOf(table, key), Unsubscribed(table, key, i);
    forall j | 0 <= j < |Without(list, i)|
      ensures Without(list, i)[j] == list[if j < i then j else j + 1]
    {
    }
  }

  /** Where x stands in the list, |list| when nowhere. */
  method Find<T(==)>(list: seq<T>, x: T) returns (i: nat)
    ensures i <= |list| && x !in list[..i] && (i < |list| ==> list[i] == x)
  {
    i := 0;
    while i < |list| && list[i] != x
      invariant i <= |list| && x !in list[..i]
    {
      i := i + 1;
    }
  }

  // ----- EventHub: sends and closes happen under one lock

  type Channel = nat

  const CAPACITY := 32

  /** One send that never waits: an event for a full buffer is dropped. */
  function Sent<E>(buffered: map<Channel, seq<E>>, ch: Channel, e: E): map<Channel, seq<E>>
    requires ch in buffered
  {
    if |buffered[ch]| < CAPACITY then buffered[ch := buffered[ch] + [e]] else buffered
  }

  predicate AllIn(list: seq<Channel>, known: set<Channel>) {
    forall i :: 0 <= i < |list| ==> list[i] in known
  }

  function Fanned<E>(buffered: map<Channel, seq<E>>, list: seq<Channel>, e: E): (r: map<Channel, seq<E>>)
    requires AllIn(list, buffered.Keys)
    ensures r.Keys == buffered.Keys
  {
    if list == [] then buffered
    else
      assert AllIn(list[..|list| - 1], buffered.Keys);
      Sent(Fanned(buffered, list[..|list| - 1], e), list[|list| - 1], e)
  }

  /** A publication puts the event last in each listed buffer with room, once, and changes no other. */
  lemma {:induction false} FannedAt<E>(buffered: map<Channel, seq<E>>, list: seq<Channel>, e: E, c: Channel)
    requires AllIn(list, buffered.Keys) && Distinct(list) && c in buffered
    ensures Fanned(buffered, list, e)[c] ==
            if c in list && |buffered[c]| < 32 then buffered[c] + [e] else buffered[c]
  {
    if list != [] {
      var front, last := list[..|list| - 1], list[|list| - 1];
      assert list == front + [last];
      FannedAt(buffered, front, e, c);
      assert last !in front;
    }
  }

  /** The queue was given all that the log of its key holds from its registration on, in that order. */
  ghost predicate Fed<Q, E>(q: Q, given: map<Q, seq<E>>, log: seq<E>, since: map<Q, nat>) {
    q in given && q in since && since[q] <= |log| && given[q] == log[since[q]..]
  }

  ghost predicate AllFed<Q, E>(queues: Table<Q>, given: map<Q, seq<E>>, log: Table<E>, since: map<Q, nat>) {
    forall k, i :: k in queues && 0 <= i < |queues[k]| ==> Fed(queues[k][i], given, ListOf(log, k), since)
  }

  /** One more event for each queue of its key, and none for the others. */
  lemma PublishFeeds<Q, E>(queues: Table<Q>, place: map<Q, string>, given: map<Q, seq<E>>, log: Table<E>,
                           since: map<Q, nat>, key: string, e: E, now: map<Q, seq<E>>)
    requires Placed(queues, place) && AllFed(queues, given, log, since) && now.Keys == given.Keys
    requires forall q :: q in given ==> now[q] == if q in ListOf(queues, key) then given[q] + [e] else given[q]
    ensures AllFed(queues, now, log[key := ListOf(log, key) + [e]], since)
  {
    forall k, i | k in queues && 0 <= i < |queues[k]|
      ensures Fed(queues[k][i], now, ListOf(log[key := ListOf(log, key) + [e]], k), since)
    {
      assert Fed(queues[k][i], given, ListOf(log, k), since);
      ListedAtHome(queues, place, k, i, key);
    }
  }

  lemma ListedAtHome<T>(table: Table<T>, home: map<T, string>, k: string, i: nat, key: string)
    requires Placed(table, home) && k in table && i < |table[k]|
    ensures table[k][i] in ListOf(table, key) <==> k == key
  {
  }

  /** A new queue has been given nothing, and nothing was published since it came. */
  lemma SubscribeFeeds<Q, E>(queues: Table<Q>, given: map<Q, seq<E>>, log: Table<E>, since: map<Q, nat>, key: string, q: Q)
    requires AllFed(queues, given, log, since) && q !in given
    ensures AllFed(Subscribed(queues, key, q), given[q := []], log, since[q := |ListOf(log, key)|])
  {
    var more := Subscribed(queues, key, q);
    forall k, i | k in more && 0 <= i < |more[k]|
      ensures Fed(more[k][i], given[q := []], ListOf(log, k), since[q := |ListOf(log, key)|])
    {
      if k in queues && i < |queues[k]| {
        assert Fed(queues[k][i], given, ListOf(log, k), since);
      }
    }
  }

  class Hub<E(==)> {
    var subs: Table<Channel>
    var closed: set<Channel>
    var buffered: map<Channel, seq<E>>
    var next: nat
    var queues: Table<EventQueue<E>>
    // The key each channel and each queue was subscribed under.
    ghost var home: map<Channel, string>
    ghost var place: map<EventQueue<E>, string>
    // What was published under each key, and how much of it before each queue came.
    ghost var log: Table<E>
    ghost var since: map<EventQueue<E>, nat>

    /** Subscribed channels are open. */
    ghost predicate Open()
      reads this`subs, this`closed, this`buffered, this`next, this`home
    {
      && Placed(subs, home) && AllOpen(subs, closed, buffered.Keys)
      && (forall c :: c in closed || c in buffered || c in home ==> c < next)
    }

    /** What each queue was given so far. */
    ghost function Given(): map<EventQueue<E>, seq<E>>
      reads this`place, place.Keys
    {
      map q | q in place :: q.published
    }

    /** A registered queue was given all that was published under its key since it came, in that order. */
    ghost predicate Lossless()
      reads this`queues, this`place, this`log, this`since, place.Keys
    {
      Placed(queues, place) && AllFed(queues, Given(), log, since)
    }

    ghost predicate Valid()
      reads this, place.Keys
    {
      Open() && Lossless()
    }

    constructor ()
      ensures Valid() && subs == map[] && closed == {} && queues == map[] && log == map[]
    {
      subs, closed, buffered, next, queues := map[], {}, map[], 0, map[];
      home, place, log, since := map[], map[], map[], map[];
    }

    /** A send on a closed channel panics; a full buffer drops the event. */
    method TrySend(ch: Channel, e: E)
      requires ch !in closed && ch in buffered
      modifies this`buffered
      ensures buffered == Sent(old(buffered), ch, e)
    {
      if |buffered[ch]| < CAPACITY {
        buffered := buffered[ch := buffered[ch] + [e]];
      }
    }

    /** Closing a closed channel panics. */
    method Close(ch: Channel)
      requires ch !in closed
      modifies this`closed
      ensures closed == old(closed) + {ch}
    {
      closed := closed + {ch};
    }

    method Subscribe(key: string) returns (ch: Channel)
      requires Valid()
      modifies this`subs, this`buffered, this`next, this`home
      ensures Valid() && ch == old(next) && ch !in closed && home == old(home)[ch := key]
      ensures subs == Subscribed(old(subs), key, ch)
      ensures buffered == old(buffered)[ch := []]
    {
      ch := next;
      next := next + 1;
      SubscribedPlaced(subs, home, key, ch);
      buffered := buffered[ch := []];
      home := home[ch := key];
      subs := subs[key := ListOf(subs, key) + [ch]];
    }

    /** Unlists and closes the i-th channel of key. */
    method CloseListed(key: string, i: nat)
      requires Open() && i < |ListOf(subs, key)|
      modifies this`subs, this`closed
      ensures Open() && subs == Unsubscribed(old(subs), key, i) && closed == old(closed) + {ListOf(old(subs), key)[i]}
    {
      UnsubscribedPlaced(subs, home, key, i);
      var ch, rest := ListOf(subs, key)[i], Without(ListOf(subs, key), i);
      subs := if rest == [] then subs - {key} else subs[key := rest];
      Close(ch);
    }

    /** A subscriber's cleanup; running it again finds nothing and closes nothing. */
    method Cleanup(key: string, ch: Channel)
      requires Valid()
      modifies this`subs, this`closed
      ensures Valid()
      ensures ch !in ListOf(old(subs), key) ==> subs == old(subs) && closed == old(closed)
      ensures forall i :: 0 <= i < |ListOf(old(subs), key)| && ListOf(old(subs), key)[i] == ch ==>
                            subs == Unsubscribed(old(subs), key, i) && closed == old(closed) + {ch}
    {
      var list := ListOf(subs, key);
      var i := Find(list, ch);
      if i == |list| {
        assert list[..i] == list;
        return;
      }
      CloseListed(key, i);
    }

    /** Lists a queue that was given nothing yet. */
    method Register(key: string, q: EventQueue<E>)
      requires Lossless() && q !in place && q.published == []
      modifies this`queues, this`place, this`since
      ensures Lossless() && queues == Subscribed(old(queues), key, q)
      ensures place == old(place)[q := key] && since == old(since)[q := |ListOf(log, key)|]
    {
      SubscribedPlaced(queues, place, key, q);
      SubscribeFeeds(queues, Given(), log, since, key, q);
      place, since := place[q := key], since[q := |ListOf(log, key)|];
      queues := queues[key := ListOf(queues, key) + [q]];
      assert Given() == old(Given())[q := []];
    }

    /** A lossless subscriber: an empty queue listed last under its key. */
    method SubscribeQueue(key: string) returns (q: EventQueue<E>)
      requires Valid()
      modifies this`queues, this`place, this`since
      ensures Valid() && fresh(q) && q.State() == Fresh() && queues == Subscribed(old(queues), key, q)
      ensures place == old(place)[q := key] && since == old(since)[q := |ListOf(log, key)|]
    {
      q := new EventQueue();
      Register(key, q);
    }

    /** A queue's cleanup: it is unlisted and keeps what it holds. */
    method CleanupQueue(key: string, q: EventQueue<E>)
      requires Valid()
      modifies this`queues
      ensures Valid()
      ensures q !in ListOf(old(queues), key) ==> queues == old(queues)
      ensures forall i :: 0 <= i < |ListOf(old(queues), key)| && ListOf(old(queues), key)[i] == q ==>
                            queues == Unsubscribed(old(queues), key, i)
    {
      var list := ListOf(queues, key);
      var i := Find(list, q);
      if i == |list| {
        assert list[..i] == list;
        return;
      }
      UnsubscribedPlaced(queues, place, key, i);
      var rest := Without(list, i);
      queues := if rest == [] then queues - {key} else queues[key := rest];
    }

    /** The loop over a list of open channels. */
    method SendAll(list: seq<Channel>, e: E)
      requires forall i :: 0 <= i < |list| ==> list[i] in buffered && list[i] !in closed
      modifies this`buffered
      ensures buffered == Fanned(old(buffered), list, e)
    {
      for i := 0 to |list|
        invariant buffered.Keys == old(buffered).Keys
        invariant buffered == Fanned(old(buffered), list[..i], e)
      {
        assert list[..i + 1][..i] == list[..i];
        TrySend(list[i], e);
      }
      assert list[..|list|] == list;
    }

    /** The loop over a key's queues. */
    method PushAll(list: seq<EventQueue<E>>, e: E)
      requires Distinct(list)
      modifies set q | q in list
      ensures forall q :: q in list ==> q.State() == Pushed(old(q.State()), e)
    {
      for i := 0 to |list|
        invariant forall j :: 0 <= j < i ==> list[j].State() == Pushed(old(list[j].State()), e)
        invariant forall j :: i <= j < |list| ==> list[j].State() == old(list[j].State())
      {
        list[i].Push(e);
      }
    }

    /** The publication reaches every queue of key, and is in the log. */
    method PushListed(key: string, e: E)
      requires Lossless()
      modifies this`log, set q | q in ListOf(queues, key)
      ensures Lossless() && log == old(log)[key := ListOf(old(log), key) + [e]]
      ensures forall q :: q in ListOf(queues, key) ==> q.State() == Pushed(old(q.State()), e)
    {
      PushAll(ListOf(queues, key), e);
      log := log[key := ListOf(log, key) + [e]];
      PublishFeeds(queues, place, old(Given()), old(log), since, key, e, Given());
    }

    /** Sends e to every open channel of key, then pushes it to every queue of key. */
    method Publish(key: string, e: E)
      requires Valid()
      modifies this`buffered, this`log, set q | q in ListOf(queues, key)
      ensures AllIn(ListOf(subs, key), old(buffered).Keys)
      ensures Valid() && buffered == Fanned(old(buffered), ListOf(subs, key), e)
      ensures log == old(log)[key := ListOf(old(log), key) + [e]]
      ensures forall q :: q in ListOf(queues, key) ==> q.State() == Pushed(old(q.State()), e)
    {
      SendAll(ListOf(subs, key), e);
      PushListed(key, e);
    }
  }

  ghost predicate AllOpen(subs: Table<Channel>, closed: set<Channel>, known: set<Channel>) {
    forall k, i :: k in subs && 0 <= i < |subs[k]| ==> subs[k][i] in known && subs[k][i] !in closed
  }

  /** Running a cleanup twice closes the channel once. */
  method CleanupTwice<E>(hub: Hub<E>, key: string, ch: Channel)
    requires hub.Valid()
    modifies hub
    ensures hub.Valid() && hub.closed - old(hub.closed) <= {ch}
  {
    hub.Cleanup(key, ch);
    hub.Cleanup(key, ch);
  }
}
