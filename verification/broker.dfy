/** The event stream of internal/flags/handler.go: SSEBroker and its buffered client channels. */
module Broker {

  const CAPACITY: nat := 64

  /** A send that gives up when the buffer is full. */
  function Offered(buffer: seq<string>, msg: string): seq<string> {
    if |buffer| < CAPACITY then buffer + [msg] else buffer
  }

  /** make(chan string, 64) */
  class Channel {
    var buffer: seq<string>
    var closed: bool

    constructor ()
      ensures buffer == [] && !closed
    {
      buffer, closed := [], false;
    }
  }

  class SSEBroker {
    var clients: set<Channel>

    /** No registered channel is closed or over its capacity. */
    ghost predicate Valid()
      reads this, clients
    {
      forall ch :: ch in clients ==> !ch.closed && |ch.buffer| <= CAPACITY
    }

    constructor ()
      ensures Valid() && clients == {}
    {
      clients := {};
    }

    method Subscribe() returns (ch: Channel)
      requires Valid()
      modifies this
      ensures Valid() && fresh(ch) && clients == old(clients) + {ch} && ch.buffer == []
    {
      ch := new Channel();
      clients := clients + {ch};
    }

    /** Closing a closed channel would panic. */
    method Unsubscribe(ch: Channel)
      requires Valid() && !ch.closed
      modifies this, ch
      ensures Valid() && clients == old(clients) - {ch} && ch.closed && ch.buffer == old(ch.buffer)
    {
      clients := clients - {ch};
      ch.closed := true;
    }

    /** Every client is offered the message once, whatever the order of the walk; nobody else's channel is touched. */
    method Broadcast(msg: string)
      requires Valid()
      modifies clients
      ensures Valid() && clients == old(clients)
      ensures forall ch :: ch in clients ==> ch.buffer == Offered(old(ch.buffer), msg) && !ch.closed
    {
      var left := clients;
      while left != {}
        invariant left <= clients
        invariant forall ch :: ch in left ==> ch.buffer == old(ch.buffer)
        invariant forall ch :: ch in clients - left ==> ch.buffer == Offered(old(ch.buffer), msg)
        invariant forall ch :: ch in clients ==> !ch.closed
        decreases left
      {
        var ch :| ch in left;
        assert !ch.closed;
        if |ch.buffer| < CAPACITY {
          ch.buffer := ch.buffer + [msg];
        }
        left := left - {ch};
      }
    }
  }
}

/** Broadcasts that share the read lock, sends, receives, subscriptions and disconnects in any interleaving. */
module Streaming {
  import opened Machines
  import opened Broker

  /** The k-th broadcast reached a client that had by then received that many messages. */
  datatype Offer = Offer(k: nat, taken: nat)

  /** A channel with its history: since is the number of broadcasts begun before the subscription. */
  datatype Client = Client(buffer: seq<string>, closed: bool, got: seq<string>, offers: seq<Offer>, since: nat)

  datatype Shared = Shared(
    log: seq<string>,                 // the messages of all broadcasts begun
    during: seq<set<nat>>,            // for each of them, the broadcasts under way when it began
    active: map<nat, set<nat>>,       // broadcasts under way, with the clients still to be offered
    registered: set<nat>,             // the client map
    channels: map<nat, Client>)       // every channel ever made

  datatype Move =
    | Subscribe(c: nat)
    | Unsubscribe(c: nat)
    | Begin(msg: string)              // takes the read lock
    | Send(k: nat, c: nat)
    | Return(k: nat)                  // releases it
    | Receive(c: nat)

  /** The write lock excludes broadcasts; broadcasts do not exclude each other. */
  predicate Enabled(sh: Shared, m: Move) {
    match m
    case Subscribe(c) => sh.active == map[] && c !in sh.channels
    case Unsubscribe(c) => sh.active == map[] && c in sh.registered && c in sh.channels
    case Begin(_) => true
    case Send(k, c) => k in sh.active && c in sh.active[k] && c in sh.channels && k < |sh.log|
    case Return(k) => k in sh.active && sh.active[k] == {}
    case Receive(c) => c in sh.channels && sh.channels[c].buffer != []
  }

  function Sent(c: Client, k: nat, msg: string): Client {
    c.(buffer := Offered(c.buffer, msg), offers := c.offers + [Offer(k, |c.got|)])
  }

  function After(sh: Shared, m: Move): Shared
    requires Enabled(sh, m)
  {
    match m
    case Subscribe(c) =>
      sh.(registered := sh.registered + {c}, channels := sh.channels[c := Client([], false, [], [], |sh.log|)])
    case Unsubscribe(c) =>
      sh.(registered := sh.registered - {c}, channels := sh.channels[c := sh.channels[c].(closed := true)])
    case Begin(msg) => sh.(log := sh.log + [msg], during := sh.during + [sh.active.Keys], active := sh.active[|sh.log| := sh.registered])
    case Send(k, c) =>
      sh.(active := sh.active[k := sh.active[k] - {c}], channels := sh.channels[c := Sent(sh.channels[c], k, sh.log[k])])
    case Return(k) => sh.(active := map j | j in sh.active && j != k :: sh.active[j])
    case Receive(c) =>
      var ch := sh.channels[c];
      sh.(channels := sh.channels[c := ch.(buffer := ch.buffer[1..], got := ch.got + [ch.buffer[0]])])
  }

  // ---------------------------------------------------------------- what a client should get

  /** The messages a queue of bounded length keeps: one is lost only if CAPACITY kept ones were then unreceived. */
  function Kept(log: seq<string>, offers: seq<Offer>): seq<string>
    requires forall j :: 0 <= j < |offers| ==> offers[j].k < |log|
  {
    if offers == [] then []
    else
      var o := offers[|offers| - 1];
      var before := Kept(log, offers[..|offers| - 1]);
      if |before| - o.taken < CAPACITY then before + [log[o.k]] else before
  }

  /** Broadcast k is still to reach client c. */
  predicate Pending(sh: Shared, k: nat, c: nat) { k in sh.active && c in sh.active[k] }

  predicate Reached(offers: seq<Offer>, k: nat) { exists j :: 0 <= j < |offers| && offers[j].k == k }

  ghost predicate ClientOk(sh: Shared, c: nat)
    requires c in sh.channels
  {
    var ch := sh.channels[c];
    && |ch.buffer| <= CAPACITY
    && (forall j :: 0 <= j < |ch.offers| ==> ch.since <= ch.offers[j].k < |sh.log|)
    && ch.got + ch.buffer == Kept(sh.log, ch.offers)
    && (forall i, j :: 0 <= i < j < |ch.offers| ==> ch.offers[i].k != ch.offers[j].k)
    && |sh.during| == |sh.log| && InversionsOverlap(sh, ch.offers)
  }

  /** A registered client is open, and has been offered each broadcast since it came, or is about to be, not both. */
  ghost predicate RegisteredOk(sh: Shared, c: nat)
    requires c in sh.channels
  {
    var ch := sh.channels[c];
    && !ch.closed && ch.since <= |sh.log|
    && forall k :: ch.since <= k < |sh.log| ==> (Reached(ch.offers, k) <==> !Pending(sh, k, c))
  }

  ghost predicate ActiveOk(sh: Shared) {
    forall k :: k in sh.active ==> k < |sh.log| && sh.active[k] <= sh.registered
  }

  ghost predicate NotBefore(sh: Shared) {
    forall k, c :: Pending(sh, k, c) && c in sh.channels ==> sh.channels[c].since <= k
  }

  /** A broadcast under way was so when every later one began. */
  ghost predicate DuringOk(sh: Shared) {
    |sh.during| == |sh.log| && forall k, j | k in sh.active && k < j < |sh.during| :: k in sh.during[j]
  }

  /** A client hears of two broadcasts in the wrong order only if the second began before the first returned. */
  ghost predicate InversionsOverlap(sh: Shared, offers: seq<Offer>)
    requires |sh.during| == |sh.log| && forall j :: 0 <= j < |offers| ==> offers[j].k < |sh.log|
  {
    forall i, j | 0 <= i < j < |offers| && offers[j].k < offers[i].k :: offers[j].k in sh.during[offers[i].k]
  }

  ghost predicate Inv(sh: Shared) {
    && DuringOk(sh) && ActiveOk(sh) && NotBefore(sh) && sh.registered <= sh.channels.Keys
    && (forall c :: c in sh.channels ==> ClientOk(sh, c))
    && (forall c :: c in sh.registered ==> RegisteredOk(sh, c))
  }

  lemma {:induction false} KeptSameLog(log: seq<string>, log1: seq<string>, offers: seq<Offer>)
    requires forall j :: 0 <= j < |offers| ==> offers[j].k < |log|
    requires log <= log1
    ensures Kept(log1, offers) == Kept(log, offers)
    decreases |offers|
  {
    if offers != [] {
      KeptSameLog(log, log1, offers[..|offers| - 1]);
    }
  }

  lemma SubscribeKeeps(sh: Shared, c: nat)
    requires Inv(sh) && Enabled(sh, Subscribe(c))
    ensures Inv(After(sh, Subscribe(c)))
  {
    var sh1 := After(sh, Subscribe(c));
    forall x | x in sh1.channels ensures ClientOk(sh1, x) {
      assert x != c ==> ClientOk(sh, x);
    }
    forall x | x in sh1.registered ensures RegisteredOk(sh1, x) {
      assert x != c ==> RegisteredOk(sh, x);
    }
  }

  lemma UnsubscribeKeeps(sh: Shared, c: nat)
    requires Inv(sh) && Enabled(sh, Unsubscribe(c))
    ensures Inv(After(sh, Unsubscribe(c)))
  {
    var sh1 := After(sh, Unsubscribe(c));
    forall x | x in sh1.channels ensures ClientOk(sh1, x) {
      assert ClientOk(sh, x);
    }
    forall x | x in sh1.registered ensures RegisteredOk(sh1, x) {
      assert RegisteredOk(sh, x);
    }
  }

  lemma BeginKeeps(sh: Shared, msg: string)
    requires Inv(sh)
    ensures Inv(After(sh, Begin(msg)))
  {
    var sh1 := After(sh, Begin(msg));
    forall x | x in sh1.channels ensures ClientOk(sh1, x) {
      assert ClientOk(sh, x);
      KeptSameLog(sh.log, sh1.log, sh.channels[x].offers);
    }
    forall x | x in sh1.registered ensures RegisteredOk(sh1, x) {
      assert RegisteredOk(sh, x) && ClientOk(sh, x);
    }
    forall k, c | Pending(sh1, k, c) && c in sh1.channels ensures sh1.channels[c].since <= k {
      assert k != |sh.log| ==> Pending(sh, k, c);
      assert k == |sh.log| ==> RegisteredOk(sh, c);
    }
  }

  lemma SendRegistered(sh: Shared, k: nat, c: nat)
    requires Enabled(sh, Send(k, c)) && RegisteredOk(sh, c) && c in sh.registered
    ensures RegisteredOk(After(sh, Send(k, c)), c)
  {
    var sh1 := After(sh, Send(k, c));
    var ch, ch1 := sh.channels[c], sh1.channels[c];
    assert ch1.offers[|ch.offers|].k == k;
    forall j | ch1.since <= j < |sh1.log| ensures Reached(ch1.offers, j) <==> !Pending(sh1, j, c) {
      assert Reached(ch.offers, j) <==> !Pending(sh, j, c);
      if Reached(ch.offers, j) {
        var i :| 0 <= i < |ch.offers| && ch.offers[i].k == j;
        assert ch1.offers[i].k == j;
      }
    }
  }

  lemma SendClient(sh: Shared, k: nat, c: nat)
    requires Inv(sh) && Enabled(sh, Send(k, c))
    ensures ClientOk(After(sh, Send(k, c)), c) && RegisteredOk(After(sh, Send(k, c)), c)
  {
    var ch, ch1 := sh.channels[c], After(sh, Send(k, c)).channels[c];
    assert Pending(sh, k, c) && c in sh.registered;
    assert ClientOk(sh, c) && RegisteredOk(sh, c);
    assert !Reached(ch.offers, k);
    assert ch1.offers[..|ch.offers|] == ch.offers;
    SendRegistered(sh, k, c);
  }

  lemma SendOther(sh: Shared, k: nat, c: nat, x: nat)
    requires Enabled(sh, Send(k, c)) && x != c && x in sh.channels && ClientOk(sh, x)
    ensures ClientOk(After(sh, Send(k, c)), x)
    ensures RegisteredOk(sh, x) ==> RegisteredOk(After(sh, Send(k, c)), x)
  {
    assert forall j :: Pending(After(sh, Send(k, c)), j, x) <==> Pending(sh, j, x);
  }

  lemma SendKeeps(sh: Shared, k: nat, c: nat)
    requires Inv(sh) && Enabled(sh, Send(k, c))
    ensures Inv(After(sh, Send(k, c)))
  {
    var sh1 := After(sh, Send(k, c));
    SendClient(sh, k, c);
    forall x | x in sh1.channels && x != c ensures ClientOk(sh1, x) && (x in sh1.registered ==> RegisteredOk(sh1, x)) {
      assert x in sh.registered ==> RegisteredOk(sh, x);
      SendOther(sh, k, c, x);
    }
    forall j, x | Pending(sh1, j, x) && x in sh1.channels ensures sh1.channels[x].since <= j {
      assert Pending(sh, j, x);
    }
  }

  lemma ReturnKeeps(sh: Shared, k: nat)
    requires Inv(sh) && Enabled(sh, Return(k))
    ensures Inv(After(sh, Return(k)))
  {
    var sh1 := After(sh, Return(k));
    assert forall j, x :: Pending(sh1, j, x) <==> Pending(sh, j, x);
    forall x | x in sh1.channels ensures ClientOk(sh1, x) {
      assert ClientOk(sh, x);
    }
    forall x | x in sh1.registered ensures RegisteredOk(sh1, x) {
      assert RegisteredOk(sh, x);
    }
  }

  lemma ReceiveClient(sh: Shared, c: nat)
    requires Enabled(sh, Receive(c)) && ClientOk(sh, c)
    ensures ClientOk(After(sh, Receive(c)), c)
  {
  }

  lemma ReceiveKeeps(sh: Shared, c: nat)
    requires Inv(sh) && Enabled(sh, Receive(c))
    ensures Inv(After(sh, Receive(c)))
  {
    var sh1 := After(sh, Receive(c));
    ReceiveClient(sh, c);
    forall x | x in sh1.channels ensures ClientOk(sh1, x) {
      assert ClientOk(sh, x);
    }
    forall x | x in sh1.registered ensures RegisteredOk(sh1, x) {
      assert RegisteredOk(sh, x);
      assert forall j :: Pending(sh1, j, x) <==> Pending(sh, j, x);
    }
    forall j, x | Pending(sh1, j, x) && x in sh1.channels ensures sh1.channels[x].since <= j {
      assert Pending(sh, j, x);
    }
  }

  lemma MoveKeeps(sh: Shared, m: Move)
    requires Inv(sh) && Enabled(sh, m)
    ensures Inv(After(sh, m))
  {
    match m
    case Subscribe(c) => SubscribeKeeps(sh, c);
    case Unsubscribe(c) => UnsubscribeKeeps(sh, c);
    case Begin(msg) => BeginKeeps(sh, msg);
    case Send(k, c) => SendKeeps(sh, k, c);
    case Return(k) => ReturnKeeps(sh, k);
    case Receive(c) => ReceiveKeeps(sh, c);
  }

  const START := Shared([], [], map[], {}, map[])

  ghost function System(): Machine<Shared, Move> {
    Machine((sh, m) => Enabled(sh, m), (sh, m) => if Enabled(sh, m) then After(sh, m) else sh)
  }

  lemma InvAlways(sh: Shared, moves: seq<Move>)
    requires Inv(sh) && Run(System(), sh, moves)
    ensures Inv(End(System(), sh, moves))
  {
    forall x, m | Inv(x) && Enabled(x, m) ensures Inv(After(x, m)) {
      MoveKeeps(x, m);
    }
    Always(System(), x => Inv(x), sh, moves);
  }

  /** a results from b by leaving elements out. */
  predicate Subsequence<T(==)>(a: seq<T>, b: seq<T>)
    decreases |b|
  {
    a == [] || (b != [] && if a[|a| - 1] == b[|b| - 1] then Subsequence(a[..|a| - 1], b[..|b| - 1]) || Subsequence(a, b[..|b| - 1])
                          else Subsequence(a, b[..|b| - 1]))
  }

  function Messages(log: seq<string>, offers: seq<Offer>): seq<string>
    requires forall j :: 0 <= j < |offers| ==> offers[j].k < |log|
  {
    seq(|offers|, j requires 0 <= j < |offers| => log[offers[j].k])
  }

  lemma {:induction false} KeptIsSubsequence(log: seq<string>, offers: seq<Offer>)
    requires forall j :: 0 <= j < |offers| ==> offers[j].k < |log|
    ensures Subsequence(Kept(log, offers), Messages(log, offers))
    decreases |offers|
  {
    if offers != [] {
      var n := |offers| - 1;
      KeptIsSubsequence(log, offers[..n]);
      assert Messages(log, offers)[..n] == Messages(log, offers[..n]);
      assert Kept(log, offers) == Kept(log, offers[..n]) + [log[offers[n].k]] ==> Kept(log, offers)[..|Kept(log, offers)| - 1] == Kept(log, offers[..n]);
    }
  }

  /** Over every interleaving: a client has received, and has waiting, exactly what a bounded queue keeps of its
      offers, in their order and never more than CAPACITY at once; a client still connected has been offered every
      broadcast begun since it came, once, except those still on their way; and no send meets a closed channel. */
  lemma ClientsAreServed(moves: seq<Move>, c: nat)
    requires Run(System(), START, moves) && c in End(System(), START, moves).channels
    ensures var sh := End(System(), START, moves); var ch := sh.channels[c];
            && |ch.buffer| <= CAPACITY
            && (forall j :: 0 <= j < |ch.offers| ==> ch.since <= ch.offers[j].k < |sh.log|)
            && ch.got + ch.buffer == Kept(sh.log, ch.offers)
            && Subsequence(ch.got + ch.buffer, Messages(sh.log, ch.offers))
            && (forall i, j :: 0 <= i < j < |ch.offers| ==> ch.offers[i].k != ch.offers[j].k)
            && (c in sh.registered ==> forall k :: ch.since <= k < |sh.log| ==> (Reached(ch.offers, k) <==> !Pending(sh, k, c)))
            && (forall k :: Enabled(sh, Send(k, c)) ==> !ch.closed)
  {
    InvAlways(START, moves);
    var sh := End(System(), START, moves);
    assert ClientOk(sh, c);
    KeptIsSubsequence(sh.log, sh.channels[c].offers);
    forall k | Enabled(sh, Send(k, c)) ensures !sh.channels[c].closed {
      assert c in sh.registered && RegisteredOk(sh, c);
    }
  }

  // ---------------------------------------------------------------- order

  /** One broadcast at a time. */
  ghost function Serial(): Machine<Shared, Move> {
    Machine((sh, m) => Enabled(sh, m) && (m.Begin? ==> sh.active == map[]), (sh, m) => if Enabled(sh, m) then After(sh, m) else sh)
  }

  ghost predicate Increasing(c: Client) { forall i, j :: 0 <= i < j < |c.offers| ==> c.offers[i].k < c.offers[j].k }

  ghost predicate InOrder(sh: Shared) {
    && (forall c :: c in sh.channels ==> Increasing(sh.channels[c]))
    && (forall k :: k in sh.active ==> k + 1 == |sh.log|)
  }

  lemma SerialSend(sh: Shared, k: nat, c: nat)
    requires Inv(sh) && InOrder(sh) && Enabled(sh, Send(k, c))
    ensures Increasing(Sent(sh.channels[c], k, sh.log[k]))
  {
    assert Pending(sh, k, c) && RegisteredOk(sh, c) && ClientOk(sh, c) && Increasing(sh.channels[c]);
    assert !Reached(sh.channels[c].offers, k);
  }

  lemma SerialMove(sh: Shared, m: Move)
    requires Inv(sh) && InOrder(sh) && Enabled(sh, m) && (m.Begin? ==> sh.active == map[])
    ensures InOrder(After(sh, m))
  {
    if m.Send? {
      SerialSend(sh, m.k, m.c);
    }
    var sh1 := After(sh, m);
    forall c | c in sh1.channels ensures Increasing(sh1.channels[c]) {
      assert c in sh.channels ==> Increasing(sh.channels[c]);
    }
  }

  lemma SerialAlways(moves: seq<Move>)
    requires Run(Serial(), START, moves)
    ensures Inv(End(Serial(), START, moves)) && InOrder(End(Serial(), START, moves))
  {
    forall x, m | Inv(x) && InOrder(x) && Serial().enabled(x, m) ensures Inv(After(x, m)) && InOrder(After(x, m)) {
      SerialMove(x, m);
      MoveKeeps(x, m);
    }
    Always(Serial(), x => Inv(x) && InOrder(x), START, moves);
  }

  /** Offers that are distinct, in order and cover a range are the range. */
  lemma {:induction false} OffersAreRange(offers: seq<Offer>, start: nat, end: nat)
    requires start <= end
    requires forall i, j :: 0 <= i < j < |offers| ==> offers[i].k < offers[j].k
    requires forall j :: 0 <= j < |offers| ==> start <= offers[j].k < end
    requires forall k :: start <= k < end ==> Reached(offers, k)
    ensures |offers| == end - start && forall j :: 0 <= j < |offers| ==> offers[j].k == start + j
    decreases end
  {
    if offers == [] {
      assert start < end ==> Reached(offers, start);
    } else {
      assert start <= offers[|offers| - 1].k < end;
      assert Reached(offers, end - 1);
      var j :| 0 <= j < |offers| && offers[j].k == end - 1;
      assert offers[j].k >= offers[|offers| - 1].k;
      var rest := offers[..j];
      forall k | start <= k < end - 1 ensures Reached(rest, k) {
        assert Reached(offers, k);
        var i :| 0 <= i < |offers| && offers[i].k == k;
        assert rest[i].k == k;
      }
      OffersAreRange(rest, start, end - 1);
    }
  }

  /** When broadcasts do not overlap, a connected client between broadcasts has been offered exactly the messages since
      it came, in the order they were broadcast. */
  lemma SerialClientsInOrder(moves: seq<Move>, c: nat)
    requires Run(Serial(), START, moves)
    requires c in End(Serial(), START, moves).registered && End(Serial(), START, moves).active == map[]
    ensures var sh := End(Serial(), START, moves);
            && c in sh.channels && sh.channels[c].since <= |sh.log|
            && (forall j :: 0 <= j < |sh.channels[c].offers| ==> sh.channels[c].offers[j].k < |sh.log|)
            && Messages(sh.log, sh.channels[c].offers) == sh.log[sh.channels[c].since..]
            && Subsequence(sh.channels[c].got + sh.channels[c].buffer, sh.log[sh.channels[c].since..])
  {
    SerialAlways(moves);
    var sh := End(Serial(), START, moves);
    var ch := sh.channels[c];
    assert ClientOk(sh, c) && RegisteredOk(sh, c) && Increasing(ch);
    forall k | ch.since <= k < |sh.log| ensures Reached(ch.offers, k) {
      assert Reached(ch.offers, k) <==> !Pending(sh, k, c);
    }
    OffersAreRange(ch.offers, ch.since, |sh.log|);
    assert Messages(sh.log, ch.offers) == sh.log[ch.since..];
    KeptIsSubsequence(sh.log, ch.offers);
  }

  /** In any run, a broadcast that returned before another began comes first for every client offered both. */
  lemma ReturnedFirst(moves: seq<Move>, c: nat, i: nat, j: nat)
    requires Run(System(), START, moves) && c in End(System(), START, moves).channels
    requires i < |End(System(), START, moves).channels[c].offers| && j < |End(System(), START, moves).channels[c].offers|
    ensures var sh := End(System(), START, moves); var k, l := sh.channels[c].offers[i].k, sh.channels[c].offers[j].k;
            l < |sh.during| && (k < l && k !in sh.during[l] ==> i < j)
  {
    InvAlways(START, moves);
    assert ClientOk(End(System(), START, moves), c);
  }

  const NEW := Client([], false, [], [], 0)

  function TwoClients(a: string, b: string, x: Client, y: Client, left0: set<nat>, left1: set<nat>): Shared {
    Shared([a, b], [{}, {0}], map[0 := left0, 1 := left1], {0, 1}, map[0 := x, 1 := y])
  }

  lemma PairSent(a: string, b: string, x: Client, y: Client, left0: set<nat>, left1: set<nat>, k: nat, c: nat)
    requires k < 2 && c < 2 && c in if k == 0 then left0 else left1
    ensures var sh := TwoClients(a, b, x, y, left0, left1); var msg := if k == 0 then a else b;
            && Enabled(sh, Send(k, c))
            && After(sh, Send(k, c))
            == TwoClients(a, b, if c == 0 then Sent(x, k, msg) else x, if c == 1 then Sent(y, k, msg) else y,
                          if k == 0 then left0 - {c} else left0, if k == 1 then left1 - {c} else left1)
  {
    var sh := TwoClients(a, b, x, y, left0, left1);
    var sh1 := After(sh, Send(k, c));
    assert sh1.active == map[0 := if k == 0 then left0 - {c} else left0, 1 := if k == 1 then left1 - {c} else left1];
    assert sh1.channels == map[0 := sh1.channels[0], 1 := sh1.channels[1]];
  }

  lemma OverlapSends(a: string, b: string)
    ensures var x1, y1 := Sent(NEW, 0, a), Sent(NEW, 1, b); var x2, y2 := Sent(x1, 1, b), Sent(y1, 0, a);
            && x2.buffer == [a, b] && y2.buffer == [b, a]
            && var s4, s5 := TwoClients(a, b, NEW, NEW, {0, 1}, {0, 1}), TwoClients(a, b, x1, NEW, {1}, {0, 1});
               var s6, s7 := TwoClients(a, b, x1, y1, {1}, {0}), TwoClients(a, b, x2, y1, {1}, {});
               && Enabled(s4, Send(0, 0)) && After(s4, Send(0, 0)) == s5 && Enabled(s5, Send(1, 1)) && After(s5, Send(1, 1)) == s6
               && Enabled(s6, Send(1, 0)) && After(s6, Send(1, 0)) == s7
               && Enabled(s7, Send(0, 1)) && After(s7, Send(0, 1)) == TwoClients(a, b, x2, y2, {}, {})
  {
    var x1, y1 := Sent(NEW, 0, a), Sent(NEW, 1, b);
    PairSent(a, b, NEW, NEW, {0, 1}, {0, 1}, 0, 0);
    PairSent(a, b, x1, NEW, {1}, {0, 1}, 1, 1);
    PairSent(a, b, x1, y1, {1}, {0}, 1, 0);
    PairSent(a, b, Sent(x1, 1, b), y1, {1}, {}, 0, 1);
    assert {0, 1} - {0} == {1} && {0, 1} - {1} == {0} && {1} - {1} == {} && {0} - {0} == {};
  }

  lemma OverlapBegins(a: string, b: string)
    ensures var s1 := Shared([], [], map[], {0}, map[0 := NEW]); var s2 := Shared([], [], map[], {0, 1}, map[0 := NEW, 1 := NEW]);
            var s3 := Shared([a], [{}], map[0 := {0, 1}], {0, 1}, map[0 := NEW, 1 := NEW]);
            && After(START, Subscribe(0)) == s1 && After(s1, Subscribe(1)) == s2
            && After(s2, Begin(a)) == s3 && After(s3, Begin(b)) == TwoClients(a, b, NEW, NEW, {0, 1}, {0, 1})
  {
    var s2 := Shared([], [], map[], {0, 1}, map[0 := NEW, 1 := NEW]);
    assert After(s2, Begin(a)).active == map[0 := {0, 1}] && s2.active.Keys == {};
    var s3 := Shared([a], [{}], map[0 := {0, 1}], {0, 1}, map[0 := NEW, 1 := NEW]);
    assert After(s3, Begin(b)).active == map[0 := {0, 1}, 1 := {0, 1}] && s3.active.Keys == {0};
  }

  /** The read lock lets broadcasts overlap, and then two clients can be told of two changes in opposite orders. */
  lemma OverlapReorders(a: string, b: string)
    ensures var moves := [Subscribe(0), Subscribe(1), Begin(a), Begin(b), Send(0, 0), Send(1, 1), Send(1, 0), Send(0, 1)];
            && Run(System(), START, moves)
            && var sh := End(System(), START, moves);
               && 0 in sh.channels && sh.channels[0].buffer == [a, b]
               && 1 in sh.channels && sh.channels[1].buffer == [b, a]
  {
    OverlapBegins(a, b);
    OverlapSends(a, b);
    var moves := [Subscribe(0), Subscribe(1), Begin(a), Begin(b), Send(0, 0), Send(1, 1), Send(1, 0), Send(0, 1)];
    var x1, y1 := Sent(NEW, 0, a), Sent(NEW, 1, b);
    var x2, y2 := Sent(x1, 1, b), Sent(y1, 0, a);
    Through(System(),
      [START, Shared([], [], map[], {0}, map[0 := NEW]), Shared([], [], map[], {0, 1}, map[0 := NEW, 1 := NEW]),
       Shared([a], [{}], map[0 := {0, 1}], {0, 1}, map[0 := NEW, 1 := NEW]),
       TwoClients(a, b, NEW, NEW, {0, 1}, {0, 1}), TwoClients(a, b, x1, NEW, {1}, {0, 1}), TwoClients(a, b, x1, y1, {1}, {0}),
       TwoClients(a, b, x2, y1, {1}, {}), TwoClients(a, b, x2, y2, {}, {})],
      moves);
  }
}
