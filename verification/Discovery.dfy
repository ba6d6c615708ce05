// The list of advertised services of lib/mdns.c, and their order in
// lib/mdns-service.c.

module Services {

  datatype Service = Service(name: string, mdnsType: string, host: string, address: string, port: nat, proto: int, iface: int)

  // strcmp, up to the magnitude of its result. C strings hold no NUL inside.
  function Strcmp(a: string, b: string): int {
    if a == [] && b == [] then 0
    else if a == [] then -1
    else if b == [] then 1
    else if a[0] != b[0] then (if a[0] < b[0] then -1 else 1)
    else Strcmp(a[1..], b[1..])
  }

  function Sign(a: int, b: int): int {
    if a < b then -1 else if a > b then 1 else 0
  }

  // st_mdns_service_compare.
  function Compare(a: Service, b: Service): int {
    if Strcmp(a.name, b.name) != 0 then Strcmp(a.name, b.name)
    else if Strcmp(a.mdnsType, b.mdnsType) != 0 then Strcmp(a.mdnsType, b.mdnsType)
    else if Strcmp(a.host, b.host) != 0 then Strcmp(a.host, b.host)
    else if Strcmp(a.address, b.address) != 0 then Strcmp(a.address, b.address)
    else if a.port != b.port then (if a.port < b.port then -1 else 1)
    else if a.proto != b.proto then (if a.proto < b.proto then -1 else 1)
    else Sign(a.iface, b.iface)
  }

  lemma {:induction false} StrcmpOrders(a: string, b: string)
    ensures Strcmp(a, b) == 0 <==> a == b
    ensures Strcmp(b, a) == -Strcmp(a, b)
    decreases a
  {
    if a != [] && b != [] && a[0] == b[0] {
      StrcmpOrders(a[1..], b[1..]);
      assert a == [a[0]] + a[1..] && b == [b[0]] + b[1..];
    }
  }

  // The order of the dictionary: the first character that differs decides, and a text
  // precedes what it begins.
  lemma {:induction false} StrcmpIsDictionary(p: string, c: char, d: char, x: string, y: string)
    ensures Strcmp(p + [c] + x, p + [d] + y) < 0 <== c < d
    ensures Strcmp(p, p + [c] + x) < 0
    decreases |p|
  {
    if p == [] {
      assert p + [c] + x == [c] + x && p + [d] + y == [d] + y;
    } else {
      assert (p + [c] + x)[1..] == p[1..] + [c] + x && (p + [d] + y)[1..] == p[1..] + [d] + y;
      StrcmpIsDictionary(p[1..], c, d, x, y);
    }
  }

  // The first field that differs decides: name, type, host, address, port, protocol,
  // interface; numbers by size.
  lemma CompareIsByFields(a: Service, b: Service)
    ensures a.name != b.name ==> Compare(a, b) == Strcmp(a.name, b.name)
    ensures a.name == b.name && a.mdnsType != b.mdnsType ==> Compare(a, b) == Strcmp(a.mdnsType, b.mdnsType)
    ensures a.name == b.name && a.mdnsType == b.mdnsType ==>
              && (a.host != b.host ==> Compare(a, b) == Strcmp(a.host, b.host))
              && (a.host == b.host && a.address != b.address ==> Compare(a, b) == Strcmp(a.address, b.address))
    ensures b == a.(port := b.port) ==> (Compare(a, b) < 0 <==> a.port < b.port)
    ensures b == a.(proto := b.proto, iface := b.iface) && a.proto != b.proto ==> (Compare(a, b) < 0 <==> a.proto < b.proto)
    ensures b == a.(iface := b.iface) ==> (Compare(a, b) < 0 <==> a.iface < b.iface)
    ensures b == a.(port := b.port, proto := b.proto, iface := b.iface) && a.port != b.port ==> (Compare(a, b) < 0 <==> a.port < b.port)
  {
    StrcmpOrders(a.name, b.name);
    StrcmpOrders(a.mdnsType, b.mdnsType);
    StrcmpOrders(a.host, b.host);
    StrcmpOrders(a.address, b.address);
  }

  // Zero means that all seven fields agree.
  lemma CompareOrders(a: Service, b: Service)
    ensures Compare(a, b) == 0 <==> a == b
    ensures Compare(b, a) == -Compare(a, b)
  {
    StrcmpOrders(a.name, b.name);
    StrcmpOrders(a.mdnsType, b.mdnsType);
    StrcmpOrders(a.host, b.host);
    StrcmpOrders(a.address, b.address);
  }

  lemma CompareIsTransitive(a: Service, b: Service, c: Service)
    requires Compare(a, b) <= 0 && Compare(b, c) <= 0
    ensures Compare(a, c) <= 0
  {
    StrcmpIsTransitive(a.name, b.name, c.name);
    StrcmpIsTransitive(a.mdnsType, b.mdnsType, c.mdnsType);
    StrcmpIsTransitive(a.host, b.host, c.host);
    StrcmpIsTransitive(a.address, b.address, c.address);
  }

  lemma StrcmpIsTransitive(a: string, b: string, c: string)
    ensures Strcmp(a, b) <= 0 && Strcmp(b, c) <= 0 ==>
              Strcmp(a, c) <= 0 && (Strcmp(a, b) < 0 || Strcmp(b, c) < 0 <==> Strcmp(a, c) < 0)
  {
  }

  predicate Advertises(s: Service, name: string, mdnsType: string) {
    s.name == name && s.mdnsType == mdnsType
  }

  predicate IsInstance(s: Service, name: string, mdnsType: string, iface: int, proto: int) {
    Advertises(s, name, mdnsType) && s.iface == iface && s.proto == proto
  }

  function Count(list: seq<Service>, name: string, mdnsType: string): nat {
    if list == [] then 0
    else (if Advertises(list[0], name, mdnsType) then 1 else 0) + Count(list[1..], name, mdnsType)
  }

  function Without(list: seq<Service>, name: string, mdnsType: string, iface: int, proto: int): seq<Service> {
    if list == [] then []
    else (if IsInstance(list[0], name, mdnsType, iface, proto) then [] else [list[0]])
         + Without(list[1..], name, mdnsType, iface, proto)
  }

  ghost predicate NoTwins(list: seq<Service>) {
    forall i, j :: 0 <= i < j < |list| ==> list[i] != list[j]
  }

  // ---------- what Without and Count mean ----------

  lemma {:induction false} WithoutSplits(a: seq<Service>, b: seq<Service>, name: string, mdnsType: string, iface: int, proto: int)
    ensures Without(a + b, name, mdnsType, iface, proto)
         == Without(a, name, mdnsType, iface, proto) + Without(b, name, mdnsType, iface, proto)
    decreases a
  {
    if a == [] { assert a + b == b; }
    else {
      assert (a + b)[1..] == a[1..] + b;
      WithoutSplits(a[1..], b, name, mdnsType, iface, proto);
    }
  }

  // Exactly the instances go; the rest keep their number and, by WithoutSplits, their order.
  lemma {:induction false} WithoutRemovesInstances(list: seq<Service>, s: Service, name: string, mdnsType: string, iface: int, proto: int)
    ensures multiset(Without(list, name, mdnsType, iface, proto))[s]
         == if s.name == name && s.mdnsType == mdnsType && s.iface == iface && s.proto == proto then 0 else multiset(list)[s]
    decreases list
  {
    if list != [] {
      WithoutRemovesInstances(list[1..], s, name, mdnsType, iface, proto);
      assert list == [list[0]] + list[1..];
    }
  }

  lemma {:induction false} WithoutNone(list: seq<Service>, name: string, mdnsType: string, iface: int, proto: int)
    requires forall s :: s in list ==> !IsInstance(s, name, mdnsType, iface, proto)
    ensures Without(list, name, mdnsType, iface, proto) == list
    decreases list
  {
    if list != [] { WithoutNone(list[1..], name, mdnsType, iface, proto); }
  }

  lemma {:induction false} CountIsZeroIff(list: seq<Service>, name: string, mdnsType: string)
    ensures Count(list, name, mdnsType) == 0 <==> forall s :: s in list ==> s.name != name || s.mdnsType != mdnsType
    decreases list
  {
    if list != [] {
      CountIsZeroIff(list[1..], name, mdnsType);
      assert forall s :: s in list <==> s == list[0] || s in list[1..];
    }
  }

  // Each advert of that name and type counts once, wherever it stands.
  lemma {:induction false} CountTakesEach(a: seq<Service>, s: Service, b: seq<Service>, name: string, mdnsType: string)
    ensures Count(a + [s] + b, name, mdnsType) == Count(a + b, name, mdnsType) + if s.name == name && s.mdnsType == mdnsType then 1 else 0
    decreases a
  {
    if a == [] {
      assert a + [s] + b == [s] + b && a + b == b;
    } else {
      assert (a + [s] + b)[1..] == a[1..] + [s] + b && (a + b)[1..] == a[1..] + b;
      CountTakesEach(a[1..], s, b, name, mdnsType);
    }
  }

  lemma WithoutKeepsNoTwins(list: seq<Service>, name: string, mdnsType: string, iface: int, proto: int)
    requires NoTwins(list)
    ensures NoTwins(Without(list, name, mdnsType, iface, proto))
  {
    var rest := Without(list, name, mdnsType, iface, proto);
    forall i, j | 0 <= i < j < |rest| ensures rest[i] != rest[j] {
      if rest[i] == rest[j] {
        WithoutRemovesInstances(list, rest[i], name, mdnsType, iface, proto);
        TwiceInMultiset(rest, i, j);
        NoTwinsAtMostOnce(list, rest[i]);
      }
    }
  }

  lemma TwiceInMultiset(list: seq<Service>, i: nat, j: nat)
    requires i < j < |list| && list[i] == list[j]
    ensures multiset(list)[list[i]] >= 2
  {
    assert list == list[..j] + [list[j]] + list[j + 1..];
    assert list[i] in list[..j];
  }

  lemma {:induction false} NoTwinsAtMostOnce(list: seq<Service>, s: Service)
    requires NoTwins(list)
    ensures multiset(list)[s] <= 1
    decreases list
  {
    if list != [] {
      assert list == [list[0]] + list[1..];
      forall i, j | 0 <= i < j < |list[1..]| ensures list[1..][i] != list[1..][j] { assert list[i + 1] != list[j + 1]; }
      NoTwinsAtMostOnce(list[1..], s);
      if s == list[0] { assert s !in list[1..]; }
    }
  }
}

// The registry of peers in src/mdns.c and the tables built from it in src/main.c.
module Registry {
  import opened Options
  import opened Services

  type Name = string

  // A start that is in flight; its token stands for the identity of the record,
  // and later of the client object.
  datatype Pending = Pending(token: nat, name: Name, address: string, port: nat)
  datatype Peer = Peer(id: nat, inputs: seq<Name>, outputs: seq<Name>)
  datatype Points = Points(inputs: seq<Name>, outputs: seq<Name>)
  datatype Entry = Entry(client: nat, index: nat)

  datatype Book = Book(pending: map<Name, Pending>, clients: map<Name, Peer>, nextToken: nat)

  // ---------- the handlers, as functions ----------

  function Added(b: Book, s: Service, wanted: Name -> bool): Book {
    if !wanted(s.name) || s.name in b.clients || s.name in b.pending then b
    else Book(b.pending[s.name := Pending(b.nextToken, s.name, s.address, s.port)], b.clients, b.nextToken + 1)
  }

  function Removed(b: Book, name: Name): Book {
    Book(b.pending - {name}, b.clients - {name}, b.nextToken)
  }

  // The result of a start counts only if its own record is still the pending one.
  function Finished(b: Book, p: Pending, result: Option<Points>): Book {
    if p.name !in b.pending || b.pending[p.name].token != p.token then b
    else if result.None? then Book(b.pending - {p.name}, b.clients, b.nextToken)
    else Book(b.pending - {p.name}, b.clients[p.name := Peer(p.token, result.value.inputs, result.value.outputs)], b.nextToken)
  }

  // ---------- the invariant of the book ----------

  ghost predicate Sound(b: Book) {
    && b.pending.Keys !! b.clients.Keys
    && (forall n :: n in b.pending ==> b.pending[n].name == n && b.pending[n].token < b.nextToken)
    && (forall n :: n in b.clients ==> b.clients[n].id < b.nextToken)
    && (forall n, m :: n in b.pending && m in b.pending && b.pending[n].token == b.pending[m].token ==> n == m)
    && (forall n, m :: n in b.clients && m in b.clients && b.clients[n].id == b.clients[m].id ==> n == m)
    && (forall n, m :: n in b.pending && m in b.clients ==> b.pending[n].token != b.clients[m].id)
  }

  datatype Event =
    | Add(service: Service)
    | Remove(name: Name)
    | Finish(start: Pending, result: Option<Points>)

  function Handle(b: Book, e: Event, wanted: Name -> bool): Book {
    match e
    case Add(s) => Added(b, s, wanted)
    case Remove(n) => Removed(b, n)
    case Finish(p, result) => Finished(b, p, result)
  }

  function HandleAll(b: Book, es: seq<Event>, wanted: Name -> bool): Book
    decreases |es|
  {
    if es == [] then b else HandleAll(Handle(b, es[0], wanted), es[1..], wanted)
  }

  lemma RemovedKeepsSound(b: Book, name: Name)
    requires Sound(b)
    ensures Sound(Removed(b, name))
  {
  }

  lemma FinishedKeepsSound(b: Book, p: Pending, result: Option<Points>)
    requires Sound(b)
    ensures Sound(Finished(b, p, result))
  {
  }

  lemma HandleKeepsSound(b: Book, e: Event, wanted: Name -> bool)
    requires Sound(b)
    ensures Sound(Handle(b, e, wanted))
  {
    match e
    case Add(_) =>
    case Remove(name) => RemovedKeepsSound(b, name);
    case Finish(p, result) => FinishedKeepsSound(b, p, result);
  }

  // p is not, or no longer, the pending record of its name.
  predicate Stale(b: Book, p: Pending) {
    p.token < b.nextToken && (p.name in b.pending ==> b.pending[p.name].token != p.token)
  }

  lemma HandleKeepsStale(b: Book, p: Pending, e: Event, wanted: Name -> bool)
    requires Sound(b) && Stale(b, p)
    ensures Sound(Handle(b, e, wanted)) && Stale(Handle(b, e, wanted), p)
  {
    HandleKeepsSound(b, e, wanted);
    hide Sound;
  }

  // A start that was given up stays given up: whatever happens meanwhile, removals
  // and new starts under the same name included, its result changes nothing.
  lemma {:induction false} StaleResultIsIgnored(b: Book, p: Pending, es: seq<Event>, wanted: Name -> bool, result: Option<Points>)
    requires Sound(b) && Stale(b, p)
    ensures var b' := HandleAll(b, es, wanted); Sound(b') && Finished(b', p, result) == b'
    decreases |es|
  {
    if es != [] {
      HandleKeepsStale(b, p, es[0], wanted);
      hide Sound, Stale, Handle;
      StaleResultIsIgnored(Handle(b, es[0], wanted), p, es[1..], wanted, result);
    }
  }

  // ---------- who is registered, and who is pending, after a run ----------

  const EMPTY: Book := Book(map[], map[], 0)

  // The book before the k-th event.
  function BookAt(es: seq<Event>, k: nat, wanted: Name -> bool): Book
    requires k <= |es|
  {
    HandleAll(EMPTY, es[..k], wanted)
  }

  lemma {:induction false} HandleAllSplits(b: Book, es: seq<Event>, e: Event, wanted: Name -> bool)
    ensures HandleAll(b, es + [e], wanted) == Handle(HandleAll(b, es, wanted), e, wanted)
    decreases |es|
  {
    hide Handle;
    if es == [] {
      assert [e][1..] == [] && [] + [e] == [e];
    } else {
      assert (es + [e])[1..] == es[1..] + [e];
      HandleAllSplits(Handle(b, es[0], wanted), es[1..], e, wanted);
    }
  }

  lemma BookGoesOn(es: seq<Event>, k: nat, wanted: Name -> bool)
    requires k < |es|
    ensures BookAt(es, k + 1, wanted) == Handle(BookAt(es, k, wanted), es[k], wanted)
  {
    assert es[..k + 1] == es[..k] + [es[k]];
    HandleAllSplits(EMPTY, es[..k], es[k], wanted);
  }

  lemma {:induction false} BookIsSound(es: seq<Event>, k: nat, wanted: Name -> bool)
    requires k <= |es|
    ensures Sound(BookAt(es, k, wanted))
    decreases k
  {
    if k > 0 {
      BookIsSound(es, k - 1, wanted);
      BookGoesOn(es, k - 1, wanted);
      HandleKeepsSound(BookAt(es, k - 1, wanted), es[k - 1], wanted);
    }
  }

  // The name has not gone away since event j.
  predicate NotRemoved(es: seq<Event>, n: Name, j: nat, k: nat)
    requires k <= |es|
  {
    forall l :: j < l < k ==> es[l] != Remove(n)
  }

  // Event j was the successful end of the start that was pending for n just then.
  predicate RegisteredBy(es: seq<Event>, n: Name, j: nat, k: nat, wanted: Name -> bool)
    requires k <= |es|
  {
    && j < k && es[j].Finish? && es[j].result.Some? && es[j].start.name == n
    && (var b := BookAt(es, j, wanted); n in b.pending && b.pending[n].token == es[j].start.token)
    && NotRemoved(es, n, j, k)
  }

  // Event j announced a wanted service while n was unknown, and neither the end of the
  // start that this began nor a removal has come since.
  predicate PendingSince(es: seq<Event>, n: Name, j: nat, k: nat, wanted: Name -> bool)
    requires k <= |es|
  {
    && j < k && es[j].Add? && es[j].service.name == n && wanted(n)
    && n !in BookAt(es, j, wanted).pending && n !in BookAt(es, j, wanted).clients
    && NotRemoved(es, n, j, k) && NotFinished(es, n, BookAt(es, j, wanted).nextToken, j, k)
  }

  predicate NotFinished(es: seq<Event>, n: Name, token: nat, j: nat, k: nat)
    requires k <= |es|
  {
    forall l :: j < l < k && es[l].Finish? && es[l].start.name == n ==> es[l].start.token != token
  }

  function PeerOf(e: Event): Peer
    requires e.Finish? && e.result.Some?
  {
    Peer(e.start.token, e.result.value.inputs, e.result.value.outputs)
  }

  function RecordOf(e: Event, token: nat): Pending
    requires e.Add?
  {
    Pending(token, e.service.name, e.service.address, e.service.port)
  }

  lemma NotRemovedStep(es: seq<Event>, n: Name, j: nat, k: nat)
    requires j < k <= |es|
    ensures j + 1 == k ==> NotRemoved(es, n, j, k)
    ensures j + 1 < k ==> (NotRemoved(es, n, j, k) <==> NotRemoved(es, n, j, k - 1) && es[k - 1] != Remove(n))
  {
  }

  lemma NotFinishedStep(es: seq<Event>, n: Name, token: nat, j: nat, k: nat)
    requires j < k <= |es|
    ensures j + 1 == k ==> NotFinished(es, n, token, j, k)
    ensures j + 1 < k ==> (NotFinished(es, n, token, j, k) <==>
              NotFinished(es, n, token, j, k - 1) && !EndsStart(es[k - 1], n, token))
  {
  }

  // Event e registers n, as it finds b.
  predicate Registers(b: Book, e: Event, n: Name) {
    e.Finish? && e.result.Some? && e.start.name == n && n in b.pending && b.pending[n].token == e.start.token
  }

  lemma RegisteredStep(b: Book, e: Event, n: Name, wanted: Name -> bool)
    requires Sound(b)
    ensures var b' := Handle(b, e, wanted);
            && (n in b'.clients <==> Registers(b, e, n) || (n in b.clients && e != Remove(n)))
            && (n in b'.clients ==> b'.clients[n] == if Registers(b, e, n) then PeerOf(e) else b.clients[n])
  {
  }

  lemma RegisteredByStep(es: seq<Event>, n: Name, j: nat, k: nat, wanted: Name -> bool)
    requires 0 < k <= |es|
    ensures RegisteredBy(es, n, j, k, wanted) ==> j < k && es[j].Finish? && es[j].result.Some?
    ensures RegisteredBy(es, n, k - 1, k, wanted) <==> Registers(BookAt(es, k - 1, wanted), es[k - 1], n)
    ensures j != k - 1 ==> (RegisteredBy(es, n, j, k, wanted) <==> RegisteredBy(es, n, j, k - 1, wanted) && es[k - 1] != Remove(n))
  {
    hide BookAt, NotRemoved;
    NotRemovedStep(es, n, k - 1, k);
    if j < k { NotRemovedStep(es, n, j, k); }
  }

  // A peer is registered exactly if the start that was pending for its name succeeded
  // and the name has not gone away since; it then is the client of that start, with the
  // inputs and outputs that this got.
  lemma {:induction false} RegisteredIff(es: seq<Event>, k: nat, n: Name, wanted: Name -> bool)
    requires k <= |es|
    ensures n in BookAt(es, k, wanted).clients <==> exists j: nat :: RegisteredBy(es, n, j, k, wanted)
    ensures forall j: nat :: RegisteredBy(es, n, j, k, wanted) ==>
              es[j].Finish? && es[j].result.Some?
              && n in BookAt(es, k, wanted).clients && BookAt(es, k, wanted).clients[n] == PeerOf(es[j])
    decreases k
  {
    if k > 0 {
      RegisteredIff(es, k - 1, n, wanted);
      BookGoesOn(es, k - 1, wanted);
      BookIsSound(es, k - 1, wanted);
      var b, b', e := BookAt(es, k - 1, wanted), BookAt(es, k, wanted), es[k - 1];
      RegisteredStep(b, e, n, wanted);
      hide RegisteredBy, Registers, BookAt, Handle, Sound;
      RegisteredByStep(es, n, k - 1, k, wanted);
      if n in b'.clients && !Registers(b, e, n) {
        var j: nat :| RegisteredBy(es, n, j, k - 1, wanted);
        RegisteredByStep(es, n, j, k, wanted);
        RegisteredBefore(es, n, j, k - 1, wanted);
      }
      forall j: nat | RegisteredBy(es, n, j, k, wanted)
        ensures es[j].Finish? && es[j].result.Some? && n in b'.clients && b'.clients[n] == PeerOf(es[j])
      {
        RegisteredByStep(es, n, j, k, wanted);
        AlreadyRegistered(b, e, n);
      }
    }
  }

  lemma RegisteredBefore(es: seq<Event>, n: Name, j: nat, k: nat, wanted: Name -> bool)
    requires k <= |es| && RegisteredBy(es, n, j, k, wanted)
    ensures j < k
  {
  }

  lemma AlreadyRegistered(b: Book, e: Event, n: Name)
    requires Sound(b)
    ensures Registers(b, e, n) ==> n !in b.clients
  {
  }

  // Event e makes n pending, as it finds b.
  predicate Pends(b: Book, e: Event, n: Name, wanted: Name -> bool) {
    e.Add? && e.service.name == n && wanted(n) && n !in b.pending && n !in b.clients
  }

  predicate EndsStart(e: Event, n: Name, token: nat) {
    e.Finish? && e.start.name == n && e.start.token == token
  }

  lemma PendingStep(b: Book, e: Event, n: Name, wanted: Name -> bool)
    requires Sound(b)
    ensures var b' := Handle(b, e, wanted);
            && (n in b'.pending <==> Pends(b, e, n, wanted)
                                     || (n in b.pending && e != Remove(n) && !EndsStart(e, n, b.pending[n].token)))
            && (n in b'.pending ==> b'.pending[n] == if Pends(b, e, n, wanted) then RecordOf(e, b.nextToken) else b.pending[n])
  {
  }

  lemma PendingSinceStep(es: seq<Event>, n: Name, j: nat, k: nat, wanted: Name -> bool)
    requires 0 < k <= |es|
    ensures PendingSince(es, n, j, k, wanted) ==> j < k && es[j].Add?
    ensures PendingSince(es, n, k - 1, k, wanted) <==> Pends(BookAt(es, k - 1, wanted), es[k - 1], n, wanted)
    ensures j < k - 1 ==> (PendingSince(es, n, j, k, wanted) <==>
              PendingSince(es, n, j, k - 1, wanted) && es[k - 1] != Remove(n)
              && !EndsStart(es[k - 1], n, BookAt(es, j, wanted).nextToken))
  {
    hide BookAt, NotRemoved, NotFinished;
    NotRemovedStep(es, n, k - 1, k);
    NotFinishedStep(es, n, BookAt(es, k - 1, wanted).nextToken, k - 1, k);
    if j < k {
      NotRemovedStep(es, n, j, k);
      NotFinishedStep(es, n, BookAt(es, j, wanted).nextToken, j, k);
    }
  }

  // A name is pending exactly if a wanted service of that name was announced while it
  // was neither pending nor registered, and since then neither the start that this began
  // has ended nor the name has gone away; the record is about that service.
  lemma {:induction false} PendingIff(es: seq<Event>, k: nat, n: Name, wanted: Name -> bool)
    requires k <= |es|
    ensures n in BookAt(es, k, wanted).pending <==> exists j: nat :: PendingSince(es, n, j, k, wanted)
    ensures forall j: nat :: PendingSince(es, n, j, k, wanted) ==>
              j < k && es[j].Add? && n in BookAt(es, k, wanted).pending
              && BookAt(es, k, wanted).pending[n] == RecordOf(es[j], BookAt(es, j, wanted).nextToken)
    decreases k
  {
    if k > 0 {
      PendingIff(es, k - 1, n, wanted);
      BookGoesOn(es, k - 1, wanted);
      BookIsSound(es, k - 1, wanted);
      var b, b', e := BookAt(es, k - 1, wanted), BookAt(es, k, wanted), es[k - 1];
      PendingStep(b, e, n, wanted);
      hide PendingSince, BookAt, Handle, Sound;
      PendingSinceStep(es, n, k - 1, k, wanted);
      if n in b'.pending && !Pends(b, e, n, wanted) {
        var j: nat :| PendingSince(es, n, j, k - 1, wanted);
        PendingSinceStep(es, n, j, k, wanted);
      }
      forall j: nat | PendingSince(es, n, j, k, wanted)
        ensures j < k && es[j].Add? && n in b'.pending && b'.pending[n] == RecordOf(es[j], BookAt(es, j, wanted).nextToken)
      {
        PendingSinceStep(es, n, j, k, wanted);
      }
    }
  }

  // ---------- the tables ----------

  function NamesOf(p: Peer, outputs: bool): seq<Name> {
    if outputs then p.outputs else p.inputs
  }

  // An entry leads to a point of that name of a registered client.
  ghost predicate LeadsTo(e: Entry, n: Name, clients: map<Name, Peer>, outputs: bool) {
    exists c :: c in clients && clients[c].id == e.client
      && e.index < |NamesOf(clients[c], outputs)| && NamesOf(clients[c], outputs)[e.index] == n
  }

  ghost predicate Complete(t: map<Name, Entry>, c: Name, clients: map<Name, Peer>, outputs: bool)
    requires c in clients
  {
    forall n :: n in NamesOf(clients[c], outputs) ==> n in t
  }

  // Exactly the names of all registered clients, each with an entry that leads to it.
  ghost predicate Indexes(t: map<Name, Entry>, clients: map<Name, Peer>, outputs: bool) {
    && (forall n :: n in t ==> LeadsTo(t[n], n, clients, outputs))
    && (forall c :: c in clients ==> Complete(t, c, clients, outputs))
  }

  // The table of the inputs has exactly the inputs of all registered peers, and each
  // entry leads to that input of a peer; so has the table of the outputs.
  lemma TablesAreOfTheirKind(ins: map<Name, Entry>, outs: map<Name, Entry>, clients: map<Name, Peer>, n: Name)
    requires Indexes(ins, clients, false) && Indexes(outs, clients, true)
    ensures n in ins <==> exists c :: c in clients && n in clients[c].inputs
    ensures n in outs <==> exists c :: c in clients && n in clients[c].outputs
    ensures n in ins ==> exists c :: c in clients && clients[c].id == ins[n].client
                                     && ins[n].index < |clients[c].inputs| && clients[c].inputs[ins[n].index] == n
    ensures n in outs ==> exists c :: c in clients && clients[c].id == outs[n].client
                                      && outs[n].index < |clients[c].outputs| && clients[c].outputs[outs[n].index] == n
  {
    forall c | c in clients ensures Complete(ins, c, clients, false) && Complete(outs, c, clients, true) {}
    if n in ins { assert LeadsTo(ins[n], n, clients, false); }
    if n in outs { assert LeadsTo(outs[n], n, clients, true); }
  }

  lemma RemovingNothing<T>(m: map<Name, T>, name: Name)
    ensures name !in m ==> m - {name} == m
  {
  }

  // ---------- the object ----------

  class Core {
    const wanted: Name -> bool
    var pending: map<Name, Pending>
    var clients: map<Name, Peer>
    var nextToken: nat
    var allInputs: map<Name, Entry>
    var allOutputs: map<Name, Entry>

    ghost function Now(): Book
      reads this
    {
      Book(pending, clients, nextToken)
    }

    ghost predicate Valid()
      reads this
    {
      Sound(Now()) && Indexes(allInputs, clients, false) && Indexes(allOutputs, clients, true)
    }

    constructor (wanted: Name -> bool)
      ensures this.wanted == wanted && Valid() && Now() == Book(map[], map[], 0)
    {
      this.wanted := wanted;
      pending, clients, nextToken := map[], map[], 0;
      allInputs, allOutputs := map[], map[];
    }

    // g_hash_table_foreach visits the clients in no particular order.
    method BuildTable(outputs: bool) returns (t: map<Name, Entry>)
      ensures Indexes(t, clients, outputs)
    {
      hide LeadsTo;
      t := map[];
      var todo := clients.Keys;
      while todo != {}
        invariant todo <= clients.Keys
        invariant forall n :: n in t ==> LeadsTo(t[n], n, clients, outputs)
        invariant forall c :: c in clients && c !in todo ==> Complete(t, c, clients, outputs)
        decreases |todo|
      {
        var c :| c in todo;
        t := AddNames(t, c, outputs);
        todo := todo - {c};
      }
    }

    method AddNames(table: map<Name, Entry>, c: Name, outputs: bool) returns (t: map<Name, Entry>)
      requires c in clients && forall n :: n in table ==> LeadsTo(table[n], n, clients, outputs)
      ensures forall n :: n in t ==> LeadsTo(t[n], n, clients, outputs)
      ensures table.Keys <= t.Keys && Complete(t, c, clients, outputs)
    {
      t := table;
      var names := NamesOf(clients[c], outputs);
      var i := 0;
      while i < |names|
        invariant 0 <= i <= |names|
        invariant forall n :: n in t ==> LeadsTo(t[n], n, clients, outputs)
        invariant table.Keys <= t.Keys
        invariant forall j :: 0 <= j < i ==> names[j] in t
      {
        var e := Entry(clients[c].id, i);
        assert LeadsTo(e, names[i], clients, outputs);
        t := t[names[i] := e];
        i := i + 1;
      }
    }

    method RebuildTables()
      modifies this`allInputs, this`allOutputs
      ensures Indexes(allInputs, clients, false) && Indexes(allOutputs, clients, true)
    {
      allInputs := BuildTable(false);
      allOutputs := BuildTable(true);
    }

    method OnServiceAdded(s: Service)
      requires Valid()
      modifies this
      ensures Valid() && Now() == Added(old(Now()), s, wanted)
    {
      HandleKeepsSound(Now(), Add(s), wanted);
      if wanted(s.name) && s.name !in clients && s.name !in pending {
        pending := pending[s.name := Pending(nextToken, s.name, s.address, s.port)];
        nextToken := nextToken + 1;
      }
    }

    method ForgetPending(name: Name)
      modifies this`pending
      ensures pending == old(pending) - {name}
    {
      RemovingNothing(pending, name);
      if name in pending { pending := pending - {name}; }
    }

    method ForgetClient(name: Name)
      requires Indexes(allInputs, clients, false) && Indexes(allOutputs, clients, true)
      modifies this`clients, this`allInputs, this`allOutputs
      ensures clients == old(clients) - {name}
      ensures Indexes(allInputs, clients, false) && Indexes(allOutputs, clients, true)
    {
      hide Indexes;
      RemovingNothing(clients, name);
      if name in clients {
        clients := clients - {name};
        RebuildTables();
      }
    }

    method OnServiceRemoved(name: Name)
      requires Valid()
      modifies this
      ensures Valid() && Now() == Removed(old(Now()), name)
    {
      RemovedKeepsSound(Now(), name);
      hide Sound, Indexes;
      ForgetPending(name);
      ForgetClient(name);
    }

    method OnStartFinished(p: Pending, result: Option<Points>)
      requires Valid()
      modifies this
      ensures Valid() && Now() == Finished(old(Now()), p, result)
    {
      FinishedKeepsSound(Now(), p, result);
      hide Sound, Indexes;
      if p.name !in pending || pending[p.name].token != p.token { return; }
      pending := pending - {p.name};
      if result.Some? {
        clients := clients[p.name := Peer(p.token, result.value.inputs, result.value.outputs)];
        RebuildTables();
      }
    }
  }
}

// The discovery layer over the registry: what both keep in every run.
module Discovery {
  import opened Options
  import opened Services
  import opened Registry

  datatype Net = Net(services: seq<Service>, book: Book)

  // A service was resolved, an instance went away, a start came to its end.
  datatype News =
    | Found(service: Service)
    | Gone(name: string, mdnsType: string, iface: int, proto: int)
    | Started(start: Pending, result: Option<Points>)

  // The peer goes with the last instance of its name and type.
  function Heard(n: Net, e: News, wanted: Name -> bool): Net {
    match e
    case Found(s) => if s in n.services then n else Net(n.services + [s], Added(n.book, s, wanted))
    case Gone(name, mdnsType, iface, proto) =>
      var rest := Without(n.services, name, mdnsType, iface, proto);
      Net(rest, if Count(rest, name, mdnsType) == 0 then Removed(n.book, name) else n.book)
    case Started(p, result) => Net(n.services, Finished(n.book, p, result))
  }

  function HeardAll(n: Net, es: seq<News>, wanted: Name -> bool): Net
    decreases |es|
  {
    if es == [] then n else HeardAll(Heard(n, es[0], wanted), es[1..], wanted)
  }

  ghost predicate Advertised(services: seq<Service>, name: Name) {
    exists s :: s in services && s.name == name
  }

  // Every peer that is pending or registered is still advertised, and nothing
  // is advertised twice.
  ghost predicate NoGhosts(n: Net) {
    && Registry.Sound(n.book) && NoTwins(n.services)
    && forall x :: x in n.book.pending || x in n.book.clients ==> Advertised(n.services, x)
  }

  lemma HeardKeepsNoGhosts(n: Net, e: News, wanted: Name -> bool)
    requires NoGhosts(n)
    ensures NoGhosts(Heard(n, e, wanted))
  {
    hide Advertised;
    match e
    case Found(s) =>
      HandleKeepsSound(n.book, Add(s), wanted);
      FoundKeepsAdverts(n, s, wanted);
    case Gone(name, mdnsType, iface, proto) =>
      HandleKeepsSound(n.book, Remove(name), wanted);
      WithoutKeepsNoTwins(n.services, name, mdnsType, iface, proto);
      GoneKeepsAdverts(n, name, mdnsType, iface, proto, wanted);
    case Started(p, result) => HandleKeepsSound(n.book, Finish(p, result), wanted);
  }

  lemma FoundKeepsAdverts(n: Net, s: Service, wanted: Name -> bool)
    requires forall x :: x in n.book.pending || x in n.book.clients ==> Advertised(n.services, x)
    ensures var n' := Heard(n, Found(s), wanted);
            forall x :: x in n'.book.pending || x in n'.book.clients ==> Advertised(n'.services, x)
  {
  }

  lemma GoneKeepsAdverts(n: Net, name: string, mdnsType: string, iface: int, proto: int, wanted: Name -> bool)
    requires forall x :: x in n.book.pending || x in n.book.clients ==> Advertised(n.services, x)
    ensures var n' := Heard(n, Gone(name, mdnsType, iface, proto), wanted);
            forall x :: x in n'.book.pending || x in n'.book.clients ==> Advertised(n'.services, x)
  {
    var n' := Heard(n, Gone(name, mdnsType, iface, proto), wanted);
    forall x | x in n'.book.pending || x in n'.book.clients ensures Advertised(n'.services, x) {
      OthersStay(n.services, x, name, mdnsType, iface, proto);
    }
  }

  // In every run of adverts, removals and start results, in any order.
  lemma {:induction false} NoGhostsEver(n: Net, es: seq<News>, wanted: Name -> bool)
    requires NoGhosts(n)
    ensures NoGhosts(HeardAll(n, es, wanted))
    decreases |es|
  {
    if es != [] {
      HeardKeepsNoGhosts(n, es[0], wanted);
      hide *;
      NoGhostsEver(Heard(n, es[0], wanted), es[1..], wanted);
    }
  }

  // ---------- what is listed, and what the registry hears of it ----------

  predicate Withdraws(e: News, s: Service) {
    e.Gone? && s.name == e.name && s.mdnsType == e.mdnsType && s.iface == e.iface && s.proto == e.proto
  }

  // News j resolved s, and no removal of that instance has come since.
  predicate ListedSince(es: seq<News>, s: Service, j: nat) {
    j < |es| && es[j] == Found(s) && forall l :: j < l < |es| ==> !Withdraws(es[l], s)
  }

  lemma {:induction false} HeardAllSplits(n: Net, es: seq<News>, e: News, wanted: Name -> bool)
    ensures HeardAll(n, es + [e], wanted) == Heard(HeardAll(n, es, wanted), e, wanted)
    decreases |es|
  {
    hide Heard;
    if es == [] {
      assert [e][1..] == [] && [] + [e] == [e];
    } else {
      assert (es + [e])[1..] == es[1..] + [e];
      HeardAllSplits(Heard(n, es[0], wanted), es[1..], e, wanted);
    }
  }

  // One piece of news; what was resolved goes behind all that is listed already.
  lemma ListedStep(list: seq<Service>, book: Book, e: News, s: Service, wanted: Name -> bool)
    ensures !e.Gone? ==> list <= Heard(Net(list, book), e, wanted).services
    ensures s in Heard(Net(list, book), e, wanted).services <==> e == Found(s) || (s in list && !Withdraws(e, s))
  {
    if e.Gone? {
      WithoutRemovesInstances(list, s, e.name, e.mdnsType, e.iface, e.proto);
      var rest := Without(list, e.name, e.mdnsType, e.iface, e.proto);
      assert s in rest <==> multiset(rest)[s] > 0;
      assert s in list <==> multiset(list)[s] > 0;
    }
  }

  // A service is listed exactly if it was resolved and its instance has not gone since.
  lemma {:induction false} ListedIff(book: Book, es: seq<News>, s: Service, wanted: Name -> bool)
    ensures s in HeardAll(Net([], book), es, wanted).services <==> exists j: nat :: ListedSince(es, s, j)
    decreases |es|
  {
    if es != [] {
      var last := |es| - 1;
      var before, e := es[..last], es[last];
      assert es == before + [e];
      HeardAllSplits(Net([], book), before, e, wanted);
      ListedIff(book, before, s, wanted);
      var n := HeardAll(Net([], book), before, wanted);
      ListedStep(n.services, n.book, e, s, wanted);
      hide Withdraws, HeardAll, Heard;
      if j: nat :| ListedSince(before, s, j) { assert !Withdraws(e, s) ==> ListedSince(es, s, j); }
      if e == Found(s) { assert ListedSince(es, s, last); }
      if j: nat :| ListedSince(es, s, j) { assert j == last || ListedSince(before, s, j); }
    }
  }

  // What the registry hears: of every service that was not listed, and of a name when
  // the last instance of its name and type goes.
  ghost function Echo(list: seq<Service>, e: News): seq<Event> {
    match e
    case Found(s) => if s in list then [] else [Add(s)]
    case Gone(name, mdnsType, _, _) =>
      if forall s :: s in list && s.name == name && s.mdnsType == mdnsType ==> Withdraws(e, s) then [Remove(name)] else []
    case Started(p, result) => [Finish(p, result)]
  }

  ghost function Echoes(n: Net, es: seq<News>, wanted: Name -> bool): seq<Event>
    decreases |es|
  {
    if es == [] then [] else Echo(n.services, es[0]) + Echoes(Heard(n, es[0], wanted), es[1..], wanted)
  }

  lemma EchoIsHandled(n: Net, e: News, wanted: Name -> bool)
    ensures Heard(n, e, wanted).book == HandleAll(n.book, Echo(n.services, e), wanted)
  {
    if e.Gone? {
      var rest := Without(n.services, e.name, e.mdnsType, e.iface, e.proto);
      CountIsZeroIff(rest, e.name, e.mdnsType);
      forall s ensures s in rest <==> s in n.services && !Withdraws(e, s) { ListedStep(n.services, n.book, e, s, wanted); }
    }
    var es := Echo(n.services, e);
    if es != [] { assert es[1..] == []; }
  }

  lemma {:induction false} HandleAllJoins(b: Book, a: seq<Event>, c: seq<Event>, wanted: Name -> bool)
    ensures HandleAll(b, a + c, wanted) == HandleAll(HandleAll(b, a, wanted), c, wanted)
    decreases |a|
  {
    hide Handle;
    if a == [] {
      assert a + c == c;
    } else {
      assert (a + c)[1..] == a[1..] + c;
      HandleAllJoins(Handle(b, a[0], wanted), a[1..], c, wanted);
    }
  }

  // The books of a run of news are those of the run of registry events it comes to, so
  // that who is registered or pending follows from RegisteredIff and PendingIff.
  lemma {:induction false} BookOfNews(n: Net, es: seq<News>, wanted: Name -> bool)
    ensures HeardAll(n, es, wanted).book == HandleAll(n.book, Echoes(n, es, wanted), wanted)
    decreases |es|
  {
    if es != [] {
      EchoIsHandled(n, es[0], wanted);
      hide Heard, Echo;
      BookOfNews(Heard(n, es[0], wanted), es[1..], wanted);
      HandleAllJoins(n.book, Echo(n.services, es[0]), Echoes(Heard(n, es[0], wanted), es[1..], wanted), wanted);
    }
  }

  class Discovery {
    const core: Core
    var services: seq<Service>

    ghost function Now(): Net
      reads this, core
    {
      Net(services, core.Now())
    }

    ghost predicate Valid()
      reads this, core
    {
      core.Valid() && NoGhosts(Now())
    }

    constructor (core: Core)
      requires core.Valid() && core.pending == map[] && core.clients == map[]
      ensures this.core == core && services == [] && Valid()
    {
      this.core := core;
      services := [];
    }

    method LookupService(s: Service) returns (found: bool)
      ensures found <==> s in services
    {
      var i := 0;
      while i < |services|
        invariant 0 <= i <= |services|
        invariant s !in services[..i]
      {
        CompareOrders(services[i], s);
        if Compare(services[i], s) == 0 { return true; }
        i := i + 1;
      }
      found := false;
    }

    method CountByNameAndType(name: string, mdnsType: string) returns (n: nat)
      ensures n == Count(services, name, mdnsType)
    {
      n := 0;
      var i := 0;
      while i < |services|
        invariant 0 <= i <= |services|
        invariant n + Count(services[i..], name, mdnsType) == Count(services, name, mdnsType)
      {
        assert services[i..][1..] == services[i + 1..];
        if Advertises(services[i], name, mdnsType) { n := n + 1; }
        i := i + 1;
      }
    }

    // The list is searched from its head again after every removal.
    method RemoveInstance(name: string, mdnsType: string, iface: int, proto: int) returns (removed: nat)
      modifies this`services
      ensures services == Without(old(services), name, mdnsType, iface, proto)
      ensures removed == |old(services)| - |services|
    {
      removed := 0;
      var done := false;
      while !done
        invariant Without(services, name, mdnsType, iface, proto) == Without(old(services), name, mdnsType, iface, proto)
        invariant removed + |services| == |old(services)|
        invariant done ==> forall s :: s in services ==> !IsInstance(s, name, mdnsType, iface, proto)
        decreases !done, |services|
      {
        var found := false;
        var i := 0;
        ghost var list := services;
        while i < |services| && !found
          invariant 0 <= i <= |list|
          invariant !found ==> services == list && removed + |list| == |old(services)|
          invariant !found ==> forall s :: s in list[..i] ==> !IsInstance(s, name, mdnsType, iface, proto)
          invariant found ==> |services| == |list| - 1 && removed + |services| == |old(services)|
          invariant found ==> Without(services, name, mdnsType, iface, proto) == Without(list, name, mdnsType, iface, proto)
          decreases !found, |list| - i
        {
          if IsInstance(services[i], name, mdnsType, iface, proto) {
            RemovingOneInstance(list, i, name, mdnsType, iface, proto);
            services := services[..i] + services[i + 1..];
            removed := removed + 1;
            found := true;
          } else {
            i := i + 1;
          }
        }
        if !found {
          assert list[..i] == list;
          done := true;
        }
      }
      WithoutNone(services, name, mdnsType, iface, proto);
    }

    // resolve_cb, for a service that was found.
    method Resolved(s: Service)
      requires Valid()
      modifies this, core
      ensures Valid() && Now() == Heard(old(Now()), Found(s), core.wanted)
    {
      HeardKeepsNoGhosts(Now(), Found(s), core.wanted);
      hide NoGhosts;
      var found := LookupService(s);
      if !found {
        services := services + [s];
        core.OnServiceAdded(s);
      }
    }

    // service_browser_cb, for a service instance that went away.
    method BrowserRemoved(name: string, mdnsType: string, iface: int, proto: int)
      requires Valid()
      modifies this, core
      ensures Valid() && Now() == Heard(old(Now()), Gone(name, mdnsType, iface, proto), core.wanted)
    {
      HeardKeepsNoGhosts(Now(), Gone(name, mdnsType, iface, proto), core.wanted);
      hide NoGhosts;
      var removed := RemoveInstance(name, mdnsType, iface, proto);
      var remaining := CountByNameAndType(name, mdnsType);
      if remaining == 0 { core.OnServiceRemoved(name); }
    }

    // on_client_start_finished.
    method StartFinished(p: Pending, result: Option<Points>)
      requires Valid()
      modifies core
      ensures Valid() && Now() == Heard(old(Now()), Started(p, result), core.wanted)
    {
      HeardKeepsNoGhosts(Now(), Started(p, result), core.wanted);
      hide NoGhosts;
      core.OnStartFinished(p, result);
    }
  }

  lemma RemovingOneInstance(list: seq<Service>, i: nat, name: string, mdnsType: string, iface: int, proto: int)
    requires i < |list| && IsInstance(list[i], name, mdnsType, iface, proto)
    ensures Without(list[..i] + list[i + 1..], name, mdnsType, iface, proto) == Without(list, name, mdnsType, iface, proto)
  {
    assert list == list[..i] + ([list[i]] + list[i + 1..]);
    WithoutSplits(list[..i], list[i + 1..], name, mdnsType, iface, proto);
    WithoutSplits(list[..i], [list[i]] + list[i + 1..], name, mdnsType, iface, proto);
    WithoutSplits([list[i]], list[i + 1..], name, mdnsType, iface, proto);
    assert Without([list[i]], name, mdnsType, iface, proto) == [];
  }

  // A name with an advert left in the list, before or after the removal.
  lemma OthersStay(list: seq<Service>, n: string, name: string, mdnsType: string, iface: int, proto: int)
    requires Advertised(list, n)
    requires n != name || Count(Without(list, name, mdnsType, iface, proto), name, mdnsType) > 0
    ensures Advertised(Without(list, name, mdnsType, iface, proto), n)
  {
    var rest := Without(list, name, mdnsType, iface, proto);
    if n == name {
      CountIsZeroIff(rest, name, mdnsType);
    } else {
      var s :| s in list && s.name == n;
      WithoutRemovesInstances(list, s, name, mdnsType, iface, proto);
      assert s in multiset(list);
      assert s in rest;
    }
  }
}
