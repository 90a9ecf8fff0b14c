/** The order in which `Server::Server` sets a server up. */
module ServerSetup {

  type Queue = nat

  // `immediatePayload` says whether core reads the first message before the handler is performed.
  datatype Method = Method(name: string, queues: seq<Queue>, immediatePayload: bool)
  datatype Service = Service(methods: seq<Method>)
  datatype Config = Config(defaultQueues: seq<Queue>, services: seq<Service>)

  // The calls into core, in the order in which they are made.
  datatype CoreCall =
    | RegisterQueue(q: Queue)
    | RegisterMethod(name: string, withPayload: bool)
    | StartServer
    | Listen(name: string, on: Queue)

  function Methods(services: seq<Service>): seq<Method> {
    if services == [] then [] else services[0].methods + Methods(services[1..])
  }

  // A method without queues of its own uses the server's.
  function QueuesOf(m: Method, defaults: seq<Queue>): seq<Queue> {
    if m.queues == [] then defaults else m.queues
  }

  predicate Distinct(s: seq<Queue>) { forall i, j | 0 <= i < j < |s| :: s[i] != s[j] }

  // `q` is a queue that one of the methods listens on.
  predicate Used(ms: seq<Method>, defaults: seq<Queue>, q: Queue) {
    exists m :: m in ms && q in QueuesOf(m, defaults)
  }

  function Registrations(order: seq<Queue>): seq<CoreCall> {
    seq(|order|, i requires 0 <= i < |order| => RegisterQueue(order[i]))
  }

  function MethodRegistrations(ms: seq<Method>): seq<CoreCall> {
    seq(|ms|, i requires 0 <= i < |ms| => RegisterMethod(ms[i].name, ms[i].immediatePayload))
  }

  function ListensOn(name: string, queues: seq<Queue>): seq<CoreCall> {
    seq(|queues|, i requires 0 <= i < |queues| => Listen(name, queues[i]))
  }

  function Listens(ms: seq<Method>, defaults: seq<Queue>): seq<CoreCall> {
    if ms == [] then [] else
    Listens(ms[..|ms| - 1], defaults) + ListensOn(ms[|ms| - 1].name, QueuesOf(ms[|ms| - 1], defaults))
  }

  /** Every queue in use, and the shutdown queue, is registered exactly once; then every method; then
      the server starts; then each method listens on each of its queues. */
  ghost predicate SetUp(cfg: Config, shutdownQueue: Queue, order: seq<Queue>, log: seq<CoreCall>) {
    var ms := Methods(cfg.services);
    && Distinct(order)
    && (forall q :: q in order <==> q == shutdownQueue || Used(ms, cfg.defaultQueues, q))
    && log == Registrations(order) + MethodRegistrations(ms) + [StartServer] + Listens(ms, cfg.defaultQueues)
  }

  lemma {:induction false} MethodsAppend(services: seq<Service>, s: Service)
    ensures Methods(services + [s]) == Methods(services) + s.methods
    decreases |services|
  {
    if services == [] {
      assert Methods([s]) == s.methods + Methods([s][1..]);
    } else {
      assert (services + [s])[1..] == services[1..] + [s];
      MethodsAppend(services[1..], s);
    }
  }

  method Collect(cfg: Config, shutdownQueue: Queue) returns (ms: seq<Method>, queuesToRegister: set<Queue>)
    ensures ms == Methods(cfg.services)
    ensures forall q :: q in queuesToRegister <==> q == shutdownQueue || Used(ms, cfg.defaultQueues, q)
  {
    queuesToRegister := {shutdownQueue};
    ms := [];
    for i := 0 to |cfg.services|
      invariant ms == Methods(cfg.services[..i])
      invariant forall q :: q in queuesToRegister <==> q == shutdownQueue || Used(ms, cfg.defaultQueues, q)
    {
      var methods := cfg.services[i].methods;
      ghost var before := ms;
      for j := 0 to |methods|
        invariant ms == before + methods[..j]
        invariant forall q :: q in queuesToRegister <==> q == shutdownQueue || Used(ms, cfg.defaultQueues, q)
      {
        var m := methods[j];
        ghost var known, earlier := queuesToRegister, ms;
        ms := ms + [m];
        var queues := m.queues;
        if queues == [] {
          queues := cfg.defaultQueues;
        }
        for k := 0 to |queues|
          invariant forall q :: q in queuesToRegister <==> q in known || q in queues[..k]
        {
          queuesToRegister := queuesToRegister + {queues[k]};
        }
        assert queues[..|queues|] == queues == QueuesOf(m, cfg.defaultQueues);
        forall q ensures Used(ms, cfg.defaultQueues, q) <==> Used(earlier, cfg.defaultQueues, q) || q in queues {
          if q in queues { assert m in ms; }
        }
      }
      assert methods[..|methods|] == methods;
      MethodsAppend(cfg.services[..i], cfg.services[i]);
      assert cfg.services[..i + 1] == cfg.services[..i] + [cfg.services[i]];
    }
    assert cfg.services[..|cfg.services|] == cfg.services;
  }

  // The iteration order of the set is not specified.
  method RegisterQueues(queues: set<Queue>) returns (log: seq<CoreCall>, ghost order: seq<Queue>)
    ensures Distinct(order) && (forall q :: q in order <==> q in queues) && log == Registrations(order)
  {
    log, order := [], [];
    var rest := queues;
    while rest != {}
      invariant rest <= queues && Distinct(order)
      invariant forall q :: q in order <==> q in queues - rest
      invariant log == Registrations(order)
      decreases rest
    {
      var q :| q in rest;
      assert q !in order;
      rest := rest - {q};
      order := order + [q];
      log := log + [RegisterQueue(q)];
    }
  }

  method RegisterMethods(ms: seq<Method>) returns (log: seq<CoreCall>)
    ensures log == MethodRegistrations(ms)
  {
    log := [];
    for i := 0 to |ms|
      invariant log == MethodRegistrations(ms[..i])
    {
      log := log + [RegisterMethod(ms[i].name, ms[i].immediatePayload)];
    }
    assert ms[..|ms|] == ms;
  }

  method StartListening(ms: seq<Method>, defaults: seq<Queue>) returns (log: seq<CoreCall>)
    ensures log == Listens(ms, defaults)
  {
    log := [];
    for i := 0 to |ms|
      invariant log == Listens(ms[..i], defaults)
    {
      var queues := ms[i].queues;
      if queues == [] {
        queues := defaults;
      }
      ghost var before := log;
      for k := 0 to |queues|
        invariant log == before + ListensOn(ms[i].name, queues[..k])
      {
        log := log + [Listen(ms[i].name, queues[k])];
      }
      assert queues[..|queues|] == queues;
      assert ms[..i + 1][..i] == ms[..i];
    }
    assert ms[..|ms|] == ms;
  }

  // `Server::Server(Config)`
  method Construct(cfg: Config, shutdownQueue: Queue) returns (log: seq<CoreCall>)
    ensures exists order :: SetUp(cfg, shutdownQueue, order, log)
  {
    var allMethods, queuesToRegister := Collect(cfg, shutdownQueue);
    var registrations, order := RegisterQueues(queuesToRegister);
    var methods := RegisterMethods(allMethods);
    var listening := StartListening(allMethods, cfg.defaultQueues);
    log := registrations + methods + [StartServer] + listening;
    assert SetUp(cfg, shutdownQueue, order, log);
  }

  lemma {:induction false} ListensUse(ms: seq<Method>, defaults: seq<Queue>, i: nat)
    requires i < |Listens(ms, defaults)|
    ensures
      var c := Listens(ms, defaults)[i];
      c.Listen? && Used(ms, defaults, c.on)
    decreases |ms|
  {
    var front, m := ms[..|ms| - 1], ms[|ms| - 1];
    var n := |Listens(front, defaults)|;
    if i < n {
      ListensUse(front, defaults, i);
      var u :| u in front && Listens(ms, defaults)[i].on in QueuesOf(u, defaults);
      assert u in ms;
    } else {
      assert Listens(ms, defaults)[i] == ListensOn(m.name, QueuesOf(m, defaults))[i - n];
      assert m in ms;
    }
  }

  lemma Concatenated(a: seq<CoreCall>, b: seq<CoreCall>, c: CoreCall, d: seq<CoreCall>)
    ensures
      var log := a + b + [c] + d;
      && (forall x | 0 <= x < |a| :: log[x] == a[x])
      && (forall x | 0 <= x < |b| :: log[|a| + x] == b[x])
      && log[|a| + |b|] == c
      && (forall x | |a| + |b| < x < |log| :: log[x] == d[x - |a| - |b| - 1])
  {
  }

  // Where the parts of the log are.
  lemma LogParts(cfg: Config, shutdownQueue: Queue, order: seq<Queue>, log: seq<CoreCall>)
    requires SetUp(cfg, shutdownQueue, order, log)
    ensures
      var ms := Methods(cfg.services);
      var listens := Listens(ms, cfg.defaultQueues);
      var start := |order| + |ms|;
      && |log| == start + 1 + |listens| && log[start] == StartServer
      && (forall r | 0 <= r < |order| :: log[r] == RegisterQueue(order[r]))
      && (forall a | |order| <= a < start :: log[a].RegisterMethod?)
      && (forall a | 0 <= a < |ms| :: log[|order| + a] == RegisterMethod(ms[a].name, ms[a].immediatePayload))
      && (forall x | start < x < |log| :: log[x] == listens[x - start - 1])
  {
    hide Methods, Listens, Used, Distinct;
    var ms := Methods(cfg.services);
    var methods := MethodRegistrations(ms);
    Concatenated(Registrations(order), methods, StartServer, Listens(ms, cfg.defaultQueues));
    forall a | |order| <= a < |order| + |ms| ensures log[a].RegisterMethod? {
      assert log[|order| + (a - |order|)] == methods[a - |order|];
    }
  }

  /** A queue that anything listens on was registered, at exactly one point, before the server
      started; listening comes after the start. */
  lemma ListenedQueuesAreRegistered(cfg: Config, shutdownQueue: Queue, order: seq<Queue>, log: seq<CoreCall>, i: nat)
    requires SetUp(cfg, shutdownQueue, order, log) && i < |log| && log[i].Listen?
    ensures exists s, r :: 0 <= r < s < i && log[s] == StartServer && log[r] == RegisterQueue(log[i].on)
    ensures forall r, r' | 0 <= r < |log| && 0 <= r' < |log| :: log[r].RegisterQueue? && log[r] == log[r'] ==> r == r'
  {
    var start := |order| + |Methods(cfg.services)|;
    LogParts(cfg, shutdownQueue, order, log);
    UsedIsRegistered(cfg, shutdownQueue, order, log);
    hide SetUp, Methods, Listens, Used;
    assert start < i;
    var r :| 0 <= r < |order| && order[r] == log[i].on;
    assert log[r] == RegisterQueue(order[r]);
  }

  lemma UsedIsRegistered(cfg: Config, shutdownQueue: Queue, order: seq<Queue>, log: seq<CoreCall>)
    requires SetUp(cfg, shutdownQueue, order, log)
    ensures Distinct(order)
    ensures forall k | |order| + |Methods(cfg.services)| < k < |log| :: log[k].Listen? && log[k].on in order
  {
    hide Methods, Listens;
    var ms := Methods(cfg.services);
    var start := |order| + |ms|;
    LogParts(cfg, shutdownQueue, order, log);
    forall k | start < k < |log| ensures log[k].Listen? && log[k].on in order {
      ListensUse(ms, cfg.defaultQueues, k - start - 1);
    }
  }

  // ---- what each method gets

  // How many methods there are, and how many times they listen.
  function MethodCount(services: seq<Service>): nat {
    if services == [] then 0 else |services[0].methods| + MethodCount(services[1..])
  }

  function ListenCount(ms: seq<Method>, defaults: seq<Queue>): nat {
    if ms == [] then 0 else
    var m := ms[|ms| - 1];
    ListenCount(ms[..|ms| - 1], defaults) + if m.queues == [] then |defaults| else |m.queues|
  }

  function ListenTotal(services: seq<Service>, defaults: seq<Queue>): nat {
    if services == [] then 0 else ListenCount(services[0].methods, defaults) + ListenTotal(services[1..], defaults)
  }

  lemma {:induction false} MethodsCounted(services: seq<Service>)
    ensures |Methods(services)| == MethodCount(services)
    decreases |services|
  {
    if services != [] { MethodsCounted(services[1..]); }
  }

  lemma {:induction false} ListensCounted(ms: seq<Method>, defaults: seq<Queue>)
    ensures |Listens(ms, defaults)| == ListenCount(ms, defaults)
    decreases |ms|
  {
    if ms != [] { ListensCounted(ms[..|ms| - 1], defaults); }
  }

  lemma {:induction false} ListensAt(ms: seq<Method>, defaults: seq<Queue>, a: nat, k: nat)
    requires a < |ms|
    requires k < if ms[a].queues == [] then |defaults| else |ms[a].queues|
    ensures ListenCount(ms[..a], defaults) + k < |Listens(ms, defaults)|
    ensures Listens(ms, defaults)[ListenCount(ms[..a], defaults) + k]
         == Listen(ms[a].name, if ms[a].queues == [] then defaults[k] else ms[a].queues[k])
    decreases |ms|
  {
    var front := ms[..|ms| - 1];
    ListensCounted(front, defaults);
    if a < |ms| - 1 {
      assert front[..a] == ms[..a];
      ListensAt(front, defaults, a, k);
    }
  }

  lemma {:induction false} CountAppend(ms: seq<Method>, ns: seq<Method>, defaults: seq<Queue>)
    ensures ListenCount(ms + ns, defaults) == ListenCount(ms, defaults) + ListenCount(ns, defaults)
    decreases |ns|
  {
    if ns == [] {
      assert ms + ns == ms;
    } else {
      assert (ms + ns)[..|ms + ns| - 1] == ms + ns[..|ns| - 1];
      CountAppend(ms, ns[..|ns| - 1], defaults);
    }
  }

  lemma {:induction false} TotalCounted(services: seq<Service>, defaults: seq<Queue>)
    ensures ListenCount(Methods(services), defaults) == ListenTotal(services, defaults)
    decreases |services|
  {
    if services != [] {
      CountAppend(services[0].methods, Methods(services[1..]), defaults);
      TotalCounted(services[1..], defaults);
    }
  }

  // The methods before the `j`-th of the `i`-th service.
  lemma {:induction false} MethodsBefore(services: seq<Service>, i: nat, j: nat)
    requires i < |services| && j < |services[i].methods|
    ensures MethodCount(services[..i]) + j < |Methods(services)|
    ensures Methods(services)[MethodCount(services[..i]) + j] == services[i].methods[j]
    ensures Methods(services)[..MethodCount(services[..i]) + j] == Methods(services[..i]) + services[i].methods[..j]
    decreases |services|
  {
    if i > 0 {
      assert services[..i][1..] == services[1..][..i - 1];
      MethodsBefore(services[1..], i - 1, j);
    }
  }

  /** The calls are exactly those of the configuration, in its order: after the queues, the
      registration of every method, then the start, then every method listening on every queue of its
      own, or of the server if it has none.  Nothing else is called. */
  lemma CallsOfEachMethod(cfg: Config, shutdownQueue: Queue, order: seq<Queue>, log: seq<CoreCall>,
                          i: nat, j: nat, queues: seq<Queue>)
    requires SetUp(cfg, shutdownQueue, order, log)
    requires i < |cfg.services| && j < |cfg.services[i].methods|
    requires queues == if cfg.services[i].methods[j].queues == [] then cfg.defaultQueues
                       else cfg.services[i].methods[j].queues
    ensures
      var m := cfg.services[i].methods[j];
      var r := |order| + MethodCount(cfg.services[..i]) + j;
      var start := |order| + MethodCount(cfg.services);
      var first := start + 1 + ListenTotal(cfg.services[..i], cfg.defaultQueues)
                   + ListenCount(cfg.services[i].methods[..j], cfg.defaultQueues);
      && |log| == start + 1 + ListenTotal(cfg.services, cfg.defaultQueues)
      && r < start && log[r] == RegisterMethod(m.name, m.immediatePayload)
      && log[start] == StartServer
      && first + |queues| <= |log|
      && (forall k | 0 <= k < |queues| :: log[first + k] == Listen(m.name, queues[k]))
  {
    hide SetUp, Methods, Listens, ListenCount, ListenTotal, MethodCount;
    var services, defaults := cfg.services, cfg.defaultQueues;
    var ms, a := Methods(services), MethodCount(services[..i]) + j;
    MethodsBefore(services, i, j);
    var before := ListenTotal(services[..i], defaults) + ListenCount(services[i].methods[..j], defaults);
    LogParts(cfg, shutdownQueue, order, log);
    MethodsCounted(services);
    ListensCounted(ms, defaults);
    TotalCounted(services, defaults);
    CountAppend(Methods(services[..i]), services[i].methods[..j], defaults);
    TotalCounted(services[..i], defaults);
    ListensFit(ms, defaults, a);
    forall k | 0 <= k < |queues| ensures Listens(ms, defaults)[before + k] == Listen(ms[a].name, queues[k]) {
      ListensAt(ms, defaults, a, k);
    }
  }

  lemma {:induction false} ListensFit(ms: seq<Method>, defaults: seq<Queue>, a: nat)
    requires a < |ms|
    ensures ListenCount(ms[..a], defaults) + (if ms[a].queues == [] then |defaults| else |ms[a].queues|)
         <= |Listens(ms, defaults)|
  {
    ListensCounted(ms, defaults);
    assert ms[..a + 1][..a] == ms[..a];
    assert ms == ms[..a + 1] + ms[a + 1..];
    CountAppend(ms[..a + 1], ms[a + 1..], defaults);
  }

  /** Every method is registered before the server starts, and listens afterwards on every queue of
      its own, or of the server if it has none. */
  lemma EveryMethodListens(cfg: Config, shutdownQueue: Queue, order: seq<Queue>, log: seq<CoreCall>,
                           i: nat, j: nat, queues: seq<Queue>, q: Queue)
      returns (r: nat, start: nat, l: nat)
    requires SetUp(cfg, shutdownQueue, order, log)
    requires i < |cfg.services| && j < |cfg.services[i].methods| && q in queues
    requires queues == if cfg.services[i].methods[j].queues == [] then cfg.defaultQueues
                       else cfg.services[i].methods[j].queues
    ensures
      var m := cfg.services[i].methods[j];
      && r < start < l < |log| && log[start] == StartServer
      && log[r] == RegisterMethod(m.name, m.immediatePayload) && log[l] == Listen(m.name, q)
  {
    hide SetUp, ListenCount, ListenTotal, MethodCount;
    CallsOfEachMethod(cfg, shutdownQueue, order, log, i, j, queues);
    var k :| 0 <= k < |queues| && queues[k] == q;
    r := |order| + MethodCount(cfg.services[..i]) + j;
    start := |order| + MethodCount(cfg.services);
    l := start + 1 + ListenTotal(cfg.services[..i], cfg.defaultQueues)
         + ListenCount(cfg.services[i].methods[..j], cfg.defaultQueues) + k;
  }
}
