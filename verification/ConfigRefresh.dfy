/**
 The values of a conditional config refresh: what is fetched, remembered, applied and stored. The class in
 ConfigClient is proved against these functions, and ConfigProtocol runs them in every order with crashes.
 */
module ConfigRefresh {
  import opened Common

  type Url = string
  type Payload = seq<nat>
  type CertPool = nat

  datatype Masquerade = Masquerade(domain: string, ip: string)

  datatype Provider = Provider(masquerades: seq<Masquerade>, settings: nat)

  datatype Config = Config(providers: map<string, Provider>, trustedCAs: seq<string>)

  /** configValidator; both fields empty means none. */
  datatype Validator = Validator(etag: string, lastModified: string)

  const NO_VALIDATOR := Validator("", "")

  type Validators = map<Url, Validator>

  /**
   What the client computes with library code, and which payload each validator value was issued for:
   every ETag and every Last-Modified value that a URL issues belongs to one payload.
   */
  datatype Env = Env(
    parse: Payload -> Option<Config>,
    loadCerts: seq<string> -> Option<CertPool>,
    expand: Provider -> Provider,
    digest: Payload -> string,
    isTime: string -> bool,
    readable: Sidecar -> bool,   // no larger, once written, than the 64 KiB that are read back
    etagOf: (Url, string) -> Payload,
    modifiedOf: (Url, string) -> Payload)

  /** The digest is injective and never the empty string. */
  ghost predicate DigestOk(env: Env) {
    && (forall d :: env.digest(d) != "")
    && (forall d, e :: env.digest(d) == env.digest(e) ==> d == e)
  }

  // ----- the client's memory

  datatype Mem = Mem(
    providers: map<string, Provider>,
    certs: CertPool,
    candidates: set<FrontKey>,
    ready: seq<FrontKey>,
    hash: string,            // configHash
    validators: Validators)  // configValidators

  const EMPTY := Mem(map[], 0, {}, [], "", map[])

  function Expanded(env: Env, cfg: Config): map<string, Provider> {
    map id | id in cfg.providers :: env.expand(cfg.providers[id])
  }

  function KeysOf(providers: map<string, Provider>): set<FrontKey> {
    set id, m | id in providers && m in providers[id].masquerades :: FrontKey(id, m.domain, m.ip)
  }

  /** applyConfig; None is its error. */
  function ApplyConfig(env: Env, mem: Mem, cfg: Config): Option<Mem> {
    if cfg.providers == map[] then None
    else
      match env.loadCerts(cfg.trustedCAs)
      case None => None
      case Some(certs) =>
        var expanded := Expanded(env, cfg);
        Some(mem.(providers := expanded, certs := certs, candidates := KeysOf(expanded), ready := []))
  }

  function Get(vs: Validators, url: Url): Validator {
    if url in vs then vs[url] else NO_VALIDATOR
  }

  /** rememberConfigValidator */
  function Remember(vs: Validators, url: Url, v: Validator): Validators {
    if Get(vs, url) == v then vs
    else if v == NO_VALIDATOR then vs - {url}
    else vs[url := v]
  }

  // ----- one source

  /** What a source answers; Failed covers errors, other statuses and oversized bodies. */
  datatype Reply = Failed | NotModified(etag: string, lastModified: string)
                 | Ok(etag: string, lastModified: string, data: Payload)

  datatype Response = Response(url: Url, data: Payload, validator: Validator, same: bool)

  /** fetchConfigFrom, given the validator it was started with and the answer. None is its nil. */
  function Fetch(env: Env, url: Url, v: Validator, reply: Reply): Option<Response> {
    match reply
    case Failed => None
    case NotModified(etag, modified) =>
      var m := if env.isTime(modified) then modified else "";
      if v == NO_VALIDATOR then None
      else Some(Response(url, [], Validator(if etag == "" then v.etag else etag,
                                            if m == "" then v.lastModified else m), true))
    case Ok(etag, modified, data) =>
      Some(Response(url, data, Validator(etag, if env.isTime(modified) then modified else ""), false))
  }

  // ----- the collector

  /** What the collector meets next. gate is the outcome of waiting for the pause gate, if it gets there. */
  datatype Arrival = ClientEnded | Deadline | Got(url: Url, reply: Reply, gate: bool)

  datatype Consumed =
    | Continue(mem: Mem, dirty: bool)
    | Stop(mem: Mem, dirty: bool)
    | Applied(mem: Mem, data: Payload)

  /** The response changes nothing: a 304, or the bytes the client already has. */
  predicate Unchanged(env: Env, mem: Mem, r: Response) {
    r.same || (mem.hash != "" && env.digest(r.data) == mem.hash)
  }

  /** The memory after a payload was applied: its digest, and the validator of its source alone. */
  function WithPayload(env: Env, applied: Mem, r: Response): Mem {
    applied.(hash := env.digest(r.data), validators := Remember(map[], r.url, r.validator))
  }

  /** One iteration of fetchAndApplyConfig; asked are the validators the requests were started with. */
  function Consume(env: Env, asked: Validators, mem: Mem, dirty: bool, a: Arrival): Consumed {
    match a
    case ClientEnded => Stop(mem, dirty)
    case Deadline => Stop(mem, dirty)
    case Got(url, reply, gate) =>
      match Fetch(env, url, Get(asked, url), reply)
      case None => Continue(mem, dirty)
      case Some(r) =>
        if Unchanged(env, mem, r) then
          var vs := Remember(mem.validators, r.url, r.validator);
          Continue(mem.(validators := vs), dirty || vs != mem.validators)
        else
          match env.parse(r.data)
          case None => Continue(mem, dirty)
          case Some(cfg) =>
            if !gate then Stop(mem, dirty)
            else
              match ApplyConfig(env, mem, cfg)
              case None => Continue(mem, dirty)
              case Some(applied) => Applied(WithPayload(env, applied, r), r.data)
  }

  /** The loop over at most left arrivals, the next of which is number i. */
  function Collect(
    env: Env, asked: Validators, mem: Mem, dirty: bool, arrivals: nat -> Arrival, i: nat, left: nat): Consumed
    decreases left
  {
    if left == 0 then Stop(mem, dirty)
    else
      match Consume(env, asked, mem, dirty, arrivals(i))
      case Continue(mem', dirty') => Collect(env, asked, mem', dirty', arrivals, i + 1, left - 1)
      case other => other
  }

  // ----- the two files

  /** The sidecar file, when it parses. */
  datatype Sidecar = Sidecar(sha: string, validators: Validators)

  /** None stands for a file that is absent, unreadable, oversized or malformed. */
  datatype Disk = Disk(payload: Option<Payload>, sidecar: Option<Sidecar>)

  /** A write may complete, fail without effect, or leave something else behind. */
  datatype PayloadWrite = PayloadDone | PayloadFailed | PayloadTorn(left: Option<Payload>)
  datatype SidecarWrite = SidecarDone | SidecarFailed | SidecarTorn

  /** persistConfig */
  function PersistPayload(disk: Disk, hasPath: bool, data: Payload, w: PayloadWrite): Disk {
    if !hasPath then disk
    else
      match w
      case PayloadDone => disk.(payload := Some(data))
      case PayloadFailed => disk
      case PayloadTorn(left) => disk.(payload := left)
  }

  /** What a completely written sidecar reads back as. */
  function Stored(env: Env, sidecar: Sidecar): Option<Sidecar> {
    if env.readable(sidecar) then Some(sidecar) else None
  }

  /** persistConfigValidators */
  function PersistSidecar(env: Env, disk: Disk, hasPath: bool, mem: Mem, w: SidecarWrite): Disk {
    if !hasPath || mem.hash == "" then disk
    else
      match w
      case SidecarDone => disk.(sidecar := Stored(env, Sidecar(mem.hash, mem.validators)))
      case SidecarFailed => disk
      case SidecarTorn => disk.(sidecar := None)
  }

  /** The end of fetchAndApplyConfig: what was applied is written, then the validators if they changed. */
  function Finish(env: Env, disk: Disk, hasPath: bool, c: Consumed, pw: PayloadWrite, sw: SidecarWrite): (Mem, Disk) {
    match c
    case Applied(mem, data) => (mem, PersistSidecar(env, PersistPayload(disk, hasPath, data, pw), hasPath, mem, sw))
    case Stop(mem, dirty) => (mem, if dirty then PersistSidecar(env, disk, hasPath, mem, sw) else disk)
    case Continue(mem, dirty) => (mem, disk)
  }

  function RestoreAll(vs: Validators, urls: seq<Url>, from: Validators): Validators {
    if urls == [] then vs
    else Remember(RestoreAll(vs, urls[..|urls| - 1], from), urls[|urls| - 1], Get(from, urls[|urls| - 1]))
  }

  /** loadConfigValidators */
  function LoadValidators(env: Env, mem: Mem, hasPath: bool, urls: seq<Url>, sidecar: Option<Sidecar>): Mem {
    if !hasPath || mem.hash == "" || sidecar == None || sidecar.value.sha != mem.hash then mem
    else if exists u :: u in urls && var m := Get(sidecar.value.validators, u).lastModified; m != "" && !env.isTime(m)
    then mem
    else mem.(validators := RestoreAll(mem.validators, urls, sidecar.value.validators))
  }

  /** The config New starts from: the persisted payload if it parses and applies, else the seed. */
  function Bootstrap(env: Env, hasPath: bool, disk: Disk, seed: Config): Option<Mem> {
    var persisted :=
      if !hasPath || disk.payload == None then None
      else
        match env.parse(disk.payload.value)
        case None => None
        case Some(cfg) =>
          match ApplyConfig(env, EMPTY, cfg)
          case None => None
          case Some(mem) => Some(mem.(hash := env.digest(disk.payload.value)));
    if persisted.Some? then persisted else ApplyConfig(env, EMPTY, seed)
  }

  // ----- what one refresh can do

  /** A config that applies: it has providers, and its certificates load. */
  predicate Applicable(env: Env, cfg: Config) {
    cfg.providers != map[] && env.loadCerts(cfg.trustedCAs).Some?
  }

  /** Arrival a is a 200 with bytes that differ from those in use and parse. */
  predicate Fresh(env: Env, mem: Mem, a: Arrival) {
    && a.Got? && a.reply.Ok?
    && (mem.hash == "" || env.digest(a.reply.data) != mem.hash)
    && env.parse(a.reply.data).Some?
  }

  /** ... and apply. */
  predicate Usable(env: Env, mem: Mem, a: Arrival) {
    Fresh(env, mem, a) && Applicable(env, env.parse(a.reply.data).value)
  }

  /** The collector gives up at a: the client ended, the deadline passed, or the gate never opened. */
  predicate GivesUp(env: Env, mem: Mem, a: Arrival) {
    a.ClientEnded? || a.Deadline? || (Fresh(env, mem, a) && !a.gate)
  }

  /** Arrival k is applied: it is usable, and until then the collector neither gave up nor met a usable one. */
  ghost predicate AppliesAt(env: Env, mem: Mem, arrivals: nat -> Arrival, k: nat) {
    && Usable(env, mem, arrivals(k)) && arrivals(k).gate
    && forall j :: 0 <= j < k ==> !GivesUp(env, mem, arrivals(j)) && !Usable(env, mem, arrivals(j))
  }

  /** Providers, certificates and candidate keys are those of cfg. */
  ghost predicate BuiltFrom(env: Env, mem: Mem, cfg: Config) {
    && cfg.providers != map[] && env.loadCerts(cfg.trustedCAs) == Some(mem.certs)
    && mem.providers == (map id | id in cfg.providers :: env.expand(cfg.providers[id]))
    && mem.candidates ==
       set id, m | id in mem.providers && m in mem.providers[id].masquerades :: FrontKey(id, m.domain, m.ip)
  }

  /** The memory after arrival a, a 200, was applied: its payload, and the validator of its source alone. */
  ghost predicate AppliedFrom(env: Env, mem: Mem, a: Arrival) {
    && a.Got? && a.reply.Ok? && env.parse(a.reply.data).Some?
    && BuiltFrom(env, mem, env.parse(a.reply.data).value)
    && mem.ready == [] && mem.hash == env.digest(a.reply.data)
    && var v := Validator(a.reply.etag, if env.isTime(a.reply.lastModified) then a.reply.lastModified else "");
       mem.validators == if v == Validator("", "") then map[] else map[a.url := v]
  }

  /** Everything but the validators. */
  predicate SameButValidators(a: Mem, b: Mem) {
    a.(validators := map[]) == b.(validators := map[])
  }

  /** Freshness, usability and giving up do not depend on the validators remembered meanwhile. */
  lemma VerdictsStable(env: Env, mem: Mem, mem': Mem, a: Arrival)
    requires SameButValidators(mem, mem')
    ensures Fresh(env, mem, a) == Fresh(env, mem', a)
    ensures Usable(env, mem, a) == Usable(env, mem', a)
    ensures GivesUp(env, mem, a) == GivesUp(env, mem', a)
  {
  }

  /**
   A refresh applies at most one payload: the first usable response, if it is met before the collector gives
   up. Memory is then that payload's. If it applies none, nothing but validators changes in memory.
   */
  lemma {:induction false} RefreshAppliesFirstUsable(
    env: Env, asked: Validators, mem: Mem, dirty: bool, arrivals: nat -> Arrival, n: nat)
    ensures var c := Collect(env, asked, mem, dirty, arrivals, 0, n);
            && (c.Applied? <==> exists k :: 0 <= k < n && AppliesAt(env, mem, arrivals, k))
            && (forall k :: 0 <= k < n && AppliesAt(env, mem, arrivals, k) ==>
                  c.Applied? && c.data == arrivals(k).reply.data && AppliedFrom(env, c.mem, arrivals(k)))
            && (!c.Applied? ==> c.Stop? && SameButValidators(c.mem, mem))
  {
    CollectFrom(env, asked, mem, mem, dirty, arrivals, 0, n);
  }

  lemma ApplyConfigMeans(env: Env, mem: Mem, cfg: Config)
    ensures var r := ApplyConfig(env, mem, cfg);
            && (r.Some? <==> Applicable(env, cfg))
            && (r.Some? ==>
                  && BuiltFrom(env, r.value, cfg) && r.value.ready == []
                  && r.value.hash == mem.hash && r.value.validators == mem.validators)
  {
  }

  /** What a 200 with other bytes does. */
  lemma FreshMeans(env: Env, asked: Validators, mem: Mem, dirty: bool, a: Arrival)
    requires Fresh(env, mem, a)
    ensures var c := Consume(env, asked, mem, dirty, a);
            if !a.gate then c == Stop(mem, dirty)
            else if Usable(env, mem, a) then c.Applied? && c.data == a.reply.data && AppliedFrom(env, c.mem, a)
            else c == Continue(mem, dirty)
  {
    ApplyConfigMeans(env, mem, env.parse(a.reply.data).value);
    hide ApplyConfig, BuiltFrom;
  }

  /** What one iteration decides, judged by the memory the refresh started with. */
  lemma ConsumeVerdict(env: Env, asked: Validators, mem0: Mem, mem: Mem, dirty: bool, a: Arrival)
    requires SameButValidators(mem0, mem)
    ensures var c := Consume(env, asked, mem, dirty, a);
            && (c.Stop? <==> GivesUp(env, mem0, a))
            && (c.Applied? <==> Usable(env, mem0, a) && a.gate)
            && (c.Continue? ==> !Usable(env, mem0, a))
            && (c.Applied? ==> c.data == a.reply.data && AppliedFrom(env, c.mem, a))
            && (!c.Applied? ==> SameButValidators(c.mem, mem0))
  {
    VerdictsStable(env, mem0, mem, a);
    if Fresh(env, mem, a) {
      FreshMeans(env, asked, mem, dirty, a);
      hide Consume, AppliedFrom;
    }
    hide AppliedFrom, ApplyConfig;
  }

  lemma {:induction false} CollectFrom(
    env: Env, asked: Validators, mem0: Mem, mem: Mem, dirty: bool, arrivals: nat -> Arrival, i: nat, left: nat)
    requires SameButValidators(mem0, mem)
    requires forall j :: 0 <= j < i ==> !GivesUp(env, mem0, arrivals(j)) && !Usable(env, mem0, arrivals(j))
    ensures var c := Collect(env, asked, mem, dirty, arrivals, i, left);
            && (c.Applied? <==> exists k :: i <= k < i + left && AppliesAt(env, mem0, arrivals, k))
            && (forall k :: 0 <= k < i + left && AppliesAt(env, mem0, arrivals, k) ==>
                  c.Applied? && c.data == arrivals(k).reply.data && AppliedFrom(env, c.mem, arrivals(k)))
            && (!c.Applied? ==> c.Stop? && SameButValidators(c.mem, mem0))
    decreases left
  {
    if left > 0 {
      var a := arrivals(i);
      ConsumeVerdict(env, asked, mem0, mem, dirty, a);
      hide Consume, Usable, GivesUp, SameButValidators, AppliedFrom;
      var c := Consume(env, asked, mem, dirty, a);
      match c
      case Continue(mem', dirty') =>
        assert !GivesUp(env, mem0, a) && !Usable(env, mem0, a);
        CollectFrom(env, asked, mem0, mem', dirty', arrivals, i + 1, left - 1);
      case Stop(_, _) =>
        assert GivesUp(env, mem0, a);
      case Applied(_, _) =>
        assert AppliesAt(env, mem0, arrivals, i);
    }
  }

  // ----- what is remembered when nothing changes

  /** Arrival a says that nothing changed: a 304 to a conditional request, or a 200 with the bytes in use. */
  predicate Unchanging(env: Env, asked: Validators, mem: Mem, a: Arrival) {
    && a.Got?
    && if a.reply.NotModified? then Get(asked, a.url) != NO_VALIDATOR
       else a.reply.Ok? && mem.hash != "" && env.digest(a.reply.data) == mem.hash
  }

  /**
   v is what such an arrival leaves remembered: what the answer carries, an unparseable Last-Modified
   counting as none, and for what a 304 does not carry, what it was asked with.
   */
  predicate LeftBy(env: Env, asked: Validators, a: Arrival, v: Validator)
    requires a.Got? && !a.reply.Failed?
  {
    && (a.reply.etag != "" ==> v.etag == a.reply.etag)
    && (a.reply.etag == "" ==> v.etag == if a.reply.NotModified? then Get(asked, a.url).etag else "")
    && (var parses := a.reply.lastModified != "" && env.isTime(a.reply.lastModified);
        && (parses ==> v.lastModified == a.reply.lastModified)
        && (!parses ==> v.lastModified == if a.reply.NotModified? then Get(asked, a.url).lastModified else ""))
  }

  lemma UnchangingMeans(env: Env, asked: Validators, mem: Mem, dirty: bool, a: Arrival)
    requires Unchanging(env, asked, mem, a)
    ensures var c := Consume(env, asked, mem, dirty, a);
            && c.Continue? && SameButValidators(c.mem, mem)
            && LeftBy(env, asked, a, Get(c.mem.validators, a.url))
            && (forall u :: u != a.url ==> Get(c.mem.validators, u) == Get(mem.validators, u))
            && c.dirty == (dirty || c.mem.validators != mem.validators)
  {
  }

  lemma OthersForgetNothing(env: Env, asked: Validators, mem: Mem, dirty: bool, a: Arrival)
    requires !Unchanging(env, asked, mem, a) && !Usable(env, mem, a)
    ensures var c := Consume(env, asked, mem, dirty, a);
            !c.Applied? && c.mem == mem && c.dirty == dirty
  {
    if Fresh(env, mem, a) {
      FreshMeans(env, asked, mem, dirty, a);
    }
  }

  /** One iteration that applies nothing, seen from URL u. */
  lemma StepRemembers(env: Env, asked: Validators, mem0: Mem, mem: Mem, dirty: bool, a: Arrival, u: Url)
    requires SameButValidators(mem0, mem) && !Consume(env, asked, mem, dirty, a).Applied?
    ensures var c := Consume(env, asked, mem, dirty, a);
            && SameButValidators(mem0, c.mem)
            && if Unchanging(env, asked, mem0, a) && a.url == u then
                 c.Continue? && LeftBy(env, asked, a, Get(c.mem.validators, u))
               else Get(c.mem.validators, u) == Get(mem.validators, u)
  {
    VerdictsStable(env, mem0, mem, a);
    ConsumeVerdict(env, asked, mem0, mem, dirty, a);
    if Unchanging(env, asked, mem, a) {
      UnchangingMeans(env, asked, mem, dirty, a);
    } else if !Usable(env, mem, a) {
      OthersForgetNothing(env, asked, mem, dirty, a);
    } else {
      FreshMeans(env, asked, mem, dirty, a);
    }
    hide Consume, LeftBy, Usable, GivesUp, AppliedFrom;
  }

  /** URL u's last word among arrivals i, ..., n - 1 is arrival k. */
  ghost predicate LastWord(
    env: Env, asked: Validators, mem: Mem, arrivals: nat -> Arrival, i: nat, n: nat, k: nat, u: Url)
  {
    && i <= k < n && Unchanging(env, asked, mem, arrivals(k)) && arrivals(k).url == u
    && (forall j :: i <= j < k ==> !GivesUp(env, mem, arrivals(j)))
    && (forall j :: k < j < n ==> !(Unchanging(env, asked, mem, arrivals(j)) && arrivals(j).url == u))
  }

  /** No arrival from the i-th on says that nothing changed at u. */
  ghost predicate NoWord(
    env: Env, asked: Validators, mem: Mem, arrivals: nat -> Arrival, i: nat, n: nat, u: Url)
  {
    forall j :: i <= j < n ==> !(Unchanging(env, asked, mem, arrivals(j)) && arrivals(j).url == u)
  }

  /** v is what a refresh that started with mem and met these arrivals should leave remembered for u. */
  ghost predicate Remembers(env: Env, mem: Mem, arrivals: nat -> Arrival, n: nat, u: Url, v: Validator) {
    && (forall k :: LastWord(env, mem.validators, mem, arrivals, 0, n, k, u) ==>
          LeftBy(env, mem.validators, arrivals(k), v))
    && (NoWord(env, mem.validators, mem, arrivals, 0, n, u) ==> v == Get(mem.validators, u))
  }

  /**
   After a refresh that applied nothing, the validator remembered for a URL is what its last answer left, if
   the collector met one that said nothing had changed, and what it was before if none did.
   */
  lemma RefreshRemembers(env: Env, mem: Mem, arrivals: nat -> Arrival, n: nat, u: Url)
    requires !Collect(env, mem.validators, mem, false, arrivals, 0, n).Applied?
    ensures var c := Collect(env, mem.validators, mem, false, arrivals, 0, n);
            Remembers(env, mem, arrivals, n, u, Get(c.mem.validators, u))
  {
    RemembersFrom(env, mem.validators, mem, mem, false, arrivals, 0, n, u);
  }

  lemma {:induction false} RemembersFrom(
    env: Env, asked: Validators, mem0: Mem, mem: Mem, dirty: bool, arrivals: nat -> Arrival, i: nat, n: nat, u: Url)
    requires i <= n && SameButValidators(mem0, mem)
    requires !Collect(env, asked, mem, dirty, arrivals, i, n - i).Applied?
    ensures var after := Get(Collect(env, asked, mem, dirty, arrivals, i, n - i).mem.validators, u);
            && (forall k :: LastWord(env, asked, mem0, arrivals, i, n, k, u) ==>
                  LeftBy(env, asked, arrivals(k), after))
            && (NoWord(env, asked, mem0, arrivals, i, n, u) ==> after == Get(mem.validators, u))
    decreases n - i
  {
    if i < n {
      var a := arrivals(i);
      var c := Consume(env, asked, mem, dirty, a);
      ConsumeVerdict(env, asked, mem0, mem, dirty, a);
      StepRemembers(env, asked, mem0, mem, dirty, a, u);
      hide Consume, LeftBy, Unchanging, GivesUp, SameButValidators, AppliedFrom, Usable;
      if c.Continue? {
        RemembersFrom(env, asked, mem0, c.mem, c.dirty, arrivals, i + 1, n, u);
      }
    }
  }

  /** If nothing was applied, the payload file is as it was, whatever became of the writes. */
  lemma NothingAppliedKeepsPayload(
    env: Env, asked: Validators, mem: Mem, disk: Disk, hasPath: bool, arrivals: nat -> Arrival, n: nat,
    pw: PayloadWrite, sw: SidecarWrite)
    requires !Collect(env, asked, mem, false, arrivals, 0, n).Applied?
    ensures var (mem', disk') := Finish(env, disk, hasPath, Collect(env, asked, mem, false, arrivals, 0, n), pw, sw);
            SameButValidators(mem', mem) && disk'.payload == disk.payload
  {
    RefreshAppliesFirstUsable(env, asked, mem, false, arrivals, n);
  }

  /** What a refresh leaves in memory and in the payload file. */
  lemma RefreshMeans(
    env: Env, mem: Mem, disk: Disk, hasPath: bool, arrivals: nat -> Arrival, n: nat, pw: PayloadWrite, sw: SidecarWrite)
    ensures var c := Collect(env, mem.validators, mem, false, arrivals, 0, n);
            var (mem', disk') := Finish(env, disk, hasPath, c, pw, sw);
            && (forall k :: 0 <= k < n && AppliesAt(env, mem, arrivals, k) ==>
                  && AppliedFrom(env, mem', arrivals(k))
                  && (hasPath && pw.PayloadDone? ==> disk'.payload == Some(arrivals(k).reply.data)))
            && ((forall k :: 0 <= k < n ==> !AppliesAt(env, mem, arrivals, k)) ==>
                  && SameButValidators(mem', mem) && disk'.payload == disk.payload
                  && forall u :: Remembers(env, mem, arrivals, n, u, Get(mem'.validators, u)))
  {
    RefreshAppliesFirstUsable(env, mem.validators, mem, false, arrivals, n);
    hide Collect, AppliesAt, AppliedFrom, Remembers;
    if !Collect(env, mem.validators, mem, false, arrivals, 0, n).Applied? {
      forall u { RefreshRemembers(env, mem, arrivals, n, u); }
    }
  }

  // ----- the files keep up with memory

  /** The files hold the payload in use and the validators in memory. */
  ghost predicate InSync(env: Env, mem: Mem, disk: Disk) {
    mem.hash != "" ==>
      && disk.sidecar == Stored(env, Sidecar(mem.hash, mem.validators))
      && disk.payload.Some? && env.digest(disk.payload.value) == mem.hash
  }

  lemma {:induction false} DirtyTracksChange(
    env: Env, asked: Validators, mem0: Mem, mem: Mem, dirty: bool, arrivals: nat -> Arrival, i: nat, left: nat)
    requires SameButValidators(mem0, mem) && (!dirty ==> mem == mem0)
    ensures var c := Collect(env, asked, mem, dirty, arrivals, i, left);
            && !c.Continue?
            && (c.Stop? ==> c.mem.hash == mem0.hash && (!c.dirty ==> c.mem == mem0))
            && (c.Applied? ==> c.mem.hash == env.digest(c.data))
    decreases left
  {
    if left > 0 {
      var c := Consume(env, asked, mem, dirty, arrivals(i));
      if c.Continue? {
        DirtyTracksChange(env, asked, mem0, c.mem, c.dirty, arrivals, i + 1, left - 1);
      }
    }
  }

  /** A refresh whose writes complete leaves the files in step with memory, if they were before. */
  lemma RefreshKeepsFilesInSync(
    env: Env, mem: Mem, disk: Disk, arrivals: nat -> Arrival, n: nat)
    requires InSync(env, mem, disk)
    ensures var c := Collect(env, mem.validators, mem, false, arrivals, 0, n);
            var (mem', disk') := Finish(env, disk, true, c, PayloadDone, SidecarDone);
            InSync(env, mem', disk')
  {
    DirtyTracksChange(env, mem.validators, mem, mem, false, arrivals, 0, n);
  }

  // ----- restoring validators

  lemma {:induction false} RestoreAllMeans(urls: seq<Url>, from: Validators, u: Url)
    ensures Get(RestoreAll(map[], urls, from), u) == if u in urls then Get(from, u) else NO_VALIDATOR
    ensures (forall w :: w in from ==> from[w] != NO_VALIDATOR) ==>
              forall w :: w in RestoreAll(map[], urls, from) ==> RestoreAll(map[], urls, from)[w] != NO_VALIDATOR
  {
    if urls != [] {
      var last := urls[|urls| - 1];
      assert urls == urls[..|urls| - 1] + [last];
      RestoreAllMeans(urls[..|urls| - 1], from, u);
    }
  }

  /**
   What New starts from: the persisted payload, if it is there, parses and applies, and then its digest is
   remembered; otherwise the seed, if that applies, and then none is; New fails only if neither applies.
   */
  lemma BootstrapMeans(env: Env, hasPath: bool, disk: Disk, seed: Config)
    ensures var b := Bootstrap(env, hasPath, disk, seed);
            var usable := hasPath && disk.payload.Some? && env.parse(disk.payload.value).Some?
                          && Applicable(env, env.parse(disk.payload.value).value);
            && (b.Some? <==> usable || Applicable(env, seed))
            && (b.Some? ==> b.value.ready == [] && b.value.validators == map[])
            && (usable ==> BuiltFrom(env, b.value, env.parse(disk.payload.value).value)
                           && b.value.hash == env.digest(disk.payload.value))
            && (b.Some? && !usable ==> BuiltFrom(env, b.value, seed) && b.value.hash == "")
  {
    ApplyConfigMeans(env, EMPTY, seed);
    if disk.payload.Some? && env.parse(disk.payload.value).Some? {
      ApplyConfigMeans(env, EMPTY, env.parse(disk.payload.value).value);
    }
    hide ApplyConfig, BuiltFrom;
  }

  /** The validators a sidecar may restore: it names the digest in use, and no configured timestamp is broken. */
  predicate Restorable(env: Env, mem: Mem, hasPath: bool, urls: seq<Url>, sidecar: Option<Sidecar>) {
    && hasPath && mem.hash != "" && sidecar.Some? && sidecar.value.sha == mem.hash
    && forall u :: u in urls && u in sidecar.value.validators ==>
         var m := sidecar.value.validators[u].lastModified; m == "" || env.isTime(m)
  }

  /** Loading restores the validators of all configured URLs, or changes nothing. */
  lemma LoadMeans(env: Env, mem: Mem, hasPath: bool, urls: seq<Url>, sidecar: Option<Sidecar>)
    requires mem.validators == map[]
    ensures var after := LoadValidators(env, mem, hasPath, urls, sidecar);
            && SameButValidators(after, mem)
            && (Restorable(env, mem, hasPath, urls, sidecar) ==>
                  forall u :: Get(after.validators, u)
                              == if u in urls && u in sidecar.value.validators then sidecar.value.validators[u]
                                 else NO_VALIDATOR)
            && (!Restorable(env, mem, hasPath, urls, sidecar) ==> after.validators == map[])
  {
    if Restorable(env, mem, hasPath, urls, sidecar) {
      var from := sidecar.value.validators;
      forall u ensures Get(RestoreAll(map[], urls, from), u)
                       == if u in urls && u in from then from[u] else NO_VALIDATOR {
        RestoreAllMeans(urls, from, u);
      }
    }
  }

  /**
   A restart that finds both files as a completed refresh left them has its validators back, unless the
   sidecar is too large to be read, and then it has none.
   */
  lemma ValidatorsSurviveRestart(env: Env, mem: Mem, data: Payload, urls: seq<Url>, seed: Config, disk: Disk, u: Url)
    requires disk == PersistSidecar(env, PersistPayload(disk, true, data, PayloadDone), true, mem, SidecarDone)
    requires mem.hash == env.digest(data) != "" && env.parse(data).Some?
    requires ApplyConfig(env, EMPTY, env.parse(data).value).Some?
    requires forall w :: w in mem.validators ==>
               mem.validators[w].lastModified == "" || env.isTime(mem.validators[w].lastModified)
    ensures var b := Bootstrap(env, true, disk, seed);
            && b.Some? && b.value.hash == mem.hash && b.value.validators == map[]
            && Get(LoadValidators(env, b.value, true, urls, disk.sidecar).validators, u)
               == if u in urls && env.readable(Sidecar(mem.hash, mem.validators)) then Get(mem.validators, u)
                  else NO_VALIDATOR
  {
    RestoreAllMeans(urls, mem.validators, u);
  }
}
