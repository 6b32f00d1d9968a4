/**
 Any number of client processes sharing the two config files, over any run of starts, refreshes, failed or
 torn writes, crashes and outside changes to the files.
 */
module ConfigProtocol {
  import opened Common
  import opened ConfigRefresh

  type Pid = nat

  datatype Phase =
    | Loading                                                  // in New, before the sidecar is read
    | Idle                                                     // configMu is free
    | Collecting(asked: Validators, left: nat, dirty: bool)
    | WritingPayload(data: Payload)
    | WritingSidecar

  datatype Proc = Proc(urls: seq<Url>, hasPath: bool, mem: Mem, phase: Phase)

  /** procs holds the running processes. */
  datatype State = State(disk: Disk, procs: map<Pid, Proc>)

  /** A step of a running client. */
  datatype Step =
    | ReadSidecar
    | Refresh
    | Arrive(a: Arrival, served: Payload)   // served: what the source was serving when it answered
    | NoneLeft                              // the collector's loop is over
    | WritePayload(pw: PayloadWrite)
    | WriteSidecar(sw: SidecarWrite)
    | ReadyChanges(ready: seq<FrontKey>)    // other goroutines take and add fronts

  datatype Action =
    | Start(urls: seq<Url>, hasPath: bool, seed: Config)
    | Own(step: Step)
    | Crash
    | FilesChange(payload: Option<Payload>, keepSidecar: bool)  // something else writes or removes the files

  predicate Init(s: State) {
    s.disk.sidecar == None && s.procs == map[]
  }

  // ----- honest sources

  /** The field of a validator names the payload p at url. */
  predicate NamesField(issued: (Url, string) -> Payload, url: Url, field: string, p: Payload) {
    field != "" ==> issued(url, field) == p
  }

  predicate Names(env: Env, url: Url, v: Validator, p: Payload) {
    NamesField(env.etagOf, url, v.etag, p) && NamesField(env.modifiedOf, url, v.lastModified, p)
  }

  /**
   The source at url, serving p, may give this answer to a request made with validator v: a 200 carries p and
   validators issued for p; a 304 to a conditional request means the validator sent names p.
   */
  predicate Honest(env: Env, url: Url, v: Validator, p: Payload, reply: Reply) {
    match reply
    case Failed => true
    case Ok(etag, modified, data) => data == p && Names(env, url, Validator(etag, modified), p)
    case NotModified(etag, modified) =>
      v != NO_VALIDATOR ==>
        && Names(env, url, Validator(etag, modified), p)
        && (if v.etag != "" then env.etagOf(url, v.etag) == p else env.modifiedOf(url, v.lastModified) == p)
  }

  // ----- steps

  predicate CanStep(env: Env, proc: Proc, step: Step) {
    match step
    case ReadSidecar => proc.phase.Loading?
    case Refresh => proc.phase.Idle?
    case Arrive(a, served) =>
      && proc.phase.Collecting? && proc.phase.left > 0
      && (a.Got? ==> a.url in proc.urls && Honest(env, a.url, Get(proc.phase.asked, a.url), served, a.reply))
    case NoneLeft => proc.phase.Collecting? && proc.phase.left == 0
    case WritePayload(_) => proc.phase.WritingPayload?
    case WriteSidecar(_) => proc.phase.WritingSidecar?
    case ReadyChanges(_) => true
  }

  function AfterArrival(proc: Proc, c: Consumed): Proc
    requires proc.phase.Collecting? && proc.phase.left > 0
  {
    match c
    case Continue(mem, dirty) =>
      proc.(mem := mem, phase := Collecting(proc.phase.asked, proc.phase.left - 1, dirty))
    case Stop(mem, dirty) => proc.(mem := mem, phase := if dirty then WritingSidecar else Idle)
    case Applied(mem, data) => proc.(mem := mem, phase := WritingPayload(data))
  }

  function ProcAfter(env: Env, proc: Proc, disk: Disk, step: Step): Proc
    requires CanStep(env, proc, step)
  {
    match step
    case ReadSidecar =>
      proc.(mem := LoadValidators(env, proc.mem, proc.hasPath, proc.urls, disk.sidecar), phase := Idle)
    case Refresh => proc.(phase := Collecting(proc.mem.validators, |proc.urls|, false))
    case Arrive(a, _) => AfterArrival(proc, Consume(env, proc.phase.asked, proc.mem, proc.phase.dirty, a))
    case NoneLeft => proc.(phase := if proc.phase.dirty then WritingSidecar else Idle)
    case WritePayload(_) => proc.(phase := WritingSidecar)
    case WriteSidecar(_) => proc.(phase := Idle)
    case ReadyChanges(ready) => proc.(mem := proc.mem.(ready := ready))
  }

  function DiskAfter(env: Env, proc: Proc, disk: Disk, step: Step): Disk
    requires CanStep(env, proc, step)
  {
    match step
    case WritePayload(pw) => PersistPayload(disk, proc.hasPath, proc.phase.data, pw)
    case WriteSidecar(sw) => PersistSidecar(env, disk, proc.hasPath, proc.mem, sw)
    case _ => disk
  }

  predicate Enabled(env: Env, s: State, p: Pid, act: Action) {
    match act
    case Start(urls, hasPath, seed) => p !in s.procs && Bootstrap(env, hasPath, s.disk, seed).Some?
    case Own(step) => p in s.procs && CanStep(env, s.procs[p], step)
    case Crash => p in s.procs
    case FilesChange(_, _) => true
  }

  function Apply(env: Env, s: State, p: Pid, act: Action): State
    requires Enabled(env, s, p, act)
  {
    match act
    case Start(urls, hasPath, seed) =>
      var mem := Bootstrap(env, hasPath, s.disk, seed).value;
      s.(procs := s.procs[p := Proc(urls, hasPath, mem, if mem.hash == "" then Idle else Loading)])
    case Own(step) =>
      State(DiskAfter(env, s.procs[p], s.disk, step), s.procs[p := ProcAfter(env, s.procs[p], s.disk, step)])
    case Crash => s.(procs := s.procs - {p})
    case FilesChange(payload, keepSidecar) =>
      s.(disk := Disk(payload, if keepSidecar then s.disk.sidecar else None))
  }

  // ----- the invariant

  /** Every field of v was issued by url for the payload with digest sha. */
  predicate Sound(env: Env, url: Url, v: Validator, sha: string) {
    && (v.etag != "" ==> env.digest(env.etagOf(url, v.etag)) == sha)
    && (v.lastModified != "" ==> env.digest(env.modifiedOf(url, v.lastModified)) == sha)
  }

  /** A stored Last-Modified parses, so it can be sent and restored. */
  predicate TimeOk(env: Env, v: Validator) {
    v.lastModified != "" ==> env.isTime(v.lastModified)
  }

  ghost predicate AllSound(env: Env, vs: Validators, sha: string) {
    forall u :: u in vs ==> vs[u] != NO_VALIDATOR && Sound(env, u, vs[u], sha) && TimeOk(env, vs[u])
  }

  ghost predicate BuiltFromPayload(env: Env, mem: Mem, d: Payload) {
    env.digest(d) == mem.hash && env.parse(d).Some? && BuiltFrom(env, mem, env.parse(d).value)
  }

  ghost predicate MemOk(env: Env, mem: Mem) {
    && AllSound(env, mem.validators, mem.hash)
    && (mem.hash == "" ==> mem.validators == map[] && exists cfg :: BuiltFrom(env, mem, cfg))
    && (mem.hash != "" ==> exists d :: BuiltFromPayload(env, mem, d))
  }

  ghost predicate ProcOk(env: Env, proc: Proc) {
    && MemOk(env, proc.mem)
    && (forall u :: u in proc.mem.validators ==> u in proc.urls)
    && (proc.phase.Collecting? ==>
          AllSound(env, proc.phase.asked, proc.mem.hash) && (proc.mem.hash == "" ==> proc.phase.asked == map[]))
    && (proc.phase.WritingPayload? ==> env.digest(proc.phase.data) == proc.mem.hash)
    && (proc.phase.Loading? ==> proc.mem.validators == map[])
  }

  ghost predicate SidecarOk(env: Env, disk: Disk) {
    disk.sidecar.Some? ==> AllSound(env, disk.sidecar.value.validators, disk.sidecar.value.sha)
  }

  ghost predicate Inv(env: Env, s: State) {
    && SidecarOk(env, s.disk)
    && (forall p :: p in s.procs ==> ProcOk(env, s.procs[p]))
  }

  lemma RememberSound(env: Env, vs: Validators, url: Url, v: Validator, sha: string)
    requires AllSound(env, vs, sha) && Sound(env, url, v, sha) && TimeOk(env, v)
    ensures AllSound(env, Remember(vs, url, v), sha)
    ensures forall u :: u in Remember(vs, url, v) ==> u in vs || u == url
  {
  }

  lemma {:induction false} RestoreSound(env: Env, urls: seq<Url>, vs: Validators, from: Validators, sha: string)
    requires AllSound(env, vs, sha) && AllSound(env, from, sha)
    ensures AllSound(env, RestoreAll(vs, urls, from), sha)
    ensures forall u :: u in RestoreAll(vs, urls, from) ==> u in vs || u in urls
  {
    if urls != [] {
      RestoreSound(env, urls[..|urls| - 1], vs, from, sha);
      var last := urls[|urls| - 1];
      RememberSound(env, RestoreAll(vs, urls[..|urls| - 1], from), last, Get(from, last), sha);
    }
  }

  /** What an honest answer brings: validators of the payload served, and a 304 only for the current one. */
  lemma ResponseSound(env: Env, asked: Validators, hash: string, url: Url, served: Payload, reply: Reply)
    requires DigestOk(env) && AllSound(env, asked, hash)
    requires Honest(env, url, Get(asked, url), served, reply)
    requires Fetch(env, url, Get(asked, url), reply).Some?
    ensures var r := Fetch(env, url, Get(asked, url), reply).value;
            && r.url == url && Sound(env, url, r.validator, env.digest(served)) && TimeOk(env, r.validator)
            && (r.same ==> env.digest(served) == hash)
            && (!r.same ==> r.data == served)
  {
  }

  lemma ApplyBuilds(env: Env, mem: Mem, cfg: Config)
    requires ApplyConfig(env, mem, cfg).Some?
    ensures var m := ApplyConfig(env, mem, cfg).value;
            BuiltFrom(env, m, cfg) && m.hash == mem.hash && m.validators == mem.validators
  {
  }

  /** A response that changes nothing leaves sound validators. */
  lemma UnchangedOk(env: Env, mem: Mem, r: Response, served: Payload)
    requires MemOk(env, mem) && Unchanged(env, mem, r)
    requires Sound(env, r.url, r.validator, env.digest(served)) && TimeOk(env, r.validator)
    requires r.same ==> env.digest(served) == mem.hash
    requires !r.same ==> r.data == served
    requires mem.hash == "" ==> !r.same
    ensures MemOk(env, mem.(validators := Remember(mem.validators, r.url, r.validator)))
    ensures forall u :: u in Remember(mem.validators, r.url, r.validator) ==> u in mem.validators || u == r.url
  {
    RememberSound(env, mem.validators, r.url, r.validator, mem.hash);
    SameBuild(env, mem, mem.(validators := Remember(mem.validators, r.url, r.validator)));
  }

  /** An applied payload brings its own digest and the validator of its source. */
  lemma AppliedOk(env: Env, mem: Mem, cfg: Config, r: Response)
    requires DigestOk(env) && env.parse(r.data) == Some(cfg) && ApplyConfig(env, mem, cfg).Some?
    requires Sound(env, r.url, r.validator, env.digest(r.data)) && TimeOk(env, r.validator)
    ensures MemOk(env, WithPayload(env, ApplyConfig(env, mem, cfg).value, r))
    ensures forall u :: u in WithPayload(env, ApplyConfig(env, mem, cfg).value, r).validators ==> u == r.url
  {
    ApplyBuilds(env, mem, cfg);
    RememberSound(env, map[], r.url, r.validator, env.digest(r.data));
    assert BuiltFromPayload(env, WithPayload(env, ApplyConfig(env, mem, cfg).value, r), r.data);
  }

  lemma ArrivalOk(env: Env, proc: Proc, a: Arrival, served: Payload)
    requires DigestOk(env) && ProcOk(env, proc) && proc.phase.Collecting? && proc.phase.left > 0
    requires a.Got? ==> a.url in proc.urls && Honest(env, a.url, Get(proc.phase.asked, a.url), served, a.reply)
    ensures ProcOk(env, AfterArrival(proc, Consume(env, proc.phase.asked, proc.mem, proc.phase.dirty, a)))
  {
    hide MemOk, Honest, BuiltFrom, ApplyConfig, Fetch, Remember, Sound;
    if a.Got? && Fetch(env, a.url, Get(proc.phase.asked, a.url), a.reply).Some? {
      ResponseSound(env, proc.phase.asked, proc.mem.hash, a.url, served, a.reply);
      var r := Fetch(env, a.url, Get(proc.phase.asked, a.url), a.reply).value;
      if Unchanged(env, proc.mem, r) {
        UnchangedOk(env, proc.mem, r, served);
      } else if env.parse(r.data).Some? && ApplyConfig(env, proc.mem, env.parse(r.data).value).Some? {
        AppliedOk(env, proc.mem, env.parse(r.data).value, r);
      }
    }
  }

  /** Validators and the ready queue play no part in what the memory was built from. */
  lemma SameBuild(env: Env, mem: Mem, mem': Mem)
    requires mem' == mem.(validators := mem'.validators, ready := mem'.ready)
    ensures forall cfg :: BuiltFrom(env, mem, cfg) ==> BuiltFrom(env, mem', cfg)
    ensures forall d :: BuiltFromPayload(env, mem, d) ==> BuiltFromPayload(env, mem', d)
  {
  }

  lemma BootstrapOk(env: Env, hasPath: bool, disk: Disk, seed: Config)
    requires DigestOk(env) && Bootstrap(env, hasPath, disk, seed).Some?
    ensures var mem := Bootstrap(env, hasPath, disk, seed).value;
            MemOk(env, mem) && mem.validators == map[]
  {
    var mem := Bootstrap(env, hasPath, disk, seed).value;
    if mem.hash == "" {
      assert BuiltFrom(env, mem, seed);
    } else {
      assert BuiltFromPayload(env, mem, disk.payload.value);
    }
  }

  lemma OwnStepOk(env: Env, proc: Proc, disk: Disk, step: Step)
    requires DigestOk(env) && ProcOk(env, proc) && CanStep(env, proc, step) && SidecarOk(env, disk)
    ensures ProcOk(env, ProcAfter(env, proc, disk, step)) && SidecarOk(env, DiskAfter(env, proc, disk, step))
  {
    match step
    case ReadSidecar =>
      if disk.sidecar.Some? && disk.sidecar.value.sha == proc.mem.hash {
        RestoreSound(env, proc.urls, proc.mem.validators, disk.sidecar.value.validators, proc.mem.hash);
      }
      SameBuild(env, proc.mem, LoadValidators(env, proc.mem, proc.hasPath, proc.urls, disk.sidecar));
    case Arrive(a, served) => ArrivalOk(env, proc, a, served);
    case ReadyChanges(ready) => SameBuild(env, proc.mem, proc.mem.(ready := ready));
    case _ =>
  }

  lemma StepInv(env: Env, s: State, p: Pid, act: Action)
    requires DigestOk(env) && Inv(env, s) && Enabled(env, s, p, act)
    ensures Inv(env, Apply(env, s, p, act))
  {
    match act
    case Start(urls, hasPath, seed) => BootstrapOk(env, hasPath, s.disk, seed);
    case Own(step) => OwnStepOk(env, s.procs[p], s.disk, step);
    case _ =>
  }

  // ----- schedules

  type Schedule = seq<(Pid, Action)>

  ghost predicate Runs(env: Env, s: State, sched: Schedule)
    decreases |sched|
  {
    sched == [] ||
    (Enabled(env, s, sched[0].0, sched[0].1) && Runs(env, Apply(env, s, sched[0].0, sched[0].1), sched[1..]))
  }

  ghost function Exec(env: Env, s: State, sched: Schedule): State
    requires Runs(env, s, sched)
    decreases |sched|
  {
    if sched == [] then s else Exec(env, Apply(env, s, sched[0].0, sched[0].1), sched[1..])
  }

  lemma {:induction false} RunInv(env: Env, s: State, sched: Schedule)
    requires DigestOk(env) && Inv(env, s) && Runs(env, s, sched)
    ensures Inv(env, Exec(env, s, sched))
    decreases |sched|
  {
    if sched != [] {
      StepInv(env, s, sched[0].0, sched[0].1);
      RunInv(env, Apply(env, s, sched[0].0, sched[0].1), sched[1..]);
    }
  }

  // ----- main results

  /**
   At every point of every run, each validator in memory was issued by its own URL for the payload whose
   digest is configHash, and each validator in the sidecar for the payload whose digest stands beside it.
   */
  lemma ValidatorsNameTheirPayload(env: Env, s: State, sched: Schedule, p: Pid, u: Url)
    requires DigestOk(env) && Init(s) && Runs(env, s, sched)
    ensures var e := Exec(env, s, sched);
            && (p in e.procs && u in e.procs[p].mem.validators ==>
                  Sound(env, u, e.procs[p].mem.validators[u], e.procs[p].mem.hash))
            && (e.disk.sidecar.Some? && u in e.disk.sidecar.value.validators ==>
                  Sound(env, u, e.disk.sidecar.value.validators[u], e.disk.sidecar.value.sha))
  {
    RunInv(env, s, sched);
    var e := Exec(env, s, sched);
    if p in e.procs {
      assert ProcOk(env, e.procs[p]);
    }
  }

  /** A 304 that the collector accepts means the client already holds the bytes that source was serving. */
  lemma AcceptedNotModifiedIsCurrent(env: Env, s: State, sched: Schedule, p: Pid, a: Arrival, served: Payload)
    requires DigestOk(env) && Init(s) && Runs(env, s, sched)
    requires Enabled(env, Exec(env, s, sched), p, Own(Arrive(a, served))) && a.Got? && a.reply.NotModified?
    requires Fetch(env, a.url, Get(Exec(env, s, sched).procs[p].phase.asked, a.url), a.reply).Some?
    ensures BuiltFromPayload(env, Exec(env, s, sched).procs[p].mem, served)
  {
    RunInv(env, s, sched);
    var proc := Exec(env, s, sched).procs[p];
    assert ProcOk(env, proc);
    ResponseSound(env, proc.phase.asked, proc.mem.hash, a.url, served, a.reply);
    var d :| BuiltFromPayload(env, proc.mem, d);
    assert env.digest(d) == env.digest(served);
  }

  /**
   Whenever configMu is free, a non-empty configHash is the digest of the payload the active providers,
   certificates and candidate keys were built from, and an empty one goes with no validators.
   */
  lemma HashIsOfActiveConfig(env: Env, s: State, sched: Schedule, p: Pid)
    requires DigestOk(env) && Init(s) && Runs(env, s, sched)
    requires p in Exec(env, s, sched).procs
    ensures var mem := Exec(env, s, sched).procs[p].mem;
            && (mem.hash != "" ==> exists d :: BuiltFromPayload(env, mem, d))
            && (mem.hash == "" ==> mem.validators == map[] && exists cfg :: BuiltFrom(env, mem, cfg))
  {
    RunInv(env, s, sched);
    assert ProcOk(env, Exec(env, s, sched).procs[p]);
  }

  // ----- restarts

  ghost predicate SameState(a: Mem, b: Mem) {
    a.(ready := []) == b.(ready := [])
  }

  lemma MemoryFromPayload(env: Env, mem: Mem, disk: Disk, seed: Config)
    requires DigestOk(env) && MemOk(env, mem) && mem.hash != "" && InSync(env, mem, disk)
    ensures Bootstrap(env, true, disk, seed) == Some(mem.(ready := [], validators := map[]))
  {
    var d :| BuiltFromPayload(env, mem, d);
    assert env.digest(d) == env.digest(disk.payload.value);
  }

  lemma ValidatorsFromSidecar(env: Env, proc: Proc, sidecar: Sidecar)
    requires ProcOk(env, proc) && sidecar == Sidecar(proc.mem.hash, proc.mem.validators) && proc.mem.hash != ""
    ensures LoadValidators(env, proc.mem.(ready := [], validators := map[]), true, proc.urls, Some(sidecar))
            == proc.mem.(ready := [])
  {
    var vs := proc.mem.validators;
    forall u | u in proc.urls ensures var m := Get(vs, u).lastModified; m == "" || env.isTime(m) {
      if u in vs {
        assert TimeOk(env, vs[u]);
      }
    }
    var restored := RestoreAll(map[], proc.urls, vs);
    forall u ensures Get(restored, u) == Get(vs, u) && (u in restored <==> u in vs) {
      RestoreAllMeans(proc.urls, vs, u);
    }
    assert restored == vs;
  }

  /**
   At any point of any run, when the files are in step with a process's memory (as a refresh whose writes
   complete leaves them), a new process with its URLs starts with the same providers, certificates,
   candidate keys, digest and validators, whatever its seed; without the validators exactly when they make
   the sidecar too large to be read.
   */
  lemma RestartResumes(env: Env, s: State, sched: Schedule, p: Pid, q: Pid, seed: Config)
    requires DigestOk(env) && Init(s) && Runs(env, s, sched)
    requires p in Exec(env, s, sched).procs && q !in Exec(env, s, sched).procs
    requires Exec(env, s, sched).procs[p].mem.hash != ""
    requires InSync(env, Exec(env, s, sched).procs[p].mem, Exec(env, s, sched).disk)
    ensures var e := Exec(env, s, sched);
            var start := Start(e.procs[p].urls, true, seed);
            && Enabled(env, e, q, start)
            && Enabled(env, Apply(env, e, q, start), q, Own(ReadSidecar))
            && var mem, next := e.procs[p].mem, Apply(env, Apply(env, e, q, start), q, Own(ReadSidecar)).procs[q].mem;
               SameState(next, if env.readable(Sidecar(mem.hash, mem.validators)) then mem
                               else mem.(validators := map[]))
  {
    RunInv(env, s, sched);
    var e := Exec(env, s, sched);
    assert ProcOk(env, e.procs[p]);
    MemoryFromPayload(env, e.procs[p].mem, e.disk, seed);
    if e.disk.sidecar.Some? {
      ValidatorsFromSidecar(env, e.procs[p], e.disk.sidecar.value);
    }
  }

  /** loadConfigValidators in a process that has none yet. */
  lemma LoadRestoresOnMatch(env: Env, proc: Proc, disk: Disk)
    requires ProcOk(env, proc) && proc.phase.Loading? && SidecarOk(env, disk)
    ensures var after := LoadValidators(env, proc.mem, proc.hasPath, proc.urls, disk.sidecar);
            if disk.sidecar.Some? && disk.sidecar.value.sha == proc.mem.hash != "" && proc.hasPath then
              forall u :: u in proc.urls ==> Get(after.validators, u) == Get(disk.sidecar.value.validators, u)
            else
              after.validators == map[]
  {
    hide RestoreAll, BuiltFromPayload, BuiltFrom, Sound;
    if disk.sidecar.Some? && disk.sidecar.value.sha == proc.mem.hash != "" && proc.hasPath {
      var from := disk.sidecar.value.validators;
      TimesParse(env, from, disk.sidecar.value.sha);
      assert LoadValidators(env, proc.mem, proc.hasPath, proc.urls, disk.sidecar).validators
             == RestoreAll(map[], proc.urls, from);
      hide LoadValidators, MemOk, AllSound;
      forall u | u in proc.urls ensures Get(RestoreAll(map[], proc.urls, from), u) == Get(from, u) {
        RestoreAllMeans(proc.urls, from, u);
      }
    }
  }

  lemma TimesParse(env: Env, from: Validators, sha: string)
    requires AllSound(env, from, sha)
    ensures forall u :: Get(from, u).lastModified == "" || env.isTime(Get(from, u).lastModified)
  {
    forall u ensures Get(from, u).lastModified == "" || env.isTime(Get(from, u).lastModified) {
      if u in from {
        assert TimeOk(env, from[u]);
      }
    }
  }

  /**
   persistConfigValidators' promise about torn writes and other processes. At any point of any run, a process
   that started from payload d and now reads the sidecar restores its URLs' validators when the sidecar
   names the digest of d. When it does not, because either file was replaced or torn in whatever way, the
   process has no validators, so every request of its next refresh is a full GET, and no 304 is accepted.
   */
  lemma MismatchMeansFullGet(env: Env, s: State, sched: Schedule, p: Pid, d: Payload)
    requires DigestOk(env) && Init(s) && Runs(env, s, sched)
    requires Enabled(env, Exec(env, s, sched), p, Own(ReadSidecar))
    requires BuiltFromPayload(env, Exec(env, s, sched).procs[p].mem, d)
    ensures var e := Exec(env, s, sched);
            var proc, after := e.procs[p], Apply(env, e, p, Own(ReadSidecar)).procs[p];
            if e.disk.sidecar.Some? && e.disk.sidecar.value.sha == env.digest(d) && proc.hasPath then
              forall u :: u in proc.urls ==> Get(after.mem.validators, u) == Get(e.disk.sidecar.value.validators, u)
            else
              && after.mem.validators == map[]
              && forall u, etag, modified ::
                   Fetch(env, u, Get(after.mem.validators, u), NotModified(etag, modified)) == None
  {
    RunInv(env, s, sched);
    var e := Exec(env, s, sched);
    var proc := e.procs[p];
    LoadRestoresOnMatch(env, proc, e.disk);
  }

  // ----- one refresh of one process is a run

  ghost predicate AllHonest(
    env: Env, urls: seq<Url>, asked: Validators, arrivals: nat -> Arrival, served: nat -> Payload)
  {
    forall i :: arrivals(i).Got? ==>
      arrivals(i).url in urls
      && Honest(env, arrivals(i).url, Get(asked, arrivals(i).url), served(i), arrivals(i).reply)
  }

  /** Process p takes these steps one after another. */
  ghost predicate Steps(env: Env, proc: Proc, disk: Disk, steps: seq<Step>, proc': Proc, disk': Disk)
    decreases |steps|
  {
    if steps == [] then proc == proc' && disk == disk'
    else
      && CanStep(env, proc, steps[0])
      && Steps(env, ProcAfter(env, proc, disk, steps[0]), DiskAfter(env, proc, disk, steps[0]), steps[1..],
               proc', disk')
  }

  lemma FirstStep(env: Env, proc: Proc, disk: Disk, step: Step, rest: seq<Step>, proc': Proc, disk': Disk)
    requires CanStep(env, proc, step)
    requires Steps(env, ProcAfter(env, proc, disk, step), DiskAfter(env, proc, disk, step), rest, proc', disk')
    ensures Steps(env, proc, disk, [step] + rest, proc', disk')
  {
    assert ([step] + rest)[1..] == rest;
  }

  lemma {:induction false} StepsAreARun(
    env: Env, s: State, p: Pid, steps: seq<Step>, proc': Proc, disk': Disk) returns (sched: Schedule)
    requires p in s.procs && Steps(env, s.procs[p], s.disk, steps, proc', disk')
    ensures Runs(env, s, sched) && Exec(env, s, sched) == State(disk', s.procs[p := proc'])
    decreases |steps|
  {
    if steps == [] {
      sched := [];
      assert s.procs[p := proc'] == s.procs;
    } else {
      var t := Apply(env, s, p, Own(steps[0]));
      var rest := StepsAreARun(env, t, p, steps[1..], proc', disk');
      assert t.procs[p := proc'] == s.procs[p := proc'];
      sched := [(p, Own(steps[0]))] + rest;
      assert sched[1..] == rest;
    }
  }

  /** The writes that remain once the collector is done. */
  lemma WriteOut(env: Env, proc: Proc, disk: Disk, pw: PayloadWrite, sw: SidecarWrite) returns (steps: seq<Step>)
    requires proc.phase.WritingPayload? || proc.phase.WritingSidecar? || proc.phase.Idle?
    ensures var disk' := if proc.phase.WritingPayload? then PersistPayload(disk, proc.hasPath, proc.phase.data, pw)
                         else disk;
            Steps(env, proc, disk, steps, proc.(phase := Idle),
                  if proc.phase.Idle? then disk' else PersistSidecar(env, disk', proc.hasPath, proc.mem, sw))
  {
    if proc.phase.Idle? {
      steps := [];
    } else if proc.phase.WritingSidecar? {
      steps := [WriteSidecar(sw)];
      assert steps[1..] == [];
    } else {
      steps := [WritePayload(pw), WriteSidecar(sw)];
      assert steps[1..] == [WriteSidecar(sw)] && steps[1..][1..] == [];
    }
  }

  /** The steps from the collector's loop to the release of configMu. */
  lemma {:induction false} CollectSteps(
    env: Env, proc: Proc, disk: Disk, arrivals: nat -> Arrival, served: nat -> Payload, i: nat,
    pw: PayloadWrite, sw: SidecarWrite) returns (steps: seq<Step>)
    requires proc.phase.Collecting? && AllHonest(env, proc.urls, proc.phase.asked, arrivals, served)
    ensures var c := Collect(env, proc.phase.asked, proc.mem, proc.phase.dirty, arrivals, i, proc.phase.left);
            var (mem, disk') := Finish(env, disk, proc.hasPath, c, pw, sw);
            Steps(env, proc, disk, steps, proc.(mem := mem, phase := Idle), disk')
    decreases proc.phase.left
  {
    ghost var c0 := Collect(env, proc.phase.asked, proc.mem, proc.phase.dirty, arrivals, i, proc.phase.left);
    ghost var (mem, disk') := Finish(env, disk, proc.hasPath, c0, pw, sw);
    var step := if proc.phase.left == 0 then NoneLeft else Arrive(arrivals(i), served(i));
    var next := ProcAfter(env, proc, disk, step);
    hide Consume, PersistPayload, PersistSidecar, Steps;
    var rest;
    if next.phase.Collecting? {
      rest := CollectSteps(env, next, disk, arrivals, served, i + 1, pw, sw);
    } else {
      rest := WriteOut(env, next, disk, pw, sw);
    }
    FirstStep(env, proc, disk, step, rest, proc.(mem := mem, phase := Idle), disk');
    steps := [step] + rest;
  }

  /**
   An undisturbed refresh with honest sources, as ConfigClient's method computes it, is a run of this
   machine, so everything proved of runs holds of it.
   */
  lemma RefreshIsARun(
    env: Env, s: State, p: Pid, arrivals: nat -> Arrival, served: nat -> Payload,
    pw: PayloadWrite, sw: SidecarWrite)
    requires p in s.procs && s.procs[p].phase.Idle?
    requires AllHonest(env, s.procs[p].urls, s.procs[p].mem.validators, arrivals, served)
    ensures exists sched ::
              && Runs(env, s, sched)
              && var proc := s.procs[p];
                 var c := Collect(env, proc.mem.validators, proc.mem, false, arrivals, 0, |proc.urls|);
                 var (mem, disk) := Finish(env, s.disk, proc.hasPath, c, pw, sw);
                 Exec(env, s, sched) == State(disk, s.procs[p := proc.(mem := mem, phase := Idle)])
  {
    var proc := s.procs[p];
    var c := Collect(env, proc.mem.validators, proc.mem, false, arrivals, 0, |proc.urls|);
    var (mem, disk) := Finish(env, s.disk, proc.hasPath, c, pw, sw);
    var rest := CollectSteps(env, ProcAfter(env, proc, s.disk, Refresh), s.disk, arrivals, served, 0, pw, sw);
    FirstStep(env, proc, s.disk, Refresh, rest, proc.(mem := mem, phase := Idle), disk);
    var sched := StepsAreARun(env, s, p, [Refresh] + rest, proc.(mem := mem, phase := Idle), disk);
  }
}
