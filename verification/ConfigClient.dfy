/** The client's config refresh as code over its own fields and two files, proved against ConfigRefresh. */
module ConfigClient {
  import opened Common
  import opened ConfigRefresh

  /** The payload file and its .http.json sidecar, as they would be read back. */
  class Files {
    var payload: Option<Payload>
    var sidecar: Option<Sidecar>

    function Contents(): Disk
      reads this
    {
      Disk(payload, sidecar)
    }
  }

  class Client {
    const env: Env
    const urls: seq<Url>
    const hasPath: bool
    const files: Files
    var providers: map<string, Provider>
    var certs: CertPool
    var candidates: set<FrontKey>
    var ready: seq<FrontKey>
    var configHash: string
    var configValidators: Validators

    /** The fields, as one value. */
    function Memory(): Mem
      reads this
    {
      Mem(providers, certs, candidates, ready, configHash, configValidators)
    }

    constructor (env: Env, urls: seq<Url>, hasPath: bool, files: Files)
      ensures Memory() == EMPTY
      ensures this.env == env && this.urls == urls && this.hasPath == hasPath && this.files == files
    {
      this.env, this.urls, this.hasPath, this.files := env, urls, hasPath, files;
      providers, certs, candidates, ready, configHash, configValidators := map[], 0, {}, [], "", map[];
    }

    /** applyConfig: on error nothing changes. */
    method ApplyConfig(cfg: Config) returns (ok: bool)
      modifies this
      ensures ok <==> Applicable(env, cfg)
      ensures ok ==> BuiltFrom(env, Memory(), cfg) && ready == []
      ensures configHash == old(configHash) && configValidators == old(configValidators)
      ensures ok <==> ConfigRefresh.ApplyConfig(env, old(Memory()), cfg).Some?
      ensures Memory() == if ok then ConfigRefresh.ApplyConfig(env, old(Memory()), cfg).value else old(Memory())
    {
      if cfg.providers == map[] {
        return false;
      }
      var loaded := env.loadCerts(cfg.trustedCAs);
      if loaded == None {
        return false;
      }
      var expanded := Expand(cfg);
      var keys := FrontKeys(expanded);
      providers := expanded;
      certs := loaded.value;
      candidates := keys;
      ready := [];
      ok := true;
    }

    method Expand(cfg: Config) returns (expanded: map<string, Provider>)
      ensures expanded == Expanded(env, cfg)
    {
      expanded := map[];
      var todo := cfg.providers.Keys;
      while todo != {}
        invariant todo <= cfg.providers.Keys
        invariant expanded == map id | id in cfg.providers && id !in todo :: env.expand(cfg.providers[id])
        decreases todo
      {
        var id :| id in todo;
        todo := todo - {id};
        expanded := expanded[id := env.expand(cfg.providers[id])];
      }
    }

    method FrontKeys(ps: map<string, Provider>) returns (keys: set<FrontKey>)
      ensures keys == KeysOf(ps)
    {
      keys := {};
      var todo := ps.Keys;
      while todo != {}
        invariant todo <= ps.Keys
        invariant keys == set id, m | id in ps && id !in todo && m in ps[id].masquerades :: FrontKey(id, m.domain, m.ip)
        decreases todo
      {
        var id :| id in todo;
        ghost var before := keys;
        var ms := ps[id].masquerades;
        for i := 0 to |ms|
          invariant keys == before + set m | m in ms[..i] :: FrontKey(id, m.domain, m.ip)
        {
          assert ms[..i + 1] == ms[..i] + [ms[i]];
          keys := keys + {FrontKey(id, ms[i].domain, ms[i].ip)};
        }
        assert ms[..|ms|] == ms;
        todo := todo - {id};
      }
    }

    /** rememberConfigValidator */
    method RememberConfigValidator(url: Url, v: Validator) returns (changed: bool)
      modifies this`configValidators
      ensures configValidators == Remember(old(configValidators), url, v)
      ensures forall u :: Get(configValidators, u) == if u == url then v else Get(old(configValidators), u)
      ensures changed <==> configValidators != old(configValidators)
    {
      if Get(configValidators, url) == v {
        return false;
      }
      if v == NO_VALIDATOR {
        configValidators := configValidators - {url};
      } else {
        configValidators := configValidators[url := v];
      }
      changed := true;
    }

    /** persistConfig, with what becomes of the write. */
    method PersistConfig(data: Payload, pw: PayloadWrite)
      modifies files
      ensures files.Contents() == PersistPayload(old(files.Contents()), hasPath, data, pw)
    {
      if !hasPath {
        return;
      }
      if pw.PayloadDone? {
        files.payload := Some(data);
      } else if pw.PayloadTorn? {
        files.payload := pw.left;
      }
    }

    /** persistConfigValidators */
    method PersistConfigValidators(sw: SidecarWrite)
      modifies files
      ensures files.Contents() == PersistSidecar(env, old(files.Contents()), hasPath, Memory(), sw)
    {
      if !hasPath || configHash == "" {
        return;
      }
      if sw.SidecarDone? {
        files.sidecar := Stored(env, Sidecar(configHash, configValidators));
      } else if sw.SidecarTorn? {
        files.sidecar := None;
      }
    }

    /** loadConfigValidators: all configured validators are checked before any is remembered. */
    method LoadConfigValidators()
      modifies this`configValidators
      ensures Memory() == LoadValidators(env, old(Memory()), hasPath, urls, files.sidecar)
      ensures old(configValidators) == map[] ==>
                if Restorable(env, old(Memory()), hasPath, urls, files.sidecar) then
                  forall u :: Get(configValidators, u)
                              == if u in urls && u in files.sidecar.value.validators
                                 then files.sidecar.value.validators[u] else NO_VALIDATOR
                else configValidators == map[]
    {
      if configValidators == map[] {
        LoadMeans(env, Memory(), hasPath, urls, files.sidecar);
      }
      if !hasPath || configHash == "" || files.sidecar == None || files.sidecar.value.sha != configHash {
        return;
      }
      var from := files.sidecar.value.validators;
      for i := 0 to |urls|
        invariant forall j :: 0 <= j < i ==>
                    var m := Get(from, urls[j]).lastModified; m == "" || env.isTime(m)
      {
        var modified := Get(from, urls[i]).lastModified;
        if modified != "" && !env.isTime(modified) {
          assert urls[i] in urls;
          return;
        }
      }
      for i := 0 to |urls|
        invariant configValidators == RestoreAll(old(configValidators), urls[..i], from)
      {
        assert urls[..i + 1][..i] == urls[..i];
        var changed := RememberConfigValidator(urls[i], Get(from, urls[i]));
      }
      assert urls[..|urls|] == urls;
    }

    /** The start of New: the persisted config if it is usable, with its validators, else the seed. */
    method Start(seed: Config) returns (ok: bool)
      requires Memory() == EMPTY
      modifies this
      ensures var b := Bootstrap(env, hasPath, files.Contents(), seed);
              && (ok <==> b.Some?)
              && (ok ==> Memory() == LoadValidators(env, b.value, hasPath, urls, files.sidecar))
      ensures var usable := hasPath && files.payload.Some? && env.parse(files.payload.value).Some?
                            && Applicable(env, env.parse(files.payload.value).value);
              && (ok <==> usable || Applicable(env, seed))
              && (usable ==> BuiltFrom(env, Memory(), env.parse(files.payload.value).value)
                             && configHash == env.digest(files.payload.value))
              && (ok && !usable ==> BuiltFrom(env, Memory(), seed) && configHash == "")
    {
      BootstrapMeans(env, hasPath, files.Contents(), seed);
      if hasPath && files.payload.Some? {
        var cfg := env.parse(files.payload.value);
        if cfg.Some? {
          var applied := ApplyConfig(cfg.value);
          if applied {
            configHash := env.digest(files.payload.value);
            LoadConfigValidators();
            return true;
          }
        }
      }
      ok := ApplyConfig(seed);
    }

    /** What the collector does with one response; stop ends its loop, and data is what it applied. */
    method HandleResponse(r: Response, gate: bool, ghost asked: Validators, ghost dirty0: bool)
      returns (changed: bool, stop: bool, data: Option<Payload>)
      modifies this
      ensures forall url, reply :: Fetch(env, url, Get(asked, url), reply) == Some(r) ==>
                var c := Consume(env, asked, old(Memory()), dirty0, Got(url, reply, gate));
                && Memory() == c.mem
                && (c.Applied? <==> data.Some?) && (c.Applied? ==> data == Some(c.data))
                && (c.Stop? <==> stop) && (!c.Applied? ==> c.dirty == (dirty0 || changed))
    {
      changed, stop, data := false, false, None;
      var digest := if r.same then "" else env.digest(r.data);
      if r.same || (configHash != "" && digest == configHash) {
        changed := RememberConfigValidator(r.url, r.validator);
        return;
      }
      var cfg := env.parse(r.data);
      if cfg == None {
        return;
      }
      if !gate {
        stop := true;
        return;
      }
      var ok := ApplyConfig(cfg.value);
      if ok {
        configHash := digest;
        configValidators := map[];
        var _ := RememberConfigValidator(r.url, r.validator);
        data := Some(r.data);
      }
    }

    lemma NothingFetched(asked: Validators, dirty: bool, a: Arrival)
      requires a.Got? ==> Fetch(env, a.url, Get(asked, a.url), a.reply) == None
      ensures Consume(env, asked, Memory(), dirty, a)
              == if a.Got? then Continue(Memory(), dirty) else Stop(Memory(), dirty)
    {
    }

    /**
     fetchAndApplyConfig: arrivals are what the collector meets, in order, and pw and sw what becomes of the
     writes it makes.
     */
    method FetchAndApplyConfig(arrivals: nat -> Arrival, pw: PayloadWrite, sw: SidecarWrite)
      modifies this, files
      ensures (Memory(), files.Contents())
              == Finish(env, old(files.Contents()), hasPath,
                        Collect(env, old(configValidators), old(Memory()), false, arrivals, 0, |urls|), pw, sw)
      ensures forall k :: 0 <= k < |urls| && AppliesAt(env, old(Memory()), arrivals, k) ==>
                && AppliedFrom(env, Memory(), arrivals(k))
                && (hasPath && pw.PayloadDone? ==> files.payload == Some(arrivals(k).reply.data))
      ensures (forall k :: 0 <= k < |urls| ==> !AppliesAt(env, old(Memory()), arrivals, k)) ==>
                && SameButValidators(Memory(), old(Memory())) && files.payload == old(files.payload)
                && forall u :: Remembers(env, old(Memory()), arrivals, |urls|, u, Get(configValidators, u))
    {
      ghost var mem, disk := Memory(), files.Contents();
      CollectAndWrite(arrivals, pw, sw);
      RefreshMeans(env, mem, disk, hasPath, arrivals, |urls|, pw, sw);
    }

    /** Its collector loop, and the writes that follow. */
    method CollectAndWrite(arrivals: nat -> Arrival, pw: PayloadWrite, sw: SidecarWrite)
      modifies this, files
      ensures (Memory(), files.Contents())
              == Finish(env, old(files.Contents()), hasPath,
                        Collect(env, old(configValidators), old(Memory()), false, arrivals, 0, |urls|), pw, sw)
    {
      hide Consume, PersistPayload, PersistSidecar, Fetch, Get;
      var asked := configValidators;
      var dirty := false;
      ghost var all := Collect(env, asked, Memory(), false, arrivals, 0, |urls|);
      for i := 0 to |urls|
        invariant files.Contents() == old(files.Contents())
        invariant all == Collect(env, asked, Memory(), dirty, arrivals, i, |urls| - i)
      {
        var a := arrivals(i);
        if !a.Got? {
          NothingFetched(asked, dirty, a);
          break;
        }
        var r := Fetch(env, a.url, Get(asked, a.url), a.reply);
        if r == None {
          NothingFetched(asked, dirty, a);
          continue;
        }
        var changed, stop, data := HandleResponse(r.value, a.gate, asked, dirty);
        if data.Some? {
          PersistConfig(data.value, pw);
          PersistConfigValidators(sw);
          return;
        }
        dirty := dirty || changed;
        if stop {
          break;
        }
      }
      if dirty {
        PersistConfigValidators(sw);
      }
    }
  }
}
