/** The registry: one file a host and one file an instance, named after its id. Every
    mutator holds the registry lock; each file write is atomic. */
module Registry {
  import opened Prelude

  type HostId = nat

  const LOCAL_HOST_ALIAS := "local"
  const MAX_KEY_CHARS := 128
  const YEAR: nat := 31_536_000

  datatype Transport = Local | Ssh
  datatype Privilege = Direct | Sudo

  datatype HostRecord = HostRecord(
    id: HostId, alias: string, transport: Transport, profile: Option<string>, privilege: Privilege,
    observation: Option<nat>)

  datatype Policy = Off | Warn | Require(maxAge: nat)

  datatype InstanceRecord = InstanceRecord(
    deployment: string, alias: string, host: HostId, issuer: string,
    controller: Option<string>, policy: Policy, observation: Option<nat>)

  datatype Evidence = Evidence(
    host: HostId, hostAlias: string, transport: Transport, deployment: string, issuer: string)

  datatype Refusal =
    | Invalid | DuplicateAlias | DuplicateId | UnknownHost | UnknownInstance | Drifted | ReservedHost
    | StillReferenced | SameHost | WriteFailed

  datatype Outcome<T> = Ok(value: T) | Refused(reason: Refusal)

  // ------------------------------------------------------------- validation

  predicate KeyChar(c: char) {
    'a' <= c <= 'z' || 'A' <= c <= 'Z' || '0' <= c <= '9' || c in ".:_+-"
  }

  /** `validate_identifier` with the registry's bound. */
  predicate ValidKey(value: string) {
    && 0 < |value| <= MAX_KEY_CHARS && value[0] != '-' && value != "." && value != ".."
    && forall i :: 0 <= i < |value| ==> KeyChar(value[i])
  }

  predicate ValidHost(h: HostRecord) {
    && ValidKey(h.alias)
    && match h.transport
       case Local => h.alias == LOCAL_HOST_ALIAS && h.profile.None?
       case Ssh => h.alias != LOCAL_HOST_ALIAS && h.profile.Some? && ValidKey(h.profile.value)
  }

  predicate ValidPolicy(p: Policy) { p.Require? ==> 0 < p.maxAge <= YEAR }

  predicate ValidInstance(r: InstanceRecord) {
    && ValidKey(r.deployment) && ValidKey(r.alias) && ValidPolicy(r.policy)
    && (r.controller.Some? ==> ValidKey(r.controller.value))
  }

  /** The code of an ASCII letter or digit, or of one of `.:_+-`. */
  predicate KeyCode(code: int) {
    0x61 <= code <= 0x7A || 0x41 <= code <= 0x5A || 0x30 <= code <= 0x39 || code in {0x2E, 0x3A, 0x5F, 0x2B, 0x2D}
  }

  /** A key is a file name: nothing that leaves its directory, nothing an option could be. */
  lemma KeysArePlain(value: string)
    ensures ValidKey(value) <==>
              && 1 <= |value| <= 128 && (forall c :: c in value ==> KeyCode(c as int))
              && value[0] != '-' && value != "." && value != ".."
  {
    forall c: char ensures KeyChar(c) <==> KeyCode(c as int) {
      assert c in ".:_+-" <==> c == '.' || c == ':' || c == '_' || c == '+' || c == '-';
    }
    assert (forall c :: c in value ==> KeyChar(c)) <==> (forall i :: 0 <= i < |value| ==> KeyChar(value[i]));
  }

  /** The local host, and it alone, has the reserved alias and no profile. */
  lemma LocalAliasIsReserved(h: HostRecord)
    ensures ValidHost(h) <==>
              && ValidKey(h.alias) && (h.profile.Some? ==> ValidKey(h.profile.value))
              && (h.alias == "local" <==> h.transport.Local?) && (h.profile.None? <==> h.transport.Local?)
  {
  }

  /** An instance's names are keys, and a backup required before updates is at most a year old. */
  lemma InstancesAreSound(r: InstanceRecord)
    ensures ValidInstance(r) <==>
              && ValidKey(r.deployment) && ValidKey(r.alias) && (r.controller.None? || ValidKey(r.controller.value))
              && !(r.policy.Require? && (r.policy.maxAge == 0 || r.policy.maxAge > 365 * 24 * 60 * 60))
  {
  }

  function LocalHost(id: HostId): HostRecord {
    HostRecord(id, LOCAL_HOST_ALIAS, Local, None, Direct, None)
  }

  // ------------------------------------------------------------- invariant

  /** File stems with the records that the files of that name hold. */
  type Directory = map<string, InstanceRecord>

  datatype Reading = NotFound | ResetRequired | Found(record: InstanceRecord)

  /** `read_record`: a file whose record is not valid or carries another id is not adopted
      under either name. */
  function ReadInstance(files: Directory, stem: string): Reading {
    if stem !in files then NotFound
    else if !ValidInstance(files[stem]) || files[stem].deployment != stem then ResetRequired
    else Found(files[stem])
  }

  ghost predicate AllReadable(files: Directory) {
    forall stem :: stem in files ==> ReadInstance(files, stem).Found?
  }

  /** A name is free only if there is no file, readable or not. */
  lemma UnreadableIsNotAbsent(files: Directory, stem: string)
    ensures ReadInstance(files, stem).NotFound? <==> stem !in files
    ensures ReadInstance(files, stem).Found? ==>
              files[stem] == ReadInstance(files, stem).record && files[stem].deployment == stem
              && ValidKey(stem) && ValidKey(files[stem].alias)
  {
  }

  /** In any directory that can be scanned at all, a record is in some file if and only if
      the lookup by its id reads it. */
  lemma ScanAgreesWithLookup(files: Directory, r: InstanceRecord)
    requires AllReadable(files)
    ensures r in files.Values <==> ReadInstance(files, r.deployment) == Found(r)
  {
    if r in files.Values {
      var stem :| stem in files && files[stem] == r;
      assert ReadInstance(files, stem).Found?;
    }
  }

  /** Every file reads back as a valid record of the id it is named after. */
  ghost predicate FilesConform(hosts: map<HostId, HostRecord>, instances: map<string, InstanceRecord>) {
    && (forall id :: id in hosts ==> hosts[id].id == id && ValidHost(hosts[id]))
    && AllReadable(instances)
  }

  /** Selectors are unambiguous, and no instance names a host that is not there. */
  ghost predicate Consistent(hosts: map<HostId, HostRecord>, instances: map<string, InstanceRecord>) {
    && FilesConform(hosts, instances)
    && (forall a, b :: a in hosts && b in hosts && hosts[a].alias == hosts[b].alias ==> a == b)
    && (forall a, b :: a in instances && b in instances && instances[a].alias == instances[b].alias ==> a == b)
    && (forall id :: id in instances ==> instances[id].host in hosts)
  }

  /** Dropping instances keeps the registry consistent, whichever of them a crash spares. */
  lemma FewerInstances(hosts: map<HostId, HostRecord>, instances: map<string, InstanceRecord>, gone: set<string>)
    requires Consistent(hosts, instances)
    ensures Consistent(hosts, instances - gone)
  {
  }

  /** Removing a host is safe exactly when nothing refers to it any more. */
  lemma HostRemovable(hosts: map<HostId, HostRecord>, instances: map<string, InstanceRecord>, id: HostId)
    requires Consistent(hosts, instances)
    ensures Consistent(hosts - {id}, instances) <==> forall d :: d in instances ==> instances[d].host != id
  {
  }

  /** Making the built-in host keeps the registry consistent, and still loses a registration
      exactly when another host has the local target's id: its alias stops resolving while
      its instances go on, now as local ones. */
  lemma LocalHostDisplaces(hosts: map<HostId, HostRecord>, instances: map<string, InstanceRecord>, id: HostId)
    requires Consistent(hosts, instances) && forall a :: a in hosts ==> hosts[a].alias != LOCAL_HOST_ALIAS
    ensures var made := hosts[id := LocalHost(id)];
            && Consistent(made, instances)
            && ((forall a :: a in hosts ==> made[a] == hosts[a]) <==> id !in hosts)
            && (id in hosts ==> hosts[id].transport.Ssh? && forall a :: a in made ==> made[a].alias != hosts[id].alias)
  {
    assert KeyChar('l') && KeyChar('o') && KeyChar('c') && KeyChar('a');
    assert ValidHost(LocalHost(id));
  }

  class Store {
    // No write fails and no process is killed.
    const calm: bool
    var hosts: map<HostId, HostRecord>
    var instances: map<string, InstanceRecord>

    ghost predicate Valid() reads this { Consistent(hosts, instances) }

    constructor (calm: bool)
      ensures Valid() && hosts == map[] && instances == map[] && this.calm == calm
    {
      this.calm := calm;
      hosts, instances := map[], map[];
    }

    // ------------------------------------------------------------ single files

    method WriteHost(h: HostRecord) returns (ok: bool)
      modifies `hosts
      ensures hosts == if ok then old(hosts)[h.id := h] else old(hosts)
      ensures calm ==> ok
    {
      var io := Attempt(calm);
      ok := io.Done?;
      if ok { hosts := hosts[h.id := h]; }
    }

    method WriteInstance(r: InstanceRecord) returns (ok: bool)
      modifies `instances
      ensures instances == if ok then old(instances)[r.deployment := r] else old(instances)
      ensures calm ==> ok
    {
      var io := Attempt(calm);
      ok := io.Done?;
      if ok { instances := instances[r.deployment := r]; }
    }

    // --------------------------------------------------------------- lookups

    /** Scans the hosts directory. */
    method HostByAlias(alias: string) returns (found: Option<HostRecord>)
      requires Valid()
      ensures found.Some? ==>
                found.value.id in hosts && hosts[found.value.id] == found.value && found.value.alias == alias
      ensures found.None? ==> forall id :: id in hosts ==> hosts[id].alias != alias
    {
      found := None;
      var todo := hosts.Keys;
      while todo != {} && found.None?
        invariant todo <= hosts.Keys
        invariant found.Some? ==>
                    found.value.id in hosts && hosts[found.value.id] == found.value && found.value.alias == alias
        invariant found.None? ==> forall id :: id in hosts && id !in todo ==> hosts[id].alias != alias
        decreases |todo|
      {
        var id :| id in todo;
        if hosts[id].alias == alias { found := Some(hosts[id]); }
        todo := todo - {id};
      }
    }

    /** `load_all_locked`: one file that does not conform fails the whole scan. What a scan
        that succeeds finds is exactly what lookups by id find, in any directory. */
    static method LoadInstances(files: Directory) returns (records: Option<set<InstanceRecord>>)
      ensures records.Some? <==> AllReadable(files)
      ensures records.Some? ==> forall r :: r in records.value <==> ReadInstance(files, r.deployment) == Found(r)
    {
      var todo, read := files.Keys, {};
      while todo != {}
        invariant todo <= files.Keys
        invariant forall stem :: stem in files && stem !in todo ==>
                    ReadInstance(files, stem).Found? && files[stem] in read
        invariant forall r :: r in read ==> ReadInstance(files, r.deployment) == Found(r)
        decreases |todo|
      {
        var stem :| stem in todo;
        match ReadInstance(files, stem) {
          case Found(record) => read := read + {record};
          case _ => return None;
        }
        todo := todo - {stem};
      }
      records := Some(read);
    }

    method InstanceByAlias(alias: string) returns (found: Option<InstanceRecord>)
      requires Valid()
      ensures found.Some? ==>
                found.value.deployment in instances && instances[found.value.deployment] == found.value
                && found.value.alias == alias
      ensures found.None? ==> forall id :: id in instances ==> instances[id].alias != alias
    {
      var records := LoadInstances(instances);
      found := None;
      var todo := records.value;
      while todo != {} && found.None?
        invariant todo <= records.value
        invariant found.Some? ==> found.value in records.value && found.value.alias == alias
        invariant found.None? ==> forall r :: r in records.value && r !in todo ==> r.alias != alias
        decreases |todo|
      {
        var r :| r in todo;
        if r.alias == alias { found := Some(r); }
        todo := todo - {r};
      }
      assert forall id :: id in instances ==> ReadInstance(instances, id) == Found(instances[id]);
      assert forall id :: id in instances ==> instances[id] in records.value;
    }

    /** A deployment id wins over an alias of the same spelling. */
    method ResolveInstance(selector: string) returns (found: Outcome<InstanceRecord>)
      requires Valid()
      ensures found.Ok? ==>
                var r := found.value;
                && r.deployment in instances && instances[r.deployment] == r
                && (if selector in instances then r.deployment == selector else r.alias == selector)
      ensures found.Refused? ==>
                && selector !in instances && (forall id :: id in instances ==> instances[id].alias != selector)
                && found.reason == if ValidKey(selector) then UnknownInstance else Invalid
    {
      if !ValidKey(selector) { return Refused(Invalid); }
      match ReadInstance(instances, selector) {
        case Found(record) => return Ok(record);
        case ResetRequired => return Refused(Invalid);
        case NotFound =>
          var byAlias := InstanceByAlias(selector);
          found := if byAlias.Some? then Ok(byAlias.value) else Refused(UnknownInstance);
      }
    }

    // ----------------------------------------------------------------- hosts

    /** The built-in host, made once. It is written under the local target's id without
        looking whether a host of that id is registered already: such a host is lost, and
        exactly then. */
    method EnsureLocalHost(targetId: HostId) returns (h: Outcome<HostRecord>)
      requires Valid()
      modifies `hosts
      ensures Valid()
      ensures h.Ok? ==> h.value.alias == LOCAL_HOST_ALIAS && h.value.id in hosts && hosts[h.value.id] == h.value
      ensures h.Ok? && hosts != old(hosts) ==>
                && h.value == LocalHost(targetId) && hosts == old(hosts)[targetId := LocalHost(targetId)]
                && ((forall id :: id in old(hosts) ==> hosts[id] == old(hosts)[id]) <==> targetId !in old(hosts))
      ensures h.Refused? ==> hosts == old(hosts)
      ensures calm ==> h.Ok?
    {
      var existing := HostByAlias(LOCAL_HOST_ALIAS);
      if existing.Some? { return Ok(existing.value); }
      var ok := WriteHost(LocalHost(targetId));
      h := if ok then Ok(LocalHost(targetId)) else Refused(WriteFailed);
    }

    /** Nothing that is registered is ever lost by adding a host. */
    method AddHost(record: HostRecord) returns (h: Outcome<HostRecord>)
      requires Valid()
      modifies `hosts
      ensures Valid()
      ensures h.Ok? ==> record.id !in old(hosts) && hosts == old(hosts)[record.id := record] && h.value == record
      ensures h.Refused? ==> hosts == old(hosts)
      ensures calm ==>
                (h.Ok? <==> && ValidHost(record) && record.id !in old(hosts)
                            && forall id :: id in old(hosts) ==> old(hosts)[id].alias != record.alias)
    {
      if !ValidHost(record) { return Refused(Invalid); }
      var taken := HostByAlias(record.alias);
      if taken.Some? { return Refused(DuplicateAlias); }
      if record.id in hosts { return Refused(DuplicateId); }
      var ok := WriteHost(record);
      h := if ok then Ok(record) else Refused(WriteFailed);
    }

    /** Forgets the host after the instances that refer to it. Killed in between, it leaves a
        consistent registry that still has the host. */
    method ForgetHost(alias: string, cascade: bool) returns (h: Outcome<HostRecord>)
      requires Valid()
      modifies `hosts, `instances
      ensures Valid()
      ensures forall d :: d in instances ==> d in old(instances) && instances[d] == old(instances)[d]
      ensures forall d :: d in old(instances) && d !in instances ==>
                cascade && exists id ::
                  id in old(hosts) && old(hosts)[id].alias == alias && old(instances)[d].host == id
      ensures h.Ok? ==>
                && h.value.id in old(hosts) && old(hosts)[h.value.id] == h.value && h.value.alias == alias
                && h.value.transport.Ssh? && hosts == old(hosts) - {h.value.id}
                && forall d :: d in instances <==> d in old(instances) && old(instances)[d].host != h.value.id
      ensures calm ==>
                (h.Ok? <==> exists id :: id in old(hosts) && old(hosts)[id].alias == alias
                              && old(hosts)[id].transport.Ssh?
                              && (cascade || forall d :: d in old(instances) ==> old(instances)[d].host != id))
      ensures h.Refused? ==> hosts == old(hosts) && (!h.reason.WriteFailed? ==> instances == old(instances))
    {
      var found := HostByAlias(alias);
      if found.None? { return Refused(UnknownHost); }
      var host := found.value;
      if host.transport.Local? { return Refused(ReservedHost); }
      var referencing := set d | d in instances && instances[d].host == host.id;
      if referencing != {} && !cascade { return Refused(StillReferenced); }
      ghost var before := instances;
      var removed := RemoveInstances(referencing);
      ghost var done :| done <= referencing && instances == before - done;
      FewerInstances(hosts, before, done);
      if !removed { return Refused(WriteFailed); }
      HostRemovable(hosts, instances, host.id);
      var io := Attempt(calm);
      if !io.Done? { return Refused(WriteFailed); }
      hosts := hosts - {host.id};
      h := Ok(host);
    }

    method RemoveInstanceFile(d: string) returns (ok: bool)
      modifies `instances
      ensures instances == if ok then old(instances) - {d} else old(instances)
      ensures calm ==> ok
    {
      var io := Attempt(calm);
      ok := io.Done?;
      if ok { instances := instances - {d}; }
    }

    method RemoveInstances(gone: set<string>) returns (ok: bool)
      modifies `instances
      ensures exists done :: done <= gone && instances == old(instances) - done
      ensures ok ==> instances == old(instances) - gone
      ensures calm ==> ok
    {
      var todo := gone;
      ghost var done := {};
      ok := true;
      while todo != {} && ok
        invariant todo <= gone && done <= gone && instances == old(instances) - done
        invariant gone == done + todo || !ok
        invariant calm ==> ok
        decreases |todo|
      {
        var d :| d in todo;
        ok := RemoveInstanceFile(d);
        if ok { done := done + {d}; }
        todo := todo - {d};
      }
      assert ok ==> gone == done;
    }

    // ------------------------------------------------------------- instances

    /** The only way in for an instance. */
    method RegisterInstance(e: Evidence, alias: Option<string>, observation: nat) returns (r: Outcome<InstanceRecord>)
      requires Valid()
      modifies `instances
      ensures Valid()
      ensures r.Ok? ==>
                && e.deployment !in old(instances) && instances == old(instances)[e.deployment := r.value]
                && r.value.deployment == e.deployment && r.value.host == e.host && r.value.issuer == e.issuer
                && r.value.alias == (if alias.Some? then alias.value else e.deployment)
                && r.value.controller.None? && r.value.policy.Off? && r.value.observation == Some(observation)
      ensures r.Refused? ==> instances == old(instances)
      ensures r.Ok? || calm ==>
                (r.Ok? <==>
                   && e.host in hosts && hosts[e.host].alias == e.hostAlias && hosts[e.host].transport == e.transport
                   && e.deployment !in old(instances) && ValidKey(e.deployment)
                   && var name := if alias.Some? then alias.value else e.deployment;
                   ValidKey(name) && forall d :: d in old(instances) ==> old(instances)[d].alias != name)
      ensures r.Refused? && r.reason.DuplicateId? ==> e.deployment in instances
    {
      if e.host !in hosts { return Refused(UnknownHost); }
      if hosts[e.host].alias != e.hostAlias || hosts[e.host].transport != e.transport { return Refused(Drifted); }
      if e.deployment in instances { return Refused(DuplicateId); }
      var name := if alias.Some? then alias.value else e.deployment;
      var taken := InstanceByAlias(name);
      if taken.Some? { return Refused(DuplicateAlias); }
      var record := InstanceRecord(e.deployment, name, e.host, e.issuer, None, Off, Some(observation));
      if !ValidInstance(record) { return Refused(Invalid); }
      var ok := WriteInstance(record);
      r := if ok then Ok(record) else Refused(WriteFailed);
    }

    /** A new selector; every identity fact stays. */
    method RenameInstance(oldAlias: string, newAlias: string) returns (r: Outcome<InstanceRecord>)
      requires Valid()
      modifies `instances
      ensures Valid()
      ensures r.Ok? ==>
                var d := r.value.deployment;
                && d in old(instances) && old(instances)[d].alias == oldAlias
                && r.value == old(instances)[d].(alias := newAlias)
                && instances == old(instances)[d := r.value]
      ensures r.Refused? ==> instances == old(instances)
      ensures calm ==>
                (r.Ok? <==>
                   && ValidKey(newAlias) && (exists d :: d in old(instances) && old(instances)[d].alias == oldAlias)
                   && (newAlias == oldAlias || forall d :: d in old(instances) ==> old(instances)[d].alias != newAlias))
    {
      var found := InstanceByAlias(oldAlias);
      if found.None? { return Refused(UnknownInstance); }
      var taken := InstanceByAlias(newAlias);
      if newAlias != oldAlias && taken.Some? { return Refused(DuplicateAlias); }
      var renamed := found.value.(alias := newAlias);
      if !ValidInstance(renamed) { return Refused(Invalid); }
      var ok := WriteInstance(renamed);
      r := if ok then Ok(renamed) else Refused(WriteFailed);
    }

    /** Another known host; the observation of the old one is dropped. */
    method RelocateInstance(deployment: string, host: HostId) returns (r: Outcome<InstanceRecord>)
      requires Valid()
      modifies `instances
      ensures Valid()
      ensures r.Ok? ==>
                && deployment in old(instances) && old(instances)[deployment].host != host && host in hosts
                && var moved := old(instances)[deployment].(host := host, observation := None);
                instances == old(instances)[deployment := moved]
      ensures r.Refused? ==> instances == old(instances)
      ensures calm ==>
                (r.Ok? <==> deployment in old(instances) && old(instances)[deployment].host != host && host in hosts)
    {
      if deployment !in instances { return Refused(UnknownInstance); }
      var record := instances[deployment];
      if record.host == host { return Refused(SameHost); }
      if host !in hosts { return Refused(UnknownHost); }
      record := record.(host := host, observation := None);
      var ok := WriteInstance(record);
      r := if ok then Ok(record) else Refused(WriteFailed);
    }

    method ForgetInstance(deployment: string) returns (r: Outcome<InstanceRecord>)
      requires Valid()
      modifies `instances
      ensures Valid()
      ensures r.Ok? ==>
                deployment in old(instances) && r.value == old(instances)[deployment]
                && instances == old(instances) - {deployment}
      ensures r.Refused? ==> instances == old(instances)
      ensures calm ==> (r.Ok? <==> deployment in old(instances))
    {
      if deployment !in instances { return Refused(UnknownInstance); }
      var record := instances[deployment];
      FewerInstances(hosts, instances, {deployment});
      var removed := RemoveInstanceFile(deployment);
      r := if removed then Ok(record) else Refused(WriteFailed);
    }
  }
}
