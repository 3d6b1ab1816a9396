/** The UCS Manager endpoint as the module sees it through its SDK handle.
    The SDK is not part of this model: its calls are replaced by a remote state
    (the object DNs that exist and the VLANs defined on the fabric interconnects),
    a fixed choice of which calls raise, and a log of every call made with its reply. */
module Ucs {
  import opened Wrappers
  import Dn

  /** Class id of fabric-interconnect VLAN objects. */
  const FabricVlanClass: string := "fabricVlan"

  /** What exists on the endpoint: object DNs, and VLAN names defined fabric-wide. */
  datatype Remote = Remote(objects: set<string>, fabricVlans: set<string>)

  /** Which SDK calls raise an exception in this run (each is made at most once). */
  datatype Faults = Faults(login: bool, queryDn: bool, queryClassId: bool,
                           addMo: bool, commit: bool, logout: bool)

  const NoFaults: Faults := Faults(false, false, false, false, false, false)

  /** The endpoint a run talks to. */
  datatype Env = Env(remote: Remote, faults: Faults)

  /** A VnicEtherIf managed object: a VLAN interface under a vNIC template. */
  datatype VlanRecord = VlanRecord(parent: string, name: string, defaultNet: string)

  /** Reply of a read query: whether something was found, or an exception. */
  datatype Reply = Answer(found: bool) | Raised

  /** One call on the handle, with what it returned (`ok` false: it raised). */
  datatype Call =
    | Login(ok: bool)
    | QueryDn(dn: string, reply: Reply)
    | QueryClassId(classId: string, filter: string, reply: Reply)
    | AddMo(mo: VlanRecord, ok: bool)
    | Commit(ok: bool)
    | Logout(ok: bool)
  {
    /** add_mo and commit are the calls that change the endpoint. */
    predicate IsWrite() { AddMo? || Commit? }
  }

  /** The DN under which the endpoint creates a VnicEtherIf record. */
  function RecordDn(mo: VlanRecord): (dn: string)
  {
    mo.parent + "/" + Dn.VlanIfPrefix + mo.name
  }

  /** How the endpoint answers query_classid: the filter must name a VLAN exactly. */
  function ClassQuery(r: Remote, classId: string, filter: string): (found: bool)
  {
    classId == FabricVlanClass &&
    match Dn.FilterName(filter)
    case Some(name) => name in r.fabricVlans
    case None => false
  }

  /** The endpoint after committing the staged records, in order. */
  function Apply(r: Remote, staged: seq<VlanRecord>): (committed: Remote)
  {
    if staged == [] then r
    else
      var r0 := Apply(r, staged[..|staged| - 1]);
      Remote(r0.objects + {RecordDn(staged[|staged| - 1])}, r0.fabricVlans)
  }

  /** A commit keeps the fabric VLANs and every existing object, creates every
      staged record and nothing else. */
  lemma {:induction false} ApplyCreatesExactlyStaged(r: Remote, staged: seq<VlanRecord>)
    ensures Apply(r, staged).fabricVlans == r.fabricVlans
    ensures r.objects <= Apply(r, staged).objects
    ensures Apply(r, staged).objects == r.objects + set mo | mo in staged :: RecordDn(mo)
    ensures forall mo :: mo in staged ==> RecordDn(mo) in Apply(r, staged).objects
    ensures forall dn :: dn in Apply(r, staged).objects ==>
              dn in r.objects || exists mo :: mo in staged && dn == RecordDn(mo)
  {
    if staged != [] {
      var init := staged[..|staged| - 1];
      ApplyCreatesExactlyStaged(r, init);
      assert staged == init + [staged[|staged| - 1]];
    }
  }

  /** Committing a single record adds exactly its DN. */
  lemma ApplyOne(r: Remote, mo: VlanRecord)
    ensures Apply(r, [mo]) == Remote(r.objects + {RecordDn(mo)}, r.fabricVlans)
  {
    assert [mo][..0] == [];
  }

  /** The session object of the module (class UCS and its handle). */
  class Handle {
    const hostname: string
    const username: string
    const password: string
    const faults: Faults
    var remote: Remote
    var staged: seq<VlanRecord>
    var log: seq<Call>

    constructor (hostname: string, username: string, password: string, env: Env)
      ensures this.hostname == hostname && this.username == username && this.password == password
      ensures faults == env.faults && remote == env.remote
      ensures staged == [] && log == []
    {
      this.hostname := hostname;
      this.username := username;
      this.password := password;
      faults := env.faults;
      remote := env.remote;
      staged := [];
      log := [];
    }

    method Login() returns (raised: bool)
      modifies this`log
      ensures raised == faults.login
      ensures log == old(log) + [Call.Login(!raised)]
    {
      raised := faults.login;
      log := log + [Call.Login(!raised)];
    }

    /** query_dn: found iff an object with exactly this DN exists. */
    method QueryDn(dn: string) returns (reply: Reply)
      modifies this`log
      ensures reply == if faults.queryDn then Raised else Answer(dn in remote.objects)
      ensures log == old(log) + [Call.QueryDn(dn, reply)]
    {
      reply := if faults.queryDn then Raised else Answer(dn in remote.objects);
      log := log + [Call.QueryDn(dn, reply)];
    }

    /** query_classid: found iff some object of the class matches the filter. */
    method QueryClassId(classId: string, filter: string) returns (reply: Reply)
      modifies this`log
      ensures reply == if faults.queryClassId then Raised else Answer(ClassQuery(remote, classId, filter))
      ensures log == old(log) + [Call.QueryClassId(classId, filter, reply)]
    {
      reply := if faults.queryClassId then Raised else Answer(ClassQuery(remote, classId, filter));
      log := log + [Call.QueryClassId(classId, filter, reply)];
    }

    /** add_mo: stages a record for the next commit. */
    method AddMo(mo: VlanRecord) returns (raised: bool)
      modifies this`log, this`staged
      ensures raised == faults.addMo
      ensures staged == if raised then old(staged) else old(staged) + [mo]
      ensures log == old(log) + [Call.AddMo(mo, !raised)]
    {
      raised := faults.addMo;
      if !raised {
        staged := staged + [mo];
      }
      log := log + [Call.AddMo(mo, !raised)];
    }

    /** commit: applies every staged record as one transaction, or nothing. */
    method Commit() returns (raised: bool)
      modifies this`log, this`staged, this`remote
      ensures raised == faults.commit
      ensures remote == if raised then old(remote) else Apply(old(remote), old(staged))
      ensures staged == if raised then old(staged) else []
      ensures log == old(log) + [Call.Commit(!raised)]
    {
      raised := faults.commit;
      if !raised {
        remote := Apply(remote, staged);
        staged := [];
      }
      log := log + [Call.Commit(!raised)];
    }

    method Logout() returns (raised: bool)
      modifies this`log
      ensures raised == faults.logout
      ensures log == old(log) + [Call.Logout(!raised)]
    {
      raised := faults.logout;
      log := log + [Call.Logout(!raised)];
    }
  }
}
