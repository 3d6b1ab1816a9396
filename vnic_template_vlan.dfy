/** The ucs_vnic_template_vlan module: make sure a VLAN is attached to a vNIC
    template, but only when the VLAN is defined on the fabric interconnects.
    Ansible's fail_json and exit_json end the run; they are the terminal outcomes
    Failed and Succeeded. An exception the module does not catch ends it as Crashed. */
module VnicTemplateVlan {
  import opened Dn
  import opened Ucs

  /** The keys of the results dictionary, with the names Ansible reports. */
  datatype Key = LoggedIn | LoggedOut | Changed
  {
    function Name(): (name: string)
    {
      match this
      case LoggedIn => "logged_in"
      case LoggedOut => "logged_out"
      case Changed => "changed"
    }
  }

  const VlanMissingMessage: string := "VLAN does not exist on UCS Fabric Interconnects"

  /** The module's parameters. policy_owner is accepted and never used. */
  datatype Params = Params(vlanName: string, vnicTemplateName: string, org: seq<string>,
                           policyOwner: string, hostname: string, username: string,
                           password: string)

  /** A failure message: a fixed text, or the text of a caught exception. */
  datatype Message = Text(text: string) | ExceptionText

  /** How a run ends. */
  datatype Outcome =
    | Failed(msg: Message)                       // module.fail_json(msg=...)
    | Succeeded(results: map<Key, bool>)      // module.exit_json(**results)
    | Crashed                                    // an SDK exception nobody catches

  /** After a helper: carry on, or the run has ended. */
  datatype Flow = Proceed | Exit(outcome: Outcome)

  /** Everything a run leaves behind: how it ended, the calls it made on the
      endpoint, the endpoint's state afterwards, and the results dictionary. */
  datatype RunRecord = RunRecord(outcome: Outcome, log: seq<Call>, remote: Remote,
                                 results: map<Key, bool>)

  /** The results dictionary that the helpers update in place. */
  class Results {
    var entries: map<Key, bool>

    constructor ()
      ensures entries == map[]
    {
      entries := map[];
    }

    method Set(key: Key, value: bool)
      modifies this
      ensures entries == old(entries)[key := value]
    {
      entries := entries[key := value];
    }
  }

  // ---------------------------------------------------------------------------
  // The module's functions, over the handle.

  /** log_into_ucs: on success records logged_in, otherwise fails with the exception. */
  method LogIntoUcs(ucsm: Handle, results: Results) returns (flow: Flow)
    modifies ucsm`log, results
    ensures flow == if ucsm.faults.login then Exit(Failed(ExceptionText)) else Proceed
    ensures results.entries == if ucsm.faults.login then old(results.entries)
                               else old(results.entries)[LoggedIn := true]
    ensures ucsm.log == old(ucsm.log) + [Call.Login(!ucsm.faults.login)]
  {
    var raised := ucsm.Login();
    if raised {
      return Exit(Failed(ExceptionText));
    }
    results.Set(LoggedIn, true);
    flow := Proceed;
  }

  /** log_out_of_ucs: on success records logged_out, otherwise fails with the exception. */
  method LogOutOfUcs(ucsm: Handle, results: Results) returns (flow: Flow)
    modifies ucsm`log, results
    ensures flow == if ucsm.faults.logout then Exit(Failed(ExceptionText)) else Proceed
    ensures results.entries == if ucsm.faults.logout then old(results.entries)
                               else old(results.entries)[LoggedOut := true]
    ensures ucsm.log == old(ucsm.log) + [Call.Logout(!ucsm.faults.logout)]
  {
    var raised := ucsm.Logout();
    if raised {
      return Exit(Failed(ExceptionText));
    }
    results.Set(LoggedOut, true);
    flow := Proceed;
  }

  /** check_if_vlan_on_vnic: asks for the DN `<template>/if-<vlan>`. A Raised
      reply is an exception that propagates out of the module. */
  method CheckIfVlanOnVnic(ucsm: Handle, templateDn: string, vlanName: string) returns (reply: Reply)
    modifies ucsm`log
    ensures reply == if ucsm.faults.queryDn then Raised
                     else Answer(VlanDn(templateDn, vlanName) in ucsm.remote.objects)
    ensures ucsm.log == old(ucsm.log) + [Call.QueryDn(VlanDn(templateDn, vlanName), reply)]
  {
    var proposedVlanDn := templateDn + "/if-" + vlanName;
    assert proposedVlanDn == VlanDn(templateDn, vlanName);
    reply := ucsm.QueryDn(proposedVlanDn);
  }

  /** check_vlan_exists_on_fi: asks class fabricVlan for an exact name match. */
  method CheckVlanExistsOnFi(ucsm: Handle, vlanName: string) returns (reply: Reply)
    modifies ucsm`log
    ensures reply == if ucsm.faults.queryClassId then Raised
                     else Answer(vlanName in ucsm.remote.fabricVlans)
    ensures ucsm.log == old(ucsm.log) + [Call.QueryClassId(FabricVlanClass, FabricFilter(vlanName), reply)]
  {
    var filterString := "(name, " + vlanName + ", type=\"eq\")";
    assert filterString == FabricFilter(vlanName);
    FilterRoundTrip(vlanName);
    reply := ucsm.QueryClassId("fabricVlan", filterString);
  }

  /** add_vlan_to_vnic_template: when the VLAN is not on the template, stages the
      VnicEtherIf record, commits, and records changed; a raised add_mo or commit
      fails the run. Otherwise it issues nothing and leaves the results alone. */
  method AddVlanToVnicTemplate(ucsm: Handle, templateDn: string, vlanName: string,
                               vlanOnVnicTemplate: bool, results: Results) returns (flow: Flow)
    modifies ucsm`log, ucsm`staged, ucsm`remote, results
    ensures vlanOnVnicTemplate ==>
      flow == Proceed && ucsm.log == old(ucsm.log) && ucsm.remote == old(ucsm.remote)
      && ucsm.staged == old(ucsm.staged) && results.entries == old(results.entries)
    ensures !vlanOnVnicTemplate && ucsm.faults.addMo ==>
      flow == Exit(Failed(ExceptionText))
      && ucsm.log == old(ucsm.log) + [Call.AddMo(VlanRecord(templateDn, vlanName, "no"), false)]
      && ucsm.remote == old(ucsm.remote) && ucsm.staged == old(ucsm.staged)
      && results.entries == old(results.entries)
    ensures !vlanOnVnicTemplate && !ucsm.faults.addMo && ucsm.faults.commit ==>
      flow == Exit(Failed(ExceptionText))
      && ucsm.log == old(ucsm.log) + [Call.AddMo(VlanRecord(templateDn, vlanName, "no"), true)] + [Call.Commit(false)]
      && ucsm.remote == old(ucsm.remote) && ucsm.staged == old(ucsm.staged) + [VlanRecord(templateDn, vlanName, "no")]
      && results.entries == old(results.entries)
    ensures !vlanOnVnicTemplate && !ucsm.faults.addMo && !ucsm.faults.commit ==>
      flow == Proceed
      && ucsm.log == old(ucsm.log) + [Call.AddMo(VlanRecord(templateDn, vlanName, "no"), true)] + [Call.Commit(true)]
      && ucsm.remote == Apply(old(ucsm.remote), old(ucsm.staged) + [VlanRecord(templateDn, vlanName, "no")])
      && ucsm.staged == [] && results.entries == old(results.entries)[Changed := true]
  {
    var mo := VlanRecord(templateDn, vlanName, "no");
    flow := Proceed;
    if !vlanOnVnicTemplate {
      var raised := ucsm.AddMo(mo);
      if raised {
        return Exit(Failed(ExceptionText));
      }
      raised := ucsm.Commit();
      if raised {
        return Exit(Failed(ExceptionText));
      }
      results.Set(Changed, true);
    }
  }

  /** main: build the template DN, log in, run both checks, then either fail
      (VLAN not on the fabric), attach the VLAN and log out, or log out unchanged. */
  method ModuleMain(p: Params, env: Env) returns (run: RunRecord)
    ensures run == Reconcile(p, env)
  {
    var ucsm := new Handle(p.hostname, p.username, p.password, env);
    var results := new Results();
    var vnicTemplDn := BuildTemplateDn(p.org, p.vnicTemplateName);

    var flow := LogIntoUcs(ucsm, results);
    if flow.Exit? {
      return RunRecord(flow.outcome, ucsm.log, ucsm.remote, results.entries);
    }
    assert results.entries == map[LoggedIn := true] && ucsm.log == [Call.Login(true)];
    var onTemplate := CheckIfVlanOnVnic(ucsm, vnicTemplDn, p.vlanName);
    if onTemplate.Raised? {
      return RunRecord(Crashed, ucsm.log, ucsm.remote, results.entries);
    }
    var onFi := CheckVlanExistsOnFi(ucsm, p.vlanName);
    if onFi.Raised? {
      return RunRecord(Crashed, ucsm.log, ucsm.remote, results.entries);
    }
    assert ucsm.remote == env.remote && ucsm.staged == [] && ucsm.faults == env.faults;

    if !onFi.found {
      results.Set(Changed, false);
      return RunRecord(Failed(Text(VlanMissingMessage)), ucsm.log, ucsm.remote, results.entries);
    } else if !onTemplate.found {
      assert ucsm.staged + [VlanRecord(vnicTemplDn, p.vlanName, "no")] == [VlanRecord(vnicTemplDn, p.vlanName, "no")];
      flow := AddVlanToVnicTemplate(ucsm, vnicTemplDn, p.vlanName, onTemplate.found, results);
      if flow.Exit? {
        return RunRecord(flow.outcome, ucsm.log, ucsm.remote, results.entries);
      }
      flow := LogOutOfUcs(ucsm, results);
      if flow.Exit? {
        return RunRecord(flow.outcome, ucsm.log, ucsm.remote, results.entries);
      }
      run := RunRecord(Succeeded(results.entries), ucsm.log, ucsm.remote, results.entries);
    } else {
      results.Set(Changed, false);
      flow := LogOutOfUcs(ucsm, results);
      if flow.Exit? {
        return RunRecord(flow.outcome, ucsm.log, ucsm.remote, results.entries);
      }
      run := RunRecord(Succeeded(results.entries), ucsm.log, ucsm.remote, results.entries);
    }
  }

  // ---------------------------------------------------------------------------
  // The run as a decision table over the endpoint, and what it guarantees.

  /** Ends a run that reached the logout call. */
  function Finish(log: seq<Call>, remote: Remote, results: map<Key, bool>, logoutRaises: bool): (run: RunRecord)
  {
    if logoutRaises then RunRecord(Failed(ExceptionText), log + [Call.Logout(false)], remote, results)
    else RunRecord(Succeeded(results[LoggedOut := true]), log + [Call.Logout(true)], remote,
                   results[LoggedOut := true])
  }

  /** The three ways a run ends once login and both queries went through, given
      the calls made so far: the VLAN missing from the fabric, the VLAN already on
      the template, and the attach path with its own add_mo, commit and logout
      failures. */
  function Decide(p: Params, env: Env, checked: seq<Call>): (run: RunRecord)
  {
    var dn := TemplateDn(p.org, p.vnicTemplateName);
    var f := env.faults;
    var r := env.remote;
    var loggedIn := map[LoggedIn := true];
    if p.vlanName !in r.fabricVlans then
      RunRecord(Failed(Text(VlanMissingMessage)), checked, r, loggedIn[Changed := false])
    else if VlanDn(dn, p.vlanName) in r.objects then
      Finish(checked, r, loggedIn[Changed := false], f.logout)
    else
      var mo := VlanRecord(dn, p.vlanName, "no");
      if f.addMo then RunRecord(Failed(ExceptionText), checked + [Call.AddMo(mo, false)], r, loggedIn)
      else if f.commit then
        RunRecord(Failed(ExceptionText), checked + [Call.AddMo(mo, true)] + [Call.Commit(false)], r, loggedIn)
      else
        Finish(checked + [Call.AddMo(mo, true)] + [Call.Commit(true)], Apply(r, [mo]),
               loggedIn[Changed := true], f.logout)
  }

  /** What a run does: a failed login, a raised read query, or the decision
      after both queries answered. */
  function Reconcile(p: Params, env: Env): (run: RunRecord)
  {
    var vlanDn := VlanDn(TemplateDn(p.org, p.vnicTemplateName), p.vlanName);
    var f := env.faults;
    var r := env.remote;
    if f.login then RunRecord(Failed(ExceptionText), [Call.Login(false)], r, map[])
    else
      var loggedIn := map[LoggedIn := true];
      var queried := [Call.Login(true)] + [Call.QueryDn(vlanDn, if f.queryDn then Raised else Answer(vlanDn in r.objects))];
      if f.queryDn then RunRecord(Crashed, queried, r, loggedIn)
      else
        var checked := queried + [Call.QueryClassId(FabricVlanClass, FabricFilter(p.vlanName),
                                                    if f.queryClassId then Raised else Answer(p.vlanName in r.fabricVlans))];
        if f.queryClassId then RunRecord(Crashed, checked, r, loggedIn)
        else Decide(p, env, checked)
  }

  /** The three keys are reported under three different names, so no update of
      one key can overwrite another in the dictionary Ansible receives. */
  lemma KeyNamesDistinct(k1: Key, k2: Key)
    requires k1 != k2
    ensures k1.Name() != k2.Name()
  {
    assert k1.Name()[0] != k2.Name()[0] || k1.Name()[7] != k2.Name()[7];
  }

  /** The fabric query for this VLAN, answered "found". */
  predicate FabricConfirmed(c: Call, vlanName: string)
  {
    c == Call.QueryClassId(FabricVlanClass, FabricFilter(vlanName), Answer(true))
  }

  /** Every add_mo and commit comes after a fabric query that found the VLAN. */
  predicate WritesGuarded(log: seq<Call>, vlanName: string)
  {
    forall i :: 0 <= i < |log| && log[i].IsWrite() ==>
      exists j :: 0 <= j < i && FabricConfirmed(log[j], vlanName)
  }

  predicate HasWrite(log: seq<Call>)
  {
    exists i :: 0 <= i < |log| && log[i].IsWrite()
  }

  /** Safety: no write is issued unless the fabric check found the VLAN, and that
      answer was true of the endpoint. */
  lemma ReconcileWritesGuarded(p: Params, env: Env)
    ensures WritesGuarded(Reconcile(p, env).log, p.vlanName)
    ensures HasWrite(Reconcile(p, env).log) ==> p.vlanName in env.remote.fabricVlans
  {
    var run := Reconcile(p, env);
    var f := env.faults;
    if !f.login && !f.queryDn && !f.queryClassId && p.vlanName in env.remote.fabricVlans {
      assert FabricConfirmed(run.log[2], p.vlanName);
      assert forall i :: 0 <= i < 3 ==> !run.log[i].IsWrite();
    } else {
      assert forall i :: 0 <= i < |run.log| ==> !run.log[i].IsWrite();
    }
  }

  /** A VLAN missing from the fabric fails the run with the fixed message, without
      a write and without logging out; the local results hold changed = false. */
  lemma VlanMissingFails(p: Params, env: Env)
    requires !env.faults.login && !env.faults.queryDn && !env.faults.queryClassId
    requires p.vlanName !in env.remote.fabricVlans
    ensures var run := Reconcile(p, env);
      && run.outcome == Failed(Text(VlanMissingMessage))
      && !HasWrite(run.log)
      && (forall i :: 0 <= i < |run.log| ==> !run.log[i].Logout?)
      && run.remote == env.remote
      && run.results == map[LoggedIn := true, Changed := false]
      && LoggedOut !in run.results
  {
  }

  /** The attach path: exactly one add_mo of the record (template DN, VLAN name,
      default_net "no"), then one commit, then logout; changed = true, and the
      endpoint now holds the VLAN under the template. */
  lemma AttachPath(p: Params, env: Env)
    requires env.faults == NoFaults
    requires p.vlanName in env.remote.fabricVlans
    requires VlanDn(TemplateDn(p.org, p.vnicTemplateName), p.vlanName) !in env.remote.objects
    ensures var run := Reconcile(p, env);
      var templ := TemplateDn(p.org, p.vnicTemplateName);
      var vlanDn := VlanDn(templ, p.vlanName);
      && run.log == [Call.Login(true), Call.QueryDn(vlanDn, Answer(false)),
                     Call.QueryClassId(FabricVlanClass, FabricFilter(p.vlanName), Answer(true)),
                     Call.AddMo(VlanRecord(templ, p.vlanName, "no"), true),
                     Call.Commit(true), Call.Logout(true)]
      && run.outcome == Succeeded(map[LoggedIn := true, Changed := true, LoggedOut := true])
      && run.remote == Remote(env.remote.objects + {vlanDn}, env.remote.fabricVlans)
  {
    var templ := TemplateDn(p.org, p.vnicTemplateName);
    var mo := VlanRecord(templ, p.vlanName, "no");
    assert RecordDn(mo) == VlanDn(templ, p.vlanName);
    ApplyOne(env.remote, mo);
  }

  /** The VLAN already on the template: nothing written, changed = false, logged
      out, success, and the endpoint untouched. */
  lemma AlreadyAttachedPath(p: Params, env: Env)
    requires !env.faults.login && !env.faults.queryDn && !env.faults.queryClassId && !env.faults.logout
    requires p.vlanName in env.remote.fabricVlans
    requires VlanDn(TemplateDn(p.org, p.vnicTemplateName), p.vlanName) in env.remote.objects
    ensures var run := Reconcile(p, env);
      && !HasWrite(run.log)
      && run.outcome == Succeeded(map[LoggedIn := true, Changed := false, LoggedOut := true])
      && run.remote == env.remote
  {
    var run := Reconcile(p, env);
    assert |run.log| == 4;
  }

  /** On every success the results hold exactly logged_in, logged_out and changed;
      the first two are true, and changed is true exactly when a commit went through. */
  lemma SuccessResults(p: Params, env: Env)
    ensures var run := Reconcile(p, env);
      run.outcome.Succeeded? ==>
        && run.outcome.results.Keys == {LoggedIn, LoggedOut, Changed}
        && run.outcome.results[LoggedIn] && run.outcome.results[LoggedOut]
        && (run.outcome.results[Changed] <==> Call.Commit(true) in run.log)
  {
    var run := Reconcile(p, env);
    if run.outcome.Succeeded? && !run.outcome.results[Changed] {
      assert |run.log| == 4;
      assert run.log[3] == Call.Logout(true);
    }
  }

  /** The endpoint changes only by a commit that went through, and then only by
      the one VLAN DN under the template. */
  lemma RemoteChangesOnlyByCommit(p: Params, env: Env)
    ensures var run := Reconcile(p, env);
      var vlanDn := VlanDn(TemplateDn(p.org, p.vnicTemplateName), p.vlanName);
      && run.remote.fabricVlans == env.remote.fabricVlans
      && run.remote.objects == env.remote.objects + (if Call.Commit(true) in run.log then {vlanDn} else {})
  {
    var run := Reconcile(p, env);
    var templ := TemplateDn(p.org, p.vnicTemplateName);
    var vlanDn := VlanDn(templ, p.vlanName);
    var mo := VlanRecord(templ, p.vlanName, "no");
    var f := env.faults;
    if !f.login && !f.queryDn && !f.queryClassId && p.vlanName in env.remote.fabricVlans
       && vlanDn !in env.remote.objects && !f.addMo && !f.commit {
      assert RecordDn(mo) == vlanDn;
      ApplyOne(env.remote, mo);
      assert run.log[4] == Call.Commit(true);
    } else {
      assert run.remote == env.remote;
      assert forall i :: 0 <= i < |run.log| ==> run.log[i] != Call.Commit(true);
    }
  }

  /** Running the module twice, the second run seeing what the first committed,
      gives changed = true and then changed = false. */
  lemma SecondRunUnchanged(p: Params, env: Env)
    requires env.faults == NoFaults
    requires p.vlanName in env.remote.fabricVlans
    requires VlanDn(TemplateDn(p.org, p.vnicTemplateName), p.vlanName) !in env.remote.objects
    ensures var first := Reconcile(p, env);
      var second := Reconcile(p, Env(first.remote, NoFaults));
      && first.outcome == Succeeded(map[LoggedIn := true, Changed := true, LoggedOut := true])
      && second.outcome == Succeeded(map[LoggedIn := true, Changed := false, LoggedOut := true])
      && !HasWrite(second.log)
      && second.remote == first.remote
  {
    AttachPath(p, env);
    var first := Reconcile(p, env);
    AlreadyAttachedPath(p, Env(first.remote, NoFaults));
  }

  /** A failed login ends the run at once: no query, no write, no results. */
  lemma LoginFailureStops(p: Params, env: Env)
    requires env.faults.login
    ensures var run := Reconcile(p, env);
      run.outcome == Failed(ExceptionText) && run.log == [Call.Login(false)]
      && run.results == map[] && run.remote == env.remote
  {
  }

  /** The module's first example: VLAN test-vlan_666 onto template data-A in org
      root/company/test (policy owner and credentials play no part), on an
      endpoint with the VLAN on the fabric only. */
  lemma ExampleScenario(p: Params, env: Env)
    requires p.vlanName == "test-vlan_666" && p.vnicTemplateName == "data-A"
    requires p.org == ["root", "company", "test"]
    requires env == Env(Remote({"org-root/" + "org-company/" + "org-test/" + "lan-conn-templ-data-A"},
                               {"test-vlan_666"}), NoFaults)
    ensures var run := Reconcile(p, env);
      var templ := "org-root/" + "org-company/" + "org-test/" + "lan-conn-templ-data-A";
      && run.outcome == Succeeded(map[LoggedIn := true, Changed := true, LoggedOut := true])
      && run.log == [Call.Login(true), Call.QueryDn(templ + "/if-test-vlan_666", Answer(false)),
                     Call.QueryClassId(FabricVlanClass, FabricFilter("test-vlan_666"), Answer(true)),
                     Call.AddMo(VlanRecord(templ, "test-vlan_666", "no"), true),
                     Call.Commit(true), Call.Logout(true)]
      && run.remote.objects == {templ, templ + "/if-test-vlan_666"}
  {
    TemplateDnThreeLevels();
    var templ := "org-root/" + "org-company/" + "org-test/" + "lan-conn-templ-data-A";
    assert VlanDn(templ, "test-vlan_666") == templ + "/if-test-vlan_666" by {
      assert "/" + VlanIfPrefix + "test-vlan_666" == "/if-test-vlan_666";
    }
    assert |templ + "/if-test-vlan_666"| != |templ|;
    AttachPath(p, env);
  }



}
