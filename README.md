# ucs_vnic_template_vlan, modelled in Dafny

The Ansible module `ucs_vnic_template_vlan` makes sure that a VLAN is attached to
a vNIC template on Cisco UCS Manager. It works in five steps:

1. It builds the template's distinguished name (DN) from the org hierarchy, for
   example `org-root/org-ccl/lan-conn-templ-data-A`.
2. It logs in.
3. It asks whether the child `<template DN>/if-<vlan>` exists.
4. It asks class `fabricVlan` for a VLAN named exactly `<vlan>`.
5. It then ends in one of three ways:
   - The VLAN is not on the fabric interconnects: the run fails with
     "VLAN does not exist on UCS Fabric Interconnects".
   - The VLAN is on the fabric but not on the template: the module stages a
     `VnicEtherIf` record (parent = template DN, name = VLAN,
     `default_net = "no"`), commits it, sets `changed`, logs out and succeeds.
   - The VLAN is on both: nothing is written, `changed` is false, the module
     logs out and succeeds.

Files:

- `dn.dfy` (module `Dn`). The DN and filter strings: the loop that builds the
  template DN, proved against a recursive definition. It also defines parsers
  that show each string can be read back: the template DN gives back its org
  segments and name, the VLAN DN's parent is the template DN, and the filter
  gives back the VLAN name.
- `ucs.dfy` (module `Ucs`). The endpoint behind the SDK handle:
  - `Remote` holds the object DNs that exist and the VLAN names defined on the
    fabric.
  - `Faults` says which SDK call raises during this run.
  - `Handle` is a class whose methods append each call and its reply to a call
    log. `add_mo` stages a record and `commit` applies everything staged.
- `vnic_template_vlan.dfy` (module `VnicTemplateVlan`). The module's own
  functions as methods over a `Handle` and a `Results` object (the results
  dictionary, updated in place):
  - `ModuleMain` is `main`. It is proved equal to `Reconcile`, a decision table
    over the endpoint.
  - The lemmas state the properties of the run: writes are guarded by the
    fabric check, the outcome of each branch, the keys of the results
    dictionary, what changes on the endpoint, and that running twice is
    idempotent.

The results dictionary is a map from the three keys it can hold (`logged_in`,
`logged_out`, `changed`, the enumeration `Key`) to booleans.
`fail_json` and `exit_json` end the run: they are the outcomes `Failed(msg)` and
`Succeeded(results)`. An SDK exception that the module does not catch (from
`query_dn` or `query_classid`) ends the run as `Crashed`.

The model follows the code as written, in particular:

- on the missing-VLAN path, after a failed login, and after a failed
  `add_mo` or `commit`, no logout happens;
- the `changed = False` set before the missing-VLAN failure exists only in the
  local results dictionary, because `fail_json` is passed nothing but the
  message;
- a failed write does not mark the result unchanged, because the assignment
  after `fail_json` (line 183) is never reached.

## Model

Several definitions have no row of their own because they compute and state
nothing by themselves; the rows below state their properties:
`Dn.TemplateDn` (the DN expression of lines 213-217), `Dn.VlanDn` (line 119),
`Dn.FabricFilter` (line 153), `VnicTemplateVlan.Reconcile` with `Decide` and
`Finish` (the decision table of lines 219-239), `VnicTemplateVlan.Key.Name` (the key strings
`logged_in`, `logged_out` and `changed` used at lines 132, 141, 180, 228 and 237), and `VnicTemplateVlan.Results.Set`
(the `results[key] = value` assignments at lines 132, 141, 180, 228 and 237).


| member | source | states |
|---|---|---|
| Dn.BuildTemplateDn | ucs_vnic_template_vlan.py:213-217 | the string built by appending `org-<seg>/` for each org segment in order and then `lan-conn-templ-<name>` is exactly TemplateDn(org, name) |
| Dn.OrgPathSnoc | ucs_vnic_template_vlan.py:215-216 | one more loop iteration appends exactly `org-<seg>/` to the org path built so far |
| Dn.TemplateDnExamples | ucs_vnic_template_vlan.py:26-30 | `['root','ccl']` with `data-A` gives `org-root/` + `org-ccl/` + `lan-conn-templ-data-A`; an empty org list gives `lan-conn-templ-data-A` |
| Dn.TemplateDnThreeLevels | ucs_vnic_template_vlan.py:62 | `['root','company','test']` with `data-A` gives `org-root/` + `org-company/` + `org-test/` + `lan-conn-templ-data-A` |
| Dn.ParseTemplateDnRoundTrip | ucs_vnic_template_vlan.py:213-217 | when no segment or name contains '/', the template DN parses back to exactly its org segments, in order, and its template name |
| Dn.TemplateDnInjective | ucs_vnic_template_vlan.py:213-217 | different org paths or template names (without '/') never give the same template DN |
| Dn.VlanDnParent | ucs_vnic_template_vlan.py:119 | the queried VLAN DN splits at its last '/' into the template DN and the relative name `if-<vlan>` |
| Dn.FilterRoundTrip | ucs_vnic_template_vlan.py:153 | the filter `(name, <vlan>, type="eq")` names exactly the VLAN it was built from, for every VLAN name |
| Dn.FabricFilterExample | ucs_vnic_template_vlan.py:153 | the filter for `test-vlan_666` is `(name, test-vlan_666, type="eq")` |
| Ucs.ApplyCreatesExactlyStaged | ucs_vnic_template_vlan.py:171-179 | committing staged records keeps the fabric VLANs; the objects afterwards are exactly the existing objects plus the staged records' DNs, so nothing that existed is removed |
| Ucs.Handle.constructor | ucs_vnic_template_vlan.py:103-108 | a new session keeps the hostname and credentials and starts with nothing staged and an empty call log |
| Ucs.Handle.Login | ucs_vnic_template_vlan.py:110-111 | login raises exactly when the endpoint rejects it, and the call is logged |
| Ucs.Handle.QueryDn | ucs_vnic_template_vlan.py:120 | query_dn finds the object exactly when that DN exists on the endpoint, unless it raises; the call and reply are logged |
| Ucs.Handle.QueryClassId | ucs_vnic_template_vlan.py:155-156 | query_classid finds something exactly when the class is fabricVlan and the filter names a fabric VLAN, unless it raises; logged |
| Ucs.Handle.AddMo | ucs_vnic_template_vlan.py:175 | add_mo stages the record unless it raises; logged |
| Ucs.Handle.Commit | ucs_vnic_template_vlan.py:179 | commit applies every staged record and empties the stage, or raises and changes nothing; logged |
| Ucs.Handle.Logout | ucs_vnic_template_vlan.py:113-114 | logout raises exactly when the endpoint rejects it; logged |
| VnicTemplateVlan.LogIntoUcs | ucs_vnic_template_vlan.py:129-135 | a successful login sets `logged_in` to true and leaves every other key untouched; a failed one ends the run with the exception as message |
| VnicTemplateVlan.LogOutOfUcs | ucs_vnic_template_vlan.py:137-144 | a successful logout sets `logged_out` to true and leaves every other key untouched; a failed one ends the run with the exception as message |
| VnicTemplateVlan.CheckIfVlanOnVnic | ucs_vnic_template_vlan.py:117-127 | queries exactly `<template DN>/if-<vlan>` and answers whether that VLAN is on the template; an exception propagates |
| VnicTemplateVlan.CheckVlanExistsOnFi | ucs_vnic_template_vlan.py:148-164 | queries class `fabricVlan` with `(name, <vlan>, type="eq")` and answers whether the VLAN is defined on the fabric; an exception propagates |
| VnicTemplateVlan.AddVlanToVnicTemplate | ucs_vnic_template_vlan.py:166-186 | already on the template: no call and results unchanged; otherwise one add_mo of (template DN, VLAN, default_net "no") then one commit and `changed` true, or a failure at the call that raised, with the stage and the endpoint as that call left them |
| VnicTemplateVlan.ModuleMain | ucs_vnic_template_vlan.py:211-239 | the run (outcome, calls made, endpoint afterwards, results) is exactly the decision table Reconcile |
| VnicTemplateVlan.ReconcileWritesGuarded | ucs_vnic_template_vlan.py:222-234 | every add_mo and commit comes after a fabric query for this VLAN that found it, and a run writes only if the VLAN is on the fabric |
| VnicTemplateVlan.VlanMissingFails | ucs_vnic_template_vlan.py:227-229 | VLAN not on the fabric: failure with "VLAN does not exist on UCS Fabric Interconnects", no write, no logout, endpoint unchanged, results `{logged_in: true, changed: false}` without `logged_out` |
| VnicTemplateVlan.AttachPath | ucs_vnic_template_vlan.py:231-234 | on the fabric, not on the template: the calls are login, the two queries, one add_mo of (template DN, VLAN, "no"), one commit, logout; success with all three keys true; the endpoint gains exactly the VLAN DN |
| VnicTemplateVlan.AlreadyAttachedPath | ucs_vnic_template_vlan.py:236-239 | on both, whatever add_mo and commit would do: no write, success with `changed` false and `logged_in`, `logged_out` true, endpoint unchanged |
| VnicTemplateVlan.SuccessResults | ucs_vnic_template_vlan.py:212-239 | on every success the results hold exactly `logged_in`, `logged_out`, `changed`; the first two are true and `changed` is true exactly when a commit went through |
| VnicTemplateVlan.RemoteChangesOnlyByCommit | ucs_vnic_template_vlan.py:171-180 | the fabric VLANs never change, and the objects change only by a commit that went through, which adds exactly the VLAN DN under the template |
| VnicTemplateVlan.SecondRunUnchanged | ucs_vnic_template_vlan.py:219-239 | a second run that sees the first run's commit reports `changed` false and writes nothing, after the first reported `changed` true |
| VnicTemplateVlan.LoginFailureStops | ucs_vnic_template_vlan.py:129-135 | a failed login ends the run at once: one login call, no query, no write, empty results |
| VnicTemplateVlan.ExampleScenario | ucs_vnic_template_vlan.py:53-62 | VLAN test-vlan_666 on template data-A in org root/company/test: the whole call log is login, the query of `org-root/org-company/org-test/lan-conn-templ-data-A/if-test-vlan_666`, the fabric query, the one add_mo under that template, one commit and logout; success with all three keys true; the endpoint, which holds the template, ends with exactly the template and its new VLAN interface |
| VnicTemplateVlan.KeyNamesDistinct | ucs_vnic_template_vlan.py:132 | the keys `logged_in`, `logged_out` and `changed` that the helpers set are three different names |

## Left out

- The UCS Manager SDK (`UcsHandle`, `VnicEtherIf`) and the network: they are replaced by `Remote`, `Faults` and a call log. The model assumes that the endpoint creates a committed `VnicEtherIf` under `<parent>/if-<name>`, the same DN that `check_if_vlan_on_vnic` queries.
- Ucs.Handle.Commit: models commit as all-or-nothing. The "ambiguous impact" case, where UCS Manager silently does not apply a committed change (lines 176-178), is left out: it is endpoint behaviour this code cannot observe.
- Exception payloads: every caught exception becomes the opaque message `ExceptionText`. An uncaught one becomes `Crashed`.
- Ansible's argument parsing, `no_log`, defaults and choices (lines 190-209). The parameters are given as a `Params` value. `policy_owner` is carried but never used, as in the code.
- `str(vlan_name)` at line 171 and `str(...)` at lines 216-217: parameters are already strings in the model.
- `results['changed'] = False` after `fail_json` (line 183): it is never reached, because `fail_json` ends the process.
- Concurrent runs against the same template: the program is sequential, so races between invocations are outside it.
- Ucs.ClassQuery, VnicTemplateVlan.CheckVlanExistsOnFi, VnicTemplateVlan.ReconcileWritesGuarded: the endpoint is assumed to read the value of the filter built at line 153 as one exact VLAN name. The code neither quotes nor validates `vlan_name`, so a name holding `,`, `(`, `)` or spaces could change the filter's structure (e.g. add a second `(name, …)` clause). The model's answer, and so "writes only if the VLAN is on the fabric", holds for names without those characters, which UCS Manager VLAN names do not contain.
- Dn.ParseTemplateDnRoundTrip, Dn.TemplateDnInjective, Dn.VlanDnParent: hold only for org segments, template names and VLAN names without '/'. The code does not validate names, and UCS Manager object names do not contain '/'.
