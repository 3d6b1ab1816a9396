/** Distinguished names (DNs) and query filters that the module builds as strings.
    The UCS Manager object tree is addressed by slash-separated relative names:
    an organisation is `org-<name>`, a vNIC template `lan-conn-templ-<name>`, and a
    VLAN attached to a template `if-<name>`. */
module Dn {
  import opened Wrappers

  const OrgPrefix: string := "org-"
  const TemplatePrefix: string := "lan-conn-templ-"
  const VlanIfPrefix: string := "if-"
  const FilterHead: string := "(name, "
  const FilterTail: string := ", type=\"eq\")"

  /** The organisation part of a template DN, for org segments given root first. */
  function OrgPath(org: seq<string>): (path: string)
  {
    if org == [] then "" else OrgPrefix + org[0] + "/" + OrgPath(org[1..])
  }

  /** The template DN: one `org-<seg>/` per segment, then `lan-conn-templ-<name>`. */
  function TemplateDn(org: seq<string>, templateName: string): (dn: string)
  {
    OrgPath(org) + TemplatePrefix + templateName
  }

  /** The DN of the VLAN interface child `if-<vlan>` under a template DN. */
  function VlanDn(templateDn: string, vlanName: string): (dn: string)
  {
    templateDn + "/" + VlanIfPrefix + vlanName
  }

  /** The exact-match name filter sent with the fabric-wide VLAN query. */
  function FabricFilter(vlanName: string): (filter: string)
  {
    FilterHead + vlanName + FilterTail
  }

  /** Appending a segment on the right adds one `org-<seg>/` at the end, which is
      what the left-to-right loop building the DN relies on. */
  lemma {:induction false} OrgPathSnoc(org: seq<string>, seg: string)
    ensures OrgPath(org + [seg]) == OrgPath(org) + OrgPrefix + seg + "/"
  {
    if org == [] {
      assert [] + [seg] == [seg];
    } else {
      calc {
        OrgPath(org + [seg]);
        { assert (org + [seg])[0] == org[0]; assert (org + [seg])[1..] == org[1..] + [seg]; }
        OrgPrefix + org[0] + "/" + OrgPath(org[1..] + [seg]);
        { OrgPathSnoc(org[1..], seg); }
        OrgPrefix + org[0] + "/" + (OrgPath(org[1..]) + OrgPrefix + seg + "/");
        OrgPath(org) + OrgPrefix + seg + "/";
      }
    }
  }

  /** Builds the template DN the way the module does: start from the empty string,
      append `org-<seg>/` for each segment in order, then the template relative name. */
  method BuildTemplateDn(org: seq<string>, templateName: string) returns (dn: string)
    ensures dn == TemplateDn(org, templateName)
  {
    dn := "";
    for i := 0 to |org|
      invariant dn == OrgPath(org[..i])
    {
      OrgPathSnoc(org[..i], org[i]);
      assert org[..i + 1] == org[..i] + [org[i]];
      dn := dn + (OrgPrefix + org[i] + "/");
    }
    assert org[..|org|] == org;
    dn := dn + (TemplatePrefix + templateName);
  }

  /** Prepending a segment adds one `org-<seg>/` in front. */
  lemma OrgPathCons(seg: string, rest: seq<string>)
    ensures OrgPath([seg] + rest) == OrgPrefix + seg + "/" + OrgPath(rest)
  {
    assert ([seg] + rest)[1..] == rest;
  }

  /** The template DN for the documented org `['root', 'ccl']` and template
      `data-A`, written relative name by relative name, and for an empty org list. */
  lemma TemplateDnExamples()
    ensures TemplateDn(["root", "ccl"], "data-A") == "org-root/" + "org-ccl/" + "lan-conn-templ-data-A"
    ensures TemplateDn([], "data-A") == "lan-conn-templ-data-A"
  {
    OrgPathCons("ccl", []);
    OrgPathCons("root", ["ccl"]);
    assert ["root"] + ["ccl"] == ["root", "ccl"];
    assert ["ccl"] + [] == ["ccl"];
    assert OrgPrefix + "root" + "/" == "org-root/";
    assert OrgPrefix + "ccl" + "/" == "org-ccl/";
    assert TemplatePrefix + "data-A" == "lan-conn-templ-data-A";
  }

  /** The template DN of the module's first example, org `['root', 'company', 'test']`
      and template `data-A`. */
  lemma TemplateDnThreeLevels()
    ensures TemplateDn(["root", "company", "test"], "data-A")
         == "org-root/" + "org-company/" + "org-test/" + "lan-conn-templ-data-A"
  {
    OrgPathCons("test", []);
    OrgPathCons("company", ["test"]);
    OrgPathCons("root", ["company", "test"]);
    assert ["root"] + ["company", "test"] == ["root", "company", "test"];
    assert ["company"] + ["test"] == ["company", "test"];
    assert ["test"] + [] == ["test"];
    assert OrgPrefix + "root" + "/" == "org-root/";
    assert OrgPrefix + "company" + "/" == "org-company/";
    assert OrgPrefix + "test" + "/" == "org-test/";
    assert TemplatePrefix + "data-A" == "lan-conn-templ-data-A";
  }

  // ---------------------------------------------------------------------------
  // Reading DNs back: the partners of the builders above.

  /** Position of the first '/' in s, or |s| when there is none. */
  function FirstSlash(s: string): (k: nat)
    ensures k <= |s|
    ensures k < |s| ==> s[k] == '/'
    ensures forall j :: 0 <= j < k ==> s[j] != '/'
  {
    if s == [] then 0 else if s[0] == '/' then 0 else 1 + FirstSlash(s[1..])
  }

  /** Splits a template DN back into its org segments and its template name, or
      None when the string is not of the form `(org-<seg>/)* lan-conn-templ-<name>`. */
  function ParseTemplateDn(dn: string): (split: Option<(seq<string>, string)>)
    decreases |dn|
  {
    if |dn| >= |OrgPrefix| && dn[..|OrgPrefix|] == OrgPrefix then
      var rest := dn[|OrgPrefix|..];
      var k := FirstSlash(rest);
      if k == |rest| then None
      else
        match ParseTemplateDn(rest[k + 1..])
        case None => None
        case Some(parsed) => Some(([rest[..k]] + parsed.0, parsed.1))
    else if |dn| >= |TemplatePrefix| && dn[..|TemplatePrefix|] == TemplatePrefix
         && '/' !in dn[|TemplatePrefix|..] then
      Some(([], dn[|TemplatePrefix|..]))
    else None
  }

  /** No segment or name contains the separator. */
  predicate SlashFree(org: seq<string>, templateName: string)
  {
    (forall i :: 0 <= i < |org| ==> '/' !in org[i]) && '/' !in templateName
  }

  lemma FirstSlashAt(seg: string, rest: string)
    requires '/' !in seg
    ensures FirstSlash(seg + "/" + rest) == |seg|
  {
    var s := seg + "/" + rest;
    assert s[|seg|] == '/';
    assert forall j :: 0 <= j < |seg| ==> s[j] == seg[j];
  }

  /** Parsing consumes one leading `org-<seg>/` and parses the rest. */
  lemma ParseOrgStep(seg: string, tail: string)
    requires '/' !in seg
    ensures ParseTemplateDn(OrgPrefix + seg + "/" + tail)
         == match ParseTemplateDn(tail)
            case None => None
            case Some(parsed) => Some(([seg] + parsed.0, parsed.1))
  {
    var dn := OrgPrefix + seg + "/" + tail;
    assert dn[..|OrgPrefix|] == OrgPrefix;
    var rest := dn[|OrgPrefix|..];
    assert rest == seg + "/" + tail;
    FirstSlashAt(seg, tail);
    assert rest[..|seg|] == seg;
    assert rest[|seg| + 1..] == tail;
  }

  /** A template DN with at least one segment is `org-<first>/` followed by the
      template DN of the remaining segments, all of them still free of '/'. */
  lemma TemplateDnCons(org: seq<string>, templateName: string)
    requires org != [] && SlashFree(org, templateName)
    ensures TemplateDn(org, templateName) == OrgPrefix + org[0] + "/" + TemplateDn(org[1..], templateName)
    ensures '/' !in org[0] && SlashFree(org[1..], templateName)
  {
    forall i | 0 <= i < |org[1..]| ensures '/' !in org[1..][i] {
      assert org[1..][i] == org[i + 1];
    }
  }

  /** The template DN determines the org path and the template name. */
  lemma {:induction false} ParseTemplateDnRoundTrip(org: seq<string>, templateName: string)
    requires SlashFree(org, templateName)
    ensures ParseTemplateDn(TemplateDn(org, templateName)) == Some((org, templateName))
  {
    var dn := TemplateDn(org, templateName);
    if org == [] {
      assert dn == TemplatePrefix + templateName;
      assert dn[0] == 'l';
      assert dn[..|TemplatePrefix|] == TemplatePrefix;
      assert dn[|TemplatePrefix|..] == templateName;
    } else {
      var tail := TemplateDn(org[1..], templateName);
      TemplateDnCons(org, templateName);
      ParseOrgStep(org[0], tail);
      ParseTemplateDnRoundTrip(org[1..], templateName);
      assert [org[0]] + org[1..] == org;
    }
  }

  /** Two templates with different org paths or names never share a DN. */
  lemma TemplateDnInjective(org1: seq<string>, name1: string, org2: seq<string>, name2: string)
    requires SlashFree(org1, name1) && SlashFree(org2, name2)
    requires TemplateDn(org1, name1) == TemplateDn(org2, name2)
    ensures org1 == org2 && name1 == name2
  {
    ParseTemplateDnRoundTrip(org1, name1);
    ParseTemplateDnRoundTrip(org2, name2);
  }

  /** Splits a DN at its last '/' into the parent DN and the last relative name. */
  function SplitLast(dn: string): (parts: Option<(string, string)>)
  {
    if dn == [] then None
    else if dn[|dn| - 1] == '/' then Some((dn[..|dn| - 1], ""))
    else
      match SplitLast(dn[..|dn| - 1])
      case None => None
      case Some(pr) => Some((pr.0, pr.1 + [dn[|dn| - 1]]))
  }

  lemma {:induction false} SplitLastAt(parent: string, rn: string)
    requires '/' !in rn
    ensures SplitLast(parent + "/" + rn) == Some((parent, rn))
    decreases |rn|
  {
    var dn := parent + "/" + rn;
    if rn == [] {
      assert dn[..|dn| - 1] == parent;
    } else {
      var init := rn[..|rn| - 1];
      assert dn[..|dn| - 1] == parent + "/" + init;
      assert dn[|dn| - 1] == rn[|rn| - 1];
      SplitLastAt(parent, init);
      assert init + [rn[|rn| - 1]] == rn;
    }
  }

  /** The queried VLAN DN is a direct child `if-<vlan>` of the template DN. */
  lemma VlanDnParent(templateDn: string, vlanName: string)
    requires '/' !in vlanName
    ensures SplitLast(VlanDn(templateDn, vlanName)) == Some((templateDn, VlanIfPrefix + vlanName))
  {
    assert VlanDn(templateDn, vlanName) == templateDn + "/" + (VlanIfPrefix + vlanName);
    SplitLastAt(templateDn, VlanIfPrefix + vlanName);
  }

  /** Reads the VLAN name back out of an exact-match name filter. */
  function FilterName(filter: string): (name: Option<string>)
  {
    if |filter| >= |FilterHead| + |FilterTail|
       && filter[..|FilterHead|] == FilterHead
       && filter[|filter| - |FilterTail|..] == FilterTail
    then Some(filter[|FilterHead|..|filter| - |FilterTail|])
    else None
  }

  /** The filter names exactly the VLAN it was built from, whatever that name holds. */
  lemma FilterRoundTrip(vlanName: string)
    ensures FilterName(FabricFilter(vlanName)) == Some(vlanName)
  {
    var f := FabricFilter(vlanName);
    assert f[..|FilterHead|] == FilterHead;
    assert f[|f| - |FilterTail|..] == FilterTail;
    assert f[|FilterHead|..|f| - |FilterTail|] == vlanName;
  }

  /** The filter for `test-vlan_666`, the VLAN of the module's first example. */
  lemma FabricFilterExample()
    ensures FabricFilter("test-vlan_666") == "(name, test-vlan_666, type=\"eq\")"
  {
  }
}
