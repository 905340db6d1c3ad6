/** What the router's smaller decisions come to: who belongs to a group, the last resort, and what blacklists. */
module RouterPolicy {
  import opened Frames
  import opened Router

  // ---- Groups ----

  lemma {:induction false} ConfigsConcat(reg: Registry, a: seq<string>, b: seq<string>, region: string)
    ensures ConfigsFor(reg, a + b, region) == ConfigsFor(reg, a, region) + ConfigsFor(reg, b, region)
    decreases |b|
  {
    hide Fits;
    if b == [] {
      assert a + b == a;
    } else {
      ConfigsConcat(reg, a, b[..|b| - 1], region);
      assert (a + b)[..|a + b| - 1] == a + b[..|b| - 1];
    }
  }

  /** A key counts if it is registered and its endpoint is in the region, when one is asked for. */
  predicate Eligible(reg: Registry, key: string, region: string) {
    key in reg.endpoints && (region != "" ==> reg.endpoints[key].region == region)
  }

  lemma {:induction false} ConfigsAreEligible(reg: Registry, keys: seq<string>, region: string, e: Endpoint)
    ensures e in ConfigsFor(reg, keys, region) <==>
      exists key :: key in keys && Eligible(reg, key, region) && reg.endpoints[key] == e
    decreases |keys|
  {
    if keys != [] {
      var init, last := keys[..|keys| - 1], keys[|keys| - 1];
      ConfigsAreEligible(reg, init, region, e);
      assert last in keys && forall key :: key in keys <==> key in init || key == last;
    }
  }

  /** The group can offer somebody at all. */
  ghost predicate Staffed(reg: Registry, group: string, region: string) {
    group in reg.groups && exists key :: key in reg.groups[group].configs && Eligible(reg, key, region)
  }

  lemma StaffedIff(reg: Registry, group: string, region: string)
    ensures GroupConfigs(reg, group, region) != [] <==> Staffed(reg, group, region)
  {
    hide ConfigsFor;
    var cs := GroupConfigs(reg, group, region);
    if Staffed(reg, group, region) {
      var key :| key in reg.groups[group].configs && Eligible(reg, key, region);
      ConfigsAreEligible(reg, reg.groups[group].configs, region, reg.endpoints[key]);
    } else if cs != [] {
      assert cs[0] in cs;
      ConfigsAreEligible(reg, reg.groups[group].configs, region, cs[0]);
    }
  }

  /** A group's configs are its registered keys in the region, and only theirs, in the order listed. */
  lemma GroupIsItsKeys(reg: Registry, group: string, region: string)
    requires group in reg.groups
    ensures forall e :: e in GroupConfigs(reg, group, region) <==>
      exists key :: key in reg.groups[group].configs && Eligible(reg, key, region) && reg.endpoints[key] == e
    ensures forall a, key, b :: reg.groups[group].configs == a + [key] + b ==>
      GroupConfigs(reg, group, region) == ConfigsFor(reg, a, region)
        + (if Eligible(reg, key, region) then [reg.endpoints[key]] else []) + ConfigsFor(reg, b, region)
  {
    hide ConfigsFor;
    var keys := reg.groups[group].configs;
    forall e ensures e in GroupConfigs(reg, group, region) <==>
        exists key :: key in keys && Eligible(reg, key, region) && reg.endpoints[key] == e
    {
      ConfigsAreEligible(reg, keys, region, e);
    }
    forall a, key, b | keys == a + [key] + b
      ensures GroupConfigs(reg, group, region) == ConfigsFor(reg, a, region)
        + (if Eligible(reg, key, region) then [reg.endpoints[key]] else []) + ConfigsFor(reg, b, region)
    {
      ConfigsConcat(reg, a + [key], b, region);
      ConfigsConcat(reg, a, [key], region);
      OneConfig(reg, key, region);
    }
  }

  lemma OneConfig(reg: Registry, key: string, region: string)
    ensures ConfigsFor(reg, [key], region) == if Eligible(reg, key, region) then [reg.endpoints[key]] else []
  {
    assert [key][..0] == [];
  }

  // ---- The last resort ----

  /**
   * When nobody can be chosen by health: an unknown or empty group gives nobody; otherwise the fallback
   * endpoint of the fallback group, if that group is staffed and names one, and else the group's own.
   */
  lemma LastResort(reg: Registry, group: string, region: string)
    ensures var r := Hardcoded(reg, group, region);
      if !Staffed(reg, group, region) then r == None
      else
        var g := reg.groups[group];
        if g.fallbackGroup != "" && Staffed(reg, g.fallbackGroup, region) && reg.groups[g.fallbackGroup].fallback != ""
        then r == Some(Selection(reg.groups[g.fallbackGroup].fallback, true, g.fallbackGroup))
        else r == if g.fallback == "" then None else Some(Selection(g.fallback, false, group))
  {
    hide GroupConfigs, Staffed;
    StaffedIff(reg, group, region);
    assert Staffed(reg, group, region) ==> group in reg.groups by { StaffedGroup(reg, group, region); }
    if group in reg.groups {
      StaffedIff(reg, reg.groups[group].fallbackGroup, region);
      StaffedGroup(reg, reg.groups[group].fallbackGroup, region);
    }
  }

  lemma StaffedGroup(reg: Registry, group: string, region: string)
    ensures Staffed(reg, group, region) ==> group in reg.groups
  {
  }

  // ---- What blacklists ----

  /** A request that was not built blacklists, a failed one unless cancelled, an answer unless it is a 2xx. */
  lemma BlacklistsIff(o: Outcome)
    ensures LiveErrorOf(o).Some? <==>
      || o.BuildFailed?
      || (o.TransportFailed? && !o.cancelled)
      || (o.Answered? && !(200 <= o.status <= 299))
  {
  }

  /** The record of the error: no status unless the endpoint answered, and at most 1000 characters of its text. */
  lemma RecordedError(o: Outcome, kind: string, at: string)
    requires LiveErrorOf(o).Some?
    ensures var e := Recorded(LiveErrorOf(o).value, kind, at);
      && e.at == at && e.kind == kind
      && (o.Answered? && o.status != 0 ==> e.statusCode == Some(o.status))
      && (!o.Answered? ==> e.statusCode == None)
      && var text := if o.Answered? then o.body else o.message;
      && e.text <= text && (|text| <= 1000 ==> e.text == text) && (|text| > 1000 ==> |e.text| == 1000)
  {
  }

  /** The blacklisted record: marked, with its error, time and reason, and otherwise as it was. */
  lemma BlacklistedRecord(cache: Cache, key: string, err: LiveError)
    ensures var before, after := ParseHealth(cache, key), ParseHealth(Blacklist(cache, key, err), key);
      && after.blacklisted && after.lastError == Some(err) && after.reason == Some("error")
      && after.blacklistedAt == Some(err.at) && after.updatedAt == Some(err.at) && after.runs == before.runs
  {
  }
}
