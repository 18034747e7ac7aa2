/**
 * The `spectrocloud_pack` data source: build the filter list for the packs
 * query from the configured attributes, ask the API, and accept exactly one
 * matching pack.  An attribute counts as configured when it is not the zero
 * value (a non-empty string, a non-empty set), as the SDK's GetOk decides.
 */
module PackLookup {
  import opened Wrappers
  import opened GoStrings
  import opened Diagnostics

  const UidPrefix: string := "metadata.uid="
  const NamePrefix: string := "spec.name="
  const VersionPrefix: string := "spec.version="
  const CloudPrefix: string := "spec.cloudTypes_in_"
  const AllClouds: string := "all"
  const UnknownName: string := "unknown"

  /** The attributes the query is built from; `cloud` is the set's elements in list order. */
  datatype PackQuery = PackQuery(filters: string, id: string, name: string, version: string, cloud: seq<string>)

  /** A pack as the API returns it. */
  datatype Pack = Pack(uid: string, name: string, cloudTypes: seq<string>, version: string,
                       registryUid: string, values: string)

  // ---------------------------------------------------------------------------
  // The filter list
  // ---------------------------------------------------------------------------

  /** The cloud types queried for: the configured ones, with "all" added at the end when missing. */
  function CloudTypes(cloud: seq<string>): (r: seq<string>)
    ensures AllClouds in r
    ensures |cloud| <= |r| <= |cloud| + 1 && r[..|cloud|] == cloud
    ensures AllClouds in cloud ==> r == cloud
  {
    if AllClouds in cloud then cloud else cloud + [AllClouds]
  }

  function CloudFilter(cloud: seq<string>): string
  {
    CloudPrefix + Join(CloudTypes(cloud))
  }

  /**
   * The filters handed to GetPacks.  A raw `filters` string wins over
   * everything; otherwise an `id` wins over the remaining attributes;
   * otherwise one filter per configured attribute among name, version and
   * cloud, in that order.
   */
  function Filters(q: PackQuery): (r: seq<string>)
    ensures q.filters != "" ==> r == [q.filters]
    ensures q.filters == "" && q.id != "" ==> r == [UidPrefix + q.id]
    ensures q.filters == "" && q.id == "" ==> |r| <= 3
  {
    if q.filters != "" then [q.filters]
    else if q.id != "" then [UidPrefix + q.id]
    else
      (if q.name != "" then [NamePrefix + q.name] else [])
      + (if q.version != "" then [VersionPrefix + q.version] else [])
      + (if q.cloud != [] then [CloudFilter(q.cloud)] else [])
  }

  /** Which of the three attribute filters a string is, by its prefix; 3 for none of them. */
  function FilterKind(f: string): nat
  {
    if NamePrefix <= f then 0
    else if VersionPrefix <= f then 1
    else if CloudPrefix <= f then 2
    else 3
  }

  lemma FilterKinds(name: string, version: string, cloud: seq<string>)
    ensures FilterKind(NamePrefix + name) == 0
    ensures FilterKind(VersionPrefix + version) == 1
    ensures FilterKind(CloudFilter(cloud)) == 2
  {
    var v := VersionPrefix + version;
    var c := CloudFilter(cloud);
    assert v[5] == 'v' && NamePrefix[5] == 'n';
    assert c[5] == 'c' && VersionPrefix[5] == 'v';
  }

  lemma FilterPrefixesDiffer(name: string, version: string, cloud: seq<string>)
    ensures NamePrefix + name != VersionPrefix + version
    ensures NamePrefix + name != CloudFilter(cloud)
    ensures VersionPrefix + version != CloudFilter(cloud)
  {
    assert (NamePrefix + name)[5] == 'n';
    assert (VersionPrefix + version)[5] == 'v';
    assert CloudFilter(cloud)[5] == 'c';
  }

  /**
   * Without `filters` and `id`: a filter for an attribute is present exactly
   * when the attribute is configured, and nothing else is present.
   */
  lemma FiltersFromAttributes(q: PackQuery)
    requires q.filters == "" && q.id == ""
    ensures (NamePrefix + q.name in Filters(q)) <==> q.name != ""
    ensures (VersionPrefix + q.version in Filters(q)) <==> q.version != ""
    ensures (CloudFilter(q.cloud) in Filters(q)) <==> q.cloud != []
    ensures forall f :: f in Filters(q) ==>
              f == NamePrefix + q.name || f == VersionPrefix + q.version || f == CloudFilter(q.cloud)
  {
    var n, v, c := NamePrefix + q.name, VersionPrefix + q.version, CloudFilter(q.cloud);
    FilterPrefixesDiffer(q.name, q.version, q.cloud);
    var ns := if q.name != "" then [n] else [];
    var vs := if q.version != "" then [v] else [];
    var cs := if q.cloud != [] then [c] else [];
    assert Filters(q) == ns + vs + cs;
    assert forall f :: f in ns + vs + cs <==> f in ns || f in vs || f in cs;
  }

  /** Without `filters` and `id` the filters come in the order name, version, cloud, each at most once. */
  lemma FiltersInOrder(q: PackQuery)
    requires q.filters == "" && q.id == ""
    ensures forall i, j :: 0 <= i < j < |Filters(q)| ==> FilterKind(Filters(q)[i]) < FilterKind(Filters(q)[j])
  {
    var n, v, c := NamePrefix + q.name, VersionPrefix + q.version, CloudFilter(q.cloud);
    FilterKinds(q.name, q.version, q.cloud);
    var hasName, hasVersion, hasCloud := q.name != "", q.version != "", q.cloud != [];
    var r := Filters(q);
    if hasName && hasVersion && hasCloud {
      assert r == [n, v, c];
      assert FilterKind(r[0]) == 0 && FilterKind(r[1]) == 1 && FilterKind(r[2]) == 2;
    } else if hasName && hasVersion {
      assert r == [n, v];
      assert FilterKind(r[0]) == 0 && FilterKind(r[1]) == 1;
    } else if hasName && hasCloud {
      assert r == [n, c];
      assert FilterKind(r[0]) == 0 && FilterKind(r[1]) == 2;
    } else if hasVersion && hasCloud {
      assert r == [v, c];
      assert FilterKind(r[0]) == 1 && FilterKind(r[1]) == 2;
    } else {
      assert |r| <= 1;
    }
  }

  /** The clouds part of the cloud filter splits back into the queried cloud types. */
  lemma CloudFilterRoundTrip(cloud: seq<string>)
    requires forall i :: 0 <= i < |cloud| ==> Comma !in cloud[i]
    ensures CloudFilter(cloud)[|CloudPrefix|..] == Join(CloudTypes(cloud))
    ensures Split(Join(CloudTypes(cloud))) == CloudTypes(cloud)
  {
    var types := CloudTypes(cloud);
    forall i | 0 <= i < |types|
      ensures Comma !in types[i]
    {
      if i < |cloud| {
        assert types[i] == cloud[i];
      }
    }
    SplitJoin(types);
  }

  // ---------------------------------------------------------------------------
  // The result
  // ---------------------------------------------------------------------------

  /** The name diagnostics speak of: the configured name, or "unknown". */
  function DiagName(name: string): (r: string)
    ensures r != ""
    ensures name != "" ==> r == name
    ensures name == "" ==> r == UnknownName
  {
    if name != "" then name else UnknownName
  }

  /** The diagnostic for a query that did not match exactly one pack. */
  function MatchError(packName: string, matches: nat): (diags: seq<Diagnostic>)
    requires matches != 1
    ensures |diags| == 1 && diags[0].severity == Error
    ensures packName <= diags[0].summary
    ensures matches == 0 <==> diags[0].summary == packName + ": no matching packs"
  {
    if matches == 0 then
      [Diagnostic(Error, packName + ": no matching packs", "No packs matching criteria found")]
    else
      [Diagnostic(Error, packName + ": Multiple packs returned",
                  "Found " + FormatInt(matches) + " matching packs. Restrict packs criteria to a single match")]
  }

  /** The count in the "Multiple packs returned" detail reads back as the number of matches. */
  lemma MultipleMatchesReportCount(packName: string, matches: nat)
    requires 1 < matches <= MaxInt32
    ensures var detail := MatchError(packName, matches)[0].detail;
            var digits := FormatInt(matches);
            |detail| >= 6 + |digits| && ParseInt32(detail[6..6 + |digits|]) == Some(matches)
  {
    var digits := FormatInt(matches);
    var detail := MatchError(packName, matches)[0].detail;
    assert detail[6..6 + |digits|] == digits;
    ParseFormatInt32(matches);
  }

  /** The data source's state. */
  class PackData {
    var id: string
    var filters: string
    var name: string
    var cloud: seq<string>
    var version: string
    var registryUid: string
    var values: string

    constructor (filters: string, id: string, name: string, version: string, cloud: seq<string>)
      ensures Query() == PackQuery(filters, id, name, version, cloud)
      ensures registryUid == "" && values == ""
    {
      this.filters, this.id, this.name, this.version, this.cloud := filters, id, name, version, cloud;
      registryUid, values := "", "";
    }

    function Query(): PackQuery
      reads this
    {
      PackQuery(filters, id, name, version, cloud)
    }

    /**
     * dataSourcePackRead.  A failing query yields its error; zero or several
     * matches yield one error diagnostic and leave the state alone; a single
     * match sets the id to the pack's UID and copies its attributes.
     */
    method Read(getPacks: seq<string> -> Result<seq<Pack>, string>) returns (diags: seq<Diagnostic>)
      modifies this
      ensures getPacks(Filters(old(Query()))).Failure? ==>
                diags == FromErr(getPacks(Filters(old(Query()))).error) && unchanged(this)
      ensures getPacks(Filters(old(Query()))).Success? && |getPacks(Filters(old(Query()))).value| != 1 ==>
                diags == MatchError(DiagName(old(name)), |getPacks(Filters(old(Query()))).value|)
                && unchanged(this)
      ensures getPacks(Filters(old(Query()))).Success? && |getPacks(Filters(old(Query()))).value| == 1 ==>
                var pack := getPacks(Filters(old(Query()))).value[0];
                diags == [] && id == pack.uid && name == pack.name && cloud == pack.cloudTypes
                && version == pack.version && registryUid == pack.registryUid && values == pack.values
                && filters == old(filters)
    {
      var query := Filters(Query());
      var response := getPacks(query);
      if response.Failure? {
        return FromErr(response.error);
      }
      var packs := response.value;
      var packName := DiagName(name);
      if |packs| != 1 {
        return MatchError(packName, |packs|);
      }
      var pack := packs[0];
      var clouds := [];
      for i := 0 to |pack.cloudTypes|
        invariant clouds == pack.cloudTypes[..i]
      {
        clouds := clouds + [pack.cloudTypes[i]];
      }
      id := pack.uid;
      name := pack.name;
      cloud := clouds;
      version := pack.version;
      registryUid := pack.registryUid;
      values := pack.values;
      diags := [];
    }
  }
}
