/** Plugin manifest validation (packages/contracts/src/plugin-manifest.ts). The regular expressions
    are parameters; everything they are combined with is here. */
module PluginManifest {
  import opened Options
  import opened Json
  import opened Texts
  import EntryPath

  /** ID_PATTERN, CAPABILITY_ID_PATTERN, SEMVER_PATTERN and RANGE_PART_PATTERN. */
  datatype Patterns = Patterns(id: string -> bool, capabilityId: string -> bool, semver: string -> bool, rangePart: string -> bool)

  datatype PathStep = Field(name: string) | Index(i: nat)

  /** path and code of a ManifestValidationError; the message is fixed by the code. */
  datatype Error = Error(path: seq<PathStep>, code: string)

  datatype Capability = Capability(id: string, version: string)

  datatype Contribution = Contribution(
    id: string, kind: string, runtime: string, entry: string, provided: seq<Capability>, required: seq<Capability>,
    configSchema: map<string, Json>, requestedPermissions: seq<Json>)

  datatype Manifest = Manifest(
    id: string, version: string, voiceclawVersionRange: string, featureId: string, displayName: string,
    contributions: seq<Contribution>)

  const ROOT_KEYS := {"manifestVersion", "id", "version", "voiceclawVersionRange", "feature", "contributions", "lifecycle"}
  const CONTRIBUTION_KEYS := {"id", "type", "runtime", "entry", "provides", "requires", "configSchema", "requestedPermissions"}
  const CONTRIBUTION_TYPES := {"desktop-service", "provider-integration", "client-ui"}
  const LIFECYCLE := map["activation" := "startup", "disable" := "restart-required", "update" := "restart-required",
                         "uninstall" := "unsupported", "dataDisposition" := "retain"]

  // ---- field predicates

  /** value.split(/\s+/), reading from the given word on. */
  function Words(s: string, word: string): seq<string>
    decreases |s|
  {
    if s == "" then [word]
    else if !IsSpace(s[0]) then Words(s[1..], word + [s[0]])
    else [word] + Words(SkipSpaces(s[1..]), "")
  }

  function SkipSpaces(s: string): (r: string)
    ensures |r| <= |s|
  {
    if s != "" && IsSpace(s[0]) then SkipSpaces(s[1..]) else s
  }

  predicate IsVersionRange(p: Patterns, j: Json) {
    j.Str? && Trim(j.s) == j.s && |j.s| > 0 && forall i | 0 <= i < |Words(j.s, "")| :: p.rangePart(Words(j.s, "")[i])
  }

  predicate Matches(j: Json, pattern: string -> bool) {
    j.Str? && pattern(j.s)
  }

  predicate IsText(j: Json) {
    j.Str? && Trim(j.s) != ""
  }

  /** A key of the object; a missing one reads as undefined, which no check accepts. */
  function Get(fields: map<string, Json>, key: string): Json {
    if key in fields then fields[key] else Null
  }

  predicate IsFeature(p: Patterns, j: Json) {
    IsExactRecord(j, {"id", "displayName"}) && Matches(j.fields["id"], p.id) && IsText(j.fields["displayName"])
  }

  predicate IsLifecycle(j: Json) {
    IsExactRecord(j, LIFECYCLE.Keys) && forall k | k in LIFECYCLE :: j.fields[k] == Str(LIFECYCLE[k])
  }

  predicate IsProvided(p: Patterns, j: Json) {
    IsExactRecord(j, {"id", "version"}) && Matches(j.fields["id"], p.capabilityId) && Matches(j.fields["version"], p.semver)
  }

  predicate IsRequired(p: Patterns, j: Json) {
    IsExactRecord(j, {"id", "range"}) && Matches(j.fields["id"], p.capabilityId) && IsVersionRange(p, j.fields["range"])
  }

  predicate AllProvided(p: Patterns, j: Json) {
    j.Arr? && forall i | 0 <= i < |j.items| :: IsProvided(p, j.items[i])
  }

  predicate AllRequired(p: Patterns, j: Json) {
    j.Arr? && forall i | 0 <= i < |j.items| :: IsRequired(p, j.items[i])
  }

  predicate AllRecords(j: Json) {
    j.Arr? && forall i | 0 <= i < |j.items| :: j.items[i].Obj?
  }

  function EntryOf(j: Json): Option<string> {
    if j.Str? then EntryPath.Normalize(j.s) else None
  }

  predicate IsContribution(p: Patterns, j: Json) {
    && IsExactRecord(j, CONTRIBUTION_KEYS)
    && Matches(j.fields["id"], p.id)
    && Matches(j.fields["type"], kind => kind in CONTRIBUTION_TYPES)
    && IsText(j.fields["runtime"])
    && EntryOf(j.fields["entry"]).Some?
    && AllProvided(p, j.fields["provides"]) && AllRequired(p, j.fields["requires"])
    && j.fields["configSchema"].Obj? && AllRecords(j.fields["requestedPermissions"])
  }

  // ---- what a valid manifest is

  function IdText(j: Json): string {
    if j.Obj? then TextOf(Get(j.fields, "id")) else ""
  }

  predicate DistinctIds(items: seq<Json>) {
    forall i, j | 0 <= i < j < |items| :: IdText(items[i]) != IdText(items[j])
  }

  predicate AllContributions(p: Patterns, items: seq<Json>) {
    forall i | 0 <= i < |items| :: IsContribution(p, items[i])
  }

  predicate IsManifest(p: Patterns, j: Json) {
    && IsExactRecord(j, ROOT_KEYS)
    && j.fields["manifestVersion"] == Number(0.0)
    && Matches(j.fields["id"], p.id) && Matches(j.fields["version"], p.semver)
    && IsVersionRange(p, j.fields["voiceclawVersionRange"])
    && IsFeature(p, j.fields["feature"])
    && j.fields["contributions"].Arr? && j.fields["contributions"].items != []
    && AllContributions(p, j.fields["contributions"].items)
    && DistinctIds(j.fields["contributions"].items)
    && IsLifecycle(j.fields["lifecycle"])
  }

  function CapabilityOf(j: Json, versionKey: string): Capability {
    if j.Obj? then Capability(TextOf(Get(j.fields, "id")), TextOf(Get(j.fields, versionKey))) else Capability("", "")
  }

  function TextOf(j: Json): string {
    if j.Str? then j.s else ""
  }

  function Capabilities(j: Json, versionKey: string): seq<Capability>
    requires j.Arr?
  {
    seq(|j.items|, i requires 0 <= i < |j.items| => CapabilityOf(j.items[i], versionKey))
  }

  /** The contribution a valid declaration stands for. */
  function ContributionOf(p: Patterns, j: Json): Contribution
    requires IsContribution(p, j)
  {
    Contribution(j.fields["id"].s, j.fields["type"].s, j.fields["runtime"].s, EntryOf(j.fields["entry"]).value,
                 Capabilities(j.fields["provides"], "version"), Capabilities(j.fields["requires"], "range"),
                 j.fields["configSchema"].fields, j.fields["requestedPermissions"].items)
  }

  function ManifestOf(p: Patterns, j: Json): Manifest
    requires IsManifest(p, j)
  {
    var items := j.fields["contributions"].items;
    Manifest(j.fields["id"].s, j.fields["version"].s, j.fields["voiceclawVersionRange"].s,
             j.fields["feature"].fields["id"].s, j.fields["feature"].fields["displayName"].s,
             seq(|items|, i requires 0 <= i < |items| => ContributionOf(p, items[i])))
  }

  // ---- the errors, in the order they are reported

  function Unless(ok: bool, path: seq<PathStep>, code: string): seq<Error> {
    if ok then [] else [Error(path, code)]
  }

  function ItemErrors(items: seq<Json>, ok: Json -> bool, path: seq<PathStep>): seq<Error> {
    if items == [] then []
    else
      ItemErrors(items[..|items| - 1], ok, path)
      + Unless(ok(items[|items| - 1]), path + [Index(|items| - 1)], "invalid_capability")
  }

  function ProvidesErrors(p: Patterns, j: Json, path: seq<PathStep>): seq<Error> {
    if j.Arr? then ItemErrors(j.items, item => IsProvided(p, item), path) else [Error(path, "invalid_provides")]
  }

  function RequiresErrors(p: Patterns, j: Json, path: seq<PathStep>): seq<Error> {
    if j.Arr? then ItemErrors(j.items, item => IsRequired(p, item), path) else [Error(path, "invalid_requires")]
  }

  /** The id a declaration registers, valid otherwise or not. */
  function RegisteredId(p: Patterns, j: Json): Option<string> {
    if IsExactRecord(j, CONTRIBUTION_KEYS) && Matches(j.fields["id"], p.id) then Some(j.fields["id"].s) else None
  }

  function Register(p: Patterns, ids: set<string>, j: Json): set<string> {
    if RegisteredId(p, j).Some? then ids + {RegisteredId(p, j).value} else ids
  }

  /** contributionIds after some declarations. */
  function IdsBefore(p: Patterns, items: seq<Json>): set<string> {
    if items == [] then {} else Register(p, IdsBefore(p, items[..|items| - 1]), items[|items| - 1])
  }

  function IdErrors(p: Patterns, id: Json, before: set<string>, path: seq<PathStep>): seq<Error> {
    if !Matches(id, p.id) then [Error(path, "invalid_id")]
    else if id.s in before then [Error(path, "duplicate_id")]
    else []
  }

  function ContributionErrors(p: Patterns, j: Json, before: set<string>, path: seq<PathStep>): seq<Error> {
    if !IsExactRecord(j, CONTRIBUTION_KEYS) then [Error(path, "invalid_fields")]
    else
      IdErrors(p, j.fields["id"], before, path + [Field("id")])
      + Unless(Matches(j.fields["type"], kind => kind in CONTRIBUTION_TYPES), path + [Field("type")], "unsupported_type")
      + Unless(IsText(j.fields["runtime"]), path + [Field("runtime")], "invalid_runtime")
      + Unless(EntryOf(j.fields["entry"]).Some?, path + [Field("entry")], "entry_outside_package")
      + ProvidesErrors(p, j.fields["provides"], path + [Field("provides")])
      + RequiresErrors(p, j.fields["requires"], path + [Field("requires")])
      + Unless(j.fields["configSchema"].Obj?, path + [Field("configSchema")], "invalid_schema")
      + Unless(AllRecords(j.fields["requestedPermissions"]), path + [Field("requestedPermissions")], "invalid_permissions")
  }

  function ContributionsErrors(p: Patterns, items: seq<Json>): seq<Error> {
    if items == [] then []
    else
      var init := items[..|items| - 1];
      ContributionsErrors(p, init)
      + ContributionErrors(p, items[|items| - 1], IdsBefore(p, init), [Field("contributions"), Index(|items| - 1)])
  }

  function FeatureErrors(p: Patterns, j: Json): seq<Error> {
    if !IsExactRecord(j, {"id", "displayName"}) then [Error([Field("feature")], "invalid_feature")]
    else
      Unless(Matches(j.fields["id"], p.id), [Field("feature"), Field("id")], "invalid_id")
      + Unless(IsText(j.fields["displayName"]), [Field("feature"), Field("displayName")], "invalid_display_name")
  }

  function HeadErrors(p: Patterns, fields: map<string, Json>): seq<Error> {
    Unless(fields.Keys == ROOT_KEYS, [], "invalid_fields")
    + Unless(Get(fields, "manifestVersion") == Number(0.0), [Field("manifestVersion")], "unsupported_version")
    + Unless(Matches(Get(fields, "id"), p.id), [Field("id")], "invalid_id")
    + Unless(Matches(Get(fields, "version"), p.semver), [Field("version")], "invalid_semver")
    + Unless(IsVersionRange(p, Get(fields, "voiceclawVersionRange")), [Field("voiceclawVersionRange")], "invalid_semver_range")
  }

  function BodyErrors(p: Patterns, j: Json): seq<Error> {
    if j.Arr? && j.items != [] then ContributionsErrors(p, j.items)
    else [Error([Field("contributions")], "invalid_contributions")]
  }

  function ManifestErrors(p: Patterns, j: Json): seq<Error> {
    if !j.Obj? then [Error([], "invalid_type")]
    else
      HeadErrors(p, j.fields) + FeatureErrors(p, Get(j.fields, "feature")) + BodyErrors(p, Get(j.fields, "contributions"))
      + Unless(IsLifecycle(Get(j.fields, "lifecycle")), [Field("lifecycle")], "unsupported_lifecycle")
  }

  // ---- no error exactly for valid manifests

  lemma {:induction false} NoItemErrors(items: seq<Json>, ok: Json -> bool, path: seq<PathStep>)
    ensures ItemErrors(items, ok, path) == [] <==> forall i | 0 <= i < |items| :: ok(items[i])
  {
    if items != [] {
      var init := items[..|items| - 1];
      NoItemErrors(init, ok, path);
      assert forall i | 0 <= i < |init| :: items[i] == init[i];
    }
  }

  lemma NoContributionErrors(p: Patterns, j: Json, before: set<string>, path: seq<PathStep>)
    ensures ContributionErrors(p, j, before, path) == [] <==> IsContribution(p, j) && IdText(j) !in before
  {
    if IsExactRecord(j, CONTRIBUTION_KEYS) {
      var provided, required := j.fields["provides"], j.fields["requires"];
      if provided.Arr? { NoItemErrors(provided.items, item => IsProvided(p, item), path + [Field("provides")]); }
      if required.Arr? { NoItemErrors(required.items, item => IsRequired(p, item), path + [Field("requires")]); }
    }
  }

  lemma ValidRegisters(p: Patterns, j: Json)
    requires IsContribution(p, j)
    ensures RegisteredId(p, j) == Some(IdText(j))
  {
  }

  ghost predicate HasId(items: seq<Json>, id: string) {
    exists i :: 0 <= i < |items| && IdText(items[i]) == id
  }

  lemma {:induction false} IdsOfValid(p: Patterns, items: seq<Json>, id: string)
    requires AllContributions(p, items)
    ensures id in IdsBefore(p, items) <==> HasId(items, id)
  {
    if items != [] {
      var init, last := items[..|items| - 1], items[|items| - 1];
      ValidRegisters(p, last);
      IdsOfValid(p, init, id);
      HasIdSplits(items, id);
    }
  }

  lemma HasIdSplits(items: seq<Json>, id: string)
    requires items != []
    ensures HasId(items, id) <==> HasId(items[..|items| - 1], id) || IdText(items[|items| - 1]) == id
  {
    var init := items[..|items| - 1];
    if HasId(init, id) {
      var i :| 0 <= i < |init| && IdText(init[i]) == id;
      assert IdText(items[i]) == id;
    }
    if HasId(items, id) && IdText(items[|items| - 1]) != id {
      var i :| 0 <= i < |items| && IdText(items[i]) == id;
      assert IdText(init[i]) == id;
    }
  }

  lemma AllSplits(p: Patterns, items: seq<Json>)
    requires items != []
    ensures AllContributions(p, items)
            <==> AllContributions(p, items[..|items| - 1]) && IsContribution(p, items[|items| - 1])
  {
    var init := items[..|items| - 1];
    assert forall i | 0 <= i < |init| :: items[i] == init[i];
  }

  lemma DistinctSplits(items: seq<Json>)
    requires items != []
    ensures DistinctIds(items)
            <==> DistinctIds(items[..|items| - 1]) && !HasId(items[..|items| - 1], IdText(items[|items| - 1]))
  {
    var init, last := items[..|items| - 1], items[|items| - 1];
    if DistinctIds(init) && !HasId(init, IdText(last)) {
      forall i, j | 0 <= i < j < |items|
        ensures IdText(items[i]) != IdText(items[j])
      {
        assert IdText(items[i]) == IdText(init[i]);
        if j < |init| { assert IdText(items[j]) == IdText(init[j]); }
      }
    } else if HasId(init, IdText(last)) {
      var i :| 0 <= i < |init| && IdText(init[i]) == IdText(last);
      assert IdText(items[i]) == IdText(items[|items| - 1]);
    } else {
      var i, j :| 0 <= i < j < |init| && IdText(init[i]) == IdText(init[j]);
      assert IdText(items[i]) == IdText(items[j]);
    }
  }

  lemma {:induction false} NoContributionsErrors(p: Patterns, items: seq<Json>)
    ensures ContributionsErrors(p, items) == [] <==> AllContributions(p, items) && DistinctIds(items)
  {
    if items != [] {
      var init, last := items[..|items| - 1], items[|items| - 1];
      NoContributionsErrors(p, init);
      NoContributionErrors(p, last, IdsBefore(p, init), [Field("contributions"), Index(|items| - 1)]);
      AllSplits(p, items);
      DistinctSplits(items);
      if AllContributions(p, init) { IdsOfValid(p, init, IdText(last)); }
    }
  }

  lemma NoErrorsExactlyWhenValid(p: Patterns, j: Json)
    ensures ManifestErrors(p, j) == [] <==> IsManifest(p, j)
  {
    if j.Obj? {
      var contributions := Get(j.fields, "contributions");
      if contributions.Arr? { NoContributionsErrors(p, contributions.items); }
    }
  }

  // ---- the parser

  function Parsed(p: Patterns, j: Json): (r: Result<Manifest, seq<Error>>)
    ensures r.Ok? <==> IsManifest(p, j)
    ensures r.Err? ==> r.error != []
  {
    NoErrorsExactlyWhenValid(p, j);
    if IsManifest(p, j) then Ok(ManifestOf(p, j)) else Err(ManifestErrors(p, j))
  }

  /** A parsed manifest lists its contributions one for one, in order, with distinct ids, each with a
      clean package-relative entry and a supported type. */
  lemma ParsedContributions(p: Patterns, j: Json)
    requires Parsed(p, j).Ok?
    ensures var m, items := Parsed(p, j).value, j.fields["contributions"].items;
            && |m.contributions| == |items| > 0
            && (forall i | 0 <= i < |items| :: m.contributions[i].id == items[i].fields["id"].s
                                               && m.contributions[i].kind in CONTRIBUTION_TYPES)
            && (forall i, k | 0 <= i < k < |items| :: m.contributions[i].id != m.contributions[k].id)
            && (forall i | 0 <= i < |items| :: EntryPath.AllClean(EntryPath.Split(m.contributions[i].entry)))
  {
    var m, items := Parsed(p, j).value, j.fields["contributions"].items;
    forall i | 0 <= i < |items|
      ensures m.contributions[i] == ContributionOf(p, items[i]) && m.contributions[i].id == IdText(items[i])
      ensures EntryPath.AllClean(EntryPath.Split(m.contributions[i].entry))
    {
      assert IsContribution(p, items[i]);
      EntryPath.NormalizedIsClean(items[i].fields["entry"].s);
    }
    assert forall i, k | 0 <= i < k < |items| :: IdText(items[i]) != IdText(items[k]);
  }

  /** Collects the valid items and reports the others. */
  method ParseCapabilities(items: seq<Json>, ok: Json -> bool, versionKey: string, path: seq<PathStep>)
      returns (result: seq<Capability>, errors: seq<Error>)
    ensures errors == ItemErrors(items, ok, path)
    ensures errors == [] ==> result == seq(|items|, i requires 0 <= i < |items| => CapabilityOf(items[i], versionKey))
  {
    result, errors := [], [];
    for i := 0 to |items|
      invariant errors == ItemErrors(items[..i], ok, path)
      invariant errors == [] ==> result == seq(i, k requires 0 <= k < i => CapabilityOf(items[k], versionKey))
    {
      assert items[..i + 1][..i] == items[..i];
      if !ok(items[i]) {
        errors := errors + [Error(path + [Index(i)], "invalid_capability")];
        continue;
      }
      result := result + [CapabilityOf(items[i], versionKey)];
    }
    assert items[..|items|] == items;
  }

  method ParseProvides(p: Patterns, value: Json, path: seq<PathStep>)
      returns (result: Option<seq<Capability>>, errors: seq<Error>)
    ensures errors == ProvidesErrors(p, value, path) && (result.Some? <==> value.Arr?)
    ensures errors == [] ==> value.Arr? && result == Some(Capabilities(value, "version"))
  {
    if !value.Arr? {
      return None, [Error(path, "invalid_provides")];
    }
    var capabilities: seq<Capability>;
    capabilities, errors := ParseCapabilities(value.items, item => IsProvided(p, item), "version", path);
    result := Some(capabilities);
  }

  method ParseRequires(p: Patterns, value: Json, path: seq<PathStep>)
      returns (result: Option<seq<Capability>>, errors: seq<Error>)
    ensures errors == RequiresErrors(p, value, path) && (result.Some? <==> value.Arr?)
    ensures errors == [] ==> value.Arr? && result == Some(Capabilities(value, "range"))
  {
    if !value.Arr? {
      return None, [Error(path, "invalid_requires")];
    }
    var capabilities: seq<Capability>;
    capabilities, errors := ParseCapabilities(value.items, item => IsRequired(p, item), "range", path);
    result := Some(capabilities);
  }

  /** One declaration: its errors, the ids known after it, and the contribution if its parts can be read. */
  method ParseContribution(p: Patterns, value: Json, path: seq<PathStep>, ids: set<string>)
      returns (contribution: Option<Contribution>, errors: seq<Error>, known: set<string>)
    ensures errors == ContributionErrors(p, value, ids, path)
    ensures known == Register(p, ids, value)
    ensures errors == [] ==> IsContribution(p, value) && contribution == Some(ContributionOf(p, value))
  {
    NoContributionErrors(p, value, ids, path);
    contribution, errors, known := None, [], ids;
    if !IsExactRecord(value, CONTRIBUTION_KEYS) {
      errors := [Error(path, "invalid_fields")];
      return;
    }
    var f := value.fields;
    if !Matches(f["id"], p.id) {
      errors := [Error(path + [Field("id")], "invalid_id")];
    } else if f["id"].s in known {
      errors := [Error(path + [Field("id")], "duplicate_id")];
      assert known + {f["id"].s} == known;
    } else {
      known := known + {f["id"].s};
    }
    errors := errors + Unless(Matches(f["type"], kind => kind in CONTRIBUTION_TYPES), path + [Field("type")], "unsupported_type");
    errors := errors + Unless(IsText(f["runtime"]), path + [Field("runtime")], "invalid_runtime");
    var entry := None;
    if f["entry"].Str? {
      entry := EntryPath.NormalizeEntry(f["entry"].s);
    }
    errors := errors + Unless(entry.Some?, path + [Field("entry")], "entry_outside_package");
    var provided, providedErrors := ParseProvides(p, f["provides"], path + [Field("provides")]);
    var required, requiredErrors := ParseRequires(p, f["requires"], path + [Field("requires")]);
    errors := errors + providedErrors + requiredErrors;
    errors := errors + Unless(f["configSchema"].Obj?, path + [Field("configSchema")], "invalid_schema");
    errors := errors + Unless(AllRecords(f["requestedPermissions"]), path + [Field("requestedPermissions")], "invalid_permissions");
    if entry.Some? && provided.Some? && required.Some? && f["configSchema"].Obj? && AllRecords(f["requestedPermissions"]) {
      contribution := Some(Contribution(TextOf(f["id"]), TextOf(f["type"]), TextOf(f["runtime"]), entry.value, provided.value,
                                        required.value, f["configSchema"].fields, f["requestedPermissions"].items));
    }
  }

  /** The contributions read from valid declarations, one for one. */
  predicate Reads(p: Patterns, items: seq<Json>, contributions: seq<Contribution>) {
    |contributions| == |items|
    && forall k | 0 <= k < |items| :: IsContribution(p, items[k]) && contributions[k] == ContributionOf(p, items[k])
  }

  lemma ReadsOneMore(p: Patterns, items: seq<Json>, i: nat, contributions: seq<Contribution>)
    requires i < |items| && Reads(p, items[..i], contributions) && IsContribution(p, items[i])
    ensures Reads(p, items[..i + 1], contributions + [ContributionOf(p, items[i])])
  {
    assert forall k | 0 <= k < i :: items[..i + 1][k] == items[..i][k];
  }

  method ParseContributions(p: Patterns, items: seq<Json>) returns (contributions: seq<Contribution>, errors: seq<Error>)
    ensures errors == ContributionsErrors(p, items)
    ensures errors == [] ==> Reads(p, items, contributions)
  {
    contributions, errors := [], [];
    var ids: set<string> := {};
    for i := 0 to |items|
      invariant errors == ContributionsErrors(p, items[..i]) && ids == IdsBefore(p, items[..i])
      invariant errors == [] ==> Reads(p, items[..i], contributions)
    {
      assert items[..i + 1][..i] == items[..i];
      ghost var before := contributions;
      var contribution, more, known := ParseContribution(p, items[i], [Field("contributions"), Index(i)], ids);
      if errors == [] && more == [] { ReadsOneMore(p, items, i, before); }
      errors, ids := errors + more, known;
      if contribution.Some? {
        contributions := contributions + [contribution.value];
      }
    }
    assert items[..|items|] == items;
  }

  lemma ReadManifest(p: Patterns, j: Json, contributions: seq<Contribution>)
    requires IsManifest(p, j) && Reads(p, j.fields["contributions"].items, contributions)
    ensures ManifestOf(p, j).contributions == contributions
  {
  }

  method ParseBody(p: Patterns, declared: Json) returns (contributions: seq<Contribution>, errors: seq<Error>)
    ensures errors == BodyErrors(p, declared)
    ensures errors == [] ==> declared.Arr? && Reads(p, declared.items, contributions)
  {
    if !declared.Arr? || declared.items == [] {
      return [], [Error([Field("contributions")], "invalid_contributions")];
    }
    contributions, errors := ParseContributions(p, declared.items);
  }

  method ParsePluginManifest(p: Patterns, input: Json) returns (r: Result<Manifest, seq<Error>>)
    ensures r == Parsed(p, input)
  {
    if !input.Obj? {
      return Err([Error([], "invalid_type")]);
    }
    var f := input.fields;
    var errors := HeadErrors(p, f) + FeatureErrors(p, Get(f, "feature"));
    var contributions, more := ParseBody(p, Get(f, "contributions"));
    errors := errors + more;
    errors := errors + Unless(IsLifecycle(Get(f, "lifecycle")), [Field("lifecycle")], "unsupported_lifecycle");
    assert errors == ManifestErrors(p, input);
    NoErrorsExactlyWhenValid(p, input);
    if |errors| > 0 {
      return Err(errors);
    }
    assert more == [];
    ReadManifest(p, input, contributions);
    r := Ok(Manifest(f["id"].s, f["version"].s, f["voiceclawVersionRange"].s,
                     f["feature"].fields["id"].s, f["feature"].fields["displayName"].s, contributions));
  }
}
