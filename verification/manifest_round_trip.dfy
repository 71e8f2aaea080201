/** A parsed manifest written out again, and read again. */
module ManifestRoundTrip {
  import opened Options
  import opened Json
  import opened PluginManifest
  import EntryPath

  function WriteCapability(c: Capability, versionKey: string): Json {
    Obj(map["id" := Str(c.id), versionKey := Str(c.version)])
  }

  function WriteCapabilities(cs: seq<Capability>, versionKey: string): Json {
    Arr(seq(|cs|, i requires 0 <= i < |cs| => WriteCapability(cs[i], versionKey)))
  }

  function WriteContribution(c: Contribution): Json {
    Obj(map["id" := Str(c.id), "type" := Str(c.kind), "runtime" := Str(c.runtime), "entry" := Str(c.entry),
            "provides" := WriteCapabilities(c.provided, "version"), "requires" := WriteCapabilities(c.required, "range"),
            "configSchema" := Obj(c.configSchema), "requestedPermissions" := Arr(c.requestedPermissions)])
  }

  const LIFECYCLE_JSON := Obj(map["activation" := Str("startup"), "disable" := Str("restart-required"),
                                  "update" := Str("restart-required"), "uninstall" := Str("unsupported"),
                                  "dataDisposition" := Str("retain")])

  function WriteManifest(m: Manifest): Json {
    Obj(map["manifestVersion" := Number(0.0), "id" := Str(m.id), "version" := Str(m.version),
            "voiceclawVersionRange" := Str(m.voiceclawVersionRange),
            "feature" := Obj(map["id" := Str(m.featureId), "displayName" := Str(m.displayName)]),
            "contributions" := Arr(seq(|m.contributions|, i requires 0 <= i < |m.contributions| => WriteContribution(m.contributions[i]))),
            "lifecycle" := LIFECYCLE_JSON])
  }

  /** A declaration with its entry in normal form. */
  function NormalForm(j: Json): Json
    requires j.Obj? && "entry" in j.fields && EntryOf(j.fields["entry"]).Some?
  {
    Obj(j.fields["entry" := Str(EntryOf(j.fields["entry"]).value)])
  }

  lemma ProvidedIsWritten(p: Patterns, j: Json)
    requires AllProvided(p, j)
    ensures WriteCapabilities(Capabilities(j, "version"), "version") == j
  {
    forall i | 0 <= i < |j.items|
      ensures WriteCapability(CapabilityOf(j.items[i], "version"), "version") == j.items[i]
    {
      assert IsProvided(p, j.items[i]);
      assert WriteCapability(CapabilityOf(j.items[i], "version"), "version").fields == j.items[i].fields;
    }
    assert WriteCapabilities(Capabilities(j, "version"), "version").items == j.items;
  }

  lemma RequiredIsWritten(p: Patterns, j: Json)
    requires AllRequired(p, j)
    ensures WriteCapabilities(Capabilities(j, "range"), "range") == j
  {
    forall i | 0 <= i < |j.items|
      ensures WriteCapability(CapabilityOf(j.items[i], "range"), "range") == j.items[i]
    {
      assert IsRequired(p, j.items[i]);
      assert WriteCapability(CapabilityOf(j.items[i], "range"), "range").fields == j.items[i].fields;
    }
    assert WriteCapabilities(Capabilities(j, "range"), "range").items == j.items;
  }

  lemma ContributionIsWritten(p: Patterns, j: Json)
    requires IsContribution(p, j)
    ensures WriteContribution(ContributionOf(p, j)) == NormalForm(j)
  {
    ProvidedIsWritten(p, j.fields["provides"]);
    RequiredIsWritten(p, j.fields["requires"]);
    assert WriteContribution(ContributionOf(p, j)).fields == NormalForm(j).fields;
  }

  ghost predicate AllNormal(written: seq<Json>, items: seq<Json>) {
    && |written| == |items|
    && forall i | 0 <= i < |items| ::
         items[i].Obj? && "entry" in items[i].fields && EntryOf(items[i].fields["entry"]).Some?
         && written[i] == NormalForm(items[i])
  }

  lemma LifecycleIsFixed(j: Json)
    requires IsLifecycle(j)
    ensures j == LIFECYCLE_JSON
  {
    assert forall k | k in LIFECYCLE :: j.fields[k] == LIFECYCLE_JSON.fields[k];
    assert j.fields == LIFECYCLE_JSON.fields;
  }

  lemma FeatureIsWritten(p: Patterns, j: Json)
    requires IsFeature(p, j)
    ensures j == Obj(map["id" := Str(j.fields["id"].s), "displayName" := Str(j.fields["displayName"].s)])
  {
    assert j.fields == map["id" := Str(j.fields["id"].s), "displayName" := Str(j.fields["displayName"].s)];
  }

  lemma HeadIsWritten(p: Patterns, j: Json)
    requires Parsed(p, j).Ok?
    ensures var f, written := j.fields, WriteManifest(Parsed(p, j).value).fields;
            && written.Keys == ROOT_KEYS == f.Keys
            && written["manifestVersion"] == f["manifestVersion"] && written["id"] == f["id"]
            && written["version"] == f["version"] && written["voiceclawVersionRange"] == f["voiceclawVersionRange"]
            && written["feature"] == f["feature"] && written["lifecycle"] == f["lifecycle"]
  {
    LifecycleIsFixed(j.fields["lifecycle"]);
    FeatureIsWritten(p, j.fields["feature"]);
  }

  predicate AgreeExceptContributions(f: map<string, Json>, g: map<string, Json>) {
    f.Keys == ROOT_KEYS == g.Keys && forall k | k in ROOT_KEYS && k != "contributions" :: f[k] == g[k]
  }

  lemma HeadsAgree(f: map<string, Json>, g: map<string, Json>)
    requires f.Keys == ROOT_KEYS == g.Keys
    requires f["manifestVersion"] == g["manifestVersion"] && f["id"] == g["id"] && f["version"] == g["version"]
    requires f["voiceclawVersionRange"] == g["voiceclawVersionRange"] && f["feature"] == g["feature"]
    requires f["lifecycle"] == g["lifecycle"]
    ensures AgreeExceptContributions(f, g)
  {
  }

  lemma ContributionsAreWritten(p: Patterns, items: seq<Json>, contributions: seq<Contribution>)
    requires Reads(p, items, contributions)
    ensures AllNormal(seq(|contributions|, i requires 0 <= i < |contributions| => WriteContribution(contributions[i])), items)
  {
    forall i | 0 <= i < |items|
      ensures WriteContribution(contributions[i]) == NormalForm(items[i])
    {
      ContributionIsWritten(p, items[i]);
    }
  }

  /** Written out, a parsed manifest is the input, field by field, with only the entries of its
      contributions in normal form: nothing is lost, swapped or invented. */
  lemma ParsedIsWritten(p: Patterns, j: Json)
    requires Parsed(p, j).Ok?
    ensures var written := WriteManifest(Parsed(p, j).value);
            && AgreeExceptContributions(written.fields, j.fields)
            && written.fields["contributions"].Arr?
            && AllNormal(written.fields["contributions"].items, j.fields["contributions"].items)
  {
    HeadIsWritten(p, j);
    HeadsAgree(WriteManifest(Parsed(p, j).value).fields, j.fields);
    ContributionsAreWritten(p, j.fields["contributions"].items, Parsed(p, j).value.contributions);
  }

  // ---- reading it again

  lemma NormalFormReadsSame(p: Patterns, j: Json)
    requires IsContribution(p, j)
    ensures IsContribution(p, NormalForm(j)) <==> !EntryPath.StartsLikeDrive(EntryOf(j.fields["entry"]).value)
    ensures IsContribution(p, NormalForm(j)) ==> ContributionOf(p, NormalForm(j)) == ContributionOf(p, j)
    ensures IdText(NormalForm(j)) == IdText(j)
  {
    EntryPath.RenormalizingExactlyWhen(j.fields["entry"].s);
    assert NormalForm(j).fields.Keys == j.fields.Keys;
  }

  /** No entry came out looking like a drive letter. */
  ghost predicate NoDrives(m: Manifest) {
    forall i | 0 <= i < |m.contributions| :: !EntryPath.StartsLikeDrive(m.contributions[i].entry)
  }

  lemma WrittenItems(p: Patterns, items: seq<Json>, written: seq<Json>, m: Manifest)
    requires AllContributions(p, items) && DistinctIds(items) && AllNormal(written, items) && Reads(p, items, m.contributions)
    ensures DistinctIds(written) && (AllContributions(p, written) <==> NoDrives(m))
    ensures AllContributions(p, written) ==> Reads(p, written, m.contributions)
  {
    forall i | 0 <= i < |items|
      ensures IdText(written[i]) == IdText(items[i])
      ensures IsContribution(p, written[i]) <==> !EntryPath.StartsLikeDrive(m.contributions[i].entry)
      ensures IsContribution(p, written[i]) ==> ContributionOf(p, written[i]) == m.contributions[i]
    {
      assert IsContribution(p, items[i]) && m.contributions[i] == ContributionOf(p, items[i]);
      NormalFormReadsSame(p, items[i]);
    }
  }

  /** Read again, it gives the same manifest if and only if no entry in normal form starts like a drive
      letter; otherwise it is refused. */
  lemma ReparsedExactlyWhen(p: Patterns, j: Json)
    requires Parsed(p, j).Ok?
    ensures Parsed(p, WriteManifest(Parsed(p, j).value)).Ok? <==> NoDrives(Parsed(p, j).value)
    ensures NoDrives(Parsed(p, j).value) ==> Parsed(p, WriteManifest(Parsed(p, j).value)) == Parsed(p, j)
  {
    var m := Parsed(p, j).value;
    var again := WriteManifest(m);
    ParsedIsWritten(p, j);
    WrittenItems(p, j.fields["contributions"].items, again.fields["contributions"].items, m);
    HeadIsWritten(p, j);
    if IsManifest(p, again) {
      assert ManifestOf(p, again).contributions == m.contributions;
    }
  }
}
