/** Below judge schema 16 an envelope can name a capsule of another release. */
module OldSchemas {
  import opened Json
  import opened PythonValues
  import opened Capsule
  import opened Envelope
  import Cap = Capsulation
  import B = CapsuleBuilder
  import C = Coordinator

  function ReferenceTo(url: string): Json { Obj(map["public_url" := Str(url)]) }

  /** An envelope of this release that refers to the capsule without a relay. */
  function Referring(schema: int, c: Dict, repository: string, commit: string, tag: string): Inputs {
    Inputs(schema, ReferenceTo(""), "", Null, Some(c), "", repository, commit, tag)
  }

  lemma ReferenceReads(url: string)
    ensures ReferenceTo(url).Obj?
    ensures "public_url" in ReferenceTo(url).members && Get(ReferenceTo(url).members, "relay") == Null
  {
  }

  lemma SealedParts(rt: Runtime, i: B.Inputs)
    ensures B.HasParts(rt, Seal(rt, B.Unsealed(rt, i)), i)
  {
    hide Seal, B.Unsealed, B.HasParts;
    B.UnsealedHasParts(rt, i);
    B.SealKeepsParts(rt, B.Unsealed(rt, i), i);
  }

  lemma EntrySections(rt: Runtime, i: B.Inputs)
    ensures B.PredecessorJson(rt, i).Obj?
    ensures var p := B.PredecessorJson(rt, i).members; "release_tag" in p && "release_target" in p
    ensures B.OnlineJson(i.report).Obj? && "check_count" in B.OnlineJson(i.report).members
  {
    hide B.EnvelopeSha, B.Reference, Get;
  }

  lemma RowsPresent(rt: Runtime, i: B.Inputs)
    requires B.CanBuild(rt, i)
    ensures B.UiRows(i.report).Obj?
  {
    hide B.ValidBuildCompiler, B.PredecessorPasses, B.AssetsPass, B.TransactionPasses, UiProjection;
  }

  lemma BuiltCanBeEmitted(rt: Runtime, i: B.Inputs, schema: int, repository: string, commit: string, tag: string)
    requires B.CanBuild(rt, i)
    ensures var c := Seal(rt, B.Unsealed(rt, i)); CanEmitEntry(Referring(schema, c, repository, commit, tag), c)
  {
    hide Seal, B.Unsealed, B.CanBuild, B.PredecessorJson, B.OnlineJson, B.UiRows, ReferenceTo, CompilerJson,
      UiSourcesJson, UiSources, RequestPolicy, B.GateJson;
    SealedParts(rt, i);
    EntrySections(rt, i);
    RowsPresent(rt, i);
    ReferenceReads("");
  }

  lemma BuiltNamesOnly(rt: Runtime, i: B.Inputs, commit: string, tag: string)
    ensures NamesRelease(Seal(rt, B.Unsealed(rt, i)), commit, tag)
        <==> commit == i.compiler.sourceHead && tag == i.compiler.releaseTag
  {
    hide Seal, B.Unsealed, B.PredecessorJson, B.OnlineJson, B.UiRows, UiSourcesJson, UiSources, RequestPolicy,
      B.GateJson;
    SealedParts(rt, i);
  }

  /** Every transaction that can become a capsule shows it: at any schema below 16 an envelope of any other
      commit or tag is emitted with the capsule and then refused with it. */
  lemma EmittedAndRefused(
    rt: Runtime, r: Dict, authorBytes: string, networkBytes: string, k: Compiler, schema: int, commit: string,
    tag: string) returns (x: Inputs)
    requires C.Verified(rt, r) && Cap.Buildable(rt, r, authorBytes, networkBytes, k)
    requires schema < 16 && (commit != k.sourceHead || tag != k.releaseTag)
    ensures x.judgeSchema == schema && x.commit == commit && x.tag == tag && x.repository == k.repository
    ensures x.capsule.Some? && ValidCapsule(rt, x.capsule.value)
    ensures Emit(rt, x).Some? && !BindingAccepted(rt, x.capsule.value, x.bytes, Emit(rt, x).value)
  {
    hide C.Verified, Cap.Buildable, B.CanBuild, Seal, B.Unsealed, ValidCapsule, Emit, CanEmitEntry, BindingAccepted,
      NamesRelease;
    var i := Cap.BuildableBuilds(rt, r, authorBytes, networkBytes, k);
    B.BuilderAgrees(rt, i);
    BuiltCanBeEmitted(rt, i, schema, k.repository, commit, tag);
    BuiltNamesOnly(rt, i, commit, tag);
    x := Referring(schema, Seal(rt, B.Unsealed(rt, i)), k.repository, commit, tag);
    OldSchemaMayDisagree(rt, x, x.capsule.value);
  }
}
