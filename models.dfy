/**
 * The models file generator (src/generators/models-file.ts): the headers,
 * then one exported type alias per component schema, in declaration order.
 */
module Models {
  import opened Fp
  import opened OpenApi
  import opened Sink
  import opened Writers

  /** The statements of `models.ts`. */
  function ModelStatements(headers: seq<string>, schemas: Obj<Schema>): (r: seq<Statement>)
    ensures |r| == |headers| + |schemas.entries|
    ensures forall i | 0 <= i < |headers| :: r[i] == Raw(headers[i])
    ensures forall i | 0 <= i < |schemas.entries| ::
      r[|headers| + i] == TypeAlias(true, schemas.entries[i].0, TreeWriter(schemas.entries[i].1))
  {
    seq(|headers|, i requires 0 <= i < |headers| => Raw(headers[i]))
    + seq(|schemas.entries|, i requires 0 <= i < |schemas.entries| =>
        TypeAlias(true, schemas.entries[i].0, TreeWriter(schemas.entries[i].1)))
  }

  /** `path.join(rootDir, 'models.ts')`, without path normalisation. */
  function ModelsPath(rootDir: string): string
  {
    rootDir + "/models.ts"
  }

  /** `generateModels`: creates (or overwrites) `models.ts` holding the statements. */
  method GenerateModels(project: Project, headers: seq<string>, rootDir: string, spec: Spec)
    modifies project
    ensures project.files == old(project.files)[ModelsPath(rootDir) := SourceFile(ModelStatements(headers, spec.schemas), map[], map[])]
  {
    project.CreateSourceFile(ModelsPath(rootDir), ModelStatements(headers, spec.schemas));
  }

  /** The names of the type aliases among some statements, in order. */
  function AliasNames(statements: seq<Statement>): seq<string>
  {
    if |statements| == 0 then []
    else (if statements[0].TypeAlias? then [statements[0].name] else []) + AliasNames(statements[1..])
  }

  /** Every type alias is exported. */
  predicate AllExported(statements: seq<Statement>)
  {
    forall i | 0 <= i < |statements| :: statements[i].TypeAlias? ==> statements[i].exported
  }

  // ---------------------------------------------------------------------------
  // Lemmas

  /** The aliases are named by the schema keys, one each, in declaration order, and all exported. */
  lemma {:induction false} AliasPerSchema(headers: seq<string>, schemas: Obj<Schema>)
    ensures AliasNames(ModelStatements(headers, schemas)) == Keys(schemas)
    ensures AllExported(ModelStatements(headers, schemas))
  {
    var r := ModelStatements(headers, schemas);
    HeadersHaveNoAlias(r, |headers|);
    var aliases := r[|headers|..];
    forall i | 0 <= i < |aliases| ensures aliases[i].TypeAlias? && aliases[i].name == schemas.entries[i].0 {
      assert aliases[i] == r[|headers| + i];
    }
    AliasNamesFrom(aliases, schemas, 0);
    assert aliases[0..] == aliases;
  }

  lemma {:induction false} HeadersHaveNoAlias(statements: seq<Statement>, n: nat)
    requires n <= |statements|
    requires forall i | 0 <= i < n :: statements[i].Raw?
    ensures AliasNames(statements) == AliasNames(statements[n..])
  {
    if n > 0 {
      HeadersHaveNoAlias(statements[1..], n - 1);
      assert statements[1..][n - 1..] == statements[n..];
    }
  }

  lemma {:induction false} AliasNamesFrom(aliases: seq<Statement>, schemas: Obj<Schema>, k: nat)
    requires |aliases| == |schemas.entries| && k <= |aliases|
    requires forall i | 0 <= i < |aliases| :: aliases[i].TypeAlias? && aliases[i].name == schemas.entries[i].0
    ensures AliasNames(aliases[k..]) == Keys(schemas)[k..]
    decreases |aliases| - k
  {
    if k < |aliases| {
      AliasNamesFrom(aliases, schemas, k + 1);
      assert aliases[k..][1..] == aliases[k + 1..];
      assert Keys(schemas)[k..] == [schemas.entries[k].0] + Keys(schemas)[k + 1..];
    }
  }
}
