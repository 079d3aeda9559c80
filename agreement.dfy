/** The order-only walk and the analysis walk agree: with the separator "_"
    the output list of `schema_order` is the analysis's field order, so the
    two position maps are equal whatever title tactic the analysis uses. */
module Agreement {
  import opened Json
  import opened Positions
  import opened PathJoin
  import SchemaAnalysis
  import SchemaOrder

  lemma {:induction false} OutputIsFieldPaths(properties: Json, path: seq<string>)
    ensures SchemaOrder.Output(properties, path)
         == SchemaAnalysis.FieldPaths(SchemaAnalysis.Leaves(properties, path), "_")
    decreases properties, 2
  {
    if properties.Obj? {
      EntriesOutputIsFieldPaths(properties, |properties.entries|, path);
    }
  }

  lemma {:induction false} EntriesOutputIsFieldPaths(obj: Json, n: nat, path: seq<string>)
    requires obj.Obj? && n <= |obj.entries|
    ensures SchemaOrder.EntriesOutput(obj, n, path)
         == SchemaAnalysis.FieldPaths(SchemaAnalysis.EntriesLeaves(obj, n, path), "_")
    decreases obj, 1, n
  {
    if n > 0 {
      var name, property := obj.entries[n - 1].0, obj.entries[n - 1].1;
      EntriesOutputIsFieldPaths(obj, n - 1, path);
      PropertyOutputIsFieldPaths(name, property, path);
      SchemaAnalysis.FieldPathsAppend(SchemaAnalysis.EntriesLeaves(obj, n - 1, path),
                                      SchemaAnalysis.PropertyLeaves(name, property, path), "_");
    }
  }

  lemma {:induction false} PropertyOutputIsFieldPaths(name: string, property: Json, path: seq<string>)
    ensures SchemaOrder.PropertyOutput(name, property, path)
         == SchemaAnalysis.FieldPaths(SchemaAnalysis.PropertyLeaves(name, property, path), "_")
    decreases property, 0
  {
    match SchemaAnalysis.Descent(property)
    case Some(sub) =>
      OutputIsFieldPaths(sub, path + [name]);
    case None =>
      var leaf := SchemaAnalysis.Leaf(path + [name], property);
      assert SchemaAnalysis.FieldPaths([leaf], "_") == [Join(leaf.names, "_")];
  }

  /** `schema_order`'s output list is the analysis's field order under "_". */
  lemma OutputIsFieldOrder(schema: Json)
    ensures SchemaOrder.SchemaOutput(schema) == SchemaAnalysis.FieldOrder(schema, "_")
  {
    var props := Get(schema, "properties");
    if props.Some? {
      OutputIsFieldPaths(props.value, []);
    }
  }

  /** The two position maps are equal. */
  lemma OrderMapsAgree(schema: Json)
    ensures Numbered(map[], SchemaOrder.SchemaOutput(schema)) == SchemaAnalysis.FieldOrderMap(schema, "_")
  {
    OutputIsFieldOrder(schema);
  }

  /** Running both on the same dereferenced schema, with any title tactic and
      slug table for the analysis, yields the same position map. */
  method BothWalks(schemaPath: string, value: Json, titleTactic: string, slugs: imap<string, string>)
    returns (orderMap: map<string, nat>, analysisMap: map<string, nat>)
    ensures orderMap == analysisMap
  {
    orderMap := SchemaOrder.SchemaOrderMap(schemaPath, value);
    var analysis := SchemaAnalysis.Analyse(schemaPath, value, "_", titleTactic, slugs);
    analysisMap := analysis.fieldOrderMap;
    OrderMapsAgree(value);
  }
}
