/** The older, order-only schema walk: the same depth-first walk of the
    `properties` tree as the analysis, with the separator fixed to "_", no
    titles, and the position map built by `schema_order` itself. Its
    specification is written out on its own here, so that its agreement with
    the analysis is a theorem rather than a definition. */
module SchemaOrder {
  import opened Json
  import opened Positions
  import opened PathJoin

  /** The separator `parse_properties` joins a field path with. */
  const Separator := "_"

  /** The field paths the walk appends for a `properties` value, in order;
      anything but an object yields none. */
  function Output(properties: Json, path: seq<string>): seq<string>
    decreases properties, 2
  {
    if properties.Obj? then EntriesOutput(properties, |properties.entries|, path) else []
  }

  /** The field paths appended for the first `n` members of an object. */
  function EntriesOutput(obj: Json, n: nat, path: seq<string>): seq<string>
    requires obj.Obj? && n <= |obj.entries|
    decreases obj, 1, n
  {
    if n == 0 then []
    else EntriesOutput(obj, n - 1, path) + PropertyOutput(obj.entries[n - 1].0, obj.entries[n - 1].1, path)
  }

  /** The field paths appended for the member `name: property`: those under
      its `properties` value if it has one, else those under its
      `/items/properties` value, else its own joined path. */
  function PropertyOutput(name: string, property: Json, path: seq<string>): seq<string>
    decreases property, 0
  {
    var newPath := path + [name];
    match Get(property, "properties")
    case Some(nested) => Output(nested, newPath)
    case None =>
      match ItemsProperties(property)
      case Some(nested) => Output(nested, newPath)
      case None => [Join(newPath, Separator)]
  }

  /** The output of a whole schema: the walk of its top-level `properties`. */
  function SchemaOutput(schema: Json): seq<string> {
    match Get(schema, "properties")
    case Some(p) => Output(p, [])
    case None => []
  }

  /** A `properties` member that is not an object stops the descent: the
      property is not a field and nothing below it is either. */
  lemma NonObjectPropertiesAddNothing(name: string, property: Json, path: seq<string>)
    requires Get(property, "properties").Some? && !Get(property, "properties").value.Obj?
    ensures PropertyOutput(name, property, path) == []
  {
    assert Output(Get(property, "properties").value, path + [name]) == [];
  }

  /** A schema without a top-level `properties` member yields no output. */
  lemma NoPropertiesNoOutput(schema: Json)
    requires Get(schema, "properties").None?
    ensures SchemaOutput(schema) == []
    ensures Numbered(map[], SchemaOutput(schema)) == map[]
  {
  }

  /** `SchemaOrder`: the schema location and the field paths found so far. */
  class SchemaOrder {
    const schema: string
    var output: seq<string>

    /** `SchemaOrder::new`: nothing found yet. */
    constructor (schema: string)
      ensures this.schema == schema && output == []
    {
      this.schema := schema;
      output := [];
    }

    /** `parse_value`: walk the top-level `properties`, if there is one. */
    method ParseValue(schema: Json)
      modifies this
      ensures output == old(output) + SchemaOutput(schema)
    {
      var props := Get(schema, "properties");
      if props.Some? {
        ParseProperties(props.value, []);
      } else {
        assert old(output) + [] == old(output);
      }
    }

    /** `parse_properties`: walk each member of an object in turn; anything
        but an object appends nothing. */
    method ParseProperties(properties: Json, path: seq<string>)
      modifies this
      ensures output == old(output) + Output(properties, path)
      decreases properties, 1
    {
      if properties.Obj? {
        var obj := properties.entries;
        var i := 0;
        assert old(output) + [] == old(output);
        while i < |obj|
          invariant 0 <= i <= |obj|
          invariant output == old(output) + EntriesOutput(properties, i, path)
        {
          ParseProperty(obj[i].0, obj[i].1, path);
          assert EntriesOutput(properties, i + 1, path)
              == EntriesOutput(properties, i, path) + PropertyOutput(obj[i].0, obj[i].1, path);
          i := i + 1;
        }
      } else {
        assert old(output) + [] == old(output);
      }
    }

    /** One turn of the loop of `parse_properties`, for the member
        `name: property`: descend into its `properties`, else into its
        `items/properties`, else push its path joined with "_". */
    method ParseProperty(name: string, property: Json, path: seq<string>)
      modifies this
      ensures output == old(output) + PropertyOutput(name, property, path)
      decreases property, 0
    {
      var newPath := path + [name];
      var nested := Get(property, "properties");
      if nested.Some? {
        ParseProperties(nested.value, newPath);
      } else {
        var items := ItemsProperties(property);
        if items.Some? {
          ParseProperties(items.value, newPath);
        } else {
          var fieldPath := Join(newPath, Separator);
          output := output + [fieldPath];
        }
      }
    }
  }

  /** `schema_order` from the dereferenced schema on: walk it, then number
      the output 1..n, a later occurrence of a path overwriting an earlier. */
  method SchemaOrderMap(schemaPath: string, value: Json) returns (outputMap: map<string, nat>)
    ensures outputMap == Numbered(map[], SchemaOutput(value))
  {
    var order := new SchemaOrder(schemaPath);
    order.ParseValue(value);
    outputMap := map[];
    var num := 0;
    while num < |order.output|
      invariant 0 <= num <= |order.output|
      invariant order.output == SchemaOutput(value)
      invariant outputMap == Numbered(map[], order.output[..num])
    {
      assert order.output[..num + 1][..num] == order.output[..num];
      outputMap := outputMap[order.output[num] := num + 1];
      num := num + 1;
    }
    assert order.output[..num] == order.output;
  }
}
