# Schema field order, titles and PostgreSQL types, in Dafny

This project models the self-contained schema logic of flatterer, a tool that
flattens JSON into tables. Three pieces of it are modelled.

- **Schema analysis** (`src/schema_analysis.rs`). A `SchemaAnalysis` object
  reads an already dereferenced JSON Schema and walks its `properties` tree
  depth first:
  - a property with a `properties` member is descended into;
  - otherwise a property with an `/items/properties` value is descended into;
  - otherwise the property is a leaf, and its field path (the property names
    from the root, joined by the path separator) is pushed onto `field_order`.

  Under a non-empty title tactic the leaf's title is also stored in
  `field_titles_map`. The tactics are `full` or any other name (the title as
  it is), `slug`, and `underscore_slug` (the slug with `-` turned into `_`).
  Finally `parse` numbers the field order 1..n into `field_order_map`.
- **Schema order** (`src/schema_order.rs`). The older, order-only walk: the
  same tree walk with the separator fixed to `_`, and `schema_order` building
  the same 1-based position map.
- **PostgreSQL types** (`src/postgresql.rs`). `to_postgresql_type` maps a
  field type name to a column type.

## Files

- `json.dfy`: JSON values and serde_json's `get`, the pointer
  `/items/properties` and `as_str`.
- `path_join.dfy`: joining names with a separator.
- `positions.dfy`: the position map built by `enumerate` + `insert`, with its
  properties: position i + 1 for the last occurrence, values in 1..n, and the
  keys.
- `schema_analysis.dfy`:
  - the walk as specification functions (`Leaves`, `FieldPaths`,
    `RecordTitles`) and their properties;
  - the `SchemaAnalysis` class, whose methods are proved against those
    functions.
- `schema_order.dfy`: the order walk with its own specification and its
  `SchemaOrder` class.
- `agreement.dfy`: the two walks agree.
- `postgresql.dfy`: the column-type mapping.
- `example.dfy`: a schema rebuilt so that it yields the field order
  prop1, prop2, prop3_prop1, prop3_prop2, prop4, prop5 and the titles the
  repository's tests expect. The tests read their `base.json` from a remote
  gist, which is not in the repository and draws some properties from a
  second file through `$ref`. The rebuilt schema is the already dereferenced
  shape, worked through.

The walks are imperative in the source, so they are classes. `fieldOrder`
and `output` are `seq` fields the methods append to, and `fieldOrderMap` and
`fieldTitlesMap` are `map` fields the methods update. Each method's `ensures`
gives its new state as a function of its old state and the input. For
example, `ParseProperties` ensures that
`fieldOrder == old(fieldOrder) + FieldPaths(Leaves(properties, path), pathSeparator)`.
The loops over object members carry the matching invariants, with
`EntriesLeaves(properties, i, path)` for the first `i` members. The lemmas then
prove what the source promises about those functions.

## Model

| member | source | states |
|---|---|---|
| Json.Lookup | src/schema_analysis.rs:72 | a found value belongs to a member with that key |
| Json.LookupFirst | src/schema_analysis.rs:72 | a value is found exactly when some member has the key, and it is the value of the first such member |
| Json.Get | src/schema_analysis.rs:61 | a found value is a part of the value looked into |
| Json.GetFirst | src/schema_analysis.rs:61 | `get` finds a value exactly in an object holding the key, namely the value of its first member with that key; anything but an object yields nothing |
| Json.ItemsProperties | src/schema_analysis.rs:74 | the value at `/items/properties` is a part of the property |
| Json.TitleOf | src/schema_analysis.rs:80-86 | (no contract: the `title` member's string, or "" when it is missing or not a string; its properties are in `SchemaAnalysis.TitleDefaults`) |
| PathJoin.Join | src/schema_analysis.rs:77 | (no contract: `Vec::join`; its property is in `PathJoin.JoinSnoc` and `SchemaAnalysis.LeafFieldPath`) |
| PathJoin.JoinSnoc | src/schema_analysis.rs:69-77 | extending a non-empty path by one name appends the separator and the name to its joined form |
| Positions.Numbered | src/schema_analysis.rs:53-55 | (no contract: the map after inserting `items[i]` as i + 1 in turn; its properties are in the `Positions` lemmas below) |
| Positions.NumberedKeys | src/schema_analysis.rs:53-55 | the numbered keys are those already present plus every inserted path |
| Positions.NumberedAt | src/schema_analysis.rs:53-55 | a recorded path is numbered v in 1..n, with items[v - 1] that path and no later occurrence: the later position wins |
| Positions.NumberedOutside | src/schema_analysis.rs:53-55 | a path that is not inserted keeps its previous number |
| Positions.NumberedIsLastPosition | src/schema_analysis.rs:53-55 | both directions: the path at position i is numbered i + 1 exactly when it does not occur later |
| Positions.NumberedRange | src/schema_analysis.rs:53-55 | starting empty, every number lies in 1..n |
| Positions.NumberedDistinct | src/schema_analysis.rs:53-55 | starting empty with no repeated path, the keys are the field order's entries and `field_order[i]` is numbered i + 1 |
| SchemaAnalysis.Descent | src/schema_analysis.rs:72-75 | the value descended into is a part of the property |
| SchemaAnalysis.DescentChoice | src/schema_analysis.rs:72-75 | a property is descended into exactly when it holds `properties` or an `items` object holding `properties`, and `properties` takes precedence |
| SchemaAnalysis.Leaves | src/schema_analysis.rs:66-68 | (no contract: the leaves under a `properties` value, in walk order, none for a non-object; characterised by the path and depth-first lemmas below) |
| SchemaAnalysis.EntriesLeaves | src/schema_analysis.rs:67-68 | (no contract: the leaves under the first n members) |
| SchemaAnalysis.PropertyLeaves | src/schema_analysis.rs:69-78 | (no contract: one member's leaves: those below its `properties`, else below its `/items/properties`, else the member itself) |
| SchemaAnalysis.SchemaLeaves | src/schema_analysis.rs:60-64 | (no contract: the leaves under the top-level `properties`, none without it) |
| SchemaAnalysis.FieldPaths | src/schema_analysis.rs:77-78 | one field path per leaf |
| SchemaAnalysis.FieldPathsAt | src/schema_analysis.rs:77-78 | field path i is leaf i's names joined by the separator |
| SchemaAnalysis.FieldPathsAppend | src/schema_analysis.rs:68-78 | the field paths of two runs of leaves are the paths of the first followed by those of the second |
| SchemaAnalysis.FieldOrder | src/schema_analysis.rs:51-55 | (no contract: `field_order` after `parse`, the field paths of the schema's leaves; `Agreement.OutputIsFieldOrder` and `BaseSchemaExample.BaseFieldOrder` are stated with it) |
| SchemaAnalysis.FieldOrderMap | src/schema_analysis.rs:53-55 | (no contract: `field_order_map` after `parse`, the field order numbered from an empty map; its properties are the `Positions` lemmas, and `Agreement.OrderMapsAgree` is stated with it) |
| SchemaAnalysis.Underscored | src/schema_analysis.rs:89 | `replace("-", "_")` keeps the length |
| SchemaAnalysis.UnderscoredAt | src/schema_analysis.rs:89 | each '-' becomes '_' and every other character is kept |
| SchemaAnalysis.UnderscoredHasNoDash | src/schema_analysis.rs:89 | the result holds no '-' and replacing again changes nothing |
| SchemaAnalysis.Slug | src/schema_analysis.rs:89-90 | (no contract: the stand-in for `slugify(title)`, read from the slug table; `SlugOfTable` proves that the table of a slug function gives that function's slug) |
| SchemaAnalysis.SlugOfTable | src/schema_analysis.rs:89-90 | reading a title in the table of a slug function gives that function's slug |
| SchemaAnalysis.SelectTitle | src/schema_analysis.rs:88-92 | (no contract: the three-way title match; its properties are in `UnderscoreSlugIsSlugUnderscored` and `TitleDefaults`) |
| SchemaAnalysis.UnderscoreSlugIsSlugUnderscored | src/schema_analysis.rs:88-92 | `underscore_slug` is `slug` with '-' turned into '_', and holds no '-' |
| SchemaAnalysis.TitleDefaults | src/schema_analysis.rs:80-92 | a missing or non-string `title` reads as "", and `full` or any other tactic keeps the title verbatim |
| SchemaAnalysis.LeafTitle | src/schema_analysis.rs:80-92 | (no contract: a leaf's `title_to_use`, the tactic's title of its `title` member; its properties are in `TitleDefaults` and `UnderscoreSlugIsSlugUnderscored`) |
| SchemaAnalysis.RecordTitles | src/schema_analysis.rs:79-95 | (no contract: `field_titles_map` after recording a run of leaves; its properties are in `RecordTitlesKeys`, `RecordTitlesAppend` and `RecordTitlesLast`) |
| SchemaAnalysis.RecordTitlesKeys | src/schema_analysis.rs:79-95 | under an empty tactic the titles map is unchanged; otherwise its keys are the old keys plus every recorded field path |
| SchemaAnalysis.RecordTitlesAppend | src/schema_analysis.rs:68-94 | recording two runs of leaves is recording the first and then the second |
| SchemaAnalysis.WalkStep | src/schema_analysis.rs:68-78 | one more member extends the field order and the titles by that member's leaves |
| SchemaAnalysis.RecordTitlesLast | src/schema_analysis.rs:80-94 | the title stored for a path is the title, under the tactic, of the last leaf recorded with that path |
| SchemaAnalysis.LeavesArePaths | src/schema_analysis.rs:66-78 | every leaf's names extend the starting path, lead from the `properties` value to the leaf, and end at a property with nothing to descend into |
| SchemaAnalysis.EntriesLeavesArePaths | src/schema_analysis.rs:67-78 | the same for the leaves of the first n members |
| SchemaAnalysis.PropertyLeavesArePaths | src/schema_analysis.rs:69-78 | the same for the leaves of one member, which start with the member's name |
| SchemaAnalysis.PathsAreLeaves | src/schema_analysis.rs:66-78 | conversely, every leaf reached by names below a `properties` value is recorded under those names |
| SchemaAnalysis.PathsBelowAreLeaves | src/schema_analysis.rs:69-78 | the same below one member |
| SchemaAnalysis.EntriesLeavesGrow | src/schema_analysis.rs:68 | what a member contributes stays among the leaves once later members are walked |
| SchemaAnalysis.FieldExactlyWhenNoDescent | src/schema_analysis.rs:72-78 | a member is a field exactly when it has nothing to descend into, and it is then its only field; a container is never a field |
| SchemaAnalysis.LeafFieldPath | src/schema_analysis.rs:69-78 | a field below a non-empty path is recorded as its parent's joined path, the separator and its own name |
| SchemaAnalysis.NonObjectPropertiesAddNothing | src/schema_analysis.rs:67-73 | a member whose `properties` is not an object contributes no field at all |
| SchemaAnalysis.NoPropertiesNoFields | src/schema_analysis.rs:60-64 | a schema without top-level `properties` yields an empty field order, order map and titles map |
| SchemaAnalysis.EntriesLeavesPrefix | src/schema_analysis.rs:68 | the leaves of the first n members depend on those members only |
| SchemaAnalysis.EntriesLeavesSplit | src/schema_analysis.rs:68 | walking the members of a + b stops after a with exactly a's leaves |
| SchemaAnalysis.LeavesSplit | src/schema_analysis.rs:68 | the walk of members a + b is the walk of a followed by the walk of b |
| SchemaAnalysis.DepthFirst | src/schema_analysis.rs:68-78 | member k's leaves sit together, after all leaves of earlier members and before all leaves of later ones |
| SchemaAnalysis.SchemaAnalysis.constructor | src/schema_analysis.rs:30-39 | a new analysis keeps its schema, separator, tactic and slug table, and has recorded nothing |
| SchemaAnalysis.SchemaAnalysis.Parse | src/schema_analysis.rs:51-55 | after the walk, the order map is the old map with `field_order[i]` inserted as i + 1 in turn |
| SchemaAnalysis.SchemaAnalysis.ParseValue | src/schema_analysis.rs:60-64 | the walk of the top-level `properties`, if any, is appended to the field order and recorded in the titles |
| SchemaAnalysis.SchemaAnalysis.ParseProperties | src/schema_analysis.rs:66-99 | the field order gains the walk's field paths in order, the titles map records them, and the order map is untouched |
| SchemaAnalysis.SchemaAnalysis.ParseProperty | src/schema_analysis.rs:69-96 | one member: recurse into `properties`, else `/items/properties`, else push the joined path and insert its title under a tactic |
| SchemaAnalysis.Analyse | src/schema_analysis.rs:102-111 | a fresh analysis, keeping the schema location, separator, tactic and slug table it was given, parsed from the schema: it holds the schema's field order, its position map and its titles |
| SchemaOrder.Output | src/schema_order.rs:42-45 | (no contract: the paths appended for a `properties` value, none for a non-object; proved equal to the analysis's field paths in `Agreement.OutputIsFieldPaths`) |
| SchemaOrder.EntriesOutput | src/schema_order.rs:44-45 | (no contract: the paths appended for the first n members) |
| SchemaOrder.PropertyOutput | src/schema_order.rs:47-57 | (no contract: one member's paths: below its `properties`, else below its `/items/properties`, else its own path joined with `_`) |
| SchemaOrder.SchemaOutput | src/schema_order.rs:36-40 | (no contract: the paths appended for the top-level `properties`, none without it) |
| SchemaOrder.NonObjectPropertiesAddNothing | src/schema_order.rs:44-51 | a member whose `properties` is not an object appends nothing |
| SchemaOrder.NoPropertiesNoOutput | src/schema_order.rs:36-72 | a schema without top-level `properties` yields an empty output and an empty map |
| SchemaOrder.SchemaOrder.constructor | src/schema_order.rs:15-20 | a new walker keeps its schema and has an empty output |
| SchemaOrder.SchemaOrder.ParseValue | src/schema_order.rs:36-40 | the walk of the top-level `properties`, if any, is appended to the output |
| SchemaOrder.SchemaOrder.ParseProperties | src/schema_order.rs:42-60 | the output gains the walk's field paths, in order |
| SchemaOrder.SchemaOrder.ParseProperty | src/schema_order.rs:47-57 | one member: recurse into `properties`, else `/items/properties`, else push the path joined with `_` |
| SchemaOrder.SchemaOrderMap | src/schema_order.rs:63-73 | the map inserts `output[i]` as i + 1 in turn, starting empty |
| Agreement.OutputIsFieldPaths | src/schema_order.rs:42-60 | the order walk's output is the analysis walk's field paths under `_` |
| Agreement.EntriesOutputIsFieldPaths | src/schema_order.rs:44-58 | the same for the first n members |
| Agreement.PropertyOutputIsFieldPaths | src/schema_order.rs:47-57 | the same for one member |
| Agreement.OutputIsFieldOrder | src/schema_order.rs:36-40 | `schema_order`'s output is the analysis's field order with separator `_` |
| Agreement.OrderMapsAgree | src/schema_order.rs:63-72 | `schema_order`'s map equals the analysis's `field_order_map` with separator `_` |
| Agreement.BothWalks | src/schema_order.rs:63-73 | both walks on the same dereferenced value give the same position map, whatever the title tactic |
| Postgresql.ToPostgresqlType | src/postgresql.rs:1-11 | the result is one of TEXT, TIMESTAMP, NUMERIC, BOOLEAN; TIMESTAMP exactly for "date", NUMERIC exactly for "number", BOOLEAN exactly for "boolean", and TEXT for every other name, "text" and "" included |
| BaseSchemaExample.BaseLeaves | src/schema_analysis.rs:117-135 | the example's leaves, in walk order, with prop3's two sub-properties at its position |
| BaseSchemaExample.BaseFieldOrder | src/schema_analysis.rs:117-135 | the example's field order is prop1, prop2, prop3_prop1, prop3_prop2, prop4, prop5 |
| BaseSchemaExample.BaseOrderMap | src/schema_analysis.rs:119-126 | the example's order map numbers those six paths 1..6 |
| BaseSchemaExample.BaseSchemaOrderMap | src/schema_order.rs:84-91 | `schema_order` numbers them the same |
| BaseSchemaExample.BaseFullTitles | src/schema_analysis.rs:137-172 | under `full` each of the six paths gets its property's title verbatim |

## Left out

- Dereferencing the schema with `jsonref` (`deref_url`/`deref_file` and the
  reference key `___ref___`) in `SchemaAnalysis::parse` and
  `SchemaOrder::parse` (src/schema_analysis.rs:42-49,
  src/schema_order.rs:23-29) is file and network I/O. The model starts from
  the dereferenced value, so the error these return is not modelled either.
- Agreement.BothWalks: the agreement is proved for one dereferenced value.
  The two `parse` functions dereference differently: `SchemaAnalysis::parse`
  sets the reference key `___ref___` (src/schema_analysis.rs:43) and
  `SchemaOrder::parse` keeps jsonref's default (src/schema_order.rs:23), so
  on a schema whose references the two settings resolve differently the
  walks may not start from the same value.
- `slugify` from the slug crate is not defined here. It is a parameter: the
  analysis takes a table from titles to slugs, and `SlugTable` makes that
  table from any slug function. Only the `-` to `_` post-processing of
  `underscore_slug` is modelled.
- SchemaAnalysis.Slug: a title missing from the table is left as it is. The
  table of a slug function holds every title (`SlugTable`, `SlugOfTable`), so
  this case never arises for such a table.
- Object member order: serde_json's map iterates in its own key order, and
  that order is taken as given. An object is a sequence of members, walked in
  sequence order.
- Duplicate keys: serde_json's map has none. A modelled object may repeat a
  key; `get` then finds the first member, and the walk visits every member.
- Integer width: positions are unbounded naturals, not `usize`. The schema
  would need more than 2^64 leaves for that to matter.
- The rest of the repository is not part of this model:
  - the Python bindings, the worker thread and channel, and the options
    passed on to the flattening engine in src/lib.rs;
  - the command-line interface in src/main.rs;
  - the Python wrapper and its tests under flatterer/;
  - the flattening engine itself, which lives in another crate.
- The repository's tests of the `slug` and `underscore_slug` tactics depend
  on the slug crate's output. They are only echoed by
  `UnderscoreSlugIsSlugUnderscored`.
