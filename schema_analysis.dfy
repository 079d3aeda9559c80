/** Field order and field titles read from an already dereferenced JSON
    Schema: the `properties` tree is walked depth first, every leaf property
    becomes a field path (the property names from the root joined by the path
    separator), the paths are numbered 1..n, and with a title tactic each path
    also gets a title. */
module SchemaAnalysis {
  import opened Json
  import opened Positions
  import opened PathJoin

  /** A leaf property met by the walk: the property names from the root to
      it, and the property's own schema (where its title is read). */
  datatype Leaf = Leaf(names: seq<string>, property: Json)

  /** The subtree a property is descended into: its `properties` member if it
      has one, whatever kind of value that is; otherwise the value at
      `/items/properties`. A property with neither is a leaf. */
  function Descent(property: Json): (r: Option<Json>)
    ensures r.Some? ==> r.value < property
  {
    match Get(property, "properties")
    case Some(p) => Some(p)
    case None => ItemsProperties(property)
  }

  /** A property is descended into exactly when it is an object with a
      `properties` member or an `items` object with one, and `properties`
      wins when both are there. */
  lemma DescentChoice(property: Json)
    ensures Descent(property).Some? <==>
              (property.Obj? && HasKey(property.entries, "properties"))
              || (Get(property, "items").Some? && Get(property, "items").value.Obj?
                  && HasKey(Get(property, "items").value.entries, "properties"))
    ensures Get(property, "properties").Some? ==> Descent(property) == Get(property, "properties")
  {
    GetFirst(property, "properties");
    GetFirst(property, "items");
    if Get(property, "items").Some? {
      GetFirst(Get(property, "items").value, "properties");
    }
  }

  /** The leaves found under a `properties` value, in walk order; anything
      but an object yields none. */
  function Leaves(properties: Json, path: seq<string>): seq<Leaf>
    decreases properties, 2
  {
    if properties.Obj? then EntriesLeaves(properties, |properties.entries|, path) else []
  }

  /** The leaves found under the first `n` members of an object. */
  function EntriesLeaves(obj: Json, n: nat, path: seq<string>): seq<Leaf>
    requires obj.Obj? && n <= |obj.entries|
    decreases obj, 1, n
  {
    if n == 0 then []
    else EntriesLeaves(obj, n - 1, path) + PropertyLeaves(obj.entries[n - 1].0, obj.entries[n - 1].1, path)
  }

  /** The leaves contributed by the member `name: property`. */
  function PropertyLeaves(name: string, property: Json, path: seq<string>): seq<Leaf>
    decreases property, 0
  {
    match Descent(property)
    case Some(sub) => Leaves(sub, path + [name])
    case None => [Leaf(path + [name], property)]
  }

  /** The leaves of a whole schema: those under its top-level `properties`. */
  function SchemaLeaves(schema: Json): seq<Leaf> {
    match Get(schema, "properties")
    case Some(p) => Leaves(p, [])
    case None => []
  }

  /** The recorded field path of each leaf, in order. */
  function FieldPaths(leaves: seq<Leaf>, sep: string): (r: seq<string>)
    ensures |r| == |leaves|
    decreases |leaves|
  {
    if leaves == [] then []
    else FieldPaths(leaves[..|leaves| - 1], sep) + [Join(leaves[|leaves| - 1].names, sep)]
  }

  /** Entry i of the field paths is leaf i's names joined by the separator. */
  lemma {:induction false} FieldPathsAt(leaves: seq<Leaf>, sep: string, i: int)
    requires 0 <= i < |leaves|
    ensures FieldPaths(leaves, sep)[i] == Join(leaves[i].names, sep)
    decreases |leaves|
  {
    if i < |leaves| - 1 {
      FieldPathsAt(leaves[..|leaves| - 1], sep, i);
    }
  }

  lemma {:induction false} FieldPathsAppend(a: seq<Leaf>, b: seq<Leaf>, sep: string)
    ensures FieldPaths(a + b, sep) == FieldPaths(a, sep) + FieldPaths(b, sep)
    decreases |b|
  {
    if b == [] {
      assert a + b == a;
    } else {
      var b' := b[..|b| - 1];
      assert (a + b)[..|a + b| - 1] == a + b';
      FieldPathsAppend(a, b', sep);
    }
  }

  /** The field order a schema yields: `field_order` after `parse`. */
  function FieldOrder(schema: Json, sep: string): seq<string> {
    FieldPaths(SchemaLeaves(schema), sep)
  }

  /** The field order map a schema yields: `field_order_map` after `parse`. */
  function FieldOrderMap(schema: Json, sep: string): map<string, nat> {
    Numbered(map[], FieldOrder(schema, sep))
  }

  // ---------------------------------------------------------------------------
  // Titles

  /** `str::replace("-", "_")`. */
  function Underscored(s: string): (r: string)
    ensures |r| == |s|
  {
    if s == [] then []
    else [if s[0] == '-' then '_' else s[0]] + Underscored(s[1..])
  }

  /** Underscoring changes each '-' into '_' and keeps every other character. */
  lemma {:induction false} UnderscoredAt(s: string)
    ensures forall i :: 0 <= i < |s| ==> Underscored(s)[i] == if s[i] == '-' then '_' else s[i]
  {
    if s != [] {
      UnderscoredAt(s[1..]);
    }
  }

  /** An underscored string holds no '-', and underscoring it again changes nothing. */
  lemma UnderscoredHasNoDash(s: string)
    ensures '-' !in Underscored(s)
    ensures Underscored(Underscored(s)) == Underscored(s)
  {
    var r := Underscored(s);
    UnderscoredAt(s);
    UnderscoredAt(r);
    forall i | 0 <= i < |r| ensures r[i] != '-' { }
  }

  /** The slug crate's `slugify`, which this model does not define, is a
      parameter given as a table from titles to slugs; `SlugTable` is the
      table of a function. */
  ghost function SlugTable(slugify: string -> string): (r: imap<string, string>)
    ensures forall t :: t in r && r[t] == slugify(t)
  {
    imap t | true :: slugify(t)
  }

  /** The slug of `title` in the table (a title outside it stays as it is;
      the table of a function leaves none outside). */
  function Slug(slugs: imap<string, string>, title: string): string {
    if title in slugs then slugs[title] else title
  }

  /** Reading the tabulated function gives the function's own result. */
  lemma SlugOfTable(slugify: string -> string, title: string)
    ensures Slug(SlugTable(slugify), title) == slugify(title)
  {
  }

  /** The title a tactic makes of a property's title: `underscore_slug` is the
      slug with every '-' turned into '_', `slug` is the slug, and `full` or
      any other tactic keeps the title verbatim. */
  function SelectTitle(tactic: string, title: string, slugs: imap<string, string>): string {
    match tactic
    case "underscore_slug" => Underscored(Slug(slugs, title))
    case "slug" => Slug(slugs, title)
    case _ => title
  }

  /** `underscore_slug` is `slug` with '-' replaced, and never holds a '-'. */
  lemma UnderscoreSlugIsSlugUnderscored(title: string, slugs: imap<string, string>)
    ensures SelectTitle("underscore_slug", title, slugs) == Underscored(SelectTitle("slug", title, slugs))
    ensures '-' !in SelectTitle("underscore_slug", title, slugs)
  {
    UnderscoredHasNoDash(Slug(slugs, title));
  }

  /** A missing or non-string `title` reads as "", and `full` or any tactic
      other than the two slug ones keeps the title as it is. */
  lemma TitleDefaults(property: Json, tactic: string, slugs: imap<string, string>)
    ensures !(Get(property, "title").Some? && Get(property, "title").value.Str?) ==> TitleOf(property) == ""
    ensures tactic != "slug" && tactic != "underscore_slug" ==>
              SelectTitle(tactic, TitleOf(property), slugs) == TitleOf(property)
  {
  }

  /** The title recorded for a leaf. */
  function LeafTitle(leaf: Leaf, tactic: string, slugs: imap<string, string>): string {
    SelectTitle(tactic, TitleOf(leaf.property), slugs)
  }

  /** `field_titles_map` after recording `leaves` one after the other into
      `m`: nothing is recorded under an empty tactic; otherwise each leaf's
      path gets the leaf's title, a later leaf overwriting an earlier one. */
  function RecordTitles(m: map<string, string>, leaves: seq<Leaf>, sep: string, tactic: string,
                        slugs: imap<string, string>): (r: map<string, string>)
    decreases |leaves|
  {
    if leaves == [] then m
    else
      var prev := RecordTitles(m, leaves[..|leaves| - 1], sep, tactic, slugs);
      var leaf := leaves[|leaves| - 1];
      if tactic != "" then prev[Join(leaf.names, sep) := LeafTitle(leaf, tactic, slugs)] else prev
  }

  /** Under an empty tactic nothing is recorded; otherwise exactly the
      recorded field paths gain a title. */
  lemma {:induction false} RecordTitlesKeys(m: map<string, string>, leaves: seq<Leaf>, sep: string, tactic: string,
                                            slugs: imap<string, string>)
    ensures tactic == "" ==> RecordTitles(m, leaves, sep, tactic, slugs) == m
    ensures tactic != "" ==> RecordTitles(m, leaves, sep, tactic, slugs).Keys == m.Keys + set p | p in FieldPaths(leaves, sep)
    decreases |leaves|
  {
    if leaves != [] {
      var init := leaves[..|leaves| - 1];
      RecordTitlesKeys(m, init, sep, tactic, slugs);
      assert FieldPaths(leaves, sep) == FieldPaths(init, sep) + [Join(leaves[|leaves| - 1].names, sep)];
    }
  }

  lemma {:induction false} RecordTitlesAppend(m: map<string, string>, a: seq<Leaf>, b: seq<Leaf>, sep: string,
                                              tactic: string, slugs: imap<string, string>)
    ensures RecordTitles(m, a + b, sep, tactic, slugs)
         == RecordTitles(RecordTitles(m, a, sep, tactic, slugs), b, sep, tactic, slugs)
    decreases |b|
  {
    if b == [] {
      assert a + b == a;
    } else {
      var b' := b[..|b| - 1];
      assert (a + b)[..|a + b| - 1] == a + b';
      RecordTitlesAppend(m, a, b', sep, tactic, slugs);
    }
  }

  lemma RecordTitlesOne(m: map<string, string>, leaf: Leaf, sep: string, tactic: string, slugs: imap<string, string>)
    ensures RecordTitles(m, [leaf], sep, tactic, slugs)
         == if tactic != "" then m[Join(leaf.names, sep) := LeafTitle(leaf, tactic, slugs)] else m
  {
    assert [leaf][..0] == [];
  }

  /** Recording `done` and then `here` is recording `done + here`, for the
      field order and for the titles alike. */
  lemma WalkStep(order0: seq<string>, orderMid: seq<string>, order: seq<string>,
                 titles0: map<string, string>, titlesMid: map<string, string>, titles: map<string, string>,
                 done: seq<Leaf>, here: seq<Leaf>, all: seq<Leaf>, sep: string, tactic: string, slugs: imap<string, string>)
    requires all == done + here
    requires orderMid == order0 + FieldPaths(done, sep) && order == orderMid + FieldPaths(here, sep)
    requires titlesMid == RecordTitles(titles0, done, sep, tactic, slugs)
    requires titles == RecordTitles(titlesMid, here, sep, tactic, slugs)
    ensures order == order0 + FieldPaths(all, sep)
    ensures titles == RecordTitles(titles0, all, sep, tactic, slugs)
  {
    assert order == order0 + FieldPaths(all, sep) by {
      FieldPathsAppend(done, here, sep);
      var p, q := FieldPaths(done, sep), FieldPaths(here, sep);
      assert order == order0 + (p + q);
    }
    assert titles == RecordTitles(titles0, all, sep, tactic, slugs) by {
      RecordTitlesAppend(titles0, done, here, sep, tactic, slugs);
    }
  }

  /** The title stored for a path is that of the last leaf recorded with it. */
  lemma {:induction false} RecordTitlesLast(m: map<string, string>, leaves: seq<Leaf>, sep: string,
                                            tactic: string, slugs: imap<string, string>, i: int)
    requires tactic != "" && 0 <= i < |leaves|
    requires forall j :: i < j < |leaves| ==> Join(leaves[j].names, sep) != Join(leaves[i].names, sep)
    ensures Join(leaves[i].names, sep) in RecordTitles(m, leaves, sep, tactic, slugs)
    ensures RecordTitles(m, leaves, sep, tactic, slugs)[Join(leaves[i].names, sep)]
         == LeafTitle(leaves[i], tactic, slugs)
    decreases |leaves|
  {
    var n := |leaves|;
    var init := leaves[..n - 1];
    var key := Join(leaves[i].names, sep);
    var prev := RecordTitles(m, init, sep, tactic, slugs);
    assert RecordTitles(m, leaves, sep, tactic, slugs)
        == prev[Join(leaves[n - 1].names, sep) := LeafTitle(leaves[n - 1], tactic, slugs)];
    if i < n - 1 {
      assert init[i] == leaves[i];
      forall j | i < j < |init| ensures Join(init[j].names, sep) != key {
        assert init[j] == leaves[j];
      }
      RecordTitlesLast(m, init, sep, tactic, slugs, i);
    }
  }

  // ---------------------------------------------------------------------------
  // What the walk records

  /** `rest` leads from a `properties` value to the leaf `leaf`: its first
      name is a member of the object, and the rest leads on from that member. */
  ghost predicate PathTo(properties: Json, rest: seq<string>, leaf: Json)
    decreases properties, 1
  {
    properties.Obj? && |rest| > 0 &&
    exists i :: 0 <= i < |properties.entries| && properties.entries[i].0 == rest[0] &&
      PathBelow(properties.entries[i].1, rest[1..], leaf)
  }

  /** `rest` leads from a member's value to the leaf `leaf`: a value with
      nothing to descend into is the leaf itself, any other leads on through
      the subtree it is descended into. */
  ghost predicate PathBelow(property: Json, rest: seq<string>, leaf: Json)
    decreases property, 0
  {
    match Descent(property)
    case None => rest == [] && leaf == property
    case Some(sub) => PathTo(sub, rest, leaf)
  }

  /** Every leaf of the walk is reached by its own names below `path`, and it
      is neither an object with `properties` nor an array of objects. */
  lemma {:induction false} LeavesArePaths(properties: Json, path: seq<string>, l: Leaf)
    requires l in Leaves(properties, path)
    ensures |path| < |l.names| && l.names[..|path|] == path
    ensures PathTo(properties, l.names[|path|..], l.property)
    ensures Get(l.property, "properties").None? && ItemsProperties(l.property).None?
    decreases properties, 2
  {
    EntriesLeavesArePaths(properties, |properties.entries|, path, l);
  }

  lemma {:induction false} EntriesLeavesArePaths(obj: Json, n: nat, path: seq<string>, l: Leaf)
    requires obj.Obj? && n <= |obj.entries|
    requires l in EntriesLeaves(obj, n, path)
    ensures |path| < |l.names| && l.names[..|path|] == path
    ensures PathTo(obj, l.names[|path|..], l.property)
    ensures Get(l.property, "properties").None? && ItemsProperties(l.property).None?
    decreases obj, 1, n
  {
    var name, property := obj.entries[n - 1].0, obj.entries[n - 1].1;
    if l in EntriesLeaves(obj, n - 1, path) {
      EntriesLeavesArePaths(obj, n - 1, path, l);
    } else {
      PropertyLeavesArePaths(name, property, path, l);
      var rest := l.names[|path|..];
      assert rest[0] == name && rest[1..] == l.names[|path| + 1..];
    }
  }

  lemma {:induction false} PropertyLeavesArePaths(name: string, property: Json, path: seq<string>, l: Leaf)
    requires l in PropertyLeaves(name, property, path)
    ensures |path| < |l.names| && l.names[..|path| + 1] == path + [name]
    ensures PathBelow(property, l.names[|path| + 1..], l.property)
    ensures Get(l.property, "properties").None? && ItemsProperties(l.property).None?
    decreases property, 0
  {
    var newPath := path + [name];
    match Descent(property)
    case None =>
      assert l == Leaf(newPath, property);
      assert l.names[|path| + 1..] == [];
    case Some(sub) =>
      LeavesArePaths(sub, newPath, l);
  }

  /** Conversely, every leaf reached by names below a `properties` value is
      recorded by the walk under those names. */
  lemma {:induction false} PathsAreLeaves(properties: Json, path: seq<string>, rest: seq<string>, leaf: Json)
    requires PathTo(properties, rest, leaf)
    ensures Leaf(path + rest, leaf) in Leaves(properties, path)
    decreases properties, 1
  {
    var es := properties.entries;
    var i :| 0 <= i < |es| && es[i].0 == rest[0] && PathBelow(es[i].1, rest[1..], leaf);
    PathsBelowAreLeaves(es[i].0, es[i].1, path, rest[1..], leaf);
    assert path + [rest[0]] + rest[1..] == path + rest;
    EntriesLeavesGrow(properties, i + 1, |es|, path, Leaf(path + rest, leaf));
    assert Leaves(properties, path) == EntriesLeaves(properties, |es|, path);
  }

  lemma {:induction false} PathsBelowAreLeaves(name: string, property: Json, path: seq<string>, rest: seq<string>, leaf: Json)
    requires PathBelow(property, rest, leaf)
    ensures Leaf(path + [name] + rest, leaf) in PropertyLeaves(name, property, path)
    decreases property, 0
  {
    match Descent(property)
    case None =>
      assert path + [name] + rest == path + [name];
    case Some(sub) =>
      PathsAreLeaves(sub, path + [name], rest, leaf);
  }

  /** What the walk finds under member n - 1 is still found after more members. */
  lemma {:induction false} EntriesLeavesGrow(obj: Json, n: nat, m: nat, path: seq<string>, l: Leaf)
    requires obj.Obj? && 0 < n <= m <= |obj.entries|
    requires l in PropertyLeaves(obj.entries[n - 1].0, obj.entries[n - 1].1, path)
    ensures l in EntriesLeaves(obj, m, path)
    decreases m
  {
    if m > n {
      EntriesLeavesGrow(obj, n, m - 1, path, l);
    }
  }

  /** A member is a field exactly when there is nothing to descend into, and
      then it is the only field it contributes; a member that is descended
      into (a container) is never a field itself. */
  lemma FieldExactlyWhenNoDescent(name: string, property: Json, path: seq<string>)
    ensures Leaf(path + [name], property) in PropertyLeaves(name, property, path) <==> Descent(property).None?
    ensures Descent(property).None? ==> PropertyLeaves(name, property, path) == [Leaf(path + [name], property)]
  {
    var newPath := path + [name];
    match Descent(property)
    case None =>
    case Some(sub) =>
      forall l | l in Leaves(sub, newPath) ensures |newPath| < |l.names| {
        LeavesArePaths(sub, newPath, l);
      }
  }

  /** A field below a non-empty path is recorded as the parent's joined path,
      the separator and the field's own name. */
  lemma LeafFieldPath(name: string, property: Json, path: seq<string>, sep: string)
    requires path != [] && Descent(property).None?
    ensures FieldPaths(PropertyLeaves(name, property, path), sep) == [Join(path, sep) + sep + name]
  {
    assert [Leaf(path + [name], property)][..0] == [];
    JoinSnoc(path, name, sep);
  }

  /** A `properties` member that is not an object stops the descent: the
      member is not a field and nothing below it is either. */
  lemma NonObjectPropertiesAddNothing(name: string, property: Json, path: seq<string>)
    requires Get(property, "properties").Some? && !Get(property, "properties").value.Obj?
    ensures PropertyLeaves(name, property, path) == []
  {
  }

  /** A schema without a top-level `properties` member yields no field
      order, no order map and no titles. */
  lemma NoPropertiesNoFields(schema: Json, sep: string, tactic: string, slugs: imap<string, string>)
    requires Get(schema, "properties").None?
    ensures FieldOrder(schema, sep) == []
    ensures FieldOrderMap(schema, sep) == map[]
    ensures RecordTitles(map[], SchemaLeaves(schema), sep, tactic, slugs) == map[]
  {
  }

  // ---------------------------------------------------------------------------
  // Depth-first order

  /** The leaves under the first `n` members depend only on those members. */
  lemma {:induction false} EntriesLeavesPrefix(o1: Json, o2: Json, n: nat, path: seq<string>)
    requires o1.Obj? && o2.Obj? && n <= |o1.entries| && n <= |o2.entries|
    requires o1.entries[..n] == o2.entries[..n]
    ensures EntriesLeaves(o1, n, path) == EntriesLeaves(o2, n, path)
    decreases n
  {
    if n > 0 {
      assert o1.entries[n - 1] == o1.entries[..n][n - 1] == o2.entries[n - 1];
      assert o1.entries[..n - 1] == o1.entries[..n][..n - 1];
      assert o2.entries[..n - 1] == o2.entries[..n][..n - 1];
      EntriesLeavesPrefix(o1, o2, n - 1, path);
    }
  }

  lemma {:induction false} EntriesLeavesSplit(a: seq<(string, Json)>, b: seq<(string, Json)>, j: nat, path: seq<string>)
    requires j <= |b|
    ensures EntriesLeaves(Obj(a + b), |a| + j, path) == Leaves(Obj(a), path) + EntriesLeaves(Obj(b), j, path)
    decreases j
  {
    if j == 0 {
      assert (a + b)[..|a|] == a == a[..|a|];
      EntriesLeavesPrefix(Obj(a + b), Obj(a), |a|, path);
    } else {
      EntriesLeavesSplit(a, b, j - 1, path);
      var e := b[j - 1];
      assert (a + b)[|a| + j - 1] == e;
      var here := PropertyLeaves(e.0, e.1, path);
      assert EntriesLeaves(Obj(a + b), |a| + j, path) == EntriesLeaves(Obj(a + b), |a| + j - 1, path) + here;
      assert EntriesLeaves(Obj(b), j, path) == EntriesLeaves(Obj(b), j - 1, path) + here;
    }
  }

  /** The walk of an object is the walk of its first members followed by the
      walk of the rest. */
  lemma LeavesSplit(a: seq<(string, Json)>, b: seq<(string, Json)>, path: seq<string>)
    ensures Leaves(Obj(a + b), path) == Leaves(Obj(a), path) + Leaves(Obj(b), path)
  {
    EntriesLeavesSplit(a, b, |b|, path);
  }

  /** Depth first: all leaves of member k sit together, after every leaf of
      the members before it and before every leaf of the members after it. */
  lemma DepthFirst(es: seq<(string, Json)>, k: int, path: seq<string>)
    requires 0 <= k < |es|
    ensures Leaves(Obj(es), path)
         == Leaves(Obj(es[..k]), path) + PropertyLeaves(es[k].0, es[k].1, path) + Leaves(Obj(es[k + 1..]), path)
  {
    assert es == es[..k] + ([es[k]] + es[k + 1..]);
    LeavesSplit(es[..k], [es[k]] + es[k + 1..], path);
    LeavesSplit([es[k]], es[k + 1..], path);
    assert Leaves(Obj([es[k]]), path) == EntriesLeaves(Obj([es[k]]), 0, path) + PropertyLeaves(es[k].0, es[k].1, path);
  }

  // ---------------------------------------------------------------------------
  // The analysis object

  /** `SchemaAnalysis`: the schema location, the separator and title tactic it
      was made with, and the order and title maps that parsing fills. The
      slug function is a table given to the constructor. */
  class SchemaAnalysis {
    const schema: string
    const pathSeparator: string
    var fieldOrderMap: map<string, nat>
    var fieldOrder: seq<string>
    var fieldTitlesMap: map<string, string>
    const titleTactic: string
    const slugs: imap<string, string>

    /** `SchemaAnalysis::new`: nothing recorded yet. */
    constructor (schema: string, pathSeparator: string, titleTactic: string, slugs: imap<string, string>)
      ensures this.schema == schema && this.pathSeparator == pathSeparator
      ensures this.titleTactic == titleTactic && this.slugs == slugs
      ensures fieldOrder == [] && fieldOrderMap == map[] && fieldTitlesMap == map[]
    {
      this.schema := schema;
      this.pathSeparator := pathSeparator;
      this.titleTactic := titleTactic;
      this.slugs := slugs;
      fieldOrder := [];
      fieldOrderMap := map[];
      fieldTitlesMap := map[];
    }

    /** `parse` from the dereferenced schema on: walk it, then number every
        recorded path by its position. */
    method Parse(value: Json)
      modifies this
      ensures fieldOrder == old(fieldOrder) + FieldPaths(SchemaLeaves(value), pathSeparator)
      ensures fieldTitlesMap == RecordTitles(old(fieldTitlesMap), SchemaLeaves(value), pathSeparator, titleTactic, slugs)
      ensures fieldOrderMap == Numbered(old(fieldOrderMap), fieldOrder)
    {
      ParseValue(value);
      var num := 0;
      while num < |fieldOrder|
        invariant 0 <= num <= |fieldOrder|
        invariant fieldOrder == old(fieldOrder) + FieldPaths(SchemaLeaves(value), pathSeparator)
        invariant fieldTitlesMap == RecordTitles(old(fieldTitlesMap), SchemaLeaves(value), pathSeparator, titleTactic, slugs)
        invariant fieldOrderMap == Numbered(old(fieldOrderMap), fieldOrder[..num])
      {
        assert fieldOrder[..num + 1][..num] == fieldOrder[..num];
        fieldOrderMap := fieldOrderMap[fieldOrder[num] := num + 1];
        num := num + 1;
      }
      assert fieldOrder[..num] == fieldOrder;
    }

    /** `parse_value`: walk the top-level `properties`, if there is one. */
    method ParseValue(schema: Json)
      modifies this
      ensures fieldOrder == old(fieldOrder) + FieldPaths(SchemaLeaves(schema), pathSeparator)
      ensures fieldTitlesMap == RecordTitles(old(fieldTitlesMap), SchemaLeaves(schema), pathSeparator, titleTactic, slugs)
      ensures fieldOrderMap == old(fieldOrderMap)
    {
      var props := Get(schema, "properties");
      if props.Some? {
        ParseProperties(props.value, []);
      }
    }

    /** `parse_properties`: walk each member of an object in turn; anything
        but an object records nothing. */
    method ParseProperties(properties: Json, path: seq<string>)
      modifies this
      ensures fieldOrder == old(fieldOrder) + FieldPaths(Leaves(properties, path), pathSeparator)
      ensures fieldTitlesMap == RecordTitles(old(fieldTitlesMap), Leaves(properties, path), pathSeparator, titleTactic, slugs)
      ensures fieldOrderMap == old(fieldOrderMap)
      decreases properties, 1
    {
      if properties.Obj? {
        var obj := properties.entries;
        var i := 0;
        while i < |obj|
          invariant 0 <= i <= |obj|
          invariant fieldOrder == old(fieldOrder) + FieldPaths(EntriesLeaves(properties, i, path), pathSeparator)
          invariant fieldTitlesMap == RecordTitles(old(fieldTitlesMap), EntriesLeaves(properties, i, path), pathSeparator, titleTactic, slugs)
          invariant fieldOrderMap == old(fieldOrderMap)
        {
          ghost var orderBefore, titlesBefore := fieldOrder, fieldTitlesMap;
          ParseProperty(obj[i].0, obj[i].1, path);
          WalkStep(old(fieldOrder), orderBefore, fieldOrder, old(fieldTitlesMap), titlesBefore, fieldTitlesMap,
                   EntriesLeaves(properties, i, path), PropertyLeaves(obj[i].0, obj[i].1, path),
                   EntriesLeaves(properties, i + 1, path), pathSeparator, titleTactic, slugs);
          i := i + 1;
        }
      }
    }

    /** One turn of the loop of `parse_properties`, for the member
        `name: property`: descend into its `properties`, else into its
        `items/properties`, else push its joined path onto the field order
        and, under a title tactic, insert its title (the string at `title`,
        or "" when there is none, passed through the tactic). */
    method ParseProperty(name: string, property: Json, path: seq<string>)
      modifies this
      ensures fieldOrder == old(fieldOrder) + FieldPaths(PropertyLeaves(name, property, path), pathSeparator)
      ensures fieldTitlesMap == RecordTitles(old(fieldTitlesMap), PropertyLeaves(name, property, path), pathSeparator, titleTactic, slugs)
      ensures fieldOrderMap == old(fieldOrderMap)
      decreases property, 0
    {
      var newPath := path + [name];
      var nested := Get(property, "properties");
      if nested.Some? {
        ParseProperties(nested.value, newPath);
      } else {
        var items := ItemsProperties(property);
        if items.Some? {
          ParseProperties(items.value, newPath);
        } else {
          var fieldPath := Join(newPath, pathSeparator);
          fieldOrder := fieldOrder + [fieldPath];
          if titleTactic != "" {
            var title := "";
            var titleValue := Get(property, "title");
            if titleValue.Some? && titleValue.value.Str? {
              title := titleValue.value.s;
            }
            var titleToUse := SelectTitle(titleTactic, title, slugs);
            fieldTitlesMap := fieldTitlesMap[fieldPath := titleToUse];
          }
          RecordTitlesOne(old(fieldTitlesMap), Leaf(newPath, property), pathSeparator, titleTactic, slugs);
        }
      }
    }
  }

  /** `schema_analysis` from the dereferenced schema on: a new analysis,
      parsed. The order map numbers the field order whatever the tactic. */
  method Analyse(schemaPath: string, value: Json, pathSeparator: string, titleTactic: string,
                 slugs: imap<string, string>) returns (analysis: SchemaAnalysis)
    ensures fresh(analysis)
    ensures analysis.schema == schemaPath && analysis.pathSeparator == pathSeparator
    ensures analysis.titleTactic == titleTactic && analysis.slugs == slugs
    ensures analysis.fieldOrder == FieldOrder(value, pathSeparator)
    ensures analysis.fieldOrderMap == FieldOrderMap(value, pathSeparator)
    ensures analysis.fieldTitlesMap == RecordTitles(map[], SchemaLeaves(value), pathSeparator, titleTactic, slugs)
  {
    analysis := new SchemaAnalysis(schemaPath, pathSeparator, titleTactic, slugs);
    analysis.Parse(value);
  }
}
