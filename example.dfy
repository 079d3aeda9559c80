/** A dereferenced schema rebuilt so that both walkers yield the field order
    and titles the repository's tests expect: two plain properties, an object
    property with two sub-properties, then two more plain properties. The
    tests' own schema is fetched from outside the repository and draws some
    properties from a second file through `$ref`. */
module BaseSchemaExample {
  import opened Json
  import opened Positions
  import opened PathJoin
  import opened SchemaAnalysis
  import SchemaOrder
  import Agreement

  function Titled(title: string): Json {
    Obj([("type", Str("string")), ("title", Str(title))])
  }

  const BaseTitle := "sub property title in base.json"
  const OtherTitle := "sub property title in other.json"

  const Base: Json :=
    Obj([("type", Str("object")), ("properties", Obj([
      ("prop1", Titled(BaseTitle)),
      ("prop2", Titled(BaseTitle)),
      ("prop3", Obj([("type", Str("object")), ("properties", Obj([
        ("prop1", Titled(OtherTitle)),
        ("prop2", Titled(OtherTitle))]))])),
      ("prop4", Titled(OtherTitle)),
      ("prop5", Titled(OtherTitle))]))])

  const Expected: seq<string> := ["prop1", "prop2", "prop3_prop1", "prop3_prop2", "prop4", "prop5"]

  /** Looking up the second of two members. */
  lemma GetSecond(a: (string, Json), b: (string, Json), key: string)
    requires a.0 != key && b.0 == key
    ensures Get(Obj([a, b]), key) == Some(b.1)
  {
    assert [a, b][1..] == [b];
    assert Lookup([b], key) == Some(b.1);
  }

  /** The leaves of the example, in walk order. */
  function BaseLeafList(): seq<Leaf> {
    var base, other := Titled(BaseTitle), Titled(OtherTitle);
    [Leaf(["prop1"], base), Leaf(["prop2"], base), Leaf(["prop3", "prop1"], other),
     Leaf(["prop3", "prop2"], other), Leaf(["prop4"], other), Leaf(["prop5"], other)]
  }

  /** A titled property is a leaf, and its title is read back. */
  lemma TitledIsLeaf(t: string)
    ensures Descent(Titled(t)) == None && TitleOf(Titled(t)) == t
  {
    GetSecond(("type", Str("string")), ("title", Str(t)), "title");
  }

  /** prop3 contributes its two sub-properties. */
  lemma Prop3Leaves()
    ensures PropertyLeaves("prop3", Base.entries[1].1.entries[2].1, []) == BaseLeafList()[2..4]
  {
    var prop3 := Base.entries[1].1.entries[2].1;
    var nested := prop3.entries[1].1;
    GetSecond(prop3.entries[0], prop3.entries[1], "properties");
    var other := Titled(OtherTitle);
    TitledIsLeaf(OtherTitle);
    assert [] + ["prop3"] == ["prop3"];
    assert ["prop3"] + ["prop1"] == ["prop3", "prop1"] && ["prop3"] + ["prop2"] == ["prop3", "prop2"];
    assert PropertyLeaves("prop1", other, ["prop3"]) == [Leaf(["prop3", "prop1"], other)];
    assert PropertyLeaves("prop2", other, ["prop3"]) == [Leaf(["prop3", "prop2"], other)];
    assert EntriesLeaves(nested, 1, ["prop3"]) == [Leaf(["prop3", "prop1"], other)];
    assert Leaves(nested, ["prop3"]) == [Leaf(["prop3", "prop1"], other), Leaf(["prop3", "prop2"], other)];
  }

  /** The walk finds the five members in order, prop3 contributing its two
      sub-properties at its own position. */
  lemma BaseLeaves()
    ensures SchemaLeaves(Base) == BaseLeafList()
  {
    var props := Base.entries[1].1;
    GetSecond(Base.entries[0], Base.entries[1], "properties");
    TitledIsLeaf(BaseTitle);
    TitledIsLeaf(OtherTitle);
    Prop3Leaves();
    var leaves := BaseLeafList();
    assert forall n: string :: [] + [n] == [n];
    assert EntriesLeaves(props, 1, []) == leaves[..1];
    assert EntriesLeaves(props, 2, []) == leaves[..2];
    assert EntriesLeaves(props, 3, []) == leaves[..4];
    assert EntriesLeaves(props, 4, []) == leaves[..5];
    assert EntriesLeaves(props, 5, []) == leaves;
  }

  /** Leaf n's joined path is entry n of the expected order. */
  lemma BasePathAt(n: nat)
    requires n < 6
    ensures Join(BaseLeafList()[n].names, "_") == Expected[n]
  {
    if n == 2 || n == 3 {
      var names := BaseLeafList()[n].names;
      assert names[1..] == [names[1]];
      assert Join(names, "_") == names[0] + "_" + names[1];
    }
  }

  lemma FieldPathStep(n: nat)
    requires n < 6
    ensures FieldPaths(BaseLeafList()[..n + 1], "_") == FieldPaths(BaseLeafList()[..n], "_") + [Expected[n]]
  {
    assert BaseLeafList()[..n + 1][..n] == BaseLeafList()[..n];
    BasePathAt(n);
  }

  /** The depth-first field order of the example. */
  lemma BaseFieldOrder()
    ensures FieldOrder(Base, "_") == Expected
  {
    BaseLeaves();
    var leaves := BaseLeafList();
    assert leaves[..0] == [] && leaves[..6] == leaves;
    FieldPathStep(0);
    FieldPathStep(1);
    FieldPathStep(2);
    FieldPathStep(3);
    FieldPathStep(4);
    FieldPathStep(5);
    assert Expected == [Expected[0]] + [Expected[1]] + [Expected[2]] + [Expected[3]] + [Expected[4]] + [Expected[5]];
  }

  /** The position map expected of both walkers: prop1 1, prop2 2,
      prop3_prop1 3, prop3_prop2 4, prop4 5, prop5 6. */
  lemma BaseOrderMap()
    ensures FieldOrderMap(Base, "_")
         == map["prop1" := 1, "prop2" := 2, "prop3_prop1" := 3, "prop3_prop2" := 4, "prop4" := 5, "prop5" := 6]
  {
    BaseFieldOrder();
    forall n | 0 <= n < 6
      ensures Numbered(map[], Expected[..n + 1]) == Numbered(map[], Expected[..n])[Expected[n] := n + 1]
    {
      assert Expected[..n + 1][..n] == Expected[..n];
    }
    assert Expected[..0] == [] && Expected[..6] == Expected;
    assert Numbered(map[], Expected[..1]) == map["prop1" := 1];
    assert Numbered(map[], Expected[..2]) == map["prop1" := 1, "prop2" := 2];
    assert Numbered(map[], Expected[..3]) == map["prop1" := 1, "prop2" := 2, "prop3_prop1" := 3];
    assert Numbered(map[], Expected[..4]) == map["prop1" := 1, "prop2" := 2, "prop3_prop1" := 3, "prop3_prop2" := 4];
    assert Numbered(map[], Expected[..5])
        == map["prop1" := 1, "prop2" := 2, "prop3_prop1" := 3, "prop3_prop2" := 4, "prop4" := 5];
  }

  /** `schema_order` gives the example the same position map. */
  lemma BaseSchemaOrderMap()
    ensures Numbered(map[], SchemaOrder.SchemaOutput(Base))
         == map["prop1" := 1, "prop2" := 2, "prop3_prop1" := 3, "prop3_prop2" := 4, "prop4" := 5, "prop5" := 6]
  {
    Agreement.OrderMapsAgree(Base);
    BaseOrderMap();
  }

  const FullTitles: seq<string> := [BaseTitle, BaseTitle, OtherTitle, OtherTitle, OtherTitle, OtherTitle]

  /** Recording the example's leaf n under `full` adds its path and its title. */
  lemma FullTitleStep(slugs: imap<string, string>, n: nat)
    requires n < 6
    ensures RecordTitles(map[], BaseLeafList()[..n + 1], "_", "full", slugs)
         == RecordTitles(map[], BaseLeafList()[..n], "_", "full", slugs)[Expected[n] := FullTitles[n]]
  {
    var leaves := BaseLeafList();
    assert leaves[..n + 1][..n] == leaves[..n];
    BasePathAt(n);
    TitledIsLeaf(FullTitles[n]);
    assert leaves[n].property == Titled(FullTitles[n]);
  }

  /** Under the `full` tactic each field gets its property's title as it is. */
  lemma BaseFullTitles(slugs: imap<string, string>)
    ensures RecordTitles(map[], SchemaLeaves(Base), "_", "full", slugs)
         == map["prop1" := BaseTitle, "prop2" := BaseTitle, "prop3_prop1" := OtherTitle,
                "prop3_prop2" := OtherTitle, "prop4" := OtherTitle, "prop5" := OtherTitle]
  {
    BaseLeaves();
    var leaves := BaseLeafList();
    assert leaves[..0] == [] && leaves[..6] == leaves;
    FullTitleStep(slugs, 0);
    FullTitleStep(slugs, 1);
    FullTitleStep(slugs, 2);
    FullTitleStep(slugs, 3);
    FullTitleStep(slugs, 4);
    FullTitleStep(slugs, 5);
  }
}
