/** Joining the property names of a field path with a separator. */
module PathJoin {

  /** `Vec<String>::join(separator)`. */
  function Join(names: seq<string>, sep: string): string {
    if |names| == 0 then ""
    else if |names| == 1 then names[0]
    else names[0] + sep + Join(names[1..], sep)
  }

  /** Extending a path by one name appends the separator and that name. */
  lemma {:induction false} JoinSnoc(names: seq<string>, name: string, sep: string)
    requires names != []
    ensures Join(names + [name], sep) == Join(names, sep) + sep + name
    decreases |names|
  {
    if |names| > 1 {
      assert (names + [name])[1..] == names[1..] + [name];
      JoinSnoc(names[1..], name, sep);
    }
  }
}
