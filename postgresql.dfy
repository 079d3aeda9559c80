/** The column type a JSON-ish field type gets in PostgreSQL. */
module Postgresql {

  /** The four column types the mapping can produce. */
  predicate IsColumnType(t: string) {
    t == "TEXT" || t == "TIMESTAMP" || t == "NUMERIC" || t == "BOOLEAN"
  }

  /** `to_postgresql_type`: "date", "number" and "boolean" have their own
      column types; "text" and every other name, the empty one included,
      become TEXT. */
  function ToPostgresqlType(jsonType: string): (r: string)
    ensures IsColumnType(r)
    ensures r == "TIMESTAMP" <==> jsonType == "date"
    ensures r == "NUMERIC" <==> jsonType == "number"
    ensures r == "BOOLEAN" <==> jsonType == "boolean"
    ensures r == "TEXT" <==> jsonType != "date" && jsonType != "number" && jsonType != "boolean"
  {
    match jsonType
    case "text" => "TEXT"
    case "date" => "TIMESTAMP"
    case "number" => "NUMERIC"
    case "boolean" => "BOOLEAN"
    case _ => "TEXT"
  }
}
