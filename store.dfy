/**
 * The ScraperWiki dataset the tool keeps between runs: a table of named
 * variables (`save_var` / `get_var`) and the `changes` table, to which the
 * tool only ever appends.
 */
module Store {

  /** The variables table, from variable name to saved value. Every variable of this tool holds a string. */
  type Vars = map<string, string>

  /**
   * A calendar day, as its ordinal number. The `datetime` column holds dates
   * as ISO text (YYYY-MM-DD), whose text order is the order of the days, so
   * SQL's MAX over the column picks the largest ordinal.
   */
  type Date = nat

  /** One row of the `changes` table: the watched URL, the day of the change, the diff text. */
  datatype ChangeRecord = ChangeRecord(url: string, date: Date, textDiff: string)

  /** The whole dataset as a value: the variables and the change log in insertion order. */
  datatype Db = Db(vars: Vars, changes: seq<ChangeRecord>)

  /** `get_var(name, default)`: the value last saved under `name`, or `default` if none was. */
  function GetVar(vars: Vars, name: string, default: string): (r: string)
    ensures name in vars ==> r == vars[name]
    ensures name !in vars ==> r == default
  {
    if name in vars then vars[name] else default
  }

  /** Reading a variable back gives what was saved last; saving one variable leaves the others as they were. */
  lemma GetAfterSave(vars: Vars, name: string, value: string, other: string, default: string)
    ensures GetVar(vars[name := value], name, default) == value
    ensures other != name ==> GetVar(vars[name := value], other, default) == GetVar(vars, other, default)
  {
  }

  /** The dataset as the tool's process sees it; the main module's operations update it in place. */
  class Database {
    var vars: Vars
    var changes: seq<ChangeRecord>

    /** A dataset in which nothing has been saved yet. */
    constructor ()
      ensures vars == map[] && changes == []
    {
      vars := map[];
      changes := [];
    }

    function Snapshot(): Db
      reads this
    {
      Db(vars, changes)
    }

    /** `save_var(name, value)`: overwrites one variable and leaves the log alone. */
    method SaveVar(name: string, value: string)
      modifies this
      ensures vars == old(vars)[name := value]
      ensures changes == old(changes)
    {
      vars := vars[name := value];
    }

    /** `sql.save` into `changes` with no unique keys: the row is appended, never merged. */
    method Save(record: ChangeRecord)
      modifies this
      ensures changes == old(changes) + [record]
      ensures vars == old(vars)
    {
      changes := changes + [record];
    }
  }
}
