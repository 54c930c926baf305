/**
 * The doctor-search tool: builds a parameterised SQL query from an optional
 * specialty and an optional condition, runs it, and returns the rows or,
 * when the query fails, no doctors.
 */
module DoctorSearch {
  import opened Wrappers
  import opened Text

  const SelectDoctors: string := "SELECT * FROM doctors"
  const Where: string := " WHERE "
  const SpecialtyClause: string := Where + "lower(specialty) LIKE $1"
  const ConditionClause: string := Where + "lower(bio) LIKE $1 OR lower(specialty) LIKE $1"
  const LimitClause: string := " LIMIT 5"

  datatype Doctor = Doctor(name: string, specialty: string, hospital: string, bio: string)
  /** The database: a query and its parameters give rows, or None when the query throws. */
  type Database = (string, seq<string>) -> Option<seq<Doctor>>

  /** The `LIKE` parameter: the lower-cased term between `%` wildcards. */
  function LikePattern(term: string): (p: string)
    ensures |p| == |term| + 2 && p[0] == '%' && p[|p| - 1] == '%'
    ensures p[1..|p| - 1] == Lower(term)
  {
    "%" + Lower(term) + "%"
  }

  /** The query restricts the rows: it has a WHERE clause right after the table. */
  predicate HasWhere(sql: string)
  {
    IsPrefix(SelectDoctors + Where, sql)
  }

  lemma NoWhereInLimit()
    ensures !IsPrefix(SelectDoctors + Where, SelectDoctors + LimitClause)
  {
    var s := SelectDoctors + LimitClause;
    assert s[|SelectDoctors| + 1] == LimitClause[1] == 'L';
    assert (SelectDoctors + Where)[|SelectDoctors| + 1] == Where[1] == 'W';
  }

  /**
   * The tool's `execute`. A truthy specialty wins over the condition; every
   * query ends in LIMIT 5 and has one parameter exactly when it filters.
   */
  method Execute(specialty: Option<string>, condition: Option<string>, db: Database)
    returns (doctors: seq<Doctor>, sql: string, params: seq<string>)
    ensures Truthy(specialty) ==>
      sql == SelectDoctors + SpecialtyClause + LimitClause && params == [LikePattern(specialty.value)]
    ensures !Truthy(specialty) && Truthy(condition) ==>
      sql == SelectDoctors + ConditionClause + LimitClause && params == [LikePattern(condition.value)]
    ensures !Truthy(specialty) && !Truthy(condition) ==>
      sql == SelectDoctors + LimitClause && params == []
    ensures EndsWith(sql, LimitClause)
    ensures |params| <= 1
    ensures |params| == 1 <==> HasWhere(sql)
    ensures db(sql, params).Some? ==> doctors == db(sql, params).value
    ensures db(sql, params).None? ==> doctors == []
  {
    sql := SelectDoctors;
    params := [];
    if Truthy(specialty) {
      sql := sql + SpecialtyClause;
      params := params + [LikePattern(specialty.value)];
    } else if Truthy(condition) {
      sql := sql + ConditionClause;
      params := params + [LikePattern(condition.value)];
    }
    ghost var filtered := sql;
    sql := sql + LimitClause;
    assert sql[|sql| - |LimitClause|..] == LimitClause;
    if |params| == 1 {
      assert sql[..|SelectDoctors + Where|] == filtered[..|SelectDoctors + Where|];
    } else {
      NoWhereInLimit();
    }
    var rows := db(sql, params);
    if rows.Some? {
      doctors := rows.value;
    } else {
      doctors := [];
    }
  }
}
