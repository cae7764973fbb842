/**
 * The schema differ (getTableMeta): what an entity expects against what the
 * live schema has. The specification functions live here; the method that
 * runs the loop is Database.LiveSchema.GetTableMeta.
 */
module Differ {
  import opened Entities

  /** A field whose column is absent from a table that exists and that is stored. */
  predicate Absent(f: Field, columns: set<string>)
  {
    f.isNormal && f.dbName !in columns
  }

  /** The fields of `fields`, in order, that are Absent from `columns`. */
  function Missing(fields: seq<Field>, columns: set<string>): seq<Field>
  {
    if fields == [] then []
    else
      var last := fields[|fields| - 1];
      Missing(fields[..|fields| - 1], columns) + (if Absent(last, columns) then [last] else [])
  }

  /** The report getTableMeta produces for entity `e` on schema `tables`. */
  function Diff(e: Entity, tables: Tables): TableInfo
  {
    if e.tableName !in tables then TableInfo(e.tableName, false, e.fields, e.fields)
    else TableInfo(e.tableName, true, e.fields, Missing(e.fields, tables[e.tableName]))
  }

  /** `s` can be obtained from `t` by deleting elements. */
  predicate IsSubsequence(s: seq<Field>, t: seq<Field>)
    decreases |t|
  {
    if s == [] then true
    else if t == [] then false
    else
      (s[|s| - 1] == t[|t| - 1] && IsSubsequence(s[..|s| - 1], t[..|t| - 1]))
      || IsSubsequence(s, t[..|t| - 1])
  }

  /** Every occurrence of an absent field is kept, every other field is dropped. */
  lemma {:induction false} MissingMultiplicity(fields: seq<Field>, columns: set<string>, f: Field)
    ensures multiset(Missing(fields, columns))[f] == if Absent(f, columns) then multiset(fields)[f] else 0
  {
    if fields != [] {
      var init, last := fields[..|fields| - 1], fields[|fields| - 1];
      assert fields == init + [last];
      MissingMultiplicity(init, columns, f);
      assert multiset(fields) == multiset(init) + multiset{last};
    }
  }

  /** A field is reported missing exactly when it is a field of the entity that is Absent. */
  lemma MissingMember(fields: seq<Field>, columns: set<string>, f: Field)
    ensures f in Missing(fields, columns) <==> f in fields && Absent(f, columns)
  {
    MissingMultiplicity(fields, columns, f);
    assert f in Missing(fields, columns) <==> multiset(Missing(fields, columns))[f] > 0;
    assert f in fields <==> multiset(fields)[f] > 0;
  }

  /** The missing fields keep the order of the entity's fields. */
  lemma {:induction false} MissingSubsequence(fields: seq<Field>, columns: set<string>)
    ensures IsSubsequence(Missing(fields, columns), fields)
  {
    if fields != [] {
      var init, last := fields[..|fields| - 1], fields[|fields| - 1];
      MissingSubsequence(init, columns);
      var m := Missing(fields, columns);
      if Absent(last, columns) {
        assert m[..|m| - 1] == Missing(init, columns);
      } else {
        assert m == Missing(init, columns);
        SubsequenceExtend(m, init, last);
      }
    }
  }

  /** A subsequence of `t` is a subsequence of `t` with one more element at the end. */
  lemma {:induction false} SubsequenceExtend(s: seq<Field>, t: seq<Field>, x: Field)
    requires IsSubsequence(s, t)
    ensures IsSubsequence(s, t + [x])
  {
    if s != [] {
      assert (t + [x])[..|t + [x]| - 1] == t;
    }
  }

  /**
   * The whole report of getTableMeta: the name and all fields are the
   * entity's; an absent table reports every field missing, non-normal ones
   * included; an existing table reports, in order, exactly the normal fields
   * whose column it lacks.
   */
  lemma DiffReport(e: Entity, tables: Tables)
    ensures Diff(e, tables).name == e.tableName && Diff(e, tables).allFields == e.fields
    ensures Diff(e, tables).tableExist <==> e.tableName in tables
    ensures !Diff(e, tables).tableExist ==> Diff(e, tables).missingFields == e.fields
    ensures Diff(e, tables).tableExist ==>
      forall f :: f in Diff(e, tables).missingFields <==> f in e.fields && Absent(f, tables[e.tableName])
    ensures IsSubsequence(Diff(e, tables).missingFields, e.fields)
  {
    if e.tableName in tables {
      var columns := tables[e.tableName];
      forall f ensures f in Missing(e.fields, columns) <==> f in e.fields && Absent(f, columns) {
        MissingMember(e.fields, columns, f);
      }
      MissingSubsequence(e.fields, columns);
    } else {
      SubsequenceReflexive(e.fields);
    }
  }

  lemma {:induction false} SubsequenceReflexive(s: seq<Field>)
    ensures IsSubsequence(s, s)
  {
    if s != [] {
      SubsequenceReflexive(s[..|s| - 1]);
    }
  }

  /**
   * An entity is converged (its table exists and nothing is missing) exactly
   * when its table holds every normal field's column.
   */
  lemma DiffConverged(e: Entity, tables: Tables)
    ensures (Diff(e, tables).tableExist && Diff(e, tables).missingFields == [])
        <==> (e.tableName in tables && NormalColumns(e) <= tables[e.tableName])
  {
    if e.tableName in tables {
      var columns := tables[e.tableName];
      var m := Missing(e.fields, columns);
      if m == [] {
        forall c | c in NormalColumns(e) ensures c in columns {
          var f :| f in e.fields && f.isNormal && f.dbName == c;
          MissingMember(e.fields, columns, f);
        }
      }
      if NormalColumns(e) <= columns && m != [] {
        MissingMember(e.fields, columns, m[0]);
      }
    }
  }

  /**
   * A table that lacks exactly one normal field's column (whatever other
   * columns it has), that field being the only one mapped to that column and
   * occurring once, is reported with exactly that field missing.
   */
  lemma SingleMissingColumn(e: Entity, tables: Tables, f: Field)
    requires e.tableName in tables
    requires f.isNormal && multiset(e.fields)[f] == 1
    requires forall g :: g in e.fields && g.dbName == f.dbName ==> g == f
    requires NormalColumns(e) - {f.dbName} <= tables[e.tableName] && f.dbName !in tables[e.tableName]
    ensures Diff(e, tables).tableExist && Diff(e, tables).missingFields == [f]
  {
    var columns := tables[e.tableName];
    var m := Missing(e.fields, columns);
    forall g ensures multiset(m)[g] == if g == f then 1 else 0 {
      MissingMultiplicity(e.fields, columns, g);
      if g in e.fields && g.isNormal {
        assert g.dbName in NormalColumns(e);
      }
    }
    assert multiset(m) == multiset{f};
    assert |m| == 1;
    assert m[0] in multiset(m);
  }
}
