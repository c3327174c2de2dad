/**
  How `save_target` flattens the remedies of a create request into the
  four parallel arrays bound to the insert statement, and the row-wise
  expansion (`UNNEST`) that turns those arrays back into remedy rows.
*/
module Columns {
  import opened Wrappers
  import opened Json
  import opened Quantity

  /** `CreateRemedyModel`: one remedy as the create request carries it. */
  datatype CreateRemedy = CreateRemedy(condition: string, statement: string, unit: Option<Unit>)

  /** The four bind parameters `$6 .. $9` of the insert. */
  datatype BindColumns = BindColumns(
    conditions: seq<string>,
    statements: seq<string>,
    units: seq<Option<string>>,
    amounts: seq<Option<Int32>>)

  /** One row of `UNNEST(...) AS remedy_input(condition, statement, n, unit)`. */
  datatype RemedyRow = RemedyRow(condition: string, statement: string, n: Option<Int32>, unit: Option<string>)

  /** Why a row does not describe a remedy. */
  datatype RowError =
    | Misaligned   // exactly one of unit and n is null
    | UnknownUnit  // the unit text is none of the six tags

  /** The `conditions` array: `remedies.iter().map(|r| r.condition.clone())`. */
  function Conditions(rs: seq<CreateRemedy>): (r: seq<string>)
    ensures |r| == |rs|
    ensures forall i :: 0 <= i < |rs| ==> r[i] == rs[i].condition
  {
    if rs == [] then [] else [rs[0].condition] + Conditions(rs[1..])
  }

  /** The `statements` array: `remedies.iter().map(|r| r.statement.clone())`. */
  function Statements(rs: seq<CreateRemedy>): (r: seq<string>)
    ensures |r| == |rs|
    ensures forall i :: 0 <= i < |rs| ==> r[i] == rs[i].statement
  {
    if rs == [] then [] else [rs[0].statement] + Statements(rs[1..])
  }

  /** The tag of an optional unit: `unit.as_ref().map(|u| u.name())`. */
  function UnitTag(u: Option<Unit>): Option<string>
  {
    match u
    case None => None
    case Some(q) => Some(Name(q))
  }

  /** The amount of an optional unit, extracted by matching on the variant. */
  function UnitAmount(u: Option<Unit>): Option<Int32>
  {
    match u
    case None => None
    case Some(q) => Some(q.amount)
  }

  /** The `units` array: the tag of each remedy's unit, or null. */
  function UnitTags(rs: seq<CreateRemedy>): (r: seq<Option<string>>)
    ensures |r| == |rs|
    ensures forall i :: 0 <= i < |rs| ==> (r[i].None? <==> rs[i].unit.None?)
    ensures forall i :: 0 <= i < |rs| && rs[i].unit.Some? ==> r[i] == Some(Name(rs[i].unit.value))
  {
    if rs == [] then [] else [UnitTag(rs[0].unit)] + UnitTags(rs[1..])
  }

  /** The `amounts` array: the amount carried by each remedy's unit, or null. */
  function Amounts(rs: seq<CreateRemedy>): (r: seq<Option<Int32>>)
    ensures |r| == |rs|
    ensures forall i :: 0 <= i < |rs| ==> (r[i].None? <==> rs[i].unit.None?)
    ensures forall i :: 0 <= i < |rs| && rs[i].unit.Some? ==> r[i] == Some(rs[i].unit.value.amount)
  {
    if rs == [] then [] else [UnitAmount(rs[0].unit)] + Amounts(rs[1..])
  }

  /** The four arrays have one entry per remedy, and unit and amount are null together. */
  predicate Aligned(c: BindColumns)
  {
    && |c.statements| == |c.conditions|
    && |c.units| == |c.conditions|
    && |c.amounts| == |c.conditions|
    && forall i :: 0 <= i < |c.conditions| ==> (c.units[i].None? <==> c.amounts[i].None?)
  }

  /** The four `map/collect` decompositions of `save_target`, side by side. */
  function Flatten(rs: seq<CreateRemedy>): (c: BindColumns)
    ensures Aligned(c) && |c.conditions| == |rs|
    ensures forall i :: 0 <= i < |rs| ==>
      && c.conditions[i] == rs[i].condition
      && c.statements[i] == rs[i].statement
      && (c.units[i].None? <==> rs[i].unit.None?)
      && (rs[i].unit.Some? ==>
            c.units[i] == Some(Name(rs[i].unit.value)) && c.amounts[i] == Some(rs[i].unit.value.amount))
  {
    BindColumns(Conditions(rs), Statements(rs), UnitTags(rs), Amounts(rs))
  }

  /** `UNNEST` of four arrays of equal length: row i takes entry i of each. */
  function Unnest(c: BindColumns): (rows: seq<RemedyRow>)
    requires |c.statements| == |c.units| == |c.amounts| == |c.conditions|
    ensures |rows| == |c.conditions|
  {
    seq(|c.conditions|, i requires 0 <= i < |c.conditions| =>
      RemedyRow(c.conditions[i], c.statements[i], c.amounts[i], c.units[i]))
  }

  /**
    Reads a row back as a remedy: unit and n both present or both null;
    anything else is a data-consistency fault.
  */
  function RowToRemedy(row: RemedyRow): (r: Result<CreateRemedy, RowError>)
    ensures r.Ok? <==> (row.unit.None? <==> row.n.None?) && (row.unit.Some? ==> row.unit.value in UnitNames)
    ensures r.Ok? ==> UnitTag(r.value.unit) == row.unit && UnitAmount(r.value.unit) == row.n
    ensures r.Ok? ==> r.value.condition == row.condition && r.value.statement == row.statement
  {
    match (row.unit, row.n)
    case (None, None) => Ok(CreateRemedy(row.condition, row.statement, None))
    case (Some(tag), Some(n)) =>
      if tag in UnitNames then Ok(CreateRemedy(row.condition, row.statement, Some(From(tag, n))))
      else Err(UnknownUnit)
    case _ => Err(Misaligned)
  }

  /** Reads every row back, in order, stopping at the first faulty one. */
  function Reassemble(rows: seq<RemedyRow>): (r: Result<seq<CreateRemedy>, RowError>)
    ensures r.Ok? <==> forall i :: 0 <= i < |rows| ==> RowToRemedy(rows[i]).Ok?
    ensures r.Ok? ==> |r.value| == |rows| && forall i :: 0 <= i < |rows| ==> RowToRemedy(rows[i]) == Ok(r.value[i])
  {
    if rows == [] then Ok([])
    else
      match RowToRemedy(rows[0])
      case Err(e) => Err(e)
      case Ok(x) =>
        match Reassemble(rows[1..])
        case Err(e) => Err(e)
        case Ok(xs) =>
          assert forall i :: 1 <= i < |rows| ==> rows[i] == rows[1..][i - 1];
          Ok([x] + xs)
  }

  /** Flattening then expanding row-wise gives back every remedy, in order, for any number of them. */
  lemma ReassembleFlatten(rs: seq<CreateRemedy>)
    ensures Reassemble(Unnest(Flatten(rs))) == Ok(rs)
  {
    var rows := Unnest(Flatten(rs));
    forall i | 0 <= i < |rs|
      ensures RowToRemedy(rows[i]) == Ok(rs[i])
    {
      var r := rs[i];
      match r.unit
      case None =>
      case Some(u) => FromName(u);
    }
    var back := Reassemble(rows);
    assert back.Ok?;
    assert back.value == rs by {
      assert forall i :: 0 <= i < |rs| ==> Ok(back.value[i]) == RowToRemedy(rows[i]) == Ok(rs[i]);
    }
  }

  /**
    Conversely, aligned arrays whose unit texts are all known tags are
    exactly what flattening the remedies read back from them produces.
  */
  lemma FlattenReassemble(c: BindColumns)
    requires Aligned(c)
    requires forall i :: 0 <= i < |c.units| && c.units[i].Some? ==> c.units[i].value in UnitNames
    ensures Reassemble(Unnest(c)).Ok?
    ensures Flatten(Reassemble(Unnest(c)).value) == c
  {
    var rows := Unnest(c);
    assert forall i :: 0 <= i < |rows| ==> RowToRemedy(rows[i]).Ok?;
    var rs := Reassemble(rows).value;
    var f := Flatten(rs);
    assert f.conditions == c.conditions;
    assert f.statements == c.statements;
    assert f.units == c.units;
    assert f.amounts == c.amounts;
  }
}
