/** The Equipment model: quantity and status defaults, the three status
    setters, and the availability and category queries.
 */
module Inventory {

  import opened Wrappers
  import opened Seqs

  datatype EquipmentStatus = Available | InUse | Maintenance

  /** An equipment row; `deleted` stands for a set `deletedAt` (paranoid table). */
  datatype Equipment = Equipment(
    id: nat,
    studioId: nat,
    name: string,
    quantity: int,
    status: EquipmentStatus,
    category: Option<string>,
    lastMaintenanceDate: Option<int>,
    deleted: bool)

  /** The attributes given to `Equipment.create`; None is an absent attribute. */
  datatype EquipmentInput = EquipmentInput(
    studioId: nat,
    name: Option<string>,
    quantity: Option<int>,
    status: Option<EquipmentStatus>,
    category: Option<string>)

  const NameNull := "Equipment.name cannot be null"
  const QuantityMin := "Validation min on quantity failed"

  /** `Equipment.create`: one item and `available` by default; a name is
      required and the quantity may not be negative. */
  function NewEquipment(input: EquipmentInput, id: nat): (r: Result<Equipment>)
    ensures r.Ok? <==> input.name.Some? && (input.quantity.None? || input.quantity.value >= 0)
    ensures r.Err? ==> r.status == StatusUnset && r.error.name.SequelizeValidationError?
    ensures r.Ok? ==>
              && r.value.quantity >= 0
              && r.value.id == id && r.value.studioId == input.studioId
              && r.value.name == input.name.value && r.value.category == input.category
              && r.value.quantity == (if input.quantity.Some? then input.quantity.value else 1)
              && r.value.status == (if input.status.Some? then input.status.value else Available)
              && r.value.lastMaintenanceDate.None? && !r.value.deleted
  {
    var quantity := if input.quantity.Some? then input.quantity.value else 1;
    var violations := (if input.name.None? then [NameNull] else []) + (if quantity < 0 then [QuantityMin] else []);
    if violations != [] then Invalid(violations)
    else Ok(Equipment(id, input.studioId, input.name.value, quantity,
                      if input.status.Some? then input.status.value else Available,
                      input.category, None, false))
  }

  /** `Equipment.findAvailable(studioId)`: that studio's items that are
      available and in stock. */
  function FindAvailable(rows: seq<Equipment>, studioId: nat): (r: seq<Equipment>)
    ensures forall e :: e in r <==>
              e in rows && !e.deleted && e.studioId == studioId && e.status == Available && e.quantity > 0
    ensures forall e :: multiset(r)[e] ==
              if !e.deleted && e.studioId == studioId && e.status == Available && e.quantity > 0
              then multiset(rows)[e] else 0
  {
    var keep := (e: Equipment) => !e.deleted && e.studioId == studioId && e.status == Available && e.quantity > 0;
    FilterCounts(rows, keep);
    Filter(rows, keep)
  }

  /** `Equipment.findByCategory(category)`: items of that category that are
      in stock, whatever their studio or status. */
  function FindByCategory(rows: seq<Equipment>, category: Option<string>): (r: seq<Equipment>)
    ensures forall e :: e in r <==> e in rows && !e.deleted && e.category == category && e.quantity > 0
    ensures forall e :: multiset(r)[e] ==
              if !e.deleted && e.category == category && e.quantity > 0 then multiset(rows)[e] else 0
  {
    var keep := (e: Equipment) => !e.deleted && e.category == category && e.quantity > 0;
    FilterCounts(rows, keep);
    Filter(rows, keep)
  }

  /** What `findAvailable` returns is a part of what `findByCategory` returns
      for each category it contains. */
  lemma AvailableIsInStock(rows: seq<Equipment>, studioId: nat, e: Equipment)
    requires e in FindAvailable(rows, studioId)
    ensures e in FindByCategory(rows, e.category)
  {
  }

  class EquipmentTable {
    var rows: seq<Equipment>
    var nextId: nat

    /** Stored quantities are never negative, and every item has its own id
        below the next one handed out. */
    ghost predicate Valid()
      reads this
    {
      && (forall i :: 0 <= i < |rows| ==> rows[i].quantity >= 0)
      && (forall i :: 0 <= i < |rows| ==> rows[i].id < nextId)
      && (forall i, j :: 0 <= i < j < |rows| ==> rows[i].id != rows[j].id)
    }

    constructor ()
      ensures Valid() && rows == [] && nextId == 0
    {
      rows := [];
      nextId := 0;
    }

    /** `Equipment.create`: the row `NewEquipment` builds is stored under a
        fresh id; a refused row leaves the table as it was. */
    method Create(input: EquipmentInput) returns (r: Result<Equipment>)
      requires Valid()
      modifies this
      ensures Valid()
      ensures r == NewEquipment(input, old(nextId))
      ensures rows == if r.Ok? then old(rows) + [r.value] else old(rows)
      ensures nextId == old(nextId) + (if r.Ok? then 1 else 0)
      ensures r.Ok? ==> forall e :: e in old(rows) ==> e.id != r.value.id
    {
      r := NewEquipment(input, nextId);
      if r.Ok? {
        rows := rows + [r.value];
        nextId := nextId + 1;
      }
    }

    /** `markAsInUse` on the row at `i`: the status becomes `in-use`, nothing else changes. */
    method MarkAsInUse(i: nat)
      requires Valid() && i < |rows|
      modifies this
      ensures Valid() && nextId == old(nextId)
      ensures rows == old(rows)[i := old(rows[i]).(status := InUse)]
    {
      rows := rows[i := rows[i].(status := InUse)];
    }

    /** `markAsAvailable` on the row at `i`: the status becomes `available`, nothing else changes. */
    method MarkAsAvailable(i: nat)
      requires Valid() && i < |rows|
      modifies this
      ensures Valid() && nextId == old(nextId)
      ensures rows == old(rows)[i := old(rows[i]).(status := Available)]
    {
      rows := rows[i := rows[i].(status := Available)];
    }

    /** `markForMaintenance` on the row at `i`: the status becomes
        `maintenance` and the maintenance date becomes `now`. */
    method MarkForMaintenance(i: nat, now: int)
      requires Valid() && i < |rows|
      modifies this
      ensures Valid() && nextId == old(nextId)
      ensures rows == old(rows)[i := old(rows[i]).(status := Maintenance, lastMaintenanceDate := Some(now))]
    {
      rows := rows[i := rows[i].(status := Maintenance, lastMaintenanceDate := Some(now))];
    }
  }
}
