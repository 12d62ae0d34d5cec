/** The function registry: a table of deployed functions with a unique
    constraint on the name, as the GORM/SQLite store keeps it. */
module Storage {
  import opened Base

  /** A deployed function's record (the gorm.Model bookkeeping columns are not modelled). */
  datatype Function = Function(name: string, image: string, runtime: string)

  /** Why a store operation failed. */
  datatype StoreError =
    | UniqueConstraintFailed(name: string)  // an INSERT hit the unique index on Name
    | RecordNotFound(name: string)          // a SELECT ... LIMIT 1 found no row

  /** Every record sits under its own name: the unique index on Name. */
  ghost predicate WellKeyed(table: map<string, Function>) {
    forall n :: n in table ==> table[n].name == n
  }

  /** The table after inserting a record, or the constraint violation that stops the insert. */
  function Insert(table: map<string, Function>, name: string, image: string, runtime: string)
    : (r: Result<map<string, Function>, StoreError>)
    ensures r.Success? <==> name !in table
    ensures r.Failure? ==> r.error == UniqueConstraintFailed(name)
    ensures r.Success? ==> r.value.Keys == table.Keys + {name}
    ensures r.Success? ==> r.value[name] == Function(name, image, runtime)
    ensures r.Success? ==> forall n :: n in table ==> r.value[n] == table[n]
  {
    if name in table then Failure(UniqueConstraintFailed(name))
    else Success(table[name := Function(name, image, runtime)])
  }

  /** The record a lookup by name finds. */
  function Lookup(table: map<string, Function>, name: string): (r: Result<Function, StoreError>)
    ensures r.Success? <==> name in table
    ensures r.Failure? ==> r.error == RecordNotFound(name)
    ensures r.Success? ==> r.value == table[name]
  {
    if name in table then Success(table[name]) else Failure(RecordNotFound(name))
  }

  /** The table after an insert attempt: the new table, or the old one when the insert fails. */
  function AfterInsert(table: map<string, Function>, name: string, image: string, runtime: string)
    : map<string, Function>
  {
    var r := Insert(table, name, image, runtime);
    if r.Success? then r.value else table
  }

  /** Inserting keeps the unique index consistent. */
  lemma InsertKeepsWellKeyed(table: map<string, Function>, name: string, image: string, runtime: string)
    requires WellKeyed(table)
    ensures WellKeyed(AfterInsert(table, name, image, runtime))
  {
  }

  /** Register-then-lookup: a successful insert makes exactly that record visible under its name. */
  lemma RegisterThenLookup(table: map<string, Function>, name: string, image: string, runtime: string)
    requires name !in table
    ensures Insert(table, name, image, runtime).Success?
    ensures Lookup(AfterInsert(table, name, image, runtime), name) == Success(Function(name, image, runtime))
  {
  }

  /** A second insert under a taken name fails and the existing record stays as it was. */
  lemma DuplicateRejected(table: map<string, Function>, name: string, image: string, runtime: string)
    requires name in table
    ensures Insert(table, name, image, runtime) == Failure(UniqueConstraintFailed(name))
    ensures AfterInsert(table, name, image, runtime) == table
    ensures Lookup(AfterInsert(table, name, image, runtime), name) == Success(table[name])
  {
  }

  /** An insert under one name leaves the lookup of every other name as it was. */
  lemma InsertLeavesOthers(table: map<string, Function>, name: string, image: string, runtime: string, other: string)
    requires other != name
    ensures Lookup(AfterInsert(table, name, image, runtime), other) == Lookup(table, other)
  {
  }

  /** A successful insert adds exactly one record. */
  lemma InsertAddsOne(table: map<string, Function>, name: string, image: string, runtime: string)
    requires name !in table
    ensures |AfterInsert(table, name, image, runtime)| == |table| + 1
  {
  }

  /** The registry, whose table the store's methods change in place. */
  class Store {
    var table: map<string, Function>
    /** Every record CreateFunction was asked to insert, successful or not. */
    ghost var attempts: seq<Function>

    ghost predicate Valid()
      reads this
    {
      WellKeyed(table)
    }

    constructor ()
      ensures Valid() && table == map[] && attempts == []
    {
      table := map[];
      attempts := [];
    }

    /** Inserts a new record; a name already present violates the unique index. */
    method CreateFunction(name: string, image: string, runtime: string) returns (r: Outcome)
      requires Valid()
      modifies this
      ensures Valid()
      ensures attempts == old(attempts) + [Function(name, image, runtime)]
      ensures r.Pass? <==> name !in old(table)
      ensures table == AfterInsert(old(table), name, image, runtime)
    {
      attempts := attempts + [Function(name, image, runtime)];
      var inserted := Insert(table, name, image, runtime);
      if inserted.Failure? {
        return Fail("failed to create function: UNIQUE constraint failed: functions.name");
      }
      InsertKeepsWellKeyed(table, name, image, runtime);
      table := inserted.value;
      r := Pass;
    }

    /** Finds the record with the given name; reads the table and changes nothing. */
    method GetFunction(name: string) returns (r: Result<Function, StoreError>)
      requires Valid()
      ensures r == Lookup(table, name)
      ensures r.Success? ==> r.value.name == name
    {
      if name !in table {
        return Failure(RecordNotFound(name));
      }
      r := Success(table[name]);
    }
  }
}
