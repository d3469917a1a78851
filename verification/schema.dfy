/**
 The `menus` table: its columns, the constraints its CREATE TABLE declares,
 and what SQLite checks when one parameter tuple is inserted into it.
 */
module Schema {
  import opened Wrappers

  /** The columns of `menus`, in declaration order. */
  datatype Column = Id | Franchise | Name | Type | Price | Calories | ImageUrl | Tags

  /** The range of SQLite's INTEGER storage class (a signed 64-bit integer). */
  const MinInteger: int := -0x8000_0000_0000_0000
  const MaxInteger: int := 0x7FFF_FFFF_FFFF_FFFF

  /** The values CHECK(type IN ('burger','side','drink','set')) admits. */
  const MenuTypes: set<string> := {"burger", "side", "drink", "set"}

  /**
   One parameter tuple of the INSERT, in its order
   (id, franchise, name, type, price, calories, imageUrl, tags);
   any position may be Python's `None`.
   */
  datatype Record = Record(
    id: Option<string>,
    franchise: Option<string>,
    name: Option<string>,
    menuType: Option<string>,
    price: Option<int>,
    calories: Option<int>,
    imageUrl: Option<string>,
    tags: Option<string>)

  /**
   A stored row. The NOT NULL columns hold plain values; `id` stays optional
   because a TEXT PRIMARY KEY of a rowid table admits NULL in SQLite.
   */
  datatype Row = Row(
    id: Option<string>,
    franchise: string,
    name: string,
    menuType: string,
    price: int,
    calories: Option<int>,
    imageUrl: Option<string>,
    tags: Option<string>)

  /** The contents of `menus`, in rowid (insertion) order. */
  type Table = seq<Row>

  /** Why SQLite refuses a parameter tuple. */
  datatype Violation =
    | Overflow(column: Column)   // a Python int that does not fit an SQLite INTEGER
    | NotNull(column: Column)    // NULL in a NOT NULL column
    | TypeCheck(value: string)   // `type` outside MenuTypes
    | DuplicateId(id: string)    // PRIMARY KEY already taken

  predicate Fits(v: Option<int>)
  {
    v.None? || MinInteger <= v.value <= MaxInteger
  }

  /** The integer parameters can be bound at all. */
  predicate Bindable(r: Record)
  {
    Fits(r.price) && Fits(r.calories)
  }

  /** Every NOT NULL column is given a value. */
  predicate HasRequired(r: Record)
  {
    r.franchise.Some? && r.name.Some? && r.menuType.Some? && r.price.Some?
  }

  /** The tuple passes every per-row constraint of the DDL (all but the primary key). */
  predicate Conforms(r: Record)
  {
    Bindable(r) && HasRequired(r) && r.menuType.value in MenuTypes
  }

  predicate IdTaken(t: Table, id: string)
  {
    exists row :: row in t && row.id == Some(id)
  }

  /** The tuple's id is NULL or not yet in the table. */
  predicate IdFree(t: Table, r: Record)
  {
    r.id.None? || !IdTaken(t, r.id.value)
  }

  /** The invariant of every table SQLite lets exist: the DDL holds row by row and non-NULL ids are unique. */
  predicate WellFormed(t: Table)
  {
    && (forall i :: 0 <= i < |t| ==> t[i].menuType in MenuTypes)
    && (forall i :: 0 <= i < |t| ==> MinInteger <= t[i].price <= MaxInteger)
    && (forall i, j :: 0 <= i < j < |t| && t[i].id.Some? ==> t[i].id != t[j].id)
  }

  /** The violation really is one of `r` against `t`. */
  predicate Explains(t: Table, r: Record, v: Violation)
  {
    match v
    case Overflow(c) => (c == Price && !Fits(r.price)) || (c == Calories && !Fits(r.calories))
    case NotNull(c) =>
      || (c == Franchise && r.franchise.None?)
      || (c == Name && r.name.None?)
      || (c == Type && r.menuType.None?)
      || (c == Price && r.price.None?)
    case TypeCheck(s) => r.menuType == Some(s) && s !in MenuTypes
    case DuplicateId(id) => r.id == Some(id) && IdTaken(t, id)
  }

  /** The stored row for a tuple; every listed column keeps the value bound to it. */
  function ToRow(r: Record): (row: Row)
    requires HasRequired(r)
    ensures row.id == r.id && row.calories == r.calories
    ensures row.imageUrl == r.imageUrl && row.tags == r.tags
    ensures Some(row.franchise) == r.franchise && Some(row.name) == r.name
    ensures Some(row.menuType) == r.menuType && Some(row.price) == r.price
  {
    Row(r.id, r.franchise.value, r.name.value, r.menuType.value, r.price.value,
        r.calories, r.imageUrl, r.tags)
  }

  /** The eight stored columns read back as a tuple in the INSERT's column order. */
  function ToRecord(row: Row): (r: Record)
    ensures HasRequired(r)
  {
    Record(row.id, Some(row.franchise), Some(row.name), Some(row.menuType), Some(row.price),
           row.calories, row.imageUrl, row.tags)
  }

  /**
   Storing loses and invents nothing: a tuple with every NOT NULL column bound
   reads back as itself, and every row is the stored form of the tuple it reads back as.
   */
  lemma StoredAsGiven(r: Record, row: Row)
    ensures HasRequired(r) ==> ToRecord(ToRow(r)) == r
    ensures ToRow(ToRecord(row)) == row
  {
  }

  /**
   The first check that refuses `r`, in SQLite's order: binding the integer
   parameters, then NOT NULL in column order, then CHECK, then the primary key.
   */
  function FirstViolation(t: Table, r: Record): Option<Violation>
  {
    if !Fits(r.price) then Some(Overflow(Price))
    else if !Fits(r.calories) then Some(Overflow(Calories))
    else if r.franchise.None? then Some(NotNull(Franchise))
    else if r.name.None? then Some(NotNull(Name))
    else if r.menuType.None? then Some(NotNull(Type))
    else if r.price.None? then Some(NotNull(Price))
    else if r.menuType.value !in MenuTypes then Some(TypeCheck(r.menuType.value))
    else if r.id.Some? && IdTaken(t, r.id.value) then Some(DuplicateId(r.id.value))
    else None
  }

  /**
   One INSERT of the parameter tuple `r` into `t`: it appends exactly one row
   when the DDL admits the tuple, and otherwise leaves `t` as it was.
   */
  function InsertRow(t: Table, r: Record): (res: Result<Table, Violation>)
    ensures res.Success? <==> Conforms(r) && IdFree(t, r)
    ensures res.Success? ==> res.value == t + [ToRow(r)]
    ensures res.Failure? ==> Explains(t, r, res.error)
    ensures WellFormed(t) && res.Success? ==> WellFormed(res.value)
  {
    match FirstViolation(t, r)
    case Some(v) => Failure(v)
    case None =>
      var t' := t + [ToRow(r)];
      assert WellFormed(t) ==> WellFormed(t') by {
        if WellFormed(t) {
          forall i, j | 0 <= i < j < |t'| && t'[i].id.Some?
            ensures t'[i].id != t'[j].id
          {
            if j == |t| {
              assert t'[i] in t;
            }
          }
        }
      }
      Success(t')
  }

  /**
   The DDL sets no bound on price or calories beyond the INTEGER range, and the
   nullable columns may stay NULL: a negative price with no calories, image or
   tags is stored as given (the listed `tags` column keeps NULL, not its DEFAULT).
   */
  lemma NoRangeCheck(t: Table, id: string, price: int)
    requires MinInteger <= price < 0 && !IdTaken(t, id)
    ensures var r := Record(Some(id), Some("mcd"), Some("x"), Some("set"), Some(price), None, None, None);
            InsertRow(t, r) == Success(t + [Row(Some(id), "mcd", "x", "set", price, None, None, None)])
  {
  }
}
