# Burger Budget seed database generator, modelled in Dafny

`scripts/generate_seed_db.py` builds the app's bundled SQLite catalog. It
deletes any previous database file and creates the `menus` table. It then
inserts the 68 tuples of the `MENUS` literal with one `executemany`, commits,
and prints the total row count and the row counts grouped by franchise and by
type.

This project models that run as pure functions over an immutable table and
proves what the run guarantees, for every batch and for `MENUS` itself.

- `wrappers.dfy`: `Option` and `Result`.
- `schema.dfy` (`Schema`): the columns and constraints of `CREATE TABLE menus`.
  - A parameter tuple is a `Record` whose every position may be Python's `None`.
  - A stored row is a `Row`.
  - `InsertRow` is one INSERT. It applies SQLite's checks in SQLite's order:
    1. binding of the integer parameters (a Python int outside the signed 64-bit range cannot be bound);
    2. NOT NULL, in column order;
    3. the CHECK on `type`;
    4. the primary key.
- `store.dfy` (`Store`): `executemany` over a batch (`InsertAll`), the load of a fresh table (`Generate`), and the rows a run leaves behind (`Run`).
  - The table is a sequence of rows in rowid order, not a map keyed by id. A `TEXT PRIMARY KEY` of an SQLite rowid table admits NULL, possibly several times, so `id` stays optional.
  - A failing tuple raises out of `executemany`. `commit` is then never reached, so the open transaction is discarded and the freshly created table stays empty.
- `collation.dfy` (`Collation`): SQLite's BINARY collation, which orders the `ORDER BY` output. It is the lexicographic order on characters, a proper prefix first.
- `summary.dfy` (`Summary`): the three summary queries. Each `GROUP BY ... ORDER BY` result is a list of `(key, count)` groups built by `GroupCount`. `GenerateReport` is the whole run minus its printing.
- `catalog.dfy` (`Catalog`): the `MENUS` literal.
  - It is written as fifteen runs, one per franchise and type, in the source's order.
  - Each id is rebuilt as `<franchise>_<type>_<nn>`, where `nn` is the 1-based position in the run written with two digits. An id can be read back into franchise, type and position, so ids of different runs or positions differ.
  - The field types require every franchise and type to be free of `_`, every type to be admitted by the CHECK, and every price and calorie value to fit an SQLite INTEGER. Dafny checks each value of the literal against them, so every rebuilt tuple conforms to the DDL.
- `seed.dfy` (`Seed`): the facts about `MENUS`.
  - The rebuilt tuples carry, in order, exactly the 68 ids the literal spells out.
  - Every tuple conforms, and ids are pairwise distinct.
  - Generation therefore succeeds with 68 rows.
  - The summary is exactly: bk 14, kfc 13, lot 14, mcd 14, mom 13, and burger 32, drink 15, side 21.

The script enforces no more than its DDL:

- The CHECK admits exactly `burger`, `side`, `drink` and `set`. There is no `dessert`.
- Neither price nor calories is required to be non-negative. Any value that fits an INTEGER is stored (`Schema.NoRangeCheck`).
- An empty catalog is not an error. It commits an empty table and reports zero rows (`Summary.EmptyBatchReports`).
- `tags DEFAULT ''` never takes effect. The INSERT names all eight columns, so a `None` tag is stored as NULL (`Schema.StoredAsGiven`, `Schema.NoRangeCheck`).

## Model

Proof helpers about the Dafny layout of the literal (decimal digits, counting over lists of runs, the order of neighbouring keys) carry no row.

| member | source | states |
|---|---|---|
| Schema.StoredAsGiven | scripts/generate_seed_db.py:160-161 | storing loses and invents nothing: a tuple with every NOT NULL column bound reads back, column by column in the INSERT's order, as itself (NULLs included, so a NULL `tags` stays NULL), and every row is the stored form of the tuple it reads back as |
| Schema.InsertRow | scripts/generate_seed_db.py:139-147 | one INSERT succeeds exactly when the integers bind, franchise, name, type and price are non-NULL, type is in {burger, side, drink, set} and a non-NULL id is not yet taken; on success it appends exactly one row; on failure the reported violation really holds of the tuple; it keeps the table invariant (types admitted, ids unique) |
| Schema.NoRangeCheck | scripts/generate_seed_db.py:144-147 | a negative price with NULL calories, imageUrl and tags is accepted and stored as given |
| Store.Rows | scripts/generate_seed_db.py:159-163 | the rows a batch becomes: one per tuple, in the batch's order, each the stored form of its tuple |
| Store.InsertAll | scripts/generate_seed_db.py:159-163 | `executemany` succeeds exactly when every tuple conforms, no id is taken in the starting table and the batch's non-NULL ids are pairwise distinct; on success it appends one row per tuple in order; on failure it names a tuple before which the whole batch passed and whose violation holds against the rows inserted so far; it keeps the table invariant |
| Store.Generate | scripts/generate_seed_db.py:138-163 | loading into the freshly created table succeeds exactly when the batch is loadable, and then holds one row per tuple, as many rows as tuples, in a well-formed table; a failure's index is within the batch and every earlier tuple was loadable |
| Store.Run | scripts/generate_seed_db.py:130-165 | after a run the table holds one row per tuple of a loadable batch, and nothing at all otherwise |
| Store.RunIgnoresPrior | scripts/generate_seed_db.py:132-135 | the table a run leaves does not depend on any store that existed before |
| Store.RunIdempotent | scripts/generate_seed_db.py:130-165 | running again on the store a run left behind reproduces it, with no stale rows |
| Store.NonconformingRecordSpoilsBatch | scripts/generate_seed_db.py:159-165 | one tuple that violates NOT NULL, the CHECK or the INTEGER range anywhere in the batch fails the load, and no row is persisted |
| Store.AppendedDuplicateFails | scripts/generate_seed_db.py:140-165 | a loadable batch followed by a conforming tuple that repeats one of its ids fails at exactly that tuple with a primary-key violation on that id, and no row is persisted |
| Collation.BelowIrreflexive | scripts/generate_seed_db.py:172 | no key sorts before itself |
| Collation.BelowAsymmetric | scripts/generate_seed_db.py:172 | two keys never sort before each other |
| Collation.BelowTransitive | scripts/generate_seed_db.py:172 | the order is transitive |
| Collation.BelowTotal | scripts/generate_seed_db.py:177 | two different keys are always ordered one way or the other |
| Summary.Tally | scripts/generate_seed_db.py:172 | counting one more row with key k keeps the groups ascending and positive, adds k to the keys, and raises k's count and the total by one while leaving every other count unchanged |
| Summary.GroupCount | scripts/generate_seed_db.py:171-179 | the grouped result is strictly ascending by key, has exactly one group per distinct value of the column in the table, gives each group a count of at least 1 equal to the number of rows with that value, and its counts add up to the row count |
| Summary.CountInAbsent | scripts/generate_seed_db.py:171-179 | a key that no group carries is reported with count 0 |
| Summary.Summarize | scripts/generate_seed_db.py:168-179 | the total is the row count, the per-franchise and per-type counts each add up to the total, and each list is ascending, positive and keyed by exactly the values present |
| Summary.GenerateReport | scripts/generate_seed_db.py:159-179 | the run reaches the summary exactly when the batch is loadable, and then reports the batch length as the total, with both groupings summing to it |
| Summary.GroupsDetermined | scripts/generate_seed_db.py:171-179 | two ascending lists of positive groups that report the same count for every key are identical, so the grouped output is determined by the counts |
| Summary.EmptyBatchReports | scripts/generate_seed_db.py:159-179 | an empty batch commits and reports total 0 with no groups |
| Catalog.ItemOf | scripts/generate_seed_db.py:28-125 | each tuple of the literal satisfies every per-row constraint of the DDL, and its id starts with `<franchise>_<type>_` of its run |
| Catalog.Items | scripts/generate_seed_db.py:24-125 | the tuples of one run, one per entry: all conforming, all of the run's franchise and type, and no two with the same id |
| Catalog.Flatten | scripts/generate_seed_db.py:23-126 | the tuples of consecutive runs: as many as the runs have entries, every one conforming to the DDL |
| Catalog.SerialInjective | scripts/generate_seed_db.py:28-125 | different positions in a run get different two-digit serials |
| Catalog.IdDetermines | scripts/generate_seed_db.py:28-125 | two ids of the `<franchise>_<type>_<nn>` shape are equal only for the same franchise, type and position |
| Seed.MenuIdsAsWritten | scripts/generate_seed_db.py:28-125 | the 68 rebuilt tuples carry, position by position, exactly the ids the literal spells out, from `mcd_burger_01` to `lot_drink_03` |
| Seed.FlattenOrigin | scripts/generate_seed_db.py:23-126 | each tuple of the literal is a definite entry of a definite run, after all tuples of the earlier runs |
| Seed.FlattenIdsDiffer | scripts/generate_seed_db.py:140 | two tuples at different positions of runs with distinct (franchise, type) pairs have different ids |
| Seed.FlattenLoadable | scripts/generate_seed_db.py:139-147 | runs with distinct (franchise, type) pairs form a batch that loads into the empty table |
| Seed.SectionsDistinct | scripts/generate_seed_db.py:23-126 | no two runs of the literal share franchise and type |
| Seed.MenusLoadable | scripts/generate_seed_db.py:23-126 | `MENUS` conforms, has pairwise distinct ids, and loads as one row per tuple |
| Seed.CountAppend | scripts/generate_seed_db.py:172 | row counts over two tables one after the other add up |
| Seed.UniformCount | scripts/generate_seed_db.py:172 | in a table whose rows all carry key c, c is counted once per row and every other key never |
| Seed.RowsAppend | scripts/generate_seed_db.py:159-163 | loading two batches one after the other gives the rows of each, in order |
| Seed.CountFlatten | scripts/generate_seed_db.py:171-179 | the rows of runs with a given key are the entries of the runs carrying it |
| Seed.McdTallies | scripts/generate_seed_db.py:24-44 | McDonald's contributes 14 rows to mcd and 7 burgers, 4 sides, 3 drinks |
| Seed.BkTallies | scripts/generate_seed_db.py:45-65 | Burger King contributes 14 rows to bk and 7 burgers, 4 sides, 3 drinks |
| Seed.KfcTallies | scripts/generate_seed_db.py:66-85 | KFC contributes 13 rows to kfc and 5 burgers, 5 sides, 3 drinks |
| Seed.MomTallies | scripts/generate_seed_db.py:86-105 | Mom's Touch contributes 13 rows to mom and 6 burgers, 4 sides, 3 drinks |
| Seed.LotTallies | scripts/generate_seed_db.py:106-125 | Lotteria contributes 14 rows to lot and 7 burgers, 4 sides, 3 drinks |
| Seed.MenusCounts | scripts/generate_seed_db.py:168-179 | for every key, the loaded literal holds mcd 14, bk 14, kfc 13, mom 13, lot 14 rows by franchise and burger 32, side 21, drink 15 by type, and none for any other key |
| Seed.FranchiseSummaryAt | scripts/generate_seed_db.py:171-174 | the expected per-franchise list reports 14, 13, 14, 14, 13 for bk, kfc, lot, mcd, mom and 0 for any other key |
| Seed.TypeSummaryAt | scripts/generate_seed_db.py:176-179 | the expected per-type list reports 32, 15, 21 for burger, drink, side and 0 for any other key |
| Seed.FranchiseSummaryOrdered | scripts/generate_seed_db.py:171-174 | the expected per-franchise list is in ORDER BY franchise, has no empty group and covers 68 rows |
| Seed.TypeSummaryOrdered | scripts/generate_seed_db.py:176-179 | the expected per-type list is in ORDER BY type and has no empty group |
| Seed.FranchiseGroups | scripts/generate_seed_db.py:171-174 | GROUP BY franchise ORDER BY franchise over the loaded literal is exactly bk 14, kfc 13, lot 14, mcd 14, mom 13 |
| Seed.TypeGroups | scripts/generate_seed_db.py:176-179 | GROUP BY type ORDER BY type over the loaded literal is exactly burger 32, drink 15, side 21 |
| Seed.ReportOf | scripts/generate_seed_db.py:165-179 | a batch that loads into a table is reported with that table's size and groupings |
| Seed.MenusReport | scripts/generate_seed_db.py:168-179 | generation from `MENUS` succeeds and reports total 68, by franchise bk 14, kfc 13, lot 14, mcd 14, mom 13, and by type burger 32, drink 15, side 21 |

## Left out

- File system and connection handling (lines 16-18 and 130-135): the output path, `os.makedirs`, `os.remove` and `sqlite3.connect`. Only their effect is modelled: each run starts from a table freshly created empty. So `Run` takes the prior store as a parameter and ignores it.
- A failed run still leaves the database file behind, holding the empty table that `CREATE TABLE` autocommitted. The model states only the table's contents, not whether a file exists.
- The two indexes (lines 151-157). They change performance, not table contents.
- The printing (lines 183-192). The summary is modelled as the values the queries return, not as output text. `conn.close()` (line 181) is also left out.
- Parameter tuples of the wrong length. `Record` always has exactly eight positions, so the `ProgrammingError` that `executemany` (line 159) raises for a tuple with a different number of bindings cannot arise in the model; every tuple of `MENUS` has eight.
- SQL text, cursors and SQLite's type affinity. The parameters bind to their declared storage classes, and nothing else reaches the table.
- The `DEFAULT ''` on `tags` (line 147). It applies only when an INSERT omits the column, and this one never does.
- Schema.InsertRow: the text columns may hold any string. Text-encoding failures when binding (such as lone surrogates) are not modelled, because Dafny strings here are sequences of characters with no encoding step.
- `scripts/generate_app_icon.py`. It draws an image with floating-point geometry and writes a PNG, so it has no data contract to model.
