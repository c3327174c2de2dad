# painee: quantity type, insert columns and oath projection

This project models the core of the painee oath tracker in Dafny. An
*oath* is a time-bounded commitment with a penalty. Its *remedies* are
corrective actions, and each remedy may carry a quantity (`Unit`). The
model covers three parts of `src/main.rs`:

- **Quantity** (`quantity.dfy`, built on `json.dfy`): the six-variant
  `Unit`, each variant carrying an `i32`. It includes the unit's tag
  (`name`), the `(tag, amount)` constructor (`From`), the hand-written
  `Serialize` as the pair `[tag, amount]`, and `Deserialize` from a JSON
  sequence with its error cases. JSON values are a small datatype:
  string, integer, array or other. `as_i64` accepts an integer only when
  it fits in 64 bits. The cast `as i32` is two's-complement wrap-around
  (`WrapI32`).
- **Insert columns** (`columns.dfy`): `save_target` splits the remedies
  of a create request into four parallel arrays: conditions, statements,
  unit tags and amounts. These are the bind parameters of the insert.
  Their partner is `Unnest`, the row-wise expansion the insert statement
  applies to them. It comes with `Reassemble`, a reference inverse with
  no counterpart in the source. It reads rows back into remedies and
  rejects a row whose unit and amount are not both present or both
  null.
- **Projection** (`view.dfy`): `ViewRemedyModel::from`,
  `ViewOathModel::from` and the list handler's map over all oaths.
  Timestamps are whole seconds, and the clock is a single `now`
  parameter. Rust's `/` and `%` and chrono's `num_*` round toward zero,
  so the model uses `TruncDiv`/`TruncRem` instead of Dafny's Euclidean
  operators. The split is therefore correct for a negative elapsed time
  too.

`wrappers.dfy` holds `Option` and `Result`.

Behaviour of the code worth knowing:

- `Deserialize` has no length check; the one it had is commented out
  (src/main.rs:202-204), so a short array panics on indexing. The model
  turns this into a precondition, `DeserializeDefined`. An empty array
  panics. A one-element array panics only when element 0 is a string;
  otherwise the early `?` return reports `VariantNotString` first.
- `From<(&String, i32)>` panics on an unknown tag, so `From` requires a
  known tag. `Deserialize` is the path that returns `UnknownVariant`.
- The `remaining` field is the time elapsed since `created_at`, not the
  time left until `ends_at`. The model computes what the code computes.
- An out-of-range amount is silently wrapped, not rejected:
  `["Taka", 4294967296]` decodes to `Taka(0)` (`DeserializeWraps`).
- At the instant `now == ends_at`, an oath is neither ongoing nor expired
  (`StatusBoundaries`).

## Model

| member | source | states |
|---|---|---|
| `Quantity.Name` | src/main.rs:55-64 | the tag of every unit is one of the six names "Times", "Rakah", "Minutes", "Hours", "Days", "Taka" |
| `Quantity.NameIdentifiesVariant` | src/main.rs:55-64 | two units with the same amount are equal exactly when their tags are equal, so the tag identifies the variant |
| `Quantity.Decode` | src/main.rs:214-222 | the tag-to-variant match succeeds iff the tag is one of the six names; the result then has that tag and carries the given amount; any other tag gives `UnknownVariant` |
| `Quantity.From` | src/main.rs:66-79 | for a known tag (the source panics otherwise) the unit built has that tag and that amount |
| `Quantity.FromName` | src/main.rs:66-79 | `From(name(u), amount(u)) == u` for every unit and every i32 amount |
| `Quantity.Serialize` | src/main.rs:177-193 | the encoding is a 2-element sequence whose element 0 reads back as the tag and element 1 as the amount |
| `Quantity.Deserialize` | src/main.rs:195-224 | a non-sequence, a non-string element 0, a non-integer element 1 and an unknown tag each give their own error (`NotASequence`, `VariantNotString`, `AmountNotInteger`, `UnknownVariant`); the result is Ok iff the input is a sequence, element 0 is a string, element 1 is a 64-bit integer and the tag is known; an Ok result has that tag and the integer narrowed to 32 bits; inputs that would panic on indexing are excluded |
| `Quantity.DeserializeSerialize` | src/main.rs:181-221 | deserializing the serialized form gives back the unit for every amount, zero and negatives included, and never panics |
| `Quantity.DeserializeInRange` | src/main.rs:210-221 | for a known tag and an amount within i32, `Deserialize([tag, x])` equals `From(tag, x)`, so the amount is unchanged |
| `Quantity.DeserializeWraps` | src/main.rs:210-212 | amounts beyond i32 but within i64 are accepted and wrapped: 2^32 becomes 0, and 2^31 becomes -2^31 |
| `Json.AsStr` | src/main.rs:206-208 | a value reads as text iff it is a JSON string, and then yields that string |
| `Json.AsI64` | src/main.rs:210-212 | a value reads as an integer iff it is a JSON integer within the signed 64-bit range, and then yields it |
| `Json.WrapI32` | src/main.rs:210-212 | the `as i32` cast is congruent to its input modulo 2^32 and leaves every i32 value unchanged |
| `Columns.Conditions` | src/main.rs:429-433 | one condition per remedy, entry i being remedy i's condition |
| `Columns.Statements` | src/main.rs:434-438 | one statement per remedy, entry i being remedy i's statement |
| `Columns.UnitTags` | src/main.rs:439-443 | one entry per remedy; entry i is null iff remedy i has no unit, and is otherwise that unit's tag |
| `Columns.Amounts` | src/main.rs:444-457 | one entry per remedy; entry i is null iff remedy i has no unit, and is otherwise that unit's amount |
| `Columns.Flatten` | src/main.rs:429-457 | the four arrays all have length equal to the number of remedies; entry i of each comes from remedy i in order; unit tag and amount are null together, exactly when the remedy has no unit |
| `Columns.Unnest` | src/main.rs:474-484 | the row-wise expansion of four equal-length arrays gives one row per array index |
| `Columns.ReassembleFlatten` | src/main.rs:429-457 | flattening N remedies, expanding the arrays row-wise and reading the rows back with the reference inverse `Reassemble` reproduces the same remedies in the same order, for every N including 0 |
| `Columns.FlattenReassemble` | src/main.rs:429-457 | conversely, aligned arrays with known tags are exactly the flattening of the remedies read back from them |
| `View.TruncDiv` | src/main.rs:405-408 | Rust's and chrono's division rounds toward zero: for a >= 0 the quotient is the largest q >= 0 with q*b <= a, and for a <= 0 the smallest q <= 0 with q*b >= a |
| `View.TruncRem` | src/main.rs:406-408 | Rust's `%`: a minus the remainder is the truncated quotient times b, the remainder is below b in absolute value and takes the sign of a |
| `View.SplitNonNegative` | src/main.rs:404-409 | for a non-negative duration, days*86400 + (hours mod 24)*3600 + (minutes mod 60)*60 + (seconds mod 60) gives the duration back |
| `View.ElapsedSpan` | src/main.rs:393-409 | for every elapsed time, negative included: `d*86400 + h*3600 + m*60 + s == elapsed`, h, m and s are below 24, 60 and 60 in absolute value, and all four fields share the sign of elapsed, so a non-negative elapsed time gives 0 <= h < 24, 0 <= m < 60, 0 <= s < 60 |
| `View.ProjectRemedy` | src/main.rs:355-366 | the view remedy copies id, condition, statement, n, unit and created_at unchanged |
| `View.ProjectRemedies` | src/main.rs:412-417 | remedies project 1:1, in order |
| `View.Project` | src/main.rs:391-420 | id, target, penalty, the three timestamps and the alias are copied unchanged; is_ongoing iff starts_at <= now < ends_at; is_expired iff now > ends_at; never both; `remaining` is the split of now - created_at (`ElapsedSpan`), summing back to it and carry-free when it is non-negative; a null remedy list stays null, and a present one maps 1:1 in order |
| `View.ProjectAll` | src/main.rs:587 | the list of oaths projects 1:1, in order, against the same now |
| `View.StatusBoundaries` | src/main.rs:402-403 | at starts_at an oath is ongoing iff its interval is non-empty; at ends_at it is neither ongoing nor expired; one second later it is expired; with starts_at > ends_at it is never ongoing |

## Left out

- The HTTP layer is not modelled. This covers actix routing, `index`,
  `static_resources`, the response building of `save_target` and
  `get_all_oaths_for_user`, and `main`'s environment, logger, pool and
  migration bootstrap. All of it is I/O and framework glue.
- The page cache is not modelled. This covers `FILE_CACHE`,
  `initialize_cache`, `get_file_content`, `get_filenames` and
  `get_from_cache_or_file`. They walk the filesystem, call the HTML
  minifier and Handlebars (foreign code), and read the `ENVIRONMENT`
  variable.
- The two SQL statements run inside Postgres and are not modelled:
  the inserts, `ARRAY_AGG`, transactional atomicity and
  `ORDER BY created_at DESC`. The model does contain `Unnest`, the
  row-wise expansion of the bind arrays, as the partner of `Flatten`.
  It also contains `RowToRemedy` and `Reassemble`, a reference inverse
  that reads rows back into remedies. The source has no counterpart to
  these two.
- The source checks neither that a unit tag and its amount are both
  present or both null, nor that a stored unit tag is one of the six
  names. It does not check this when inserting the arrays, nor when
  reading rows back (`RemedySchema` and `ViewRemedyModel` keep `unit` and
  `n` as raw optional values). Only the model's `Reassemble` rejects such
  rows.
- Both queries use an inner `JOIN` between an oath and its remedies, so
  an oath without remedies produces no row. On list, such an oath is
  missing from the result. On create, the oath insert is a data-modifying
  `WITH` clause, which Postgres runs to completion. The oath row is
  therefore still stored, the single-row fetch reports that no row was
  found, and the handler answers with a client error.
- The sqlx record `Encode`/`Decode`/`Type` impls of `RemedySchema` are
  library codec plumbing and are not modelled.
- The `readable_date` template helper is not modelled; it is chrono
  string formatting.
- The `UNITS` array is not modelled. It only feeds a template, and it
  omits "Taka".
- The clock is a parameter. `ViewOathModel::from` calls `Utc::now()`
  up to four times: once for the elapsed time, twice for `is_ongoing`
  (the second call only when the first comparison holds) and once for
  `is_expired`. It may therefore see up to four different instants, and
  `is_ongoing` alone may use two of them. The model uses one `now`.
- `View.Project`: timestamps are whole seconds. chrono's sub-second
  precision and the `i64` width of the span fields are not modelled.
- `Quantity.Deserialize`: only an array is accepted. serde's other
  failures in reading the input as a `Vec<Value>` are all `NotASequence`.
- `CreateUserSchema` is unused and is not modelled.
