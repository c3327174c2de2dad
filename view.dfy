/**
  The read-side projection: a stored oath and its remedies become the
  display model, with status flags and the elapsed time split into days,
  hours, minutes and seconds. Timestamps are whole seconds and the
  current instant `now` is a parameter.
*/
module View {
  import opened Wrappers
  import opened Json

  const SECS_PER_MINUTE: int := 60
  const SECS_PER_HOUR: int := 3600
  const SECS_PER_DAY: int := 86400

  /** `RemedySchema`: a remedy row as aggregated by the read query. */
  datatype RemedySchema = RemedySchema(
    id: Int32, condition: string, statement: string,
    n: Option<Int32>, unit: Option<string>, createdAt: int)

  /** `OathSchema`: an oath row with its aggregated remedies. */
  datatype OathSchema = OathSchema(
    id: Int32, target: string, penalty: string,
    createdAt: int, startsAt: int, endsAt: int, endsAtAlias: string,
    remedies: Option<seq<RemedySchema>>)

  /** `ViewRemedyModel`. */
  datatype ViewRemedy = ViewRemedy(
    id: Int32, condition: string, statement: string,
    n: Option<Int32>, unit: Option<string>, createdAt: int)

  /** `ViewTimeSpanModel`: days, then the hour, minute and second remainders. */
  datatype TimeSpan = TimeSpan(d: int, h: int, m: int, s: int)

  /** `ViewOathModel`. The field `remaining` holds the time elapsed since creation. */
  datatype ViewOath = ViewOath(
    id: Int32, target: string, penalty: string,
    createdAt: int, startsAt: int, endsAt: int, endsAtAlias: string,
    isOngoing: bool, isExpired: bool, remaining: TimeSpan,
    remedies: Option<seq<ViewRemedy>>)

  /** Integer division rounding toward zero, as Rust's `/` and chrono's `num_*`. */
  function TruncDiv(a: int, b: int): (q: int)
    requires b > 0
    ensures a >= 0 ==> 0 <= q && q * b <= a < q * b + b
    ensures a <= 0 ==> q <= 0 && q * b - b < a <= q * b
  {
    if a >= 0 then a / b else -((-a) / b)
  }

  /** The remainder matching `TruncDiv`, as Rust's `%`: it takes the sign of `a`. */
  function TruncRem(a: int, b: int): (r: int)
    requires b > 0
    ensures a - r == TruncDiv(a, b) * b
    ensures -b < r < b
    ensures a >= 0 ==> r >= 0
    ensures a <= 0 ==> r <= 0
  {
    if a >= 0 then a % b else -((-a) % b)
  }

  /** Total seconds denoted by a span. */
  function Seconds(t: TimeSpan): int
  {
    t.d * SECS_PER_DAY + t.h * SECS_PER_HOUR + t.m * SECS_PER_MINUTE + t.s
  }

  /** The Euclidean days/hours/minutes/seconds split of a non-negative duration has no carry. */
  lemma SplitNonNegative(a: int)
    requires a >= 0
    ensures (a / 86400) * 86400 + ((a / 3600) % 24) * 3600 + ((a / 60) % 60) * 60 + a % 60 == a
    ensures a / 86400 >= 0
  {
    var s, q1 := a % 60, a / 60;
    var m, q2 := q1 % 60, q1 / 60;
    var h, q3 := q2 % 24, q2 / 24;
    assert a == 3600 * q2 + (60 * m + s);
    assert a / 3600 == q2;
    assert a == 86400 * q3 + (3600 * h + 60 * m + s);
    assert a / 86400 == q3;
  }

  /**
    The `remaining` span of a duration of `elapsed` seconds. For every
    duration, negative ones included, the four fields add back up to it,
    each remainder stays below its unit, and all four share the duration's
    sign.
  */
  function ElapsedSpan(elapsed: int): (t: TimeSpan)
    ensures Seconds(t) == elapsed
    ensures -24 < t.h < 24 && -60 < t.m < 60 && -60 < t.s < 60
    ensures elapsed >= 0 ==> t.d >= 0 && t.h >= 0 && t.m >= 0 && t.s >= 0
    ensures elapsed <= 0 ==> t.d <= 0 && t.h <= 0 && t.m <= 0 && t.s <= 0
  {
    SplitNonNegative(if elapsed >= 0 then elapsed else -elapsed);
    TimeSpan(
      TruncDiv(elapsed, SECS_PER_DAY),
      TruncRem(TruncDiv(elapsed, SECS_PER_HOUR), 24),
      TruncRem(TruncDiv(elapsed, SECS_PER_MINUTE), 60),
      TruncRem(elapsed, 60))
  }

  /** `is_ongoing`: now lies in the half-open interval [starts_at, ends_at). */
  predicate IsOngoing(o: OathSchema, now: int) { o.startsAt <= now && now < o.endsAt }

  /** `is_expired`: now is strictly past ends_at. */
  predicate IsExpired(o: OathSchema, now: int) { now > o.endsAt }

  /** `From<&RemedySchema> for ViewRemedyModel`: a field-by-field copy. */
  function ProjectRemedy(r: RemedySchema): (v: ViewRemedy)
    ensures v.id == r.id && v.condition == r.condition && v.statement == r.statement
    ensures v.n == r.n && v.unit == r.unit && v.createdAt == r.createdAt
  {
    ViewRemedy(r.id, r.condition, r.statement, r.n, r.unit, r.createdAt)
  }

  /** `remedies.into_iter().map(ViewRemedyModel::from).collect()`. */
  function ProjectRemedies(rs: seq<RemedySchema>): (vs: seq<ViewRemedy>)
    ensures |vs| == |rs|
    ensures forall i :: 0 <= i < |rs| ==> vs[i] == ProjectRemedy(rs[i])
  {
    if rs == [] then [] else [ProjectRemedy(rs[0])] + ProjectRemedies(rs[1..])
  }

  /** `From<&OathSchema> for ViewOathModel`, with a single reading of the clock. */
  function Project(o: OathSchema, now: int): (v: ViewOath)
    ensures v.id == o.id && v.target == o.target && v.penalty == o.penalty
    ensures v.createdAt == o.createdAt && v.startsAt == o.startsAt && v.endsAt == o.endsAt
    ensures v.endsAtAlias == o.endsAtAlias
    ensures v.isOngoing <==> o.startsAt <= now < o.endsAt
    ensures v.isExpired <==> now > o.endsAt
    ensures !(v.isOngoing && v.isExpired)
    ensures v.remaining == ElapsedSpan(now - o.createdAt)
    ensures Seconds(v.remaining) == now - o.createdAt
    ensures now >= o.createdAt ==>
      v.remaining.d >= 0 && 0 <= v.remaining.h < 24 && 0 <= v.remaining.m < 60 && 0 <= v.remaining.s < 60
    ensures v.remedies.None? <==> o.remedies.None?
    ensures o.remedies.Some? ==>
      |v.remedies.value| == |o.remedies.value|
      && forall i :: 0 <= i < |o.remedies.value| ==> v.remedies.value[i] == ProjectRemedy(o.remedies.value[i])
  {
    ViewOath(
      o.id, o.target, o.penalty, o.createdAt, o.startsAt, o.endsAt, o.endsAtAlias,
      IsOngoing(o, now), IsExpired(o, now), ElapsedSpan(now - o.createdAt),
      match o.remedies
      case None => None
      case Some(rs) => Some(ProjectRemedies(rs)))
  }

  /** The list handler's `oaths.iter().map(ViewOathModel::from).collect()`. */
  function ProjectAll(oaths: seq<OathSchema>, now: int): (vs: seq<ViewOath>)
    ensures |vs| == |oaths|
    ensures forall i :: 0 <= i < |oaths| ==> vs[i] == Project(oaths[i], now)
  {
    if oaths == [] then [] else [Project(oaths[0], now)] + ProjectAll(oaths[1..], now)
  }

  /**
    The status flags at the interval's boundaries: ongoing from starts_at
    on (when the interval is not empty), not at ends_at, and expired only
    after it; at the instant ends_at itself the oath is neither.
  */
  lemma StatusBoundaries(o: OathSchema)
    ensures Project(o, o.startsAt).isOngoing <==> o.startsAt < o.endsAt
    ensures !Project(o, o.endsAt).isOngoing && !Project(o, o.endsAt).isExpired
    ensures Project(o, o.endsAt + 1).isExpired
    ensures o.startsAt > o.endsAt ==> forall now :: !IsOngoing(o, now)
  {
  }
}
