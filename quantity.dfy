/**
  The quantity attached to a remedy: a closed union of six units, each
  carrying a signed 32-bit amount, with its tag, its (tag, amount)
  constructor and its two-element JSON encoding.
*/
module Quantity {
  import opened Wrappers
  import opened Json

  datatype Unit =
    | Times(amount: Int32)
    | Rakah(amount: Int32)
    | Minutes(amount: Int32)
    | Hours(amount: Int32)
    | Days(amount: Int32)
    | Taka(amount: Int32)

  /** The six tags, one per variant. */
  const UnitNames: seq<string> := ["Times", "Rakah", "Minutes", "Hours", "Days", "Taka"]

  /** Why a JSON value is not a unit. */
  datatype UnitError =
    | NotASequence      // the value is not a JSON array
    | VariantNotString  // element 0 is not a string
    | AmountNotInteger  // element 1 is not a 64-bit integer
    | UnknownVariant    // the tag is none of the six names

  /** `Unit::name`: the literal tag of the variant. */
  function Name(u: Unit): (r: string)
    ensures r in UnitNames
  {
    match u
    case Times(_) => "Times"
    case Rakah(_) => "Rakah"
    case Minutes(_) => "Minutes"
    case Hours(_) => "Hours"
    case Days(_) => "Days"
    case Taka(_) => "Taka"
  }

  /**
    The tag-to-variant match shared by `From<(&String, i32)>` and
    `Deserialize`: a known tag builds its variant around `n`, any other
    tag is rejected.
  */
  function Decode(tag: string, n: Int32): (r: Result<Unit, UnitError>)
    ensures r.Ok? <==> tag in UnitNames
    ensures r.Ok? ==> Name(r.value) == tag && r.value.amount == n
    ensures r.Err? ==> r.error == UnknownVariant
  {
    match tag
    case "Times" => Ok(Times(n))
    case "Rakah" => Ok(Rakah(n))
    case "Minutes" => Ok(Minutes(n))
    case "Hours" => Ok(Hours(n))
    case "Days" => Ok(Days(n))
    case "Taka" => Ok(Taka(n))
    case _ => Err(UnknownVariant)
  }

  /**
    `From<(&String, i32)>`. The source panics on an unknown tag, so a
    caller must pass one of the six names.
  */
  function From(tag: string, n: Int32): (r: Unit)
    requires tag in UnitNames
    ensures Name(r) == tag && r.amount == n
  {
    Decode(tag, n).value
  }

  /** The hand-written `Serialize`: the 2-tuple `[tag, amount]`. */
  function Serialize(u: Unit): (r: Value)
    ensures r.JArr? && |r.items| == 2
    ensures AsStr(r.items[0]) == Some(Name(u))
    ensures AsI64(r.items[1]) == Some(u.amount as int)
  {
    JArr([JStr(Name(u)), JNum(u.amount)])
  }

  /**
    The inputs on which `Deserialize` returns instead of panicking: an
    empty array panics when element 0 is indexed, and a one-element array
    panics when element 1 is indexed, which happens only once element 0
    has been read as a string.
  */
  predicate DeserializeDefined(v: Value)
  {
    v.JArr? ==> |v.items| >= 1 && (v.items[0].JStr? ==> |v.items| >= 2)
  }

  /**
    `Deserialize`: read a JSON sequence, take element 0 as the tag and
    element 1 as a 64-bit integer narrowed with `as i32`, then decode.
    Extra elements are ignored.
  */
  function Deserialize(v: Value): (r: Result<Unit, UnitError>)
    requires DeserializeDefined(v)
    ensures !v.JArr? ==> r == Err(NotASequence)
    ensures v.JArr? && !v.items[0].JStr? ==> r == Err(VariantNotString)
    ensures v.JArr? && v.items[0].JStr? && AsI64(v.items[1]).None? ==> r == Err(AmountNotInteger)
    ensures v.JArr? && v.items[0].JStr? && AsI64(v.items[1]).Some? && v.items[0].s !in UnitNames ==>
      r == Err(UnknownVariant)
    ensures r.Ok? <==>
      v.JArr? && v.items[0].JStr? && v.items[1].JNum? && IsI64(v.items[1].n) && v.items[0].s in UnitNames
    ensures r.Ok? ==> Name(r.value) == v.items[0].s && r.value.amount == WrapI32(v.items[1].n)
  {
    if !v.JArr? then Err(NotASequence)
    else
      var data := v.items;
      match AsStr(data[0])
      case None => Err(VariantNotString)
      case Some(variant) =>
        match AsI64(data[1])
        case None => Err(AmountNotInteger)
        case Some(wide) => Decode(variant, WrapI32(wide))
  }

  /** Equal tags and equal amounts make equal units: the tag names the variant. */
  lemma NameIdentifiesVariant(u: Unit, w: Unit)
    requires u.amount == w.amount
    ensures Name(u) == Name(w) <==> u == w
  {
    FromName(u);
    FromName(w);
  }

  /** `From` inverts (`name`, amount) for every unit, any amount included. */
  lemma FromName(u: Unit)
    ensures From(Name(u), u.amount) == u
  {
    match u
    case Times(_) =>
    case Rakah(_) =>
    case Minutes(_) =>
    case Hours(_) =>
    case Days(_) =>
    case Taka(_) =>
  }

  /** Decoding what `Serialize` produced gives the unit back, zero and negative amounts included. */
  lemma DeserializeSerialize(u: Unit)
    ensures DeserializeDefined(Serialize(u))
    ensures Deserialize(Serialize(u)) == Ok(u)
  {
    FromName(u);
  }

  /** A well-formed pair whose amount fits in 32 bits decodes to exactly that amount. */
  lemma DeserializeInRange(tag: string, x: int)
    requires tag in UnitNames && IsI32(x)
    ensures Deserialize(JArr([JStr(tag), JNum(x)])) == Ok(From(tag, x))
  {
    var r := Deserialize(JArr([JStr(tag), JNum(x)]));
    NameIdentifiesVariant(r.value, From(tag, x));
  }

  /**
    An amount outside 32 bits but inside 64 bits is accepted and silently
    wrapped: `["Taka", 4294967296]` decodes to `Taka(0)`.
  */
  lemma DeserializeWraps()
    ensures Deserialize(JArr([JStr("Taka"), JNum(0x1_0000_0000)])) == Ok(Taka(0))
    ensures Deserialize(JArr([JStr("Days"), JNum(I32_MAX + 1)])) == Ok(Days(I32_MIN))
  {
  }
}
