/**
 * The field schemas the input schemas of server/src/schema.ts are built from:
 * strings, numbers, booleans, dates and enumerations with their chains of
 * checks, the `nullable`, `optional` and `default` modifiers, and how an
 * object schema looks a field up by its key.
 *
 * A failing field yields one issue code per failing check; an object schema
 * goes on to the next field after a failure, so every failing field is
 * reported, each under its own key.
 */
module Fields {
  import opened Wrappers
  import opened Values

  /** What one field schema makes of one value: the typed value, or at least one issue code. */
  datatype Parsed<T> = Valid(value: T) | Invalid(first: IssueCode, rest: seq<IssueCode>)
  {
    function Codes(): (r: seq<IssueCode>)
      ensures r == [] <==> Valid?
    {
      if Valid? then [] else [first] + rest
    }

    /** Applying `f` to an accepted value keeps the issues of a refused one. */
    function Map<U>(f: T -> U): (r: Parsed<U>)
      ensures r.Codes() == Codes()
      ensures Valid? ==> r.value == f(value)
    {
      match this
      case Valid(v) => Valid(f(v))
      case Invalid(c, cs) => Invalid(c, cs)
    }
  }

  /** A list of issue codes as a result: valid exactly when the list is empty. */
  function FromCodes<T>(codes: seq<IssueCode>, v: T): (r: Parsed<T>)
    ensures r.Codes() == codes
    ensures r.Valid? ==> r.value == v
  {
    if codes == [] then Valid(v) else Invalid(codes[0], codes[1..])
  }

  /** The issues of one field, each under the field's key. */
  function IssuesAt<T>(key: string, p: Parsed<T>): (r: seq<Issue>)
    ensures |r| == 0 <==> p.Valid?
  {
    var codes := p.Codes();
    seq(|codes|, i requires 0 <= i < |codes| => Issue([key], codes[i]))
  }

  /** Every issue code of a field is reported under the field's key, and nothing else is. */
  lemma IssuesAtKey<T>(key: string, p: Parsed<T>)
    ensures forall i :: 0 <= i < |IssuesAt(key, p)| ==> IssuesAt(key, p)[i].path == [key]
    ensures forall c :: c in p.Codes() <==> Issue([key], c) in IssuesAt(key, p)
  {
    var codes, r := p.Codes(), IssuesAt(key, p);
    assert forall i :: 0 <= i < |codes| ==> r[i] == Issue([key], codes[i]);
  }

  // ----- string checks: `min(n)`, `url()`, `email()` -----

  datatype StringCheck = MinLength(n: nat) | Url | Email

  predicate StringHolds(zod: Zod, s: string, c: StringCheck)
  {
    match c
    case MinLength(n) => |s| >= n
    case Url => zod.isUrl(s)
    case Email => zod.isEmail(s)
  }

  function StringCode(c: StringCheck): IssueCode
  {
    match c
    case MinLength(_) => TooSmall
    case Url => InvalidUrl
    case Email => InvalidEmail
  }

  /** One issue code for every check of the chain that `s` fails, in chain order. */
  function StringIssues(zod: Zod, s: string, checks: seq<StringCheck>): (r: seq<IssueCode>)
    ensures r == [] <==> forall i :: 0 <= i < |checks| ==> StringHolds(zod, s, checks[i])
    ensures forall i :: 0 <= i < |checks| && !StringHolds(zod, s, checks[i]) ==> StringCode(checks[i]) in r
  {
    if checks == [] then []
    else
      var tail := StringIssues(zod, s, checks[1..]);
      assert forall i :: 1 <= i < |checks| ==> checks[i] == checks[1..][i - 1];
      if StringHolds(zod, s, checks[0]) then tail else [StringCode(checks[0])] + tail
  }

  // ----- number checks: `int()`, `positive()`, `nonnegative()`, `min(b)`, `max(b)` -----

  /** A bound check keeps its bound and whether the bound itself is allowed. */
  datatype NumberCheck = IsInt | Min(bound: real, inclusive: bool) | Max(bound: real, inclusive: bool)

  /** `positive()`: greater than zero. */
  const Positive: NumberCheck := Min(0.0, false)

  /** `nonnegative()`: zero or more. */
  const Nonnegative: NumberCheck := Min(0.0, true)

  /** A number with no fractional part. */
  predicate IsWhole(n: real)
  {
    n.Floor as real == n
  }

  predicate NumberHolds(n: real, c: NumberCheck)
  {
    match c
    case IsInt => IsWhole(n)
    case Min(b, inclusive) => if inclusive then b <= n else b < n
    case Max(b, inclusive) => if inclusive then n <= b else n < b
  }

  function NumberCode(c: NumberCheck): IssueCode
  {
    match c
    case IsInt => NotInteger
    case Min(_, _) => TooSmall
    case Max(_, _) => TooBig
  }

  /** One issue code for every check of the chain that `n` fails, in chain order. */
  function NumberIssues(n: real, checks: seq<NumberCheck>): (r: seq<IssueCode>)
    ensures r == [] <==> forall i :: 0 <= i < |checks| ==> NumberHolds(n, checks[i])
    ensures forall i :: 0 <= i < |checks| && !NumberHolds(n, checks[i]) ==> NumberCode(checks[i]) in r
  {
    if checks == [] then []
    else
      var tail := NumberIssues(n, checks[1..]);
      assert forall i :: 1 <= i < |checks| ==> checks[i] == checks[1..][i - 1];
      if NumberHolds(n, checks[0]) then tail else [NumberCode(checks[0])] + tail
  }

  // ----- value schemas -----

  function ParseString(zod: Zod, v: Value, checks: seq<StringCheck>): (r: Parsed<string>)
    ensures r.Valid? <==> v.Str? && forall i :: 0 <= i < |checks| ==> StringHolds(zod, v.s, checks[i])
    ensures r.Valid? ==> r.value == v.s
    ensures !v.Str? ==> r.Codes() == [InvalidType]
    ensures v.Str? ==> r.Codes() == StringIssues(zod, v.s, checks)
  {
    match v
    case Str(s) => FromCodes(StringIssues(zod, s, checks), s)
    case _ => Invalid(InvalidType, [])
  }

  function ParseNumber(v: Value, checks: seq<NumberCheck>): (r: Parsed<real>)
    ensures r.Valid? <==> v.Num? && forall i :: 0 <= i < |checks| ==> NumberHolds(v.n, checks[i])
    ensures r.Valid? ==> r.value == v.n
    ensures !v.Num? ==> r.Codes() == [InvalidType]
    ensures v.Num? ==> r.Codes() == NumberIssues(v.n, checks)
  {
    match v
    case Num(n) => FromCodes(NumberIssues(n, checks), n)
    case _ => Invalid(InvalidType, [])
  }

  function ParseBoolean(v: Value): Parsed<bool>
  {
    match v
    case Bool(b) => Valid(b)
    case _ => Invalid(InvalidType, [])
  }

  function ParseDate(zod: Zod, v: Value): Parsed<Date>
  {
    match zod.coerceDate(v)
    case Some(t) => Valid(t)
    case None => Invalid(InvalidDate, [])
  }

  /** An enumeration schema, given the lookup of a string among its options. */
  function ParseEnum<T>(lookup: string -> Option<T>, v: Value): Parsed<T>
  {
    match v
    case Str(s) => (match lookup(s) case Some(t) => Valid(t) case None => Invalid(InvalidEnumValue, []))
    case _ => Invalid(InvalidType, [])
  }

  /** `.nullable()`: `null` is accepted as a missing value; anything else goes to the inner schema. */
  function ParseNullable<T>(p: Value -> Parsed<T>, v: Value): Parsed<Option<T>>
  {
    if v.Null? then Valid(None) else p(v).Map(x => Some(x))
  }

  // The same schemas as functions of the value, to be handed to a field lookup.

  function StringOf(zod: Zod, checks: seq<StringCheck>): Value -> Parsed<string>
  {
    v => ParseString(zod, v, checks)
  }

  function NumberOf(checks: seq<NumberCheck>): Value -> Parsed<real>
  {
    v => ParseNumber(v, checks)
  }

  function BooleanOf(): Value -> Parsed<bool>
  {
    v => ParseBoolean(v)
  }

  function DateOf(zod: Zod): Value -> Parsed<Date>
  {
    v => ParseDate(zod, v)
  }

  function EnumOf<T>(lookup: string -> Option<T>): Value -> Parsed<T>
  {
    v => ParseEnum(lookup, v)
  }

  function NullableOf<T>(p: Value -> Parsed<T>): Value -> Parsed<Option<T>>
  {
    v => ParseNullable(p, v)
  }

  // ----- object fields -----

  /** A field without modifier: an absent key is an issue. */
  function RequiredField<T>(o: map<string, Value>, key: string, p: Value -> Parsed<T>): Parsed<T>
  {
    if key in o then p(o[key]) else Invalid(Required, [])
  }

  /** `.optional()`: an absent key is accepted as a missing value. */
  function OptionalField<T>(o: map<string, Value>, key: string, p: Value -> Parsed<T>): Parsed<Option<T>>
  {
    if key in o then p(o[key]).Map(x => Some(x)) else Valid(None)
  }

  /** `.default(d)`: an absent key is read as `d`, which then goes through the schema like any value. */
  function DefaultField<T>(o: map<string, Value>, key: string, d: Value, p: Value -> Parsed<T>): Parsed<T>
  {
    p(if key in o then o[key] else d)
  }

  /** A defaulted field reads as the same field made required, on a payload where the default was filled in. */
  lemma DefaultFieldFillsKey<T>(o: map<string, Value>, key: string, d: Value, p: Value -> Parsed<T>)
    ensures DefaultField(o, key, d, p) == RequiredField(if key in o then o else o[key := d], key, p)
    ensures DefaultField(o, key, d, p).Valid? ==> OptionalField(o, key, p).Valid?
  {
  }

  /** An optional field accepts whatever the same field made required accepts, and an absent key besides. */
  lemma OptionalFieldWidensRequired<T>(o: map<string, Value>, key: string, p: Value -> Parsed<T>)
    ensures RequiredField(o, key, p).Valid? ==> OptionalField(o, key, p) == Valid(Some(RequiredField(o, key, p).value))
    ensures OptionalField(o, key, p).Valid? <==> RequiredField(o, key, p).Valid? || key !in o
  {
  }

  /**
   * A required `z.coerce.date()` field. Coercion runs before the field is
   * looked at, so an absent key is coerced too: `new Date(undefined)` is an
   * invalid date, and the issue is the invalid-date one, never `Required`.
   */
  function DateField(zod: Zod, o: map<string, Value>, key: string): Parsed<Date>
  {
    if key in o then ParseDate(zod, o[key]) else Invalid(InvalidDate, [])
  }

  // ----- what a payload holds -----

  /** The payload `o` has the field `key`, with the value `v`. */
  predicate Holds(o: map<string, Value>, key: string, v: Value)
  {
    key in o && o[key] == v
  }

  /** The payload `o` has the field `key`, with a value that coerces to the date `t`. */
  predicate HoldsDate(zod: Zod, o: map<string, Value>, key: string, t: Date)
  {
    key in o && zod.coerceDate(o[key]) == Some(t)
  }

  /** The payload `o` holds `v` under `key`, or leaves `key` out and `v` is the default `d`. */
  predicate HoldsOrDefault(o: map<string, Value>, key: string, v: Value, d: Value)
  {
    if key in o then o[key] == v else v == d
  }

  /** The payload `o` has the field `key` exactly when `x` is present, and then holds its encoding by `f`. */
  predicate Carries<T>(o: map<string, Value>, key: string, x: Option<T>, f: T -> Value)
  {
    Lookup(o, key) == Encode(x, f)
  }

  /** The value under `key`, if there is one. */
  function Lookup(o: map<string, Value>, key: string): Option<Value>
  {
    if key in o then Some(o[key]) else None
  }

  /** The payload `o` has the date field `key` exactly when `x` is present, and then holds a value coercing to it. */
  predicate CarriesDate(zod: Zod, o: map<string, Value>, key: string, x: Option<Date>)
  {
    && (x.None? ==> key !in o)
    && (x.Some? ==> HoldsDate(zod, o, key, x.value))
  }

  /** The value sent for a string that may be `null`. */
  function NullableString(x: Option<string>): Value
  {
    match x
    case None => Null
    case Some(s) => Str(s)
  }

  /** The value sent for an optional field, if it is present. */
  function Encode<T>(x: Option<T>, f: T -> Value): Option<Value>
  {
    match x
    case None => None
    case Some(v) => Some(f(v))
  }

  // ----- a field accepts the value its payload holds -----

  lemma StringFieldAccepts(zod: Zod, o: map<string, Value>, key: string, checks: seq<StringCheck>, s: string)
    requires Holds(o, key, Str(s))
    requires forall i :: 0 <= i < |checks| ==> StringHolds(zod, s, checks[i])
    ensures RequiredField(o, key, StringOf(zod, checks)) == Valid(s)
  {
  }

  lemma NullableStringFieldAccepts(zod: Zod, o: map<string, Value>, key: string, checks: seq<StringCheck>, x: Option<string>)
    requires Holds(o, key, NullableString(x))
    requires x.Some? ==> forall i :: 0 <= i < |checks| ==> StringHolds(zod, x.value, checks[i])
    ensures RequiredField(o, key, NullableOf(StringOf(zod, checks))) == Valid(x)
  {
  }

  lemma DateFieldAccepts(zod: Zod, o: map<string, Value>, key: string, t: Date)
    requires HoldsDate(zod, o, key, t)
    ensures DateField(zod, o, key) == Valid(t)
  {
  }

  lemma EnumFieldAccepts<T>(o: map<string, Value>, key: string, lookup: string -> Option<T>, name: T -> string, t: T)
    requires Holds(o, key, Str(name(t))) && lookup(name(t)) == Some(t)
    ensures RequiredField(o, key, EnumOf(lookup)) == Valid(t)
  {
  }

  lemma NumberFieldAccepts(o: map<string, Value>, key: string, checks: seq<NumberCheck>, n: real)
    requires Holds(o, key, Num(n))
    requires forall i :: 0 <= i < |checks| ==> NumberHolds(n, checks[i])
    ensures RequiredField(o, key, NumberOf(checks)) == Valid(n)
  {
  }

  lemma BooleanDefaultFieldAccepts(o: map<string, Value>, key: string, d: Value, b: bool)
    requires HoldsOrDefault(o, key, Bool(b), d)
    ensures DefaultField(o, key, d, BooleanOf()) == Valid(b)
  {
  }

  lemma OptionalStringFieldAccepts(zod: Zod, o: map<string, Value>, key: string, checks: seq<StringCheck>, x: Option<string>)
    requires x.None? ==> key !in o
    requires x.Some? ==> Holds(o, key, Str(x.value))
    requires x.Some? ==> forall i :: 0 <= i < |checks| ==> StringHolds(zod, x.value, checks[i])
    ensures OptionalField(o, key, StringOf(zod, checks)) == Valid(x)
  {
  }

  lemma OptionalNullableStringFieldAccepts(
    zod: Zod, o: map<string, Value>, key: string, checks: seq<StringCheck>, x: Option<Option<string>>)
    requires x.None? ==> key !in o
    requires x.Some? ==> Holds(o, key, NullableString(x.value))
    requires x.Some? && x.value.Some? ==> forall i :: 0 <= i < |checks| ==> StringHolds(zod, x.value.value, checks[i])
    ensures OptionalField(o, key, NullableOf(StringOf(zod, checks))) == Valid(x)
  {
  }

  lemma OptionalNumberFieldAccepts(o: map<string, Value>, key: string, checks: seq<NumberCheck>, x: Option<real>)
    requires x.None? ==> key !in o
    requires x.Some? ==> Holds(o, key, Num(x.value))
    requires x.Some? ==> forall i :: 0 <= i < |checks| ==> NumberHolds(x.value, checks[i])
    ensures OptionalField(o, key, NumberOf(checks)) == Valid(x)
  {
  }

  lemma OptionalDateFieldAccepts(zod: Zod, o: map<string, Value>, key: string, x: Option<Date>)
    requires CarriesDate(zod, o, key, x)
    ensures OptionalField(o, key, DateOf(zod)) == Valid(x)
  {
  }

  lemma OptionalEnumFieldAccepts<T>(
    o: map<string, Value>, key: string, lookup: string -> Option<T>, name: T -> string, x: Option<T>)
    requires x.None? ==> key !in o
    requires x.Some? ==> Holds(o, key, Str(name(x.value))) && lookup(name(x.value)) == Some(x.value)
    ensures OptionalField(o, key, EnumOf(lookup)) == Valid(x)
  {
  }

  // ----- an accepted field is the value its payload holds -----

  lemma StringFieldHeld(zod: Zod, o: map<string, Value>, key: string, checks: seq<StringCheck>)
    ensures var r := RequiredField(o, key, StringOf(zod, checks));
      r.Valid? ==> Holds(o, key, Str(r.value))
  {
  }

  lemma NullableStringFieldHeld(zod: Zod, o: map<string, Value>, key: string, checks: seq<StringCheck>)
    ensures var r := RequiredField(o, key, NullableOf(StringOf(zod, checks)));
      r.Valid? ==> Holds(o, key, NullableString(r.value))
  {
  }

  lemma NumberFieldHeld(o: map<string, Value>, key: string, checks: seq<NumberCheck>)
    ensures var r := RequiredField(o, key, NumberOf(checks));
      r.Valid? ==> Holds(o, key, Num(r.value))
  {
  }

  lemma DateFieldHeld(zod: Zod, o: map<string, Value>, key: string)
    ensures var r := DateField(zod, o, key);
      r.Valid? ==> HoldsDate(zod, o, key, r.value)
  {
  }

  lemma EnumFieldHeld<T>(o: map<string, Value>, key: string, lookup: string -> Option<T>)
    ensures var r := RequiredField(o, key, EnumOf(lookup));
      r.Valid? ==> key in o && o[key].Str? && lookup(o[key].s) == Some(r.value)
  {
  }

  lemma BooleanDefaultFieldHeld(o: map<string, Value>, key: string, d: Value)
    ensures var r := DefaultField(o, key, d, BooleanOf());
      r.Valid? ==> HoldsOrDefault(o, key, Bool(r.value), d)
  {
  }

  lemma OptionalStringFieldHeld(zod: Zod, o: map<string, Value>, key: string, checks: seq<StringCheck>)
    ensures var r := OptionalField(o, key, StringOf(zod, checks));
      r.Valid? ==> (r.value.None? ==> key !in o) && (r.value.Some? ==> Holds(o, key, Str(r.value.value)))
  {
  }

  lemma OptionalNullableStringFieldHeld(zod: Zod, o: map<string, Value>, key: string, checks: seq<StringCheck>)
    ensures var r := OptionalField(o, key, NullableOf(StringOf(zod, checks)));
      r.Valid? ==> (r.value.None? ==> key !in o) && (r.value.Some? ==> Holds(o, key, NullableString(r.value.value)))
  {
  }

  lemma OptionalNumberFieldHeld(o: map<string, Value>, key: string, checks: seq<NumberCheck>)
    ensures var r := OptionalField(o, key, NumberOf(checks));
      r.Valid? ==> (r.value.None? ==> key !in o) && (r.value.Some? ==> Holds(o, key, Num(r.value.value)))
  {
  }

  lemma OptionalDateFieldHeld(zod: Zod, o: map<string, Value>, key: string)
    ensures var r := OptionalField(o, key, DateOf(zod));
      r.Valid? ==> CarriesDate(zod, o, key, r.value)
  {
  }

  lemma OptionalEnumFieldHeld<T>(o: map<string, Value>, key: string, lookup: string -> Option<T>)
    ensures var r := OptionalField(o, key, EnumOf(lookup));
      r.Valid? ==>
        && (r.value.None? ==> key !in o)
        && (r.value.Some? ==> key in o && o[key].Str? && lookup(o[key].s) == r.value)
  {
  }

  // ----- what an accepted field guarantees, for a schema with one check -----

  lemma StringFieldHolds(zod: Zod, o: map<string, Value>, key: string, c: StringCheck)
    ensures var r := RequiredField(o, key, StringOf(zod, [c]));
      r.Valid? ==> StringHolds(zod, r.value, c)
  {
  }

  lemma OptionalStringFieldHolds(zod: Zod, o: map<string, Value>, key: string, c: StringCheck)
    ensures var r := OptionalField(o, key, StringOf(zod, [c]));
      r.Valid? && r.value.Some? ==> StringHolds(zod, r.value.value, c)
  {
  }

  lemma NullableStringFieldHolds(zod: Zod, o: map<string, Value>, key: string, c: StringCheck)
    ensures var r := RequiredField(o, key, NullableOf(StringOf(zod, [c])));
      r.Valid? && r.value.Some? ==> StringHolds(zod, r.value.value, c)
  {
  }

  lemma NumberFieldHolds(o: map<string, Value>, key: string, c: NumberCheck)
    ensures var r := RequiredField(o, key, NumberOf([c]));
      r.Valid? ==> NumberHolds(r.value, c)
  {
  }

  lemma OptionalNumberFieldHolds(o: map<string, Value>, key: string, c: NumberCheck)
    ensures var r := OptionalField(o, key, NumberOf([c]));
      r.Valid? && r.value.Some? ==> NumberHolds(r.value.value, c)
  {
  }

  /** A field's outcome depends on its own key only. */
  lemma FieldIgnoresOtherKey<T>(o: map<string, Value>, k: string, v: Value, key: string, p: Value -> Parsed<T>)
    requires k != key
    ensures RequiredField(o[k := v], key, p) == RequiredField(o, key, p)
  {
  }

  lemma DateFieldIgnoresOtherKey(zod: Zod, o: map<string, Value>, k: string, v: Value, key: string)
    requires k != key
    ensures DateField(zod, o[k := v], key) == DateField(zod, o, key)
  {
  }

}
