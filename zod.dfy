/** The per-field rule builder `config` of utils/zod.ts: a field descriptor
    (`ZodConfig`) becomes a rule, and a rule turns a raw form value into a
    parsed value or a list of issues.

    The rule is `z.preprocess(coerce, inner)`, where `inner` is
    `z.number({message})`, optionally followed by `.min`, `.max` and
    `.optional()`; a descriptor whose type is not "number" (or no descriptor
    at all) gives `z.string()`.

    JavaScript's `Number(...)` on a string is not modelled: every operation
    takes it as a parameter `toNumber`, with `None` standing for NaN.

    The library semantics followed are those of Zod 3: `z.number()` accepts
    every number that is not NaN, every bound check runs and records its own
    issue, and a bound check compares with `<` / `>` against the bound's
    value. */
module Zod {

  datatype Option<+T> = None | Some(value: T)

  /** `{ value?: number; message?: string }` of a `min` or `max` entry. */
  datatype Bound = Bound(value: Option<real>, message: Option<string>)

  /** `ZodConfig`. Absent optional flags are `false`; `step` and `disabled`
      are presentation hints that no rule looks at. */
  datatype ZodConfig = ZodConfig(
    kind: string,
    message: Option<string> := None,
    defaultValue: Option<real> := None,
    min: Option<Bound> := None,
    max: Option<Bound> := None,
    step: Option<real> := None,
    disabled: bool := false,
    optional: bool := false)

  /** A raw form value: `null`/`undefined` (Empty), a number or a string. */
  datatype RawValue = Empty | Num(n: real) | Text(s: string)

  /** A successfully parsed value: `undefined`, a number or a string. */
  datatype Value = Absent | Number(n: real) | Str(s: string)

  /** One issue raised by a rule. A message of `None` stands for the
      library's own default text, which is not modelled. */
  datatype Issue =
    | InvalidType(message: Option<string>)
    | TooSmall(message: Option<string>)
    | TooBig(message: Option<string>)

  /** The outcome of one field: its parsed value, or every issue raised. */
  datatype Outcome = Ok(value: Value) | Err(issues: seq<Issue>)

  /** The schema `config` returns. */
  datatype Rule =
    | NumberRule(typeMessage: string, min: Option<Bound>, max: Option<Bound>, optional: bool)
    | StringRule

  const DefaultTypeMessage := "Please enter a valid number"

  /** `config?.message || "Please enter a valid number"`: an empty message
      falls back as well as a missing one. */
  function TypeMessage(message: Option<string>): (m: string)
    ensures m != ""
    ensures message.Some? && message.value != "" ==> m == message.value
    ensures m != DefaultTypeMessage ==> message == Some(m)
  {
    if message.Some? && message.value != "" then message.value else DefaultTypeMessage
  }

  /** `config(config?)`. */
  function Config(c: Option<ZodConfig>): (r: Rule)
    ensures r.StringRule? <==> c.None? || c.value.kind != "number"
    ensures r.NumberRule? ==>
              && r.typeMessage == TypeMessage(c.value.message)
              && r.min == c.value.min && r.max == c.value.max
              && r.optional == c.value.optional
  {
    if c.Some? && c.value.kind == "number" then
      NumberRule(TypeMessage(c.value.message), c.value.min, c.value.max, c.value.optional)
    else
      StringRule
  }

  /** The preprocess step: `""`, `null` and `undefined` become absent; a value
      whose conversion is a number becomes that number; anything else is
      forwarded unchanged. */
  function Coerce(raw: RawValue, toNumber: string -> Option<real>): (r: RawValue)
    ensures r != Text("")
    ensures r.Empty? <==> raw.Empty? || raw == Text("")
    ensures r.Num? ==> raw == Num(r.n) || (raw.Text? && raw.s != "" && toNumber(raw.s) == Some(r.n))
    ensures r.Text? ==> r == raw && toNumber(r.s).None?
  {
    match raw
    case Empty => Empty
    case Num(n) => Num(n)
    case Text(s) =>
      if s == "" then Empty
      else if toNumber(s).Some? then Num(toNumber(s).value)
      else raw
  }

  /** `n` violates the inclusive minimum `b`. A bound without a value
      imposes nothing, since Zod 3 compares `n < undefined`, which is false. */
  predicate Below(b: Option<Bound>, n: real) {
    b.Some? && b.value.value.Some? && n < b.value.value.value
  }

  /** `n` violates the inclusive maximum `b`. */
  predicate Above(b: Option<Bound>, n: real) {
    b.Some? && b.value.value.Some? && n > b.value.value.value
  }

  /** The issues of the `min` and `max` checks, which both run, in that order. */
  function BoundIssues(min: Option<Bound>, max: Option<Bound>, n: real): (issues: seq<Issue>)
    ensures issues == [] <==> !Below(min, n) && !Above(max, n)
    ensures |issues| <= 2
    ensures Below(min, n) ==> issues[0] == TooSmall(min.value.message)
    ensures Above(max, n) ==> issues[|issues| - 1] == TooBig(max.value.message)
    ensures Below(min, n) && Above(max, n) ==> min.value.value.value > max.value.value.value
  {
    (if Below(min, n) then [TooSmall(min.value.message)] else [])
      + (if Above(max, n) then [TooBig(max.value.message)] else [])
  }

  /** The number schema, with its checks and its optional wrapper, applied
      to a value the preprocess step has already forwarded. */
  function CheckNumber(rule: Rule, v: RawValue): (r: Outcome)
    requires rule.NumberRule?
    ensures r.Ok? ==> (v.Empty? && r.value == Absent) || (v.Num? && r.value == Number(v.n))
    ensures r == Ok(Absent) <==> v.Empty? && rule.optional
    ensures !v.Num? && !(v.Empty? && rule.optional) ==> r == Err([InvalidType(Some(rule.typeMessage))])
    ensures v.Num? ==> (r.Ok? <==> !Below(rule.min, v.n) && !Above(rule.max, v.n))
  {
    if v.Empty? && rule.optional then Ok(Absent)
    else if !v.Num? then Err([InvalidType(Some(rule.typeMessage))])
    else
      var issues := BoundIssues(rule.min, rule.max, v.n);
      if issues == [] then Ok(Number(v.n)) else Err(issues)
  }

  /** Parses one raw value with a rule built by `Config`. */
  function ParseField(rule: Rule, raw: RawValue, toNumber: string -> Option<real>): (r: Outcome)
    ensures r.Err? ==> r.issues != []
    ensures rule.NumberRule? && r.Ok? ==> !r.value.Str?
    ensures rule.StringRule? ==> (r.Ok? <==> raw.Text?)
  {
    match rule
    case NumberRule(_, _, _, _) => CheckNumber(rule, Coerce(raw, toNumber))
    case StringRule => if raw.Text? then Ok(Str(raw.s)) else Err([InvalidType(None)])
  }

  // ---------------------------------------------------------------------
  // Properties of the rule builder

  /** Raw `""` and raw `null`/`undefined` give the same outcome. */
  lemma EmptyStringIsAbsent(c: ZodConfig, toNumber: string -> Option<real>)
    requires c.kind == "number"
    ensures ParseField(Config(Some(c)), Text(""), toNumber) == ParseField(Config(Some(c)), Empty, toNumber)
  {
  }

  /** An absent value succeeds, as absent, exactly when the field is
      optional; otherwise it fails with the type message alone. */
  lemma AbsentOutcome(c: ZodConfig, raw: RawValue, toNumber: string -> Option<real>)
    requires c.kind == "number"
    requires raw.Empty? || raw == Text("")
    ensures c.optional ==> ParseField(Config(Some(c)), raw, toNumber) == Ok(Absent)
    ensures !c.optional ==> ParseField(Config(Some(c)), raw, toNumber) == Err([InvalidType(Some(TypeMessage(c.message)))])
  {
  }

  /** A string that converts to `n` gives the same outcome as the number `n`. */
  lemma NumericTextIsNumber(c: ZodConfig, s: string, n: real, toNumber: string -> Option<real>)
    requires c.kind == "number"
    requires s != "" && toNumber(s) == Some(n)
    ensures ParseField(Config(Some(c)), Text(s), toNumber) == ParseField(Config(Some(c)), Num(n), toNumber)
  {
  }

  /** A string whose conversion is NaN fails the type check with the type
      message, and never reaches a bound check. */
  lemma NotANumber(c: ZodConfig, s: string, toNumber: string -> Option<real>)
    requires c.kind == "number"
    requires s != "" && toNumber(s).None?
    ensures ParseField(Config(Some(c)), Text(s), toNumber) == Err([InvalidType(Some(TypeMessage(c.message)))])
  {
  }

  /** A number succeeds with itself exactly when no configured bound rejects
      it; otherwise the issues are the failing bound checks, `min` first,
      each with its own message. */
  lemma NumberOutcome(c: ZodConfig, n: real, toNumber: string -> Option<real>)
    requires c.kind == "number"
    ensures ParseField(Config(Some(c)), Num(n), toNumber) == Ok(Number(n)) <==> !Below(c.min, n) && !Above(c.max, n)
    ensures ParseField(Config(Some(c)), Num(n), toNumber).Err? ==>
              ParseField(Config(Some(c)), Num(n), toNumber).issues
                == (if Below(c.min, n) then [TooSmall(c.min.value.message)] else [])
                 + (if Above(c.max, n) then [TooBig(c.max.value.message)] else [])
  {
  }

  /** With both bounds set and `lo <= hi`, the bounds are inclusive and at
      most one of them fails. */
  lemma RangeOutcome(c: ZodConfig, lo: real, loMsg: Option<string>, hi: real, hiMsg: Option<string>,
                     n: real, toNumber: string -> Option<real>)
    requires c.kind == "number"
    requires c.min == Some(Bound(Some(lo), loMsg)) && c.max == Some(Bound(Some(hi), hiMsg))
    requires lo <= hi
    ensures lo <= n <= hi <==> ParseField(Config(Some(c)), Num(n), toNumber) == Ok(Number(n))
    ensures n < lo ==> ParseField(Config(Some(c)), Num(n), toNumber) == Err([TooSmall(loMsg)])
    ensures n > hi ==> ParseField(Config(Some(c)), Num(n), toNumber) == Err([TooBig(hiMsg)])
  {
  }

  /** Both bounds, when both are configured, carry values and are ordered. */
  predicate BoundsOrdered(c: ZodConfig) {
    c.min.Some? && c.max.Some? ==>
      && c.min.value.value.Some? && c.max.value.value.Some?
      && c.min.value.value.value <= c.max.value.value.value
  }

  /** With ordered bounds at most one check fails, so every failure of the
      field reports exactly one issue. */
  lemma SingleIssue(c: ZodConfig, raw: RawValue, toNumber: string -> Option<real>)
    requires c.kind == "number" && BoundsOrdered(c)
    ensures ParseField(Config(Some(c)), raw, toNumber).Err? ==>
              |ParseField(Config(Some(c)), raw, toNumber).issues| == 1
  {
  }

  /** Without configured bounds every number is accepted as itself. */
  lemma UnboundedAcceptsEveryNumber(c: ZodConfig, n: real, toNumber: string -> Option<real>)
    requires c.kind == "number"
    requires c.min.None? || c.min.value.value.None?
    requires c.max.None? || c.max.value.value.None?
    ensures ParseField(Config(Some(c)), Num(n), toNumber) == Ok(Number(n))
  {
  }

  /** What a success of a number rule means: an absent result comes from an
      absent raw value of an optional field, and a number result lies within
      the configured bounds and is the value of the raw input. */
  lemma NumberSuccess(c: ZodConfig, raw: RawValue, toNumber: string -> Option<real>)
    requires c.kind == "number"
    requires ParseField(Config(Some(c)), raw, toNumber).Ok?
    ensures ParseField(Config(Some(c)), raw, toNumber).value == Absent ==>
              c.optional && (raw.Empty? || raw == Text(""))
    ensures ParseField(Config(Some(c)), raw, toNumber).value.Number? ==>
              var n := ParseField(Config(Some(c)), raw, toNumber).value.n;
              && !Below(c.min, n) && !Above(c.max, n)
              && (raw == Num(n) || (raw.Text? && toNumber(raw.s) == Some(n)))
  {
  }

  /** A descriptor that is not a number descriptor, or none at all, accepts
      every string as it is and nothing else. */
  lemma StringFallback(c: Option<ZodConfig>, raw: RawValue, toNumber: string -> Option<real>)
    requires c.None? || c.value.kind != "number"
    ensures ParseField(Config(c), raw, toNumber)
              == if raw.Text? then Ok(Str(raw.s)) else Err([InvalidType(None)])
  {
  }

  /** Coercion is idempotent: forwarding a forwarded value changes nothing. */
  lemma CoerceIdempotent(raw: RawValue, toNumber: string -> Option<real>)
    ensures Coerce(Coerce(raw, toNumber), toNumber) == Coerce(raw, toNumber)
  {
  }
}
