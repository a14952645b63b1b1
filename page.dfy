/** The aggregation of app/page.tsx: the descriptor table is folded, by
    field name, into the shape handed to `z.object` and into the form's
    default values, and the object schema parses every field independently. */
module Page {
  import opened Zod

  /** One entry of `inputConfigs`: a `ZodConfig` with a name. The entry's
      `label` is presentation only and is not part of the model. */
  datatype FieldDescriptor = FieldDescriptor(name: string, config: ZodConfig)

  /** The outcome of the object schema: the parsed value of every field, or
      the issues of every field that failed. */
  datatype ObjectOutcome =
    | Parsed(values: map<string, Value>)
    | Rejected(errors: map<string, seq<Issue>>)

  function NamesOf(descs: seq<FieldDescriptor>): set<string> {
    set d | d in descs :: d.name
  }

  predicate NamesDistinct(descs: seq<FieldDescriptor>) {
    forall i, j | 0 <= i < j < |descs| :: descs[i].name != descs[j].name
  }

  /** No later entry has the same name as entry `i`, so its assignment to
      the accumulator is the one that survives. */
  predicate LastWithName(descs: seq<FieldDescriptor>, i: int)
    requires 0 <= i < |descs|
  {
    forall j | i < j < |descs| :: descs[j].name != descs[i].name
  }

  /** `descs.reduce((acc, value) => { acc[value.name] = f(value); return acc; }, {})`,
      as a left fold: later entries overwrite earlier ones with the same name. */
  function FoldByName<T>(descs: seq<FieldDescriptor>, f: FieldDescriptor -> T): (acc: map<string, T>)
    ensures acc.Keys == NamesOf(descs)
    decreases |descs|
  {
    if descs == [] then map[]
    else
      var init, d := descs[..|descs| - 1], descs[|descs| - 1];
      assert NamesOf(descs) == NamesOf(init) + {d.name} by {
        assert descs == init + [d];
      }
      FoldByName(init, f)[d.name := f(d)]
  }

  /** The value the fold stores under a name is the one from the last entry
      carrying that name. */
  lemma {:induction false} FoldAt<T>(descs: seq<FieldDescriptor>, f: FieldDescriptor -> T, i: int)
    requires 0 <= i < |descs| && LastWithName(descs, i)
    ensures descs[i].name in FoldByName(descs, f)
    ensures FoldByName(descs, f)[descs[i].name] == f(descs[i])
  {
    if i < |descs| - 1 {
      var init := descs[..|descs| - 1];
      assert LastWithName(init, i) by {
        forall j | i < j < |init| ensures init[j].name != init[i].name {
          assert init[j] == descs[j];
        }
      }
      FoldAt(init, f, i);
    }
  }

  /** With distinct names every entry lands in the fold under its own name. */
  lemma FoldAtDistinct<T>(descs: seq<FieldDescriptor>, f: FieldDescriptor -> T, i: int)
    requires NamesDistinct(descs) && 0 <= i < |descs|
    ensures descs[i].name in FoldByName(descs, f)
    ensures FoldByName(descs, f)[descs[i].name] == f(descs[i])
  {
    FoldAt(descs, f, i);
  }

  /** With distinct names the fold has exactly one key per entry. */
  lemma {:induction false} DistinctNamesCount(descs: seq<FieldDescriptor>)
    requires NamesDistinct(descs)
    ensures |NamesOf(descs)| == |descs|
  {
    if descs != [] {
      var init, d := descs[..|descs| - 1], descs[|descs| - 1];
      assert descs == init + [d];
      assert NamesOf(descs) == NamesOf(init) + {d.name};
      assert d.name !in NamesOf(init);
      assert NamesDistinct(init) by {
        forall i, j | 0 <= i < j < |init| ensures init[i].name != init[j].name {
          assert init[i] == descs[i] && init[j] == descs[j];
        }
      }
      DistinctNamesCount(init);
    }
  }

  /** With distinct names every key of the fold comes from exactly one entry. */
  lemma FoldKeyEntry<T>(descs: seq<FieldDescriptor>, f: FieldDescriptor -> T, k: string) returns (i: int)
    requires NamesDistinct(descs) && k in FoldByName(descs, f)
    ensures 0 <= i < |descs| && descs[i].name == k
    ensures FoldByName(descs, f)[k] == f(descs[i])
  {
    var d :| d in descs && d.name == k;
    i :| 0 <= i < |descs| && descs[i] == d;
    FoldAt(descs, f, i);
  }

  /** The reduce loop itself, with its accumulator updated in place. */
  method ReduceByName<T>(descs: seq<FieldDescriptor>, f: FieldDescriptor -> T) returns (acc: map<string, T>)
    ensures acc == FoldByName(descs, f)
    ensures acc.Keys == NamesOf(descs)
    ensures forall i | 0 <= i < |descs| && LastWithName(descs, i) :: acc[descs[i].name] == f(descs[i])
  {
    acc := map[];
    var i := 0;
    while i < |descs|
      invariant 0 <= i <= |descs|
      invariant acc == FoldByName(descs[..i], f)
    {
      assert descs[..i + 1][..i] == descs[..i];
      acc := acc[descs[i].name := f(descs[i])];
      i := i + 1;
    }
    assert descs[..i] == descs;
    forall i | 0 <= i < |descs| && LastWithName(descs, i) ensures acc[descs[i].name] == f(descs[i]) {
      FoldAt(descs, f, i);
    }
  }

  /** The rule the shape holds for one descriptor: the one `config` builds. */
  function SchemaEntry(d: FieldDescriptor): Rule {
    Config(Some(d.config))
  }

  /** `value?.default ?? ""`: a default of 0 is kept, a missing one becomes `""`. */
  function DefaultEntry(d: FieldDescriptor): (r: RawValue)
    ensures r.Num? <==> d.config.defaultValue.Some?
    ensures r.Num? ==> r.n == d.config.defaultValue.value
    ensures !r.Num? ==> r == Text("")
  {
    match d.config.defaultValue
    case Some(v) => Num(v)
    case None => Text("")
  }

  /** `formSchema`'s shape: one key per descriptor name, holding the rule
      `config` builds from the last descriptor with that name. */
  function Schema(descs: seq<FieldDescriptor>): (shape: map<string, Rule>)
    ensures shape.Keys == NamesOf(descs)
    ensures forall i {:trigger LastWithName(descs, i)} | 0 <= i < |descs| && LastWithName(descs, i) ::
              shape[descs[i].name] == Config(Some(descs[i].config))
  {
    assert forall i | 0 <= i < |descs| && LastWithName(descs, i) ::
             FoldByName(descs, SchemaEntry)[descs[i].name] == SchemaEntry(descs[i]) by {
      forall i | 0 <= i < |descs| && LastWithName(descs, i)
        ensures FoldByName(descs, SchemaEntry)[descs[i].name] == SchemaEntry(descs[i])
      {
        FoldAt(descs, SchemaEntry, i);
      }
    }
    FoldByName(descs, SchemaEntry)
  }

  /** `defaultValues`: one key per descriptor name, holding the last such
      descriptor's numeric default, or `""` when it has none. */
  function Defaults(descs: seq<FieldDescriptor>): (defaults: map<string, RawValue>)
    ensures defaults.Keys == NamesOf(descs)
    ensures forall i {:trigger LastWithName(descs, i)} | 0 <= i < |descs| && LastWithName(descs, i) ::
              defaults[descs[i].name]
                == if descs[i].config.defaultValue.Some? then Num(descs[i].config.defaultValue.value) else Text("")
  {
    assert forall i | 0 <= i < |descs| && LastWithName(descs, i) ::
             FoldByName(descs, DefaultEntry)[descs[i].name] == DefaultEntry(descs[i]) by {
      forall i | 0 <= i < |descs| && LastWithName(descs, i)
        ensures FoldByName(descs, DefaultEntry)[descs[i].name] == DefaultEntry(descs[i])
      {
        FoldAt(descs, DefaultEntry, i);
      }
    }
    FoldByName(descs, DefaultEntry)
  }

  /** The raw value of a field; a missing key reads as `undefined`. */
  function Lookup(input: map<string, RawValue>, k: string): RawValue {
    if k in input then input[k] else Empty
  }

  /** The outcome of field `k` alone. */
  function FieldOutcome(schema: map<string, Rule>, input: map<string, RawValue>, k: string,
                        toNumber: string -> Option<real>): Outcome
    requires k in schema
  {
    ParseField(schema[k], Lookup(input, k), toNumber)
  }

  /** `z.object(shape)` applied to the form values: every field of the shape
      is parsed on its own; keys outside the shape are dropped, and a field
      that is missing from the input and parses to `undefined` is left out
      of the result, as Zod 3 does. */
  function ParseObject(schema: map<string, Rule>, input: map<string, RawValue>,
                       toNumber: string -> Option<real>): (r: ObjectOutcome)
    ensures r.Parsed? <==> forall k | k in schema :: FieldOutcome(schema, input, k, toNumber).Ok?
    ensures r.Parsed? ==>
              r.values.Keys == set k | k in schema && (k in input || FieldOutcome(schema, input, k, toNumber) != Ok(Absent))
    ensures r.Parsed? ==> forall k | k in r.values ::
              k in schema && r.values[k] == FieldOutcome(schema, input, k, toNumber).value
    ensures r.Rejected? ==> r.errors != map[]
    ensures r.Rejected? ==> forall k | k in schema ::
              (k in r.errors <==> FieldOutcome(schema, input, k, toNumber).Err?)
    ensures r.Rejected? ==> r.errors.Keys <= schema.Keys
    ensures r.Rejected? ==> forall k | k in r.errors :: r.errors[k] == FieldOutcome(schema, input, k, toNumber).issues
  {
    if forall k | k in schema :: FieldOutcome(schema, input, k, toNumber).Ok? then
      Parsed(map k | k in schema && (k in input || FieldOutcome(schema, input, k, toNumber) != Ok(Absent))
                   :: FieldOutcome(schema, input, k, toNumber).value)
    else
      var errors := map k | k in schema && FieldOutcome(schema, input, k, toNumber).Err?
                          :: FieldOutcome(schema, input, k, toNumber).issues;
      assert errors != map[] by {
        var k :| k in schema && !FieldOutcome(schema, input, k, toNumber).Ok?;
        assert k in errors;
      }
      Rejected(errors)
  }

  /** Every field of a parsed object passed its own rule; the result holds
      the field unless it was missing from the input and came out absent,
      and then holds the value the field's rule produced. */
  lemma ParsedField(schema: map<string, Rule>, input: map<string, RawValue>, k: string,
                    toNumber: string -> Option<real>)
    requires k in schema && ParseObject(schema, input, toNumber).Parsed?
    ensures FieldOutcome(schema, input, k, toNumber).Ok?
    ensures (k in ParseObject(schema, input, toNumber).values)
              == (k in input || !FieldOutcome(schema, input, k, toNumber).value.Absent?)
    ensures k in ParseObject(schema, input, toNumber).values ==>
              ParseObject(schema, input, toNumber).values[k] == FieldOutcome(schema, input, k, toNumber).value
  {
  }

  /** The issues the object outcome reports for field `k` (none if it passed). */
  function FieldIssues(r: ObjectOutcome, k: string): seq<Issue> {
    if r.Rejected? && k in r.errors then r.errors[k] else []
  }

  /** Fields are independent: the issues reported for `k` depend on `k`'s raw
      value only, whatever the other fields hold. */
  lemma FieldIndependence(schema: map<string, Rule>, in1: map<string, RawValue>, in2: map<string, RawValue>,
                          k: string, toNumber: string -> Option<real>)
    requires k in schema && Lookup(in1, k) == Lookup(in2, k)
    ensures FieldOutcome(schema, in1, k, toNumber) == FieldOutcome(schema, in2, k, toNumber)
    ensures FieldIssues(ParseObject(schema, in1, toNumber), k) == FieldIssues(ParseObject(schema, in2, toNumber), k)
    ensures (FieldIssues(ParseObject(schema, in1, toNumber), k) == [])
              == FieldOutcome(schema, in1, k, toNumber).Ok?
  {
  }

  /** A descriptor whose default, written into the form, passes its own rule. */
  predicate DefaultAdmissible(c: ZodConfig) {
    && c.kind == "number"
    && match c.defaultValue
       case Some(v) => !Below(c.min, v) && !Above(c.max, v)
       case None => c.optional
  }

  /** The default of an admissible descriptor parses to itself (absent when
      there is none). */
  lemma DefaultParses(d: FieldDescriptor, toNumber: string -> Option<real>)
    requires DefaultAdmissible(d.config)
    ensures ParseField(SchemaEntry(d), DefaultEntry(d), toNumber)
              == Ok(if d.config.defaultValue.Some? then Number(d.config.defaultValue.value) else Absent)
  {
  }

  /** Parsing the default values against the schema of the same table
      succeeds, and yields every default (absent where there is none). */
  lemma {:induction false} DefaultsParse(descs: seq<FieldDescriptor>, toNumber: string -> Option<real>)
    requires NamesDistinct(descs)
    requires forall d | d in descs :: DefaultAdmissible(d.config)
    ensures ParseObject(Schema(descs), Defaults(descs), toNumber).Parsed?
    ensures forall i | 0 <= i < |descs| ::
              var d := descs[i];
              ParseObject(Schema(descs), Defaults(descs), toNumber).values[d.name]
                == if d.config.defaultValue.Some? then Number(d.config.defaultValue.value) else Absent
  {
    var schema, defaults := Schema(descs), Defaults(descs);
    forall i | 0 <= i < |descs|
      ensures FieldOutcome(schema, defaults, descs[i].name, toNumber)
                == Ok(if descs[i].config.defaultValue.Some? then Number(descs[i].config.defaultValue.value) else Absent)
    {
      FoldAtDistinct(descs, SchemaEntry, i);
      FoldAtDistinct(descs, DefaultEntry, i);
      DefaultParses(descs[i], toNumber);
    }
    forall k | k in schema ensures FieldOutcome(schema, defaults, k, toNumber).Ok? {
      var i :| 0 <= i < |descs| && descs[i].name == k;
    }
  }
}
