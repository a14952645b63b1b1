/** The ten field descriptors `inputConfigs` of app/page.tsx, carried with
    their messages verbatim, and what the rules built from them guarantee. */
module InputConfigs {
  import opened Zod
  import opened Page

  /** An inclusive bound with its message. */
  function At(value: real, message: string): Option<Bound> {
    Some(Bound(Some(value), Some(message)))
  }

  const IsoClass := FieldDescriptor("iso_class", ZodConfig(
    "number",
    message := Some("ISO Class must be between 5 and 9"),
    defaultValue := Some(5.0),
    min := At(5.0, "ISO Class must be between 5 and 9"),
    max := At(9.0, "ISO Class must be between 5 and 9"),
    step := Some(1.0)))

  const ParticleSize := FieldDescriptor("particle_size", ZodConfig(
    "number",
    message := Some("Particle Size must be between 0.5 and 5"),
    defaultValue := Some(0.5),
    min := At(0.5, "Particle Size must be between 0.5 and 5"),
    max := At(5.0, "Particle Size must be between 0.5 and 5"),
    step := Some(0.1)))

  const Airflow := FieldDescriptor("airflow", ZodConfig(
    "number",
    message := Some("Airflow must be 0 or greater"),
    defaultValue := Some(0.0),
    min := At(0.0, "Airflow must be 0 or greater"),
    max := At(8760.0, "Airflow cannot exceed 8760 hours per year"),
    step := Some(1.0)))

  const OperatingHours := FieldDescriptor("operating_hours_per_year", ZodConfig(
    "number",
    message := Some("Operating Hours must be 0 or greater"),
    defaultValue := Some(0.0),
    min := At(0.0, "Operating Hours must be 0 or greater"),
    max := At(8760.0, "Operating Hours cannot exceed 8760 hours per year"),
    step := Some(1.0)))

  const FanEfficiency := FieldDescriptor("fan_efficiency", ZodConfig(
    "number",
    message := Some("Fan Efficiency must be between 0 and 1"),
    defaultValue := Some(0.0),
    min := At(0.0, "Fan Efficiency must be between 0 and 1"),
    max := At(1.0, "Fan Efficiency must be between 0 and 1"),
    step := Some(0.01)))

  const ElectricityRate := FieldDescriptor("electricity_rate", ZodConfig(
    "number",
    message := Some("Electricity Rate must be between 0 and 1"),
    defaultValue := Some(0.0),
    min := At(0.0, "Electricity Rate must be between 0 and 1"),
    max := At(1.0, "Electricity Rate must be between 0 and 1"),
    step := Some(0.01)))

  const UpstreamDust := FieldDescriptor("upstream_dust_concentration", ZodConfig(
    "number",
    message := Some("Upstream Dust Concentration must be between 0 and 1"),
    defaultValue := Some(0.0),
    min := At(0.0, "Upstream Dust Concentration must be between 0 and 1"),
    max := At(1.0, "Upstream Dust Concentration must be between 0 and 1"),
    step := Some(0.01)))

  const TerminalPressureDrop := FieldDescriptor("terminal_pressure_drop", ZodConfig(
    "number",
    message := Some("Terminal Pressure Drop must be between 0 and 1"),
    defaultValue := Some(0.0),
    min := At(0.0, "Terminal Pressure Drop must be between 0 and 1"),
    max := At(1.0, "Terminal Pressure Drop must be between 0 and 1"),
    step := Some(0.01)))

  /** The computed field: no default, no bounds, disabled and optional. */
  const IsoCleanroomParticle := FieldDescriptor("iso_cleanroom_particle", ZodConfig(
    "number",
    message := Some("ISO Cleanroom Particle must be between 0 and 1"),
    disabled := true,
    optional := true))

  const UpstreamParticleCount := FieldDescriptor("upstream_particle_count", ZodConfig(
    "number",
    message := Some("Upstream Particle Count must be between 0 and 1"),
    defaultValue := Some(0.0),
    min := At(0.0, "Upstream Particle Count must be between 0 and 1"),
    max := At(1.0, "Upstream Particle Count must be between 0 and 1"),
    step := Some(1.0)))

  const Table: seq<FieldDescriptor> := [
    IsoClass, ParticleSize, Airflow, OperatingHours, FanEfficiency,
    ElectricityRate, UpstreamDust, TerminalPressureDrop, IsoCleanroomParticle,
    UpstreamParticleCount
  ]

  // ---------------------------------------------------------------------
  // Facts about the shipped table

  /** The names are pairwise distinct, so the shape has exactly one key per entry. */
  lemma TableNamesDistinct()
    ensures NamesDistinct(Table)
    ensures Schema(Table).Keys == NamesOf(Table) && |Schema(Table).Keys| == |Table|
  {
    assert "terminal_pressure_drop"[0] != "iso_cleanroom_particle"[0];
    DistinctNamesCount(Table);
  }

  /** The table's entries, position by position. */
  lemma TableEntries()
    ensures |Table| == 10
    ensures && Table[0] == IsoClass && Table[1] == ParticleSize && Table[2] == Airflow
            && Table[3] == OperatingHours && Table[4] == FanEfficiency && Table[5] == ElectricityRate
            && Table[6] == UpstreamDust && Table[7] == TerminalPressureDrop
            && Table[8] == IsoCleanroomParticle && Table[9] == UpstreamParticleCount
  {
  }

  /** Every entry with both bounds has its minimum at most its maximum. */
  lemma TableBoundsOrdered()
    ensures forall d | d in Table :: BoundsOrdered(d.config)
  {
    TableEntries();
    assert BoundsOrdered(IsoClass.config) && BoundsOrdered(ParticleSize.config);
    assert BoundsOrdered(Airflow.config) && BoundsOrdered(OperatingHours.config);
    assert BoundsOrdered(FanEfficiency.config) && BoundsOrdered(ElectricityRate.config);
    assert BoundsOrdered(UpstreamDust.config) && BoundsOrdered(TerminalPressureDrop.config);
    assert BoundsOrdered(IsoCleanroomParticle.config) && BoundsOrdered(UpstreamParticleCount.config);
  }

  /** Every default lies within its entry's bounds; the one entry without a
      default is optional. */
  lemma TableDefaultsAdmissible()
    ensures forall d | d in Table :: DefaultAdmissible(d.config)
  {
    TableEntries();
    assert DefaultAdmissible(IsoClass.config) && DefaultAdmissible(ParticleSize.config);
    assert DefaultAdmissible(Airflow.config) && DefaultAdmissible(OperatingHours.config);
    assert DefaultAdmissible(FanEfficiency.config) && DefaultAdmissible(ElectricityRate.config);
    assert DefaultAdmissible(UpstreamDust.config) && DefaultAdmissible(TerminalPressureDrop.config);
    assert DefaultAdmissible(IsoCleanroomParticle.config) && DefaultAdmissible(UpstreamParticleCount.config);
  }

  /** The rule stored under each name is the one built from its entry. */
  lemma FormSchemaAt(i: int)
    requires 0 <= i < |Table|
    ensures Table[i].name in Schema(Table) && Schema(Table)[Table[i].name] == SchemaEntry(Table[i])
    ensures Table[i].name in Defaults(Table) && Defaults(Table)[Table[i].name] == DefaultEntry(Table[i])
  {
    TableNamesDistinct();
    FoldAtDistinct(Table, SchemaEntry, i);
    FoldAtDistinct(Table, DefaultEntry, i);
  }

  /** Since every entry's bounds are ordered, a field of the shape that
      fails reports exactly one issue, whatever its raw value. */
  lemma TableSingleIssue(i: int, raw: RawValue, toNumber: string -> Option<real>)
    requires 0 <= i < |Table|
    ensures Table[i].name in Schema(Table)
    ensures var r := ParseField(Schema(Table)[Table[i].name], raw, toNumber);
            r.Err? ==> |r.issues| == 1
  {
    FormSchemaAt(i);
    TableBoundsOrdered();
    TableDefaultsAdmissible();
    var d := Table[i];
    assert d in Table;
    SingleIssue(d.config, raw, toNumber);
  }

  /** Only the entry at index 8, `iso_cleanroom_particle`, has no default. */
  lemma TableDefaultMissing(i: int)
    requires 0 <= i < |Table|
    ensures Table[i].config.defaultValue.None? == (i == 8)
    ensures Table[8].name == "iso_cleanroom_particle"
  {
  }

  /** In the default values only `iso_cleanroom_particle` is `""`; every other
      field holds its numeric default. */
  lemma DefaultValuesShape()
    ensures Defaults(Table).Keys == NamesOf(Table)
    ensures forall k | k in Defaults(Table) :: (Defaults(Table)[k] == Text("")) == (k == "iso_cleanroom_particle")
  {
    TableNamesDistinct();
    forall k | k in Defaults(Table) ensures (Defaults(Table)[k] == Text("")) == (k == "iso_cleanroom_particle") {
      var i := FoldKeyEntry(Table, DefaultEntry, k);
      TableDefaultMissing(i);
    }
  }

  /** Parsing the default values succeeds for every field, and every field
      comes out as its own default. */
  lemma DefaultValuesParse(toNumber: string -> Option<real>)
    ensures ParseObject(Schema(Table), Defaults(Table), toNumber).Parsed?
    ensures forall i | 0 <= i < |Table| ::
              ParseObject(Schema(Table), Defaults(Table), toNumber).values[Table[i].name]
                == if Table[i].config.defaultValue.Some? then Number(Table[i].config.defaultValue.value) else Absent
  {
    TableNamesDistinct();
    TableDefaultsAdmissible();
    DefaultsParse(Table, toNumber);
  }

  /** In particular the computed field `iso_cleanroom_particle`, whose
      default is `""`, comes out absent. */
  lemma DefaultValuesParseAbsent(toNumber: string -> Option<real>)
    ensures ParseObject(Schema(Table), Defaults(Table), toNumber).Parsed?
    ensures ParseObject(Schema(Table), Defaults(Table), toNumber).values["iso_cleanroom_particle"] == Absent
  {
    DefaultValuesParse(toNumber);
    TableDefaultMissing(8);
  }

  /** The rules of the two fields the submit formula reads. */
  lemma FormulaFieldRules()
    ensures "iso_class" in Schema(Table) && Schema(Table)["iso_class"] == Config(Some(IsoClass.config))
    ensures "particle_size" in Schema(Table) && Schema(Table)["particle_size"] == Config(Some(ParticleSize.config))
  {
    TableEntries();
    FormSchemaAt(0);
    FormSchemaAt(1);
  }

  /** What the `iso_class` rule accepts is a number in [5, 9]. */
  lemma IsoClassAccepts(raw: RawValue, toNumber: string -> Option<real>)
    requires ParseField(Config(Some(IsoClass.config)), raw, toNumber).Ok?
    ensures var v := ParseField(Config(Some(IsoClass.config)), raw, toNumber).value;
            v.Number? && 5.0 <= v.n <= 9.0
  {
    NumberSuccess(IsoClass.config, raw, toNumber);
  }

  /** What the `particle_size` rule accepts is a number in [0.5, 5]. */
  lemma ParticleSizeAccepts(raw: RawValue, toNumber: string -> Option<real>)
    requires ParseField(Config(Some(ParticleSize.config)), raw, toNumber).Ok?
    ensures var v := ParseField(Config(Some(ParticleSize.config)), raw, toNumber).value;
            v.Number? && 0.5 <= v.n <= 5.0
  {
    NumberSuccess(ParticleSize.config, raw, toNumber);
  }

  /** Whatever the form holds, a successful parse yields an `iso_class` in
      [5, 9] and a `particle_size` in [0.5, 5], so the submit formula's
      divisor `particle_size` is strictly positive. */
  lemma ParsedFormulaInputs(input: map<string, RawValue>, toNumber: string -> Option<real>)
    requires ParseObject(Schema(Table), input, toNumber).Parsed?
    ensures var values := ParseObject(Schema(Table), input, toNumber).values;
      && "iso_class" in values && values["iso_class"].Number?
      && 5.0 <= values["iso_class"].n <= 9.0
      && "particle_size" in values && values["particle_size"].Number?
      && 0.5 <= values["particle_size"].n <= 5.0
      && values["particle_size"].n > 0.0
  {
    FormulaFieldRules();
    ParsedField(Schema(Table), input, "iso_class", toNumber);
    ParsedField(Schema(Table), input, "particle_size", toNumber);
    IsoClassAccepts(Lookup(input, "iso_class"), toNumber);
    ParticleSizeAccepts(Lookup(input, "particle_size"), toNumber);
  }

  /** `iso_class` with raw `"5"` parses to 5. */
  lemma IsoClassFive(toNumber: string -> Option<real>)
    requires toNumber("5") == Some(5.0)
    ensures "iso_class" in Schema(Table)
    ensures ParseField(Schema(Table)["iso_class"], Text("5"), toNumber) == Ok(Number(5.0))
  {
    assert ParseField(Config(Some(IsoClass.config)), Text("5"), toNumber) == Ok(Number(5.0));
    FormulaFieldRules();
  }

  /** `iso_class` with raw `"4"` fails its minimum. */
  lemma IsoClassFour(toNumber: string -> Option<real>)
    requires toNumber("4") == Some(4.0)
    ensures "iso_class" in Schema(Table)
    ensures ParseField(Schema(Table)["iso_class"], Text("4"), toNumber)
              == Err([TooSmall(Some("ISO Class must be between 5 and 9"))])
  {
    assert ParseField(Config(Some(IsoClass.config)), Text("4"), toNumber)
             == Err([TooSmall(Some("ISO Class must be between 5 and 9"))]);
    FormulaFieldRules();
  }

  /** `particle_size` with raw `""` fails the type check with the field's
      own configured message. */
  lemma ParticleSizeEmpty(toNumber: string -> Option<real>)
    ensures "particle_size" in Schema(Table)
    ensures ParseField(Schema(Table)["particle_size"], Text(""), toNumber)
              == Err([InvalidType(Some("Particle Size must be between 0.5 and 5"))])
  {
    assert ParseField(Config(Some(ParticleSize.config)), Text(""), toNumber)
             == Err([InvalidType(Some("Particle Size must be between 0.5 and 5"))]);
    FormulaFieldRules();
  }

  /** `fan_efficiency` with raw `"abc"` fails the type check with the
      field's configured message, not the generic one. */
  lemma FanEfficiencyNotANumber(toNumber: string -> Option<real>)
    requires toNumber("abc").None?
    ensures "fan_efficiency" in Schema(Table)
    ensures ParseField(Schema(Table)["fan_efficiency"], Text("abc"), toNumber)
              == Err([InvalidType(Some("Fan Efficiency must be between 0 and 1"))])
  {
    assert ParseField(Config(Some(FanEfficiency.config)), Text("abc"), toNumber)
             == Err([InvalidType(Some("Fan Efficiency must be between 0 and 1"))]);
    assert "fan_efficiency" in Schema(Table)
           && Schema(Table)["fan_efficiency"] == Config(Some(FanEfficiency.config)) by {
      TableEntries();
      FormSchemaAt(4);
    }
  }
}
