# Cleanroom calculator form: the field-validation engine

The calculator's form has ten numeric fields: ISO class, particle size, airflow, and so on. Each field is declared by a descriptor. A builder (`config` in utils/zod.ts) turns a descriptor into one validation rule. That rule has two stages:

- **Coercion.** `""`, `null` and `undefined` become *absent*. A value whose numeric conversion is a number becomes that number. Anything else is passed on unchanged.
- **Checks.** They run in this order:
  - the number type check, with the descriptor's `message` or "Please enter a valid number";
  - an inclusive `min`;
  - an inclusive `max`;
  - `optional`, which lets *absent* through.

A descriptor whose type is not `"number"`, or no descriptor at all, gives a rule that accepts any string.

The page (app/page.tsx) holds the descriptor table. It folds the table by field name into two maps:

- the shape of the object schema, through `config`;
- the form's default values, through `default ?? ""`.

The object schema parses every field on its own.

The model has three modules:

- `Zod` (zod.dfy): the descriptor record, raw values, issues, the builder, coercion, the checks, and their properties.
- `Page` (page.dfy): the by-name fold, as a function and as the imperative reduce loop proved equal to it, and the object schema with per-field independence. It also proves a general result: a table whose names are distinct and whose defaults satisfy their own rules parses its own default values.
- `InputConfigs` (input_configs.dfy): the ten shipped descriptors with their messages copied verbatim, together with facts about them:
  - the names are distinct;
  - the bounds are ordered;
  - every default is admissible;
  - the all-defaults form parses;
  - any accepted `particle_size` is at least 0.5;
  - the concrete scenarios.

JavaScript's `Number(...)` on strings is a parameter, `toNumber: string -> Option<real>`, where `None` stands for NaN. Every property holds for any such conversion. The scenario lemmas require only the values they need, for example `toNumber("5") == Some(5.0)`.

With raw `""`, `particle_size` fails with its own configured message, "Particle Size must be between 0.5 and 5", and not with "Please enter a valid number". This is because that descriptor sets `message` (app/page.tsx:48), and `config` prefers it (utils/zod.ts:22). See `InputConfigs.ParticleSizeEmpty`.

## Model

| member | source | states |
|---|---|---|
| Zod.TypeMessage | utils/zod.ts:21-23 | the type-check message is never empty; it is the configured message whenever that message is a non-empty string; otherwise it is "Please enter a valid number", so an empty message falls back too |
| Zod.Config | utils/zod.ts:14-49 | a string rule is built exactly when the config is missing or its type is not "number"; otherwise the number rule carries the descriptor's type message, `min`, `max` and `optional` |
| Zod.Coerce | utils/zod.ts:41-45 | the forwarded value is never `""`; it is absent exactly when the raw value is `""`, `null` or `undefined`; a forwarded number is the raw number or the conversion of a non-empty raw string; a forwarded string is the unchanged raw value and its conversion is NaN |
| Zod.BoundIssues | utils/zod.ts:25-35 | no issue exactly when neither configured bound rejects the number; at most two issues, the `min` issue first with `min.message` and the `max` issue last with `max.message`; both fail only if `min` exceeds `max` |
| Zod.CheckNumber | utils/zod.ts:20-39 | success yields absent for an absent value or the number itself; absent succeeds exactly when the field is optional; a non-number fails with the type message alone; a number succeeds exactly when it is within the configured bounds |
| Zod.ParseField | utils/zod.ts:14-49 | a failure always carries at least one issue; a number rule never yields a string; a string rule succeeds exactly on strings |
| Zod.EmptyStringIsAbsent | utils/zod.ts:42 | raw `""` and raw `null`/`undefined` give the same outcome under every number rule |
| Zod.AbsentOutcome | utils/zod.ts:21-42 | an absent or `""` raw value succeeds as absent if the field is optional, and otherwise fails with exactly the type message |
| Zod.NumericTextIsNumber | utils/zod.ts:41-45 | a non-empty string that converts to `n` gives the same outcome as the number `n`, so raw `"5"` and raw `5` agree |
| Zod.NotANumber | utils/zod.ts:21-45 | a string whose conversion is NaN fails with exactly the type message and never with a bound message |
| Zod.NumberOutcome | utils/zod.ts:25-35 | a number succeeds as itself exactly when no configured bound rejects it; otherwise the issues are the failing checks, `min` before `max`, each with its own message |
| Zod.RangeOutcome | utils/zod.ts:25-35 | with both bounds set and `lo <= hi`, a number succeeds exactly when `lo <= n <= hi`, so both ends are inclusive; below `lo` it fails with the `min` message alone, and above `hi` with the `max` message alone |
| Zod.SingleIssue | utils/zod.ts:25-35 | when the bounds are ordered, every failure of the field reports exactly one issue |
| Zod.UnboundedAcceptsEveryNumber | utils/zod.ts:20-35 | bounds that are missing, or that have no value, impose nothing: every number is accepted as itself |
| Zod.NumberSuccess | utils/zod.ts:20-45 | an absent result comes only from an absent or `""` raw value of an optional field; a number result lies within the configured bounds and is the raw number or the conversion of the raw string |
| Zod.StringFallback | utils/zod.ts:46-48 | with no config, or a type other than "number", every string is accepted unchanged, with no coercion and no bounds, and every non-string is rejected |
| Zod.CoerceIdempotent | utils/zod.ts:41-45 | coercing an already coerced value changes nothing |
| Page.FoldByName | app/page.tsx:158-163 | the key set of the by-name fold is exactly the set of descriptor names |
| Page.FoldAt | app/page.tsx:159-162 | the value stored under a name is the one computed from the last entry with that name |
| Page.FoldAtDistinct | app/page.tsx:159-162 | with distinct names, every entry's value is stored under its own name |
| Page.DistinctNamesCount | app/page.tsx:158-163 | with distinct names, there are exactly as many names as entries |
| Page.FoldKeyEntry | app/page.tsx:158-163 | with distinct names, every key of the fold comes from one entry, and the stored value is computed from that entry |
| Page.ReduceByName | app/page.tsx:159-162 | the reduce loop that assigns `acc[value.name]` entry by entry yields the fold: the same key set, and for each name the value of its last entry |
| Page.Schema | app/page.tsx:158-163 | the shape has exactly one key per descriptor name, and each key holds the rule `config` builds from the last descriptor with that name |
| Page.Defaults | app/page.tsx:168-171 | the default values have exactly one key per descriptor name, and each key holds the last such descriptor's numeric `default`, or `""` when it has none |
| Page.DefaultEntry | app/page.tsx:169 | a descriptor's default value is its numeric `default` when one is set, a default of 0 included; otherwise it is `""` |
| Page.ParseObject | app/page.tsx:158-163 | the object parses exactly when every field of the shape parses; it then holds each field's own parsed value, and leaves out exactly the fields that are missing from the input and parse to `undefined`; otherwise the error map holds exactly the failing fields, each with its own issues |
| Page.ParsedField | app/page.tsx:158-163 | every field of a parsed object passed its own rule; the result holds it unless it was missing from the input and came out absent, and then holds the value that rule produced |
| Page.FieldIndependence | app/page.tsx:158-163 | a field's outcome, and the issues reported for it, depend only on that field's raw value; a field reports no issue exactly when it passed |
| Page.DefaultParses | app/page.tsx:168-171 | the default of an admissible descriptor passes that descriptor's own rule, as its number, or as absent when the descriptor has no default |
| Page.DefaultsParse | app/page.tsx:158-171 | if the names are distinct and every default is admissible, parsing the default values against the shape succeeds, and every field holds its own default |
| InputConfigs.TableNamesDistinct | app/page.tsx:33-156 | the ten names are pairwise distinct, so the shape has exactly one key per descriptor |
| InputConfigs.TableEntries | app/page.tsx:33-156 | the table holds the ten descriptors, in source order |
| InputConfigs.TableBoundsOrdered | app/page.tsx:33-156 | every descriptor that sets both bounds sets both values, with `min <= max` |
| InputConfigs.TableDefaultsAdmissible | app/page.tsx:33-156 | every default lies within its descriptor's bounds, and the one descriptor without a default is optional |
| InputConfigs.FormSchemaAt | app/page.tsx:158-171 | under each descriptor's name, the shape holds that descriptor's rule and the default map holds its default |
| InputConfigs.TableSingleIssue | app/page.tsx:33-163 | every shipped field of the shape that fails reports exactly one issue, whatever its raw value, because every descriptor's bounds are ordered |
| InputConfigs.TableDefaultMissing | app/page.tsx:132-139 | only the entry at position 8, `iso_cleanroom_particle`, has no default |
| InputConfigs.DefaultValuesShape | app/page.tsx:168-171 | the default map's keys are the descriptor names, and only `iso_cleanroom_particle` maps to `""` |
| InputConfigs.DefaultValuesParse | app/page.tsx:165-171 | the all-defaults form parses, and every field comes out as its own default |
| InputConfigs.DefaultValuesParseAbsent | app/page.tsx:132-139 | in the parsed all-defaults form, `iso_cleanroom_particle` is absent |
| InputConfigs.FormulaFieldRules | app/page.tsx:158-163 | the shape's `iso_class` and `particle_size` entries are the rules of those two descriptors |
| InputConfigs.IsoClassAccepts | app/page.tsx:34-43 | whatever the `iso_class` rule accepts is a number in [5, 9] |
| InputConfigs.ParticleSizeAccepts | app/page.tsx:44-53 | whatever the `particle_size` rule accepts is a number in [0.5, 5] |
| InputConfigs.ParsedFormulaInputs | app/page.tsx:174-179 | in any successfully parsed form, `iso_class` is a number in [5, 9] and `particle_size` is a number of at least 0.5, so the divisor in `0.1 / particle_size` is strictly positive |
| InputConfigs.IsoClassFive | app/page.tsx:34-43 | `iso_class` with raw `"5"` parses to 5 |
| InputConfigs.IsoClassFour | app/page.tsx:34-43 | `iso_class` with raw `"4"` fails with exactly "ISO Class must be between 5 and 9" as its `min` issue |
| InputConfigs.ParticleSizeEmpty | app/page.tsx:44-53 | `particle_size` with raw `""` fails the type check with the field's own message, "Particle Size must be between 0.5 and 5" |
| InputConfigs.FanEfficiencyNotANumber | app/page.tsx:80-89 | `fan_efficiency` with raw `"abc"` fails the type check with "Fan Efficiency must be between 0 and 1", not with the generic message |

## Left out

- JavaScript's `Number(...)` on strings (whitespace trimming, hexadecimal, exponents, `"Infinity"`) is not modelled. It is the parameter `toNumber`, and every property is stated relative to it.
- Floating point is not modelled. Numbers, bounds and defaults are exact reals, so raw `NaN`, the infinities and `-0` are outside the model. A coerced `Infinity` is not modelled either. In the source it passes the type check; it is then accepted by `iso_cleanroom_particle`, which has no bounds, and fails the `max` of every other field. A coerced `-Infinity` fails a `min`.
- The library semantics are those of Zod 3: `z.number()` accepts the infinities, both bound checks run and each records its own issue, and a bound without a value imposes nothing. Zod 4 differs on these points, and the model does not cover it.
- Raw values other than strings, numbers, `null` and `undefined` (booleans, objects) are not modelled. The form never produces them.
- The library's own default texts appear as a message of `None`. They are used for a bound without a `message`, and for the string-only rule's type error. The shipped table never relies on them.
- Which one message the form resolver displays, when a field has several issues, is not modelled. The model keeps the full issue list, and `InputConfigs.TableSingleIssue` shows that the shipped fields never have more than one.
- Descriptor `label`, `step` and `disabled` control only presentation. `label` is not carried in the model; `step` and `disabled` are carried but impose nothing.
- The submit formula `10^iso_class * (0.1 / particle_size)^2.08` and its write-back through `setValue` (app/page.tsx:174-182) are not modelled. The formula is floating point with a non-integer exponent. Only the positivity of its divisor is proved (`InputConfigs.ParsedFormulaInputs`).
- Form wiring is not modelled: `useForm`, `zodResolver`, the `onChange` validation mode, and the change handler and JSX at app/page.tsx:165-167 and 183-216. It is presentation glue.
- An object-schema input that is not an object at all is not modelled. The form always passes one. Keys outside the shape are dropped. A missing key reads as `undefined`; it is kept in the result only when its field yields a value, as Zod 3's object parser does.
- next.config.ts is build configuration and is not part of this model.
